/** pkg/client/mount.go: formatting with its skip rules and bounded mkfs retry, mounting and
    bind-mounting (with the mount command line), unbinding and unmounting. Host commands are
    oracles; `HostAction` records the commands and filesystem changes issued, in order. */
module Mounts {
  import opened Wrappers
  import opened Strs
  import opened Volumes

  /** A host effect: a command run, a directory tree created, a tree removed. */
  datatype HostAction = Run(argv: seq<string>) | MakeDirs(path: string) | RemoveTree(path: string)

  /** What RunCmd returns: the command's output and, when it failed, its error. */
  datatype CmdResult = CmdResult(out: string, err: Option<Error>)

  /** The mkfs output after which formatting is not retried. */
  const NotHere: string := "will not make a filesystem here"

  // ---------------------------------------------------------------- format

  /** The mkfs command line: mkfs.<fs>, the arguments, the device. */
  function MkfsCommand(device: string, fsType: string, fsArgs: seq<string>): (cmd: seq<string>)
    ensures |cmd| == |fsArgs| + 2
    ensures cmd[0] == "mkfs." + fsType && cmd[1..|cmd| - 1] == fsArgs && cmd[|cmd| - 1] == device
  {
    ["mkfs." + fsType] + fsArgs + [device]
  }

  /** The retry loop: attempt k runs while the remaining timeout is t. A success stops it, a
      failure whose output says the device is in use stops it, a failure with t < 0 stops it;
      any other failure decrements t and tries again. The result is the outcome and the number
      of attempts made so far. */
  function FormatRetry(mkfs: nat -> CmdResult, k: nat, t: int): (Outcome, nat)
    decreases if t < 0 then 0 else t + 1
  {
    var res := mkfs(k);
    if res.err.None? then (Pass, k + 1)
    else if res.out != "" && Contains(res.out, NotHere) then (Fail(res.err.value), k + 1)
    else if t < 0 then (Fail(res.err.value), k + 1)
    else FormatRetry(mkfs, k + 1, t - 1)
  }

  /** The number of attempts the loop can make from attempt k with timeout t. */
  function MaxAttempts(t: int): nat
  {
    if t < 0 then 1 else t + 2
  }

  /** At least one attempt and at most timeout+2 (one for a negative timeout); the outcome is
      that of the last attempt, and every earlier attempt failed. */
  lemma {:induction false} FormatRetryBounds(mkfs: nat -> CmdResult, k: nat, t: int)
    ensures var (o, n) := FormatRetry(mkfs, k, t);
            && k + 1 <= n <= k + MaxAttempts(t)
            && (o.Pass? <==> mkfs(n - 1).err.None?)
            && (o.Fail? ==> o.error == mkfs(n - 1).err.value)
            && (forall j :: k <= j < n - 1 ==> mkfs(j).err.Some?)
    decreases if t < 0 then 0 else t + 1
  {
    var res := mkfs(k);
    if res.err.Some? && !(res.out != "" && Contains(res.out, NotHere)) && t >= 0 {
      FormatRetryBounds(mkfs, k + 1, t - 1);
    }
  }

  /** When every attempt fails without the in-use message, the loop uses up all timeout+2
      attempts and fails. */
  lemma {:induction false} FormatRetryExhausts(mkfs: nat -> CmdResult, k: nat, t: int)
    requires forall j :: k <= j < k + MaxAttempts(t) ==>
               mkfs(j).err.Some? && !(mkfs(j).out != "" && Contains(mkfs(j).out, NotHere))
    ensures FormatRetry(mkfs, k, t).0.Fail? && FormatRetry(mkfs, k, t).1 == k + MaxAttempts(t)
    decreases if t < 0 then 0 else t + 1
  {
    if t >= 0 {
      FormatRetryExhausts(mkfs, k + 1, t - 1);
    }
  }

  /** An attempt that reports the device in use is the last one. */
  lemma FormatRetryStopsWhenInUse(mkfs: nat -> CmdResult, k: nat, t: int)
    requires mkfs(k).err.Some? && mkfs(k).out != "" && Contains(mkfs(k).out, NotHere)
    ensures FormatRetry(mkfs, k, t) == (Fail(mkfs(k).err.value), k + 1)
  {
  }

  /** `n` runs of the same command. */
  function Runs(n: nat, cmd: seq<string>): (acts: seq<HostAction>)
    ensures |acts| == n && forall i :: 0 <= i < n ==> acts[i] == Run(cmd)
  {
    seq(n, _ => Run(cmd))
  }

  /** format: run mkfs until it succeeds, reports the device in use, or the timeout is spent,
      sleeping a second between attempts. */
  method FormatDevice(device: string, fsType: string, fsArgs: seq<string>, timeout: int, mkfs: nat -> CmdResult)
    returns (r: Outcome, acts: seq<HostAction>)
    ensures (r, |acts|) == FormatRetry(mkfs, 0, timeout)
    ensures acts == Runs(|acts|, MkfsCommand(device, fsType, fsArgs))
  {
    var cmd := ["mkfs." + fsType] + fsArgs + [device];
    var t := timeout;
    var k: nat := 0;
    acts := [];
    while true
      invariant FormatRetry(mkfs, k, t) == FormatRetry(mkfs, 0, timeout)
      invariant acts == Runs(k, cmd)
      decreases if t < 0 then 0 else t + 1
    {
      var res := mkfs(k);
      acts := acts + [Run(cmd)];
      if res.err.None? {
        break;
      }
      if res.out != "" && Contains(res.out, NotHere) {
        return Fail(res.err.value), acts;
      }
      if t < 0 {
        return Fail(res.err.value), acts;
      }
      t := t - 1;
      k := k + 1;
    }
    r := Pass;
  }

  /** The two probes Format makes before formatting (lsblk's filesystem type, a /proc/mounts
      match) and the mkfs attempts. */
  datatype FormatHost = FormatHost(findFs: Result<string>, findMnt: Result<string>, mkfs: nat -> CmdResult)

  /** Volume.Format: nothing to do when the volume is marked formatted; when the device already
      has a filesystem it is adopted, when it is already mounted it is marked formatted; otherwise
      mkfs runs and, on success, records the filesystem type and arguments (but does not mark the
      volume formatted). */
  method Format(v: Volume, fsType: string, fsArgs: seq<string>, timeout: int, h: FormatHost)
    returns (r: Outcome, acts: seq<HostAction>)
    modifies v
    ensures v.Identity() == old(v.Identity()) && v.Limits() == old(v.Limits())
    ensures old(v.formatted) ==> r.Pass? && acts == [] && v.Local() == old(v.Local())
    ensures !old(v.formatted) && h.findFs.Ok? ==>
              r.Pass? && acts == [] && v.Local() == old(v.Local()).(formatted := true, fsType := h.findFs.value)
    ensures !old(v.formatted) && h.findFs.Err? && h.findMnt.Ok? ==>
              r.Pass? && acts == [] && v.Local() == old(v.Local()).(formatted := true)
    ensures !old(v.formatted) && h.findFs.Err? && h.findMnt.Err? ==>
              && (r, |acts|) == FormatRetry(h.mkfs, 0, timeout)
              && acts == Runs(|acts|, MkfsCommand(old(v.devicePath), fsType, fsArgs))
              && v.Local() == (if r.Pass? then old(v.Local()).(fsType := fsType, fsArgs := fsArgs) else old(v.Local()))
  {
    if v.formatted {
      return Pass, [];
    } else if h.findFs.Ok? {
      v.formatted := true;
      v.fsType := h.findFs.value;
      return Pass, [];
    } else if h.findMnt.Ok? {
      v.formatted := true;
      return Pass, [];
    }
    r, acts := FormatDevice(v.devicePath, fsType, fsArgs, timeout, h.mkfs);
    if r.Fail? {
      return;
    }
    v.fsType := fsType;
    v.fsArgs := fsArgs;
  }

  // ---------------------------------------------------------------- mount

  /** The device to mount: what /proc/mounts resolves the source to, unless that failed or came
      back blank, in which case the source itself. */
  function DeviceFor(source: string, resolved: Result<string>): (dev: string)
    ensures resolved.Ok? && TrimSpace(resolved.value) != "" ==> dev == resolved.value
    ensures !(resolved.Ok? && TrimSpace(resolved.value) != "") ==> dev == source
  {
    if resolved.Err? || TrimSpace(resolved.value) == "" then source else resolved.value
  }

  /** The mount command line: a bind mount names no filesystem type; the options come last. */
  function MountCommand(dev: string, dest: string, options: seq<string>, fs: string): (cmd: seq<string>)
    ensures var head := if "--bind" in options then 3 else 5;
            && |cmd| == head + |options| && cmd[head..] == options
            && cmd[0] == "mount" && cmd[head - 2] == dev && cmd[head - 1] == dest
            && ("--bind" !in options ==> cmd[1] == "-t" && cmd[2] == fs)
  {
    if "--bind" in options then ["mount", dev, dest] + options
    else ["mount", "-t", fs, dev, dest] + options
  }

  /** What mount needs from the host: whether the destination exists, the outcome of creating
      it, the device the source resolves to, and the outcome of the mount command. */
  datatype MountHost = MountHost(destExists: bool, mkdir: Outcome, resolved: Result<string>, run: Outcome)

  /** mount: create a missing destination, resolve the device, run the mount command. */
  function MountOutcome(source: string, dest: string, options: seq<string>, fs: string, h: MountHost)
    : (res: (Outcome, seq<HostAction>))
    ensures |res.1| >= 1
    ensures !h.destExists ==> res.1[0] == MakeDirs(dest)
    ensures !h.destExists && h.mkdir.Fail? ==> res == (h.mkdir, [MakeDirs(dest)])
    ensures h.destExists || h.mkdir.Pass? ==>
              && res.0 == h.run
              && res.1[|res.1| - 1] == Run(MountCommand(DeviceFor(source, h.resolved), dest, options, fs))
              && |res.1| == (if h.destExists then 1 else 2)
  {
    var pre := if h.destExists then [] else [MakeDirs(dest)];
    if !h.destExists && h.mkdir.Fail? then (h.mkdir, pre)
    else (h.run, pre + [Run(MountCommand(DeviceFor(source, h.resolved), dest, options, fs))])
  }

  /** mount, step by step: the bind flag is found by a scan of the options. */
  method MountAt(source: string, dest: string, options: seq<string>, fs: string, h: MountHost)
    returns (r: Outcome, acts: seq<HostAction>)
    ensures (r, acts) == MountOutcome(source, dest, options, fs, h)
  {
    acts := [];
    if !h.destExists {
      acts := [MakeDirs(dest)];
      if h.mkdir.Fail? {
        return h.mkdir, acts;
      }
    }
    var dev := source;
    if h.resolved.Ok? && TrimSpace(h.resolved.value) != "" {
      dev := h.resolved.value;
    }
    var bind := false;
    var i := 0;
    while i < |options|
      invariant 0 <= i <= |options|
      invariant bind <==> "--bind" in options[..i]
    {
      assert options[..i + 1] == options[..i] + [options[i]];
      if options[i] == "--bind" {
        bind := true;
      }
      i := i + 1;
    }
    assert options[..|options|] == options;
    var cmd: seq<string>;
    if bind {
      cmd := ["mount", dev, dest] + options;
    } else {
      cmd := ["mount", "-t", fs, dev, dest] + options;
    }
    acts := acts + [Run(cmd)];
    r := h.run;
  }

  function NoDeviceMessage(name: string): string
  {
    "No device path found for volume " + name + ".  Is the volume logged in?"
  }

  /** Volume.Mount: a volume that is not logged in has no device to mount; otherwise mount the
      device at `dest` and, on success, record it as the mount path. */
  method Mount(v: Volume, dest: string, options: seq<string>, fs: string, h: MountHost)
    returns (r: Outcome, acts: seq<HostAction>)
    modifies v
    ensures v.Identity() == old(v.Identity()) && v.Limits() == old(v.Limits())
    ensures old(v.devicePath) == "" ==>
              r == Fail(Plain(NoDeviceMessage(old(v.name)))) && acts == [] && v.Local() == old(v.Local())
    ensures old(v.devicePath) != "" ==> (r, acts) == MountOutcome(old(v.devicePath), dest, options, fs, h)
    ensures old(v.devicePath) != "" && r.Pass? ==> v.Local() == old(v.Local()).(mountPath := dest)
    ensures r.Fail? ==> v.Local() == old(v.Local())
  {
    if v.devicePath == "" {
      return Fail(Plain(NoDeviceMessage(v.name))), [];
    }
    r, acts := MountAt(v.devicePath, dest, options, fs, h);
    if r.Fail? {
      return;
    }
    v.mountPath := dest;
  }

  function NotMountedMessage(name: string): string
  {
    "Mount path doesn't exist for volume " + name + ", cannot bind-mount an unmounted volume"
  }

  /** Volume.BindMount: needs a logged-in and mounted volume; bind-mounts the mount path at
      `dest` and adds `dest` to the bind-mount paths, keeping the earlier ones. */
  method BindMount(v: Volume, dest: string, fs: string, h: MountHost)
    returns (r: Outcome, acts: seq<HostAction>)
    modifies v
    ensures v.Identity() == old(v.Identity()) && v.Limits() == old(v.Limits())
    ensures old(v.devicePath) == "" ==> r == Fail(Plain(NoDeviceMessage(old(v.name)))) && acts == []
    ensures old(v.devicePath) != "" && old(v.mountPath) == "" ==>
              r == Fail(Plain(NotMountedMessage(old(v.name)))) && acts == []
    ensures old(v.devicePath) != "" && old(v.mountPath) != "" ==>
              (r, acts) == MountOutcome(old(v.mountPath), dest, ["--bind"], fs, h)
    ensures r.Pass? ==> v.Local() == old(v.Local()).(bindMountPaths := old(v.bindMountPaths) + {dest})
    ensures r.Fail? ==> v.Local() == old(v.Local())
  {
    if v.devicePath == "" {
      return Fail(Plain(NoDeviceMessage(v.name))), [];
    } else if v.mountPath == "" {
      return Fail(Plain(NotMountedMessage(v.name))), [];
    }
    r, acts := MountAt(v.mountPath, dest, ["--bind"], fs, h);
    if r.Fail? {
      return;
    }
    v.bindMountPaths := v.bindMountPaths + {dest};
  }

  // ---------------------------------------------------------------- unmount

  /** os.Stat of a path: it does not exist, or it is a directory, or some other file. */
  datatype PathStat = Missing | Directory | OtherFile

  /** What unmount needs from the host: the stat of the path and the outcomes of umount and of
      removing the tree. */
  datatype UnmountHost = UnmountHost(stat: PathStat, umount: Outcome, removeAll: Outcome)

  /** unmount as written: the guard `err != nil && f.IsDir()` calls IsDir on the nil FileInfo of
      a missing path, which panics; for a path that exists the guard is false, so umount never
      runs and the tree under the path is removed. */
  function UnmountAsWritten(path: string, h: UnmountHost): (res: (Outcome, seq<HostAction>))
    ensures h.stat.Missing? ==> res.0.Fail? && res.0.error.Panic? && res.1 == []
    ensures !h.stat.Missing? ==> res == (h.removeAll, [RemoveTree(path)])
  {
    if h.stat.Missing? then (Fail(Panic("invalid memory address or nil pointer dereference")), [])
    else (h.removeAll, [RemoveTree(path)])
  }

  /** unmount as intended: a directory is unmounted first; when umount fails the path is still
      removed and the umount error is returned; otherwise the outcome is that of the removal. */
  function Unmount(path: string, h: UnmountHost): (res: (Outcome, seq<HostAction>))
    ensures h.stat.Directory? ==> res.1 == [Run(["umount", path]), RemoveTree(path)]
    ensures h.stat.Directory? && h.umount.Fail? ==> res.0 == h.umount
    ensures !(h.stat.Directory? && h.umount.Fail?) ==> res.0 == h.removeAll
    ensures !h.stat.Directory? ==> res.1 == [RemoveTree(path)]
  {
    if h.stat.Directory? then
      (if h.umount.Fail? then h.umount else h.removeAll, [Run(["umount", path]), RemoveTree(path)])
    else (h.removeAll, [RemoveTree(path)])
  }

  /** The written unmount never runs umount, and panics on a path that does not exist; the
      intended one unmounts a mounted directory before removing it and never panics. */
  lemma UnmountNeverUnmounts(path: string, h: UnmountHost)
    ensures Run(["umount", path]) !in UnmountAsWritten(path, h).1
    ensures h.stat.Directory? ==> Unmount(path, h).1[0] == Run(["umount", path])
    ensures h.stat == Missing && h.removeAll == Pass ==>
              UnmountAsWritten(path, h).0.Fail? && Unmount(path, h).0 == Pass
  {
  }

  /** Volume.UnBindMount: a path not in the bind-mount set is reported as already unmounted;
      otherwise unmount it and, on success, remove just that path from the set. */
  method UnBindMount(v: Volume, path: string, h: UnmountHost) returns (r: Outcome, acts: seq<HostAction>)
    modifies v
    ensures v.Identity() == old(v.Identity()) && v.Limits() == old(v.Limits())
    ensures path !in old(v.bindMountPaths) ==>
              r == Fail(Plain("Volume is already unmounted from bind path: " + path)) && acts == []
    ensures path in old(v.bindMountPaths) ==> (r, acts) == Unmount(path, h)
    ensures r.Pass? ==> v.Local() == old(v.Local()).(bindMountPaths := old(v.bindMountPaths) - {path})
    ensures r.Fail? ==> v.Local() == old(v.Local())
  {
    if path !in v.bindMountPaths {
      return Fail(Plain("Volume is already unmounted from bind path: " + path)), [];
    }
    r, acts := Unmount(path, h).0, Unmount(path, h).1;
    if r.Fail? {
      return;
    }
    v.bindMountPaths := v.bindMountPaths - {path};
  }

  /** Volume.Unmount: an unmounted volume is an error; otherwise unmount the mount path and, on
      success, clear it. */
  method UnmountVolume(v: Volume, h: UnmountHost) returns (r: Outcome, acts: seq<HostAction>)
    modifies v
    ensures v.Identity() == old(v.Identity()) && v.Limits() == old(v.Limits())
    ensures old(v.mountPath) == "" ==> r == Fail(Plain("Volume is already unmounted")) && acts == []
    ensures old(v.mountPath) != "" ==> (r, acts) == Unmount(old(v.mountPath), h)
    ensures r.Pass? ==> v.Local() == old(v.Local()).(mountPath := "")
    ensures r.Fail? ==> v.Local() == old(v.Local())
  {
    if v.mountPath == "" {
      return Fail(Plain("Volume is already unmounted")), [];
    }
    r, acts := Unmount(v.mountPath, h).0, Unmount(v.mountPath, h).1;
    if r.Fail? {
      return;
    }
    v.mountPath := "";
  }
}
