# Datera CSI driver: a Dafny model of its controller, node and client core

This project models the core of the Datera Container Storage Interface (CSI) plugin. That core has three parts:

- **The controller handlers.** These create, delete, list and inspect volumes and snapshots on a Datera backend.
- **The node handlers.** These attach a volume over iSCSI, then format, mount and bind-mount it on a host.
- **The client layer underneath.** This covers app instances, snapshots, ACLs, iSCSI login, mounting, and the helpers of `pkg/common`.

There is one Dafny module per Go file:

| module | Go file | form |
|---|---|---|
| `Wrappers` | errors shared by every file: gRPC codes, `status` errors, outcomes of backend calls, Go panics | datatypes |
| `Strs` | the parts of Go's `strings` and `strconv` the core relies on: `Split`/`Join`, `Count`, trimming, string order, `ParseInt`/`FormatInt`, `ParseBool` | functions and lemmas |
| `Util` | `pkg/common/util.go` | functions, plus one loop method (`versionToInt`) |
| `Log` | `pkg/common/log.go` | a loop method and functions |
| `Volumes` | `pkg/client/volume.go` | `class Volume` and methods over it |
| `Snapshots` | `pkg/client/snapshots.go` | methods with loops, an in-place sort over an `array` |
| `Acls` | `pkg/client/acl.go` | methods |
| `Logins` | `pkg/client/login.go` | methods on `Volume` |
| `Mounts` | `pkg/client/mount.go` | methods on `Volume`, a retry loop |
| `Driver` | `pkg/driver/driver.go` | `class Driver` with the in-flight request registry |
| `Controller` | `pkg/driver/controller.go`, the handler bodies | functions, loops and methods |
| `Handlers` | `pkg/driver/controller.go`, the handler prologue | methods on `Driver` |
| `Nodes` | `pkg/driver/node.go` | methods on `Volume` |

Everything outside the process is an oracle passed in as a parameter. That covers the Datera SDK (`Call<T>`: a value, an API error, or a transport error), shell commands, the file system, the iSCSI connector, random draws and the logger. The model states what the code does with every answer an oracle can give.

Go behaviour is written out explicitly:

- **Panics.** Slicing out of range, nil dereferences and division by zero are `Error.Panic` results.
- **Integer division.** It is Go's truncating division, `Controller.GoDiv`.
- **Integer width.** Where the code computes a Go `int` that can overflow (the version weights, the per-GB QoS products), the result is wrapped to 64 bits with `Util.Wrap64`.
- **Strings.** A string is a sequence of runes, with its UTF-8 byte length computed where the code compares `len`.

## Controller request registry

`Driver.InitFunc` keys each controller request by its piece, its function name and its `%+v` rendering. A second request with the same key, arriving while the first is still in flight, is answered `Aborted` ("Operation is still in progress"). The deferred cleaner removes the key again. `Handlers.*` wrap each `Controller.*` body in this prologue and epilogue. They prove three things:

- the registry is the same after the call as before it;
- a busy request returns `Aborted` with no other effect;
- a request is refused exactly when its key was already registered.

## Behaviour kept as the code has it

In each of these cases the code does something a caller might not expect, and the model does the same:

- **Snapshot pagination.** A start offset larger than the number of snapshots returns the whole list from offset 0, not an empty page (`Snapshots.PageOf`). An offset equal to the length returns an empty page and hands back the same token.
- **Snapshot filter that does not parse.** `DateraClient.ListSnapshots` fails with "must be of format", and the controller turns that failure into an empty listing (`Controller.MalformedListsNothing`).
- **`Volume.UnBindMount`** of a path that is not in the bind-mount set is an error ("already unmounted"), not a silent success.
- **`NodeUnstageVolume`** does not unregister the host's ACL entry.

## Model

| member | source | states |
|---|---|---|
| Util.GenName | pkg/common/util.go:75-86 | The intended name: "CSI-" followed by the first min(58, rune count) runes of the name, or of a fresh id when the name is empty. |
| Util.GenNameAsWritten | pkg/common/util.go:75-86 | The written code compares the byte length with 58 and then slices the runes at 58. It panics exactly when the name is over 58 bytes, under 58 runes, and the rune slice's capacity is under 58. Every other result starts with "CSI-". |
| Util.GenNameAsWrittenPanics | pkg/common/util.go:79-84 | Thirty 'é' (60 bytes, 30 runes, a rune slice of capacity 32) make the written code panic. |
| Util.GenNameAgrees | pkg/common/util.go:75-86 | A name of at most 58 bytes or at least 58 runes gets the intended name from the written code, whatever the capacity. |
| Util.GenNameAsWrittenPads | pkg/common/util.go:81-83 | A name of over 58 bytes and under 58 runes, with a capacity of at least 58, gets the intended name padded with NUL runes up to 58. |
| Util.ParseMkSnapId | pkg/common/util.go:92-102 | A composite id made with MkSnapId from two colon-free parts parses back into the same two parts. |
| Util.ParseSnapIdSound | pkg/common/util.go:96-102 | A successful parse returns colon-free parts that rebuild the id. |
| Util.ParseSnapIdNoColon | pkg/common/util.go:96-102 | An id with no colon is rejected with two empty parts. |
| Util.ErrTranslator | pkg/common/util.go:112-120 | AuthFailedError becomes Unauthenticated, NotFound becomes NotFound, any other name becomes Unknown. The message is name ": " message in every case. |
| Util.Wrap64 | pkg/common/util.go:158 | The result lies in the int64 range and equals the input whenever the input already lies in it. |
| Util.VersionToInt | pkg/common/util.go:147-163 | The loop over the dotted components computes VersionValue: the components weighted by 10^8, 10^6, … in turn, with the first component that is not an integer aborting with its parse error. |
| Util.VersionFoldErrIff | pkg/common/util.go:147-163 | A version value is an error exactly when some component does not parse. |
| Util.VersionFourPart | pkg/common/util.go:147-163 | For four components in 0..99 the value is the exact weighted sum, with no wrap-around. |
| Util.Weighted4IsLex | pkg/common/util.go:147-163 | For such versions the numeric order is the lexicographic order of the components. |
| Util.DatVersionGte | pkg/common/util.go:135-145 | No error exactly when both versions parse, and then the answer is v1 >= v2. With an error the answer is false. |
| Util.DatVersionGteReflexive | pkg/common/util.go:135-145 | Comparing a parseable version with itself answers yes with no error. |
| Util.StripSecretsAndGetChapParams | pkg/common/util.go:165-207 | For CreateVolume, NodeStageVolume and DeleteVolume requests, the CHAP keys among the secrets are copied into the returned parameters and replaced by "***stripped***" in the secrets, every other secret kept. Any other request yields no parameters and leaves the secrets alone. |
| Log.CheckArgs | pkg/common/log.go:148-161 | A warning is raised exactly when the number of the seven format verbs differs from the number of arguments. The string returned ends in a newline, appended only when missing. |
| Log.NoPercentNoSpecifier | pkg/common/log.go:148-161 | A format string without '%' contains no verb. |
| Log.GenName | pkg/common/log.go:136-141 | log.go's GenName is "CSI-" followed by the whole name, or a fresh id when the name is empty. |
| Log.GenNameVariantsAgree | pkg/common/log.go:136-141 | The two GenName functions agree on names of at most 58 runes. |
| Strs.Split | pkg/driver/node.go:161 | strings.Split yields at least one piece. |
| Strs.SplitPiecesFree | pkg/driver/node.go:161 | No piece of a split contains the separator. |
| Strs.SplitNoSep | pkg/common/util.go:96-102 | A string without the separator splits into itself alone. |
| Strs.SplitFirst | pkg/common/util.go:96-102 | Splitting at the first separator gives the head and then the split of the rest. |
| Strs.SplitJoin | pkg/driver/node.go:161-167 | Split inverts Join when no piece contains the separator. |
| Strs.JoinSplit | pkg/driver/node.go:161-167 | Join inverts Split. |
| Strs.Join2 | pkg/common/util.go:92-94 | Joining two pieces puts the separator between them. |
| Strs.CountPositiveIffContains | pkg/common/log.go:148-161 | strings.Count is positive exactly when the pattern occurs. |
| Strs.ContainsInfix | pkg/driver/controller.go:361 | A string contains every infix of itself. |
| Strs.ContainsChars | pkg/driver/controller.go:361 | Every character of a contained pattern occurs in the string. |
| Strs.Utf8LenAtLeastRunes | pkg/common/util.go:81 | A string has at least as many UTF-8 bytes as runes. |
| Strs.LessTotal | pkg/client/snapshots.go:140-142 | Go's string order is total. |
| Strs.LessEqTransitive | pkg/client/snapshots.go:140-142 | The `<=` derived from `<` is transitive. |
| Strs.ParseFormatInt | pkg/client/volume.go:92-122 | ParseInt inverts FormatInt on every int64. |
| Strs.ParseFormatBool | pkg/client/volume.go:92-122 | ParseBool inverts FormatBool. |
| Strs.FormatIntInjective | pkg/client/volume.go:92-122 | Distinct integers render differently. |
| Volumes.ToMap | pkg/client/volume.go:92-122 | The metadata has exactly the option keys. What each entry holds is stated by the round-trip lemmas below. |
| Volumes.IntEntryRoundTrip | pkg/client/volume.go:92-122 | One integer entry parses back into the option it renders. |
| Volumes.BoolEntryRoundTrip | pkg/client/volume.go:92-122 | One boolean entry parses back into the option it renders. |
| Volumes.ToMapSizesRoundTrip | pkg/client/volume.go:93-94 | The size and the replica count parse back. |
| Volumes.ToMapIopsRoundTrip | pkg/client/volume.go:92-122 | The read and write IOPS limits parse back. |
| Volumes.ToMapTotalIopsRoundTrip | pkg/client/volume.go:92-122 | The total and per-GB IOPS limits parse back. |
| Volumes.ToMapBandwidthRoundTrip | pkg/client/volume.go:92-122 | The read and write bandwidth limits parse back. |
| Volumes.ToMapTotalBandwidthRoundTrip | pkg/client/volume.go:92-122 | The total and per-GB bandwidth limits parse back. |
| Volumes.ToMapFlagsRoundTrip | pkg/client/volume.go:92-122 | The three flags parse back. |
| Volumes.ToMapArgsRoundTrip | pkg/client/volume.go:92-122 | The filesystem arguments split back into the options' list when no argument holds a space. |
| Volumes.ToMapOmitsLocalState | pkg/client/volume.go:92-122 | ToMap writes none of the node-local keys: paths, the formatted marker, bind mounts. |
| Volumes.StateFromMetadata | pkg/client/volume.go:124-206 | A volume read from metadata is unformatted exactly when the formatted entry is absent or "false". |
| Volumes.StateFromToMap | pkg/client/volume.go:124-206 | Reading back the options' own metadata keeps the filesystem type and arguments, reads as unformatted and unattached. Its bind-mount set is {""}, because the absent entry splits into one empty path. |
| Volumes.FormattedFlag | pkg/client/volume.go:124-206 | A volume marked formatted reads back as formatted. Only "false" or absence reads as unformatted. |
| Volumes.Volume.constructor | pkg/client/volume.go:124-206 | The new Volume holds the app instance's name, template, IQN, IPs, size and initiators, with no QoS limits read. Its local state is read from the metadata when metadata is given, and is empty otherwise. |
| Volumes.GetVolume | pkg/client/volume.go:208-229 | An empty name is refused with "Volume name cannot be an empty string". Otherwise a failed lookup, or a failed metadata read when metadata is asked for, is the call's error. Success builds a fresh volume from the app instance, with local state from the metadata only when asked for. |
| Volumes.PolicyVersionParts | pkg/client/volume.go:285 | "3.3.0.0" splits into four components. |
| Volumes.PolicyVersionValue | pkg/client/volume.go:285 | The threshold version has value 303000000. |
| Volumes.TemplateOrCloneRequest | pkg/client/volume.go:236-281 | Request precedence: a template (with the size override unless disabled), then a volume clone, then a snapshot clone. |
| Volumes.BuildCreateRequestAsWritten | pkg/client/volume.go:231-320 | Precedence is kept and an unparseable vendor version is an error, but a fresh volume never carries a placement policy. |
| Volumes.BuildCreateRequest | pkg/client/volume.go:231-320 | Precedence is kept. A fresh volume carries the placement policy exactly when the vendor version is at least 3.3.0.0. |
| Volumes.PlacementPolicyDropped | pkg/client/volume.go:285 | At version 3.3.0.0 with no source, the written request lacks the policy that the intended request carries. |
| Volumes.CapTotal | pkg/client/volume.go:436-449 | The capped total is at most the total and at most the 64-bit wrapped per-GB × size, and equals one of the two. Without a per-GB figure it equals the total. |
| Volumes.CapTotalWraps | pkg/client/volume.go:437 | A per-GB figure of 2^62 on a size of 2 wraps to the most negative 64-bit value, which then replaces a total of 1000. |
| Volumes.PerGbIgnoredWhenUnlimited | pkg/client/volume.go:436-449 | With no total limit, which means unlimited, a per-GB limit whose wrapped product is positive is not applied: the policy stays unlimited. |
| Volumes.QosRequest | pkg/client/volume.go:450-458 | The policy sent carries the read and write limits unchanged and the capped totals. |
| Volumes.SetPerformancePolicy | pkg/client/volume.go:430-482 | The capped policy is sent. On success the volume's limits become those reported. On failure nothing changes. |
| Volumes.ClientCreateVolume | pkg/client/volume.go:231-340 | The intended behaviour, built with the corrected BuildCreateRequest. No request is sent exactly when the request cannot be built. The request follows the source precedence, and a failed create is an error. A created volume is fresh and unformatted, named as the backend reports. With QoS and no template, success implies the policy was applied and the limits are the ones reported. |
| Volumes.VolumeDelete | pkg/client/volume.go:371-398 | The app instance is set offline first, and the delete is issued only after a successful offline. It succeeds exactly when both calls succeed. |
| Volumes.ClientDeleteVolume | pkg/client/volume.go:342-369 | A missing app instance, or one whose listing shows snapshots, is refused with nothing issued. When the listing is empty or the reload failed, the requests issued are offline and then delete (the delete only after a successful offline), and success means both succeeded. |
| Volumes.Resize | pkg/client/volume.go:566-583 | A resize succeeds exactly when both the update and the reload succeed. |
| Volumes.ListVolumes | pkg/client/volume.go:400-428 | A transport failure is its message and an API failure is translated. Otherwise the result is, in order, exactly the listed app instances that convert. |
| Snapshots.ToSnapshot | pkg/client/snapshots.go:325-366 | The client snapshot's id is the backend timestamp, its path the backend path and its status the op state, under the owning volume's name. |
| Snapshots.SnapUuidInjective | pkg/client/snapshots.go:49-53 | Distinct snapshot names give distinct UUIDs. |
| Snapshots.KeepAppend | pkg/client/snapshots.go:325-366 | Filtering preserves backend order. |
| Snapshots.KeepMembers | pkg/client/snapshots.go:325-366 | Exactly the matching backend snapshots pass the filter. |
| Snapshots.KeepAll | pkg/client/snapshots.go:325-366 | An empty filter keeps every snapshot. |
| Snapshots.VolumeListSnapshots | pkg/client/snapshots.go:325-366 | A failed reload gives an empty list and no error. Otherwise a failed listing is its error, and a successful one gives the converted snapshots that pass the filter, in backend order. The result is VolumeSnaps, which the backend's listing of every volume also uses. |
| Snapshots.VolumeSnapsOwned | pkg/client/snapshots.go:325-366 | Every snapshot a volume lists belongs to that volume, and carries the filter's timestamp when a filter is given. |
| Snapshots.HasSnapshots | pkg/client/snapshots.go:315-323 | A failed reload answers false. Otherwise the answer is whether the listing is non-empty, and a failed listing is an error. |
| Snapshots.FirstWithUuidSpec | pkg/client/snapshots.go:181-214 | The search finds the earliest snapshot with the UUID, and none exactly when no snapshot has it. |
| Snapshots.GetSnapshotByUuid | pkg/client/snapshots.go:181-214 | The result succeeds exactly when some listed snapshot has the UUID. It then is a snapshot with that UUID, under the volume. |
| Snapshots.Reload | pkg/client/snapshots.go:368-384 | A successful reload replaces the status with the backend's and keeps the rest. A failed one is an error. |
| Snapshots.PollSuccess | pkg/client/snapshots.go:262-280 | The wait succeeds only with status "available", for the same snapshot, reached at one of the reloads it made. |
| Snapshots.PollBounded | pkg/client/snapshots.go:262-280 | The wait never looks past its timeout reloads: two reload histories that agree on those give the same outcome. |
| Snapshots.PollTimesOut | pkg/client/snapshots.go:262-280 | A snapshot never available within the timeout fails with "did not become available before timeout". |
| Snapshots.CreateSnapshot | pkg/client/snapshots.go:216-281 | The request carries the UUID derived from the name, and a remote provider exactly when one is given. A duplicate returns the existing snapshot with that UUID. Other failures are their errors. A created snapshot is returned when the wait succeeds. |
| Snapshots.SameNameSameUuid | pkg/client/snapshots.go:216-281 | Creating the same name twice sends the same UUID; different names send different UUIDs. |
| Snapshots.LastMatchSpec | pkg/client/snapshots.go:283-313 | The search finds the last snapshot the id addresses, and none exactly when it addresses none. |
| Snapshots.DeleteSnapshot | pkg/client/snapshots.go:283-313 | A failed reload is a success with nothing deleted. Otherwise the target is the last snapshot the timestamp addresses. With no target it succeeds, and with one the outcome is that of the backend delete. |
| Snapshots.GatherRejectsMalformed | pkg/client/snapshots.go:84-95 | A malformed composite id fails with "must be of format", whatever the backend holds. |
| Snapshots.PageOf | pkg/client/snapshots.go:143-178 | An empty list, or a token past the end, returns the whole list with next token 0. Otherwise the page runs from the token for maxEntries entries (the rest when 0), capped at the end, and the next token is its end. Only a negative token or maximum is an error, a panic. |
| Snapshots.PageAtEnd | pkg/client/snapshots.go:143-178 | At offset len the page is empty and hands back the same token. |
| Snapshots.PagesResume | pkg/client/snapshots.go:143-178 | Following the returned token resumes exactly where the previous page ended. |
| Snapshots.SortById | pkg/client/snapshots.go:140-142 | The array ends sorted by id and is a permutation of what it held. |
| Snapshots.ListSnapshots | pkg/client/snapshots.go:76-179 | A gathering failure is returned. Otherwise `sorted` is sorted by id and a permutation of what was gathered, and the result is PageOf over it. |
| Snapshots.SnapshotPathFromCsiId | pkg/client/snapshots.go:55-74 | A successful lookup means the id has a volume part and a timestamp part, and the volume exists. The path is that of a snapshot listed under the volume part, belonging to that volume and carrying the timestamp part when that is non-empty. |
| Snapshots.SnapsNamedOwned | pkg/client/snapshots.go:65-69 | Every snapshot a composite id names belongs to its volume part, and carries its timestamp part when that is non-empty. |
| Snapshots.PathFromMkSnapId | pkg/client/snapshots.go:55-74 | An id made from colon-free parts resolves to the path of the single snapshot listed under it, or fails. |
| Acls.ClientIqn | pkg/client/acl.go:159-170 | A read failure is its error. Otherwise the IQN is the second '='-separated field of the trimmed file. A file with no '=' panics. |
| Acls.ClientIqnOfFile | pkg/client/acl.go:159-170 | A file "InitiatorName=<iqn>\n" yields exactly <iqn>. |
| Acls.CreateGetInitiatorAsWritten | pkg/client/acl.go:27-67 | Found initiators are returned and NotFoundError creates one named GenName("") with the host IQN. Any other API error returns no initiator and no error. A transport failure panics. |
| Acls.CreateGetInitiator | pkg/client/acl.go:27-67 | The intended behaviour. As written for a found initiator and for NotFoundError, but every other failure is its error, success always yields an initiator, and nothing panics once the IQN is read. |
| Acls.CreateGetInitiatorSilentFailure | pkg/client/acl.go:39-45 | A non-NotFound refusal gives silent success as written, and an error as intended. |
| Acls.Without | pkg/client/acl.go:121-157 | Removing a path never lengthens the initiator list. |
| Acls.WithoutMembers | pkg/client/acl.go:121-157 | The removal keeps exactly the other entries. |
| Acls.WithoutAbsent | pkg/client/acl.go:121-157 | Removing an absent initiator changes nothing. |
| Acls.RegisterAcl | pkg/client/acl.go:92-119 | A failed read of the policy writes nothing and is the error. Otherwise the policy is written back with the client's path appended, and the outcome is that of the write. |
| Acls.UnregisterAclAsWritten | pkg/client/acl.go:121-157 | A failed read writes nothing. Otherwise the policy written back has one entry per initiator that differs from the client, and every one of them is the client's own path. |
| Acls.UnregisterAcl | pkg/client/acl.go:121-157 | The intended behaviour: the policy is written back without the client's path and with the other entries in order. |
| Acls.UnregisterAclKeepsClient | pkg/client/acl.go:138-141 | On [client, other] the written code writes [client]; the intended code writes [other]. |
| Logins.SelectPortals | pkg/client/login.go:22-45 | Multipath with round robin draws one portal, multipath alone uses all portals, and no multipath uses the first. It fails, with a panic, exactly at the out-of-range index, and the chosen portals are among the addresses. |
| Logins.RoundRobinNeedsMultipath | pkg/client/login.go:22-45 | Round robin is ignored without multipath. |
| Logins.RoundRobinCoversBoth | pkg/client/login.go:15-20 | The two draws select the first and the second portal. |
| Logins.Login | pkg/client/login.go:22-59 | A failed portal choice is its error, with nothing connected. Otherwise the connector gets the IQN, the portals, port 3260 and LUN 0. An empty device path is the "no paths" error. It succeeds exactly when a non-empty path comes back, which is recorded; otherwise the volume is unchanged. |
| Logins.Logout | pkg/client/login.go:61-71 | The outcome is the disconnect's. On success the device path is cleared; on failure nothing changes. |
| Mounts.MkfsCommand | pkg/client/mount.go:46-66 | The command is mkfs.<fs>, then the arguments, then the device. |
| Mounts.FormatRetryBounds | pkg/client/mount.go:46-66 | There is at least one attempt and at most timeout+2. The outcome is the last attempt's, and every earlier attempt failed. |
| Mounts.FormatRetryExhausts | pkg/client/mount.go:46-66 | When every attempt fails without "in use", all timeout+2 attempts are made and the format fails. |
| Mounts.FormatRetryStopsWhenInUse | pkg/client/mount.go:46-66 | An attempt that reports the device in use is the last one. |
| Mounts.FormatDevice | pkg/client/mount.go:46-66 | The loop's outcome and number of attempts are FormatRetry's, every attempt running the same mkfs command. |
| Mounts.Format | pkg/client/mount.go:22-44 | A formatted volume needs nothing. A device with a filesystem is marked formatted with that type, and a mounted one is marked formatted. Otherwise mkfs runs as FormatRetry says, and success records the requested type and arguments. |
| Mounts.DeviceFor | pkg/client/mount.go:240-259 | The device is what /proc/mounts resolves, or the source itself when that fails or is blank. |
| Mounts.MountCommand | pkg/client/mount.go:261-296 | A bind mount names no filesystem type. The options come last. |
| Mounts.MountOutcome | pkg/client/mount.go:261-296 | A missing destination is created first, and a failed creation stops there. Otherwise the outcome is that of the mount command on the resolved device. |
| Mounts.MountAt | pkg/client/mount.go:261-296 | The step-by-step scan of the options yields exactly MountOutcome. |
| Mounts.Mount | pkg/client/mount.go:68-83 | A volume without a device path is the "no device" error and nothing runs. Otherwise the device is mounted at the destination, and on success the mount path is recorded. |
| Mounts.BindMount | pkg/client/mount.go:85-103 | The volume must have a device and a mount path. The mount path is bind-mounted at the destination, and on success the destination joins the bind-mount paths. |
| Mounts.UnmountAsWritten | pkg/client/mount.go:298-313 | A missing path panics. For an existing path umount never runs and only the removal happens. |
| Mounts.Unmount | pkg/client/mount.go:298-313 | The intended behaviour: a directory is unmounted and then removed, and a umount failure is the outcome. Otherwise the outcome is the removal's. |
| Mounts.UnmountNeverUnmounts | pkg/client/mount.go:300 | The written unmount never runs umount, while the intended one unmounts a directory first. On a missing path the written one fails where the intended one succeeds. |
| Mounts.UnBindMount | pkg/client/mount.go:105-117 | The intended behaviour, built on the corrected Unmount. A path not in the set is the "already unmounted" error. Otherwise it goes through Unmount, and on success exactly that path leaves the set. |
| Mounts.UnmountVolume | pkg/client/mount.go:119-131 | The intended behaviour, built on the corrected Unmount. An unmounted volume is an error. Otherwise the mount path goes through Unmount, and is cleared on success. |
| Driver.IsSupportedFs | pkg/driver/driver.go:139-142 | True exactly for ext4 and xfs. |
| Driver.RequestKeyInjective | pkg/driver/driver.go:309 | Keys of requests whose parts hold no '\|' determine those parts. |
| Driver.AdmitBusy | pkg/driver/driver.go:297-321 | A request already in flight is "in progress" and leaves the registry unchanged. |
| Driver.AdmitFresh | pkg/driver/driver.go:297-321 | A new request is admitted, and its cleaner restores the prior registry. |
| Driver.AdmitTwice | pkg/driver/driver.go:297-321 | A repeat of a request is "in progress" before its cleaner runs, and is admitted again after. |
| Driver.Driver.constructor | pkg/driver/driver.go:170-186 | A new driver has an empty request registry. |
| Driver.Driver.InitFunc | pkg/driver/driver.go:297-321 | The request is busy exactly when its key is registered. A busy request leaves the registry as it was. Otherwise the key is added, and its cleaner removes it (Driver.AdmitFresh). |
| Driver.Driver.Release | pkg/driver/driver.go:316-318 | The registry becomes what the cleaner leaves. |
| Driver.Recorded | pkg/driver/driver.go:323-368 | Recording adds access_type and access_mode, plus fs_type and m_flags for a mount, and keeps every non-capability key. |
| Driver.CapabilityError | pkg/driver/driver.go:323-368 | Every refusal is a plain error. |
| Driver.RegisterVolumeCapability | pkg/driver/driver.go:323-368 | It fails exactly for a missing capability, an unknown access type, or a mount with an unsupported filesystem. A failure leaves the metadata alone and is CapabilityError. Success records the access type ("block" or "mount"), the access mode, and a mount's filesystem and joined flags, keeping every other key. |
| Controller.FirstSomeSpec | pkg/driver/controller.go:84-147 | The first error is none exactly when none occurs, and otherwise it is the earliest. |
| Controller.DefaultOrderCovers | pkg/driver/controller.go:35-82 | The visiting order names exactly the defaulted keys. |
| Controller.SetDefaults | pkg/driver/controller.go:35-82 | After the loop over the keys, the map is the defaults overridden by the given parameters. |
| Controller.FillDefaults | pkg/driver/controller.go:35-82 | The defaulted map is the defaults overridden by the given parameters. |
| Controller.ConvertInt | pkg/driver/controller.go:84-88 | A failed integer conversion is the whole parse's error. A successful one is the key's value, and the conversions so far succeed. |
| Controller.ConvertBool | pkg/driver/controller.go:96-100 | The same for a boolean conversion. |
| Controller.ConvertRates | pkg/driver/controller.go:84-100 | iops_per_gb, bandwidth_per_gb and round_robin are converted, stopping at the first error. |
| Controller.ConvertPlacement | pkg/driver/controller.go:101-117 | replica_count, disable_template_override and read_iops_max, likewise. |
| Controller.ConvertIops | pkg/driver/controller.go:118-132 | write_iops_max, total_iops_max and read_bandwidth_max, likewise. |
| Controller.ConvertBandwidth | pkg/driver/controller.go:133-147 | write_bandwidth_max, total_bandwidth_max and delete_on_unmount, likewise. |
| Controller.ParseVolParams | pkg/driver/controller.go:26-149 | The method computes VolParams: the first conversion error in source order, or else the options of the defaulted map. |
| Controller.VolParamsFails | pkg/driver/controller.go:84-147 | The parse fails exactly when some converted key does not convert, and then with the earliest such key's error. |
| Controller.VolParamsDefaults | pkg/driver/controller.go:35-82 | Empty parameters parse to three replicas, hybrid placement, the default policy and IP pool, no template, no limits and every flag off. |
| Controller.VolParamsOk | pkg/driver/controller.go:26-149 | When every conversion succeeds the options are returned. |
| Controller.DefaultsConvert | pkg/driver/controller.go:35-82 | Every default value converts. |
| Controller.DefaultsConvertRates | pkg/driver/controller.go:35-100 | The first three defaults convert. |
| Controller.DefaultsConvertPlacement | pkg/driver/controller.go:35-117 | The next three defaults convert. |
| Controller.DefaultsConvertIops | pkg/driver/controller.go:35-132 | The next three defaults convert. |
| Controller.DefaultsConvertBandwidth | pkg/driver/controller.go:35-147 | The last three defaults convert. |
| Controller.DefaultOpts | pkg/driver/controller.go:35-82 | The options of the empty map, field by field. |
| Controller.DefaultLimits | pkg/driver/controller.go:35-82 | The IOPS limits and the write bandwidth limit default to zero. |
| Controller.DefaultRates | pkg/driver/controller.go:35-82 | The other bandwidth limits and the per-GB rates default to zero. |
| Controller.DefaultChoices | pkg/driver/controller.go:35-82 | The template, placement, pool, flags and replica count take their defaults. |
| Controller.VolParamsDefaultsIdempotent | pkg/driver/controller.go:35-82 | Supplying the defaults explicitly changes nothing. |
| Controller.ProblemsDefaulted | pkg/driver/controller.go:35-147 | Merging the defaults in changes no conversion. |
| Controller.OptsDefaulted | pkg/driver/controller.go:35-147 | Merging the defaults in changes no option. |
| Controller.ParamsDefaulted | pkg/driver/controller.go:35-82 | Every key reads the same with the defaults merged in. |
| Controller.VolParamsGiven | pkg/driver/controller.go:35-82 | A given value wins over its default. |
| Controller.VolParamsInt64 | pkg/driver/controller.go:84-142 | Every integer option fits in int64, so the metadata ToMap writes from it parses back. |
| Controller.ParseSnapParams | pkg/driver/controller.go:151-169 | The method computes SnapParams, which never fails. |
| Controller.SnapParamsDefaults | pkg/driver/controller.go:151-169 | With no parameters, the snapshot is local with no remote provider. |
| Controller.SnapParamsGiven | pkg/driver/controller.go:151-169 | Given values win, and explicit defaults change nothing. |
| Controller.ValidateSnapId | pkg/driver/controller.go:171-178 | An id is accepted exactly when it splits on ':' into two pieces. |
| Controller.ValidateSnapIdExact | pkg/driver/controller.go:171-178 | The accepted ids are exactly the composite ids of two colon-free parts. |
| Controller.ValidateSnapIdWeaker | pkg/driver/controller.go:171-178 | Every id that ParseSnapId splits is accepted, but ":" is accepted and does not parse. |
| Controller.HandleTopologyRequirement | pkg/driver/controller.go:180-188 | It accepts exactly no requirement, or one listing no topology. Otherwise it refuses with the fixed message. |
| Controller.Normalize | pkg/driver/controller.go:218-221 | The range stays present or absent and keeps its required bytes. A non-zero limit is kept as it is. A limit still zero afterwards means zero bytes were required. |
| Controller.NormalizeIdempotent | pkg/driver/controller.go:218-221 | Normalizing twice is normalizing once. |
| Controller.GoDiv | pkg/driver/controller.go:496 | The magnitude is \|a\| / \|b\| and the sign is the quotient's (truncation toward zero). |
| Controller.GoDivFloor | pkg/driver/controller.go:496 | For a non-negative dividend and a positive divisor the quotient is the floor: q·b ≤ a < (q+1)·b. |
| Controller.CreatedSizeAsWritten | pkg/driver/controller.go:295-308 | As written, the size is at least 1 GiB and 16 GiB without a range. |
| Controller.CreatedSize | pkg/driver/controller.go:295-308 | The intended size is at least 1 GiB and holds the required bytes. Where it differs from the written size, it is the smallest that does. Where the written size already holds them, it is that size. |
| Controller.CreatedSizeWholeLimit | pkg/driver/controller.go:295-308 | A whole-GiB limit of at least 1 GiB is used as it is. |
| Controller.CreatedSizeAsWrittenShort | pkg/driver/controller.go:299 | For a 1.5 GiB range the written size is 1 GiB, short of the requirement; the intended size is 2 GiB. |
| Controller.ExpandSizeAsWritten | pkg/driver/controller.go:678 | The written resize size in GiB, for a non-negative requirement: the largest whole number of GiB not above the required bytes. |
| Controller.ExpandSize | pkg/driver/controller.go:678 | The intended resize is the smallest whole number of GiB that holds the required bytes, and equals the written one for whole GiB. |
| Controller.ExpandSizeAsWrittenShort | pkg/driver/controller.go:678-683 | Expanding to 1.5 GiB resizes to 1 GiB as written, below the capacity reported; the intended size is 2 GiB. |
| Controller.NormalizedRanges | pkg/driver/controller.go:218-235 | A zero limit never leaves the range inverted. An existing size that does not conflict with the range equals the required bytes and is within the limit. |
| Controller.WithIncoming | pkg/driver/controller.go:190-200 | Every incoming key maps to its values joined by ','. Other entries are kept. |
| Controller.RegisterMdFromContext | pkg/driver/controller.go:190-200 | Without incoming metadata it reports "Error retrieving metadata from RPC" and nothing changes. Otherwise it is WithIncoming. |
| Controller.CapabilitiesError | pkg/driver/controller.go:252-260 | There is no error exactly when every capability is supported. |
| Controller.CapabilitiesErrorFirst | pkg/driver/controller.go:252-260 | The error is the first refused capability's, and every earlier one is accepted. |
| Controller.RecordAllKeeps | pkg/driver/controller.go:252-260 | Recording adds capability keys only and keeps every other entry. |
| Controller.RegisterCapabilities | pkg/driver/controller.go:252-260 | The loop succeeds exactly when every capability is supported, and then records them all. Otherwise its error is CapabilitiesError's. |
| Controller.DisplayName | pkg/driver/controller.go:243-250 | The first 100 characters of the name, unchanged when shorter. |
| Controller.Seeded | pkg/driver/controller.go:243-250 | display_name is always present, and is DisplayName(name) unless the incoming metadata sets it. Every incoming key is present with its values joined by ','. |
| Controller.Prepared | pkg/driver/controller.go:239-270 | Every failure is InvalidArgument. It succeeds exactly when the topology is accepted, capabilities are given and all supported, and the parameters parse. It then returns the parsed options and metadata: the recorded capabilities over the seed, overlaid by ToMap. |
| Controller.MetadataLayers | pkg/driver/controller.go:243-270 | Every option appears under its ToMap key. The seed's and the capabilities' other entries are kept. |
| Controller.SnapshotSource | pkg/driver/controller.go:278-289 | There is no clone source exactly when there is no content source. Every failure is InvalidArgument. |
| Controller.SnapshotSourceOfMkSnapId | pkg/driver/controller.go:278-289 | A composite id whose single listed snapshot exists is cloned from that snapshot's path. |
| Controller.CreateOptions | pkg/driver/controller.go:273-321 | The options sent are the parsed ones, with one replica under ReplicaOverride, the snapshot path as clone source and the computed size. |
| Controller.CreateVolume | pkg/driver/controller.go:202-340 | The intended behaviour, with the corrected CreatedSize and GenName. Its postconditions describe the handler's eight branches; the next section lists them. |
| Controller.PrepareVolume | pkg/driver/controller.go:239-270 | The steps yield exactly Prepared's result. |
| Controller.CreatedCapacityHoldsRequired | pkg/driver/controller.go:295-339 | With the intended size, a created volume's reported capacity holds the required bytes. |
| Controller.DeleteVolume | pkg/driver/controller.go:342-366 | An empty id is InvalidArgument and nothing is issued. The only other failure is FailedPrecondition, for a volume whose listing shows snapshots, with nothing issued. A failed lookup succeeds without a request. A volume with no snapshots listed, or whose reload failed, is set offline and then deleted, and succeeds when both calls do. |
| Controller.HasSnapshotsMentioned | pkg/driver/controller.go:353-356 | Refusing a volume with snapshots mentions "it has snapshots". |
| Controller.NoSnapshotsInMissing | pkg/driver/controller.go:353-356 | The failure for a missing volume does not mention it, so it counts as deleted. |
| Controller.DeleteSnapshot | pkg/driver/controller.go:579-603 | Only an empty id is an error (InvalidArgument). A delete is attempted exactly when the id parses into two non-empty parts, the volume is found and reloads, and a snapshot matches. The target is the last match. |
| Controller.StartToken | pkg/driver/controller.go:612-620 | A token that does not parse is InvalidArgument. |
| Controller.NextTokenRoundTrip | pkg/driver/controller.go:612-657 | The next-page token the reply carries reads back as that offset. |
| Controller.EntriesOf | pkg/driver/controller.go:634-653 | Every failure is InvalidArgument or Unknown. |
| Controller.EntriesOfErrExtends | pkg/driver/controller.go:634-653 | A failure in a prefix is the failure of the whole page. |
| Controller.EntriesOfIds | pkg/driver/controller.go:634-653 | There is one entry per snapshot, in order. Each names its snapshot by the composite of volume and timestamp, its source volume, and the creation time read from the timestamp. |
| Controller.MalformedListsNothing | pkg/driver/controller.go:621-633 | An unparsable filter id lists nothing, whatever the backend holds. |
| Controller.MissingSourceListsNothing | pkg/driver/controller.go:621-633 | A source volume the backend reports as NotFound lists nothing. |
| Controller.ListSnapshots | pkg/driver/controller.go:605-661 | A bad token is its error and a gathering failure is ListFailure's answer. Otherwise the reply holds the entries of PageOf over a sorted permutation of the gathered snapshots, with the next token, or the first error of the page. |
| Controller.GetCapacity | pkg/driver/controller.go:478-500 | Bad parameters give InvalidArgument and a failed call gives Unknown. A zero replica count panics. Otherwise the answer is the usable capacity (the flash total under all_flash) divided by the replica count with Go's int64 division. |
| Controller.CapacityPerReplica | pkg/driver/controller.go:478-500 | With positive replicas, the answer is the largest amount of which that many copies fit. |
| Controller.CapacityWraps | pkg/driver/controller.go:496 | MinInt64 / -1 wraps to MinInt64. |
| Controller.ControllerExpandVolume | pkg/driver/controller.go:663-685 | The intended behaviour, resizing to the corrected ExpandSize. An empty id or a failed lookup is InvalidArgument. A missing range panics. Otherwise the resize is ExpandSize, and it succeeds exactly when the update and reload do, reporting the required bytes with node expansion required. Failures are Unknown. |
| Handlers.AdmitRestores | pkg/driver/driver.go:297-321 | Admission followed by the cleaner leaves the registry unchanged. |
| Handlers.CreateVolume | pkg/driver/controller.go:202-211 | The registry is left as it was. A request already in flight is Aborted with no other effect. The result is that refusal exactly when the request was in flight. |
| Handlers.DeleteVolume | pkg/driver/controller.go:342-347 | The same three guarantees around Controller.DeleteVolume. |
| Handlers.DeleteSnapshot | pkg/driver/controller.go:579-584 | The same three guarantees around Controller.DeleteSnapshot. |
| Handlers.ListSnapshots | pkg/driver/controller.go:605-610 | The registry is left as it was, and the reply is the Aborted refusal exactly when the request was already in flight. |
| Handlers.GetCapacity | pkg/driver/controller.go:478-483 | The registry is left as it was, and the reply is the Aborted refusal exactly when the request was already in flight. |
| Handlers.ControllerExpandVolume | pkg/driver/controller.go:663-668 | The same three guarantees around Controller.ControllerExpandVolume. |
| Nodes.ListSet | pkg/driver/node.go:167 | The list holds every member of the set exactly once. |
| Nodes.StageAttach | pkg/driver/node.go:40-61 | The intended behaviour, with the corrected CreateGetInitiator. The completed steps are a prefix of the attach steps, and a short one fails. Only a failed pool lookup is NotFound; every other failure is Unknown and leaves the volume unchanged. Success records a non-empty device path. |
| Nodes.StageFilesystem | pkg/driver/node.go:64-81 | A formatting failure stops before the mount. Every failure is Unknown. Success marks the metadata formatted with the staging mount path, and leaves the volume formatted and mounted there. |
| Nodes.RecordCapability | pkg/driver/node.go:39 | The filesystem type becomes the one staging uses. Only capability keys are added, and every other key is kept. |
| Nodes.StageFound | pkg/driver/node.go:39-91 | The intended behaviour, through StageAttach. The steps are a prefix of the staging plan for the access type. It succeeds exactly when the whole plan ran and the write succeeded. NotFound only follows the pool lookup, and InvalidArgument only an unknown access type. Written metadata carries the device path, and for a mount with a filesystem it is marked formatted with the staging mount path. |
| Nodes.NodeStageVolume | pkg/driver/node.go:18-92 | The intended behaviour, through StageAttach. An empty id, an empty staging path or a missing capability is InvalidArgument, in that order, and exactly then nothing else happens. Otherwise staging is StagedAs. |
| Nodes.StageChecked | pkg/driver/node.go:31-91 | The intended behaviour, through StageAttach. After the argument checks, the outcome is StagedAs: a failed lookup is NotFound, a failed metadata read is Unknown, and then StageFound. |
| Nodes.NodeUnstageVolume | pkg/driver/node.go:94-137 | Argument errors are InvalidArgument and a failed lookup is NotFound. After that it always succeeds: it goes through the corrected Unmount, writes the metadata back with the mount path cleared, logs out, and deletes the volume exactly when delete_on_unmount is "true". |
| Nodes.AddListedBinds | pkg/driver/node.go:161-163 | Every listed path joins the bind-mount set. |
| Nodes.NodePublishVolume | pkg/driver/node.go:139-172 | Empty paths are InvalidArgument, in source order, and exactly then nothing else happens. Otherwise it is PublishedAs: a missing capability is InvalidArgument, a failed lookup panics and every later failure is Unknown. Success writes bind_mount as the comma-join of the known bind paths plus the target, keeping every non-capability key. |
| Nodes.PublishChecked | pkg/driver/node.go:151-171 | After the path checks the outcome is PublishedAs, as for NodePublishVolume. |
| Nodes.BindRecorded | pkg/driver/node.go:160-171 | The target is bind-mounted and then the metadata written, and success means both happened. Failures are Unknown. Written metadata keeps every key and has bind_mount as the comma-join of the listed set: earlier paths, recorded paths and the target. |
| Nodes.RemoveListedBinds | pkg/driver/node.go:191-193 | Every listed path leaves the bind-mount set. |
| Nodes.NodeUnpublishVolumeAsWritten | pkg/driver/node.go:174-202 | Argument errors are InvalidArgument and a failed lookup is NotFound. The metadata is written back unchanged before the unbind. A target listed under bind_mount is reported "already unmounted" with nothing run, yet the call succeeds. |
| Nodes.NodeUnpublishVolume | pkg/driver/node.go:174-202 | The intended behaviour: the same errors, then a listed target is really unmounted. bind_mount is rewritten as the comma-join of the known paths, less the target once it is unbound. |

The branches of `Controller.CreateVolume` (pkg/driver/controller.go:202-340), in order:

1. An empty name is InvalidArgument.
2. An existing volume whose size differs from the normalized range is AlreadyExists.
3. An existing volume whose size matches is returned as it is.
4. Otherwise the request goes through Prepared's steps.
5. A snapshot source is resolved.
6. An inverted range is refused.
7. The volume is created with CreateOptions and the chosen size.
8. The reply reports the volume id and the size in bytes. Its volume context is empty, as in the source.

## Left out

- The CreateSnapshot, ControllerPublishVolume, ControllerUnpublishVolume, ValidateVolumeCapabilities, ListVolumes and ControllerGetCapabilities handlers (controller.go 368-577) are not modelled. They are stubs or outside the chosen core.
- NodeGetCapabilities, NodeGetInfo and NodeGetVolumeStats (node.go 203-252) are not modelled. They return constants or environment values.
- Driver setup, the gRPC server, the heartbeater, the log pusher, environment variables and `Sleeper` (driver.go 87-296, 371-379) are I/O and concurrency, and are left out.
- Logging is not modelled; `co.Debugf` and its siblings are no-ops. It is only modelled where a result depends on it, as with checkArgs's verb count.
- The percent-formatting that `status.Errorf` applies to its message is not modelled. Messages are taken literally, and none of the modelled messages contain a verb.
- Nodes.NodeStageVolume, Nodes.NodeUnstageVolume, Nodes.NodePublishVolume, Nodes.NodeUnpublishVolume: the node handlers do not consult the request registry. Their use of InitFunc only binds the context.
- Controller.EntriesOf: a snapshot's creation time is an oracle `stamp` from the timestamp string to a protobuf timestamp. The float parse behind it is not modelled.
- Controller.EntriesOf: the entry's size in bytes is not modelled.
- Controller.StartToken: `strconv.ParseInt` with base 0 is modelled as decimal only.
- Controller.DisplayName: the limit of 100 counts characters; the source truncates bytes.
- Controller.CreateOptions: the CHAP parameters StripSecretsAndGetChapParams returns are dropped, and dc.CreateVolume is called without QoS, as in volume.go's three-argument form.
- Controller.ParseVolParams, Controller.ControllerExpandVolume: the in-place updates of the parameter map and the capacity range are modelled as values passed on.
- ClientCreateVolume: sends the corrected BuildCreateRequest, so at vendor version 3.3.0.0 with no source it sends the placement policy that the written volume.go:285 never sends. BuildCreateRequestAsWritten and PlacementPolicyDropped model the written request.
- UnBindMount: goes through the corrected Unmount, so it runs umount on a directory and keeps the path when umount fails. As written (UnmountAsWritten) umount never runs, a missing path panics, and a successful removal alone drops the path.
- UnmountVolume: goes through the corrected Unmount. As written it never runs umount and panics on a missing mount path.
- NodeUnstageVolume: goes through the corrected Unmount. As written a missing staging path panics rather than succeeding, and umount never runs.
- CreateVolume: creates and reports the corrected CreatedSize, so a range of 1.5 GiB gives 2 GiB where the written code gives 1 GiB (CreatedSizeAsWritten). Its volume name is the corrected GenName, which never panics; the written one can (GenNameAsWritten).
- ControllerExpandVolume: resizes to the corrected ExpandSize, so 1.5 GiB resizes to 2 GiB where the written code resizes to 1 GiB (ExpandSizeAsWritten).
- StageAttach: uses the corrected CreateGetInitiator, so a refused or failed initiator lookup is Unknown. As written (CreateGetInitiatorAsWritten) a refused lookup hands a nil initiator to RegisterAcl, which panics on its name, and a transport failure panics at `init.Name`.
- StageFound, StageChecked, NodeStageVolume: inherit the corrected initiator lookup of StageAttach, so the written code's initiator panics are Unknown failures here.
- GenNameAsWritten: the capacity of the rune slice is a parameter. The Go runtime's choice of it (rounding the allocation up to a size class, or a 32-rune stack buffer) is not modelled.
- StageFilesystem: node.go:75 calls `vol.Mount` with two arguments, while mount.go:68 defines Mount with three. The model passes the filesystem type just formatted as the third argument.
- Acls.RegisterAcl, Volumes.Resize: the `StorageInstances[0]` index (acl.go:96, volume.go:570) is taken to succeed; an app instance without storage instances, where Go panics, is not modelled.
- The "[ext4 xfs]" list in the unsupported-filesystem message is fixed in that order; Go's map iteration may print it as "[xfs ext4]".
- Controller.CreateVolume: a volume content source (volume clone) is ignored, as in the source.
- Controller.CreateVolume: the reply's volume context is always empty in the source, so the reply carries no context field. The SetMetadata result is not used.
- Controller.CreateVolume: an inverted range, found after RegisterVolumeCapability has already recorded metadata, is refused with a plain error and an empty response.
- Controller.MetadataLayers: membership is stated over the Seeded map, not over the whole pipeline of Prepared.
- Volume.GetMetadata, Volume.SetMetadata, Volume.Reload, Volume.Online, Volume.GetUsage and Initiator.Delete are backend calls. Their outcomes are parameters.
- The mount helpers getMajorMinor, devLink, findFs, findMnt, isDevice and readlink are host queries whose answers are parameters.
- The UUID v5 of snapIdFromName is an injective stand-in function of the name. The SHA-1 construction is not modelled.
- robin()'s random draw, GenId()'s random UUID and the clock of the snapshot poll are parameters.
- The shell command runner (RunCmd), the file system and the iSCSI connector are oracles.
- `identity.go`, `ip_pool.go`, `system.go`, `client.go` and `cmd/` are not part of this model.

## Findings

| source | as written | input that shows it | evidently intended | confidence | as-written member | corrected member |
|---|---|---|---|---|---|---|
| pkg/client/acl.go:138-141 | Every kept ACL entry is built from `cinit.Path`, the client being removed. | Policy [client, other], then unregister client | Keep `init.Path`, leaving [other] | high, not executed | Acls.UnregisterAclAsWritten, Acls.UnregisterAclKeepsClient | Acls.UnregisterAcl |
| pkg/client/volume.go:285 | The guard `err != nil && yes` never holds, because the comparison returns false with every error. | Vendor version 3.3.0.0, no template or clone | `err == nil && yes`, so the placement policy is sent | high, not executed | Volumes.BuildCreateRequestAsWritten, Volumes.PlacementPolicyDropped | Volumes.BuildCreateRequest |
| pkg/common/util.go:81-83 | The byte length is compared with 58, then the rune slice is cut at 58. | 30 × 'é' (60 bytes, 30 runes): index out of range | Compare the rune count | high, not executed | Util.GenNameAsWritten, Util.GenNameAsWrittenPanics, Util.GenNameAgrees | Util.GenName |
| pkg/client/acl.go:39-45 | A non-NotFound API error returns `err`, which is nil there. A transport error leaves `init` nil and panics on `init.Name`. | Lookup refused with PermissionDenied | Return the translated API error | high, not executed | Acls.CreateGetInitiatorAsWritten, Acls.CreateGetInitiatorSilentFailure | Acls.CreateGetInitiator |
| pkg/client/mount.go:300 | The guard `err != nil && f.IsDir()` dereferences a nil FileInfo, and never unmounts an existing path. | A mounted directory; or a missing path (panic) | `err == nil && f.IsDir()` | high, not executed | Mounts.UnmountAsWritten, Mounts.UnmountNeverUnmounts | Mounts.Unmount |
| pkg/driver/node.go:191-197 | The recorded bind-mount paths are deleted from the set before UnBindMount, so UnBindMount reports "already unmounted". | Publish to T, then unpublish T | Add the listed paths (as publishing does), unbind, then rewrite bind_mount | medium, not executed | Nodes.NodeUnpublishVolumeAsWritten | Nodes.NodeUnpublishVolume |
| pkg/driver/controller.go:299 | The size is LimitBytes / GiB, rounded down, so a volume can be smaller than RequiredBytes. | required = limit = 1610612736 gives 1 GiB | Round up to whole GiB | medium, not executed | Controller.CreatedSizeAsWritten, Controller.CreatedSizeAsWrittenShort | Controller.CreatedSize |
| pkg/driver/controller.go:678 | The resize is RequiredBytes / GiB, rounded down, while the reply reports RequiredBytes. | required = 1610612736 resizes to 1 GiB | Round up to whole GiB | medium, not executed | Controller.ExpandSizeAsWritten, Controller.ExpandSizeAsWrittenShort | Controller.ExpandSize |
