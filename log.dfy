/** pkg/common/log.go: the format-string sanity check used by every logging helper, and the
    file's own (non-truncating) GenName. */
module Log {
  import opened Strs
  import Util

  /** The format verbs checkArgs counts, in the order it counts them. */
  const Specifiers: seq<string> := ["%s", "%d", "%v", "%#v", "%t", "%p", "%+v"]

  /** Sum of strings.Count(s, p) over the patterns ps. */
  function CountAll(s: string, ps: seq<string>): nat
    requires forall i :: 0 <= i < |ps| ==> |ps[i]| > 0
  {
    if |ps| == 0 then 0 else CountAll(s, ps[..|ps| - 1]) + Count(s, ps[|ps| - 1])
  }

  /** The number of format verbs in s, as checkArgs counts them. */
  function SpecifierCount(s: string): nat
  {
    CountAll(s, Specifiers)
  }

  /** checkArgs: counts the verbs of the format string, reports a mismatch with the number of
      arguments (`warn`, the source logs a warning), and makes the string end in a newline. */
  method CheckArgs(s: string, nargs: nat) returns (out: string, warn: bool)
    ensures warn <==> SpecifierCount(s) != nargs
    ensures HasSuffix(out, "\n")
    ensures HasSuffix(s, "\n") ==> out == s
    ensures !HasSuffix(s, "\n") ==> out == s + "\n"
  {
    var c := 0;
    var i := 0;
    while i < |Specifiers|
      invariant 0 <= i <= |Specifiers|
      invariant c == CountAll(s, Specifiers[..i])
    {
      assert Specifiers[..i + 1][..i] == Specifiers[..i];
      c := c + Count(s, Specifiers[i]);
      i := i + 1;
    }
    assert Specifiers[..|Specifiers|] == Specifiers;
    warn := c != nargs;
    out := s;
    if !HasSuffix(s, "\n") {
      out := Join([s, "\n"], "");
      Join2(s, "\n", "");
    }
  }

  /** A string without '%' contains no format verb. */
  lemma NoPercentNoSpecifier(s: string)
    requires '%' !in s
    ensures SpecifierCount(s) == 0
  {
    forall p | p in Specifiers ensures Count(s, p) == 0 {
      if Count(s, p) > 0 {
        CountPositiveIffContains(s, p);
        ContainsFirstChar(s, p);
      }
    }
    CountAllZero(s, Specifiers);
  }

  /** No occurrence of any verb gives a count of zero. */
  lemma {:induction false} CountAllZero(s: string, ps: seq<string>)
    requires forall i :: 0 <= i < |ps| ==> |ps[i]| > 0 && Count(s, ps[i]) == 0
    ensures CountAll(s, ps) == 0
  {
    if |ps| > 0 {
      CountAllZero(s, ps[..|ps| - 1]);
    }
  }

  /** A string containing a non-empty pattern contains its first character. */
  lemma {:induction false} ContainsFirstChar(s: string, sub: string)
    requires |sub| > 0 && Contains(s, sub)
    ensures sub[0] in s
    decreases |s|
  {
    if HasPrefix(s, sub) {
      assert s[0] == sub[0];
    } else {
      ContainsFirstChar(s[1..], sub);
      assert s[1..][..] <= s[1..];
      assert sub[0] in s[1..];
    }
  }

  /** log.go's GenName: "CSI-" and the whole name (a fresh random id for an empty name). */
  function GenName(name: string, freshId: string): (r: string)
    ensures HasPrefix(r, "CSI-")
    ensures r[4..] == if name == "" then freshId else name
  {
    var n := if name == "" then freshId else name;
    Join2("CSI", n, "-");
    Join(["CSI", n], "-")
  }

  /** The two GenName variants agree on names of at most 58 runes. */
  lemma GenNameVariantsAgree(name: string, freshId: string)
    requires |if name == "" then freshId else name| <= Util.MaxNameRunes
    ensures GenName(name, freshId) == Util.GenName(name, freshId)
  {
    var n := if name == "" then freshId else name;
    assert n[..|n|] == n;
  }
}
