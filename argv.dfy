/** The C argument vector that `FST::lt_proc_vec` builds from a vector of
    strings: one NUL-terminated character buffer per argument, followed by a
    null pointer. */
module Argv {

  const NUL: char := '\0'

  /** The buffer holding one argument: its characters followed by a NUL. */
  function CString(s: string): (r: seq<char>)
    ensures |r| == |s| + 1 && r[..|s|] == s && r[|s|] == NUL
  {
    s + [NUL]
  }

  /** What C code reading a buffer as a string sees: the characters before
      the first NUL. */
  function AsCString(a: seq<char>): (r: string)
    ensures |r| <= |a|
    ensures forall i :: 0 <= i < |r| ==> r[i] == a[i] && r[i] != NUL
    ensures |r| < |a| ==> a[|r|] == NUL
  {
    if a == [] || a[0] == NUL then [] else [a[0]] + AsCString(a[1..])
  }

  /** Reading a buffer skips over a NUL-free prefix unchanged. */
  lemma {:induction false} AsCStringAfterPrefix(x: string, y: seq<char>)
    requires forall i :: 0 <= i < |x| ==> x[i] != NUL
    ensures AsCString(x + y) == x + AsCString(y)
    decreases |x|
  {
    if x != [] {
      assert (x + y)[0] == x[0] && (x + y)[1..] == x[1..] + y;
      AsCStringAfterPrefix(x[1..], y);
      assert x + AsCString(y) == [x[0]] + (x[1..] + AsCString(y));
    } else {
      assert x + y == y;
    }
  }

  /** An argument without an embedded NUL is read back exactly. */
  lemma CStringRoundTrip(s: string)
    requires forall i :: 0 <= i < |s| ==> s[i] != NUL
    ensures AsCString(CString(s)) == s
  {
    AsCStringAfterPrefix(s, [NUL]);
  }

  /** An argument with an embedded NUL is read back only up to that NUL. */
  lemma EmbeddedNulTruncates(s: string, k: nat)
    requires k < |s| && s[k] == NUL
    requires forall i :: 0 <= i < k ==> s[i] != NUL
    ensures AsCString(CString(s)) == s[..k]
  {
    assert CString(s) == s[..k] + (s[k..] + [NUL]);
    AsCStringAfterPrefix(s[..k], s[k..] + [NUL]);
  }

  /** Builds `argv`: `argc + 1` slots, slot `i` a fresh buffer holding
      `args[i]` and a NUL, the last slot null. */
  method BuildArgv(args: seq<string>) returns (argv: array<array?<char>>)
    ensures fresh(argv) && argv.Length == |args| + 1
    ensures forall i :: 0 <= i < |args| ==>
              argv[i] != null && fresh(argv[i]) && argv[i][..] == CString(args[i])
    ensures forall i, j :: 0 <= i < j < |args| ==> argv[i] != argv[j]
    ensures argv[|args|] == null
  {
    var argc := |args|;
    argv := new array?<char>[argc + 1];
    var i := 0;
    while i < argc
      invariant 0 <= i <= argc
      invariant forall k :: 0 <= k < i ==>
                  argv[k] != null && fresh(argv[k]) && argv[k][..] == CString(args[k])
      invariant forall k, l :: 0 <= k < l < i ==> argv[k] != argv[l]
    {
      var n := |args[i]|;
      var buffer := new char[n + 1];
      var j := 0;
      while j < n
        invariant 0 <= j <= n
        invariant buffer[..j] == args[i][..j]
        modifies buffer
      {
        buffer[j] := args[i][j];
        j := j + 1;
      }
      buffer[n] := NUL;
      assert buffer[..] == buffer[..n] + [NUL];
      argv[i] := buffer;
      i := i + 1;
    }
    argv[argc] := null;
  }
}
