/** Trimming and ASCII lower-casing of strings, as sequences of UTF-16 code units. */
module Text {

  /** The white space and line terminators of JavaScript. */
  predicate IsWhite(c: int) {
    9 <= c <= 13 || c == 32 || c == 160 || c == 0x1680 || 0x2000 <= c <= 0x200A
    || c == 0x2028 || c == 0x2029 || c == 0x202F || c == 0x205F || c == 0x3000 || c == 0xFEFF
  }

  function TrimStart(s: seq<int>): seq<int> {
    if s != [] && IsWhite(s[0]) then TrimStart(s[1..]) else s
  }

  function TrimEnd(s: seq<int>): seq<int> {
    if s != [] && IsWhite(s[|s| - 1]) then TrimEnd(s[..|s| - 1]) else s
  }

  function Trim(s: seq<int>): seq<int> {
    TrimEnd(TrimStart(s))
  }

  function LowerUnit(c: int): int {
    if 65 <= c <= 90 then c + 32 else c
  }

  function Lower(s: seq<int>): (r: seq<int>)
    ensures |r| == |s| && forall i :: 0 <= i < |r| ==> r[i] == LowerUnit(s[i])
  {
    seq(|s|, i requires 0 <= i < |s| => LowerUnit(s[i]))
  }

  /** Nothing to trim. */
  predicate Trimmed(s: seq<int>) {
    s != [] ==> !IsWhite(s[0]) && !IsWhite(s[|s| - 1])
  }

  lemma {:induction false} TrimStartDone(s: seq<int>)
    ensures TrimStart(s) != [] ==> !IsWhite(TrimStart(s)[0])
    ensures s != [] && !IsWhite(s[|s| - 1]) ==> TrimStart(s) != [] && TrimStart(s)[|TrimStart(s)| - 1] == s[|s| - 1]
  {
    if s != [] && IsWhite(s[0]) {
      TrimStartDone(s[1..]);
    }
  }

  lemma {:induction false} TrimEndDone(s: seq<int>)
    requires s != [] ==> !IsWhite(s[0])
    ensures Trimmed(TrimEnd(s))
  {
    if s != [] && IsWhite(s[|s| - 1]) {
      TrimEndDone(s[..|s| - 1]);
    }
  }

  /** `t` is `s` without the white space around it. */
  ghost predicate Stripped(s: seq<int>, t: seq<int>) {
    exists i, j :: TrimmedAt(s, i, j) && t == s[i..j]
  }

  ghost predicate TrimmedAt(s: seq<int>, i: int, j: int) {
    && 0 <= i <= j <= |s| && (i < j ==> !IsWhite(s[i]) && !IsWhite(s[j - 1]))
    && (forall k :: 0 <= k < i ==> IsWhite(s[k]))
    && (forall k :: j <= k < |s| ==> IsWhite(s[k]))
  }

  lemma {:induction false} TrimStartSuffix(s: seq<int>)
    ensures |TrimStart(s)| <= |s| && TrimStart(s) == s[|s| - |TrimStart(s)|..]
    ensures forall k :: 0 <= k < |s| - |TrimStart(s)| ==> IsWhite(s[k])
  {
    hide IsWhite;
    if s != [] && IsWhite(s[0]) {
      TrimStartSuffix(s[1..]);
      forall k | 0 < k < |s| - |TrimStart(s)| ensures IsWhite(s[k]) {
        assert s[k] == s[1..][k - 1];
      }
    }
  }

  lemma {:induction false} TrimEndPrefix(s: seq<int>)
    ensures |TrimEnd(s)| <= |s| && TrimEnd(s) == s[..|TrimEnd(s)|]
    ensures forall k :: |TrimEnd(s)| <= k < |s| ==> IsWhite(s[k])
  {
    hide IsWhite;
    if s != [] && IsWhite(s[|s| - 1]) {
      var before := s[..|s| - 1];
      TrimEndPrefix(before);
      forall k | |TrimEnd(s)| <= k < |s| - 1 ensures IsWhite(s[k]) {
        assert s[k] == before[k];
      }
    }
  }

  /** Trimming takes away exactly the surrounding white space. */
  lemma TrimStrips(s: seq<int>)
    ensures Stripped(s, Trim(s))
  {
    var t := TrimStart(s);
    TrimStartSuffix(s);
    TrimStartDone(s);
    TrimEndDone(t);
    TrimEndPrefix(t);
    hide IsWhite, TrimStart, TrimEnd;
    var i := |s| - |t|;
    var j := i + |TrimEnd(t)|;
    assert Trim(s) == s[i..j];
    forall k | j <= k < |s| ensures IsWhite(s[k]) {
      assert s[k] == t[k - i];
    }
    assert TrimmedAt(s, i, j);
  }

  lemma StrippedIsUnique(s: seq<int>, t: seq<int>, u: seq<int>)
    requires Stripped(s, t) && Stripped(s, u)
    ensures t == u
  {
    hide IsWhite;
    var i, j :| TrimmedAt(s, i, j) && t == s[i..j];
    var k, l :| TrimmedAt(s, k, l) && u == s[k..l];
  }
}
