/** The string functions the handlers use, on ASCII letters and blanks, and facts about separators. */
module Text {

  predicate IsSpace(c: char) {
    c == ' ' || c == '\t' || c == '\n' || c == '\r' || c == '\U{0B}' || c == '\U{0C}'
  }

  function LowerChar(c: char): (r: char)
    ensures !('A' <= r <= 'Z') && (r != c ==> 'A' <= c <= 'Z' && r as int - c as int == 'a' as int - 'A' as int)
  {
    if 'A' <= c <= 'Z' then (c as int + 32) as char else c
  }

  /** strings.ToLower */
  function Lower(s: string): (r: string)
    ensures |r| == |s| && forall i :: 0 <= i < |s| ==> r[i] == LowerChar(s[i])
  {
    seq(|s|, i requires 0 <= i < |s| => LowerChar(s[i]))
  }

  function TrimLeft(s: string): (r: string)
    ensures r == [] || !IsSpace(r[0])
    ensures |r| <= |s| && r == s[|s| - |r|..]
  {
    if s != [] && IsSpace(s[0]) then TrimLeft(s[1..]) else s
  }

  function TrimRight(s: string): (r: string)
    ensures r == [] || !IsSpace(r[|r| - 1])
    ensures |r| <= |s| && r == s[..|r|]
  {
    if s != [] && IsSpace(s[|s| - 1]) then TrimRight(s[..|s| - 1]) else s
  }

  /** strings.TrimSpace */
  function Trim(s: string): string {
    TrimRight(TrimLeft(s))
  }

  /** The form host names are compared in. */
  function Canon(s: string): string {
    Lower(Trim(s))
  }

  predicate Trimmed(s: string) {
    s == [] || (!IsSpace(s[0]) && !IsSpace(s[|s| - 1]))
  }

  lemma TrimIsTrimmed(s: string)
    ensures Trimmed(Trim(s))
    ensures Trimmed(s) ==> Trim(s) == s
  {
  }

  lemma {:induction false} TrimLeftStrips(s: string)
    ensures forall i :: 0 <= i < |s| - |TrimLeft(s)| ==> IsSpace(s[i])
  {
    hide IsSpace;
    if s != [] && IsSpace(s[0]) {
      TrimLeftStrips(s[1..]);
      forall i | 0 <= i < |s| - |TrimLeft(s)| ensures IsSpace(s[i]) {
        assert i > 0 ==> s[i] == s[1..][i - 1];
      }
    }
  }

  lemma {:induction false} TrimRightStrips(s: string)
    ensures forall i :: |TrimRight(s)| <= i < |s| ==> IsSpace(s[i])
  {
    hide IsSpace;
    if s != [] && IsSpace(s[|s| - 1]) {
      TrimRightStrips(s[..|s| - 1]);
    }
  }

  lemma BlankMeans(c: char)
    ensures IsSpace(c) <==> c in [' ', '\t', '\n', '\U{0B}', '\U{0C}', '\r']
  {
  }

  lemma SliceOfSlice(s: string, left: string, t: string)
    requires |left| <= |s| && left == s[|s| - |left|..] && |t| <= |left| && t == left[..|t|]
    ensures var i := |s| - |left|; t == s[i..i + |t|]
  {
  }

  /** Trimming takes blanks off both ends, all of them and nothing else. */
  lemma TrimStrips(s: string) returns (i: nat, j: nat)
    ensures i <= j <= |s| && Trim(s) == s[i..j]
    ensures forall k :: 0 <= k < i || j <= k < |s| ==> IsSpace(s[k])
    ensures i < j ==> !IsSpace(s[i]) && !IsSpace(s[j - 1])
  {
    hide IsSpace, TrimLeft, TrimRight;
    var left := TrimLeft(s);
    var t := TrimRight(left);
    TrimLeftStrips(s);
    TrimRightStrips(left);
    SliceOfSlice(s, left, t);
    i := |s| - |left|;
    j := i + |t|;
    forall k | j <= k < |s| ensures IsSpace(s[k]) {
      assert s[k] == left[k - i];
    }
    if i < j {
      assert s[i] == left[0] && s[j - 1] == t[|t| - 1];
    }
  }

  lemma LowerTwice(s: string)
    ensures Lower(Lower(s)) == Lower(s)
    ensures Trimmed(Lower(s)) <==> Trimmed(s)
  {
  }

  /** Canonical names are fixed points. */
  lemma CanonTwice(s: string)
    ensures Canon(Canon(s)) == Canon(s)
  {
    var t := Trim(s);
    TrimIsTrimmed(s);
    LowerTwice(t);
    TrimIsTrimmed(Lower(t));
  }

  // ---- texts joined with separators ----

  predicate Free(s: string, c: char) {
    forall i :: 0 <= i < |s| ==> s[i] != c
  }

  function FirstIndex(s: string, c: char): nat {
    if s == "" || s[0] == c then 0 else 1 + FirstIndex(s[1..], c)
  }

  function LastIndex(s: string, c: char): int {
    if s == "" then -1 else if s[|s| - 1] == c then |s| - 1 else LastIndex(s[..|s| - 1], c)
  }

  lemma {:induction false} FirstIndexAfter(p: string, c: char, x: string)
    requires Free(p, c)
    ensures FirstIndex(p + [c] + x, c) == |p|
  {
    if p != "" {
      FirstIndexAfter(p[1..], c, x);
      assert (p + [c] + x)[1..] == p[1..] + [c] + x;
    }
  }

  lemma {:induction false} LastIndexBefore(x: string, c: char, p: string)
    requires Free(p, c)
    ensures LastIndex(x + [c] + p, c) == |x|
  {
    var s := x + [c] + p;
    if p != "" {
      LastIndexBefore(x, c, p[..|p| - 1]);
      assert s[..|s| - 1] == x + [c] + p[..|p| - 1];
    }
  }

  /** Equal texts split at their first bar into equal pieces. */
  lemma FirstBar(p: string, x: string, q: string, y: string)
    requires Free(p, '|') && Free(q, '|') && p + "|" + x == q + "|" + y
    ensures p == q && x == y
  {
    var s, t := p + "|" + x, q + "|" + y;
    FirstIndexAfter(p, '|', x);
    FirstIndexAfter(q, '|', y);
    assert |p| == |q|;
    assert p == s[..|p|] && q == t[..|q|];
    assert x == s[|p| + 1..] && y == t[|q| + 1..];
  }
}
