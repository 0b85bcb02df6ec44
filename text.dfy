/**
 * The string operations of the JavaScript runtime that the supervisor relies on:
 * `startsWith`, `Array.prototype.join(" ")` and `String.prototype.trim`, plus the
 * split on single spaces that undoes the join.
 */
module Text {

  /** `s.startsWith(prefix)`. */
  predicate StartsWith(s: string, prefix: string) {
    |prefix| <= |s| && s[..|prefix|] == prefix
  }

  /** `parts.join(" ")`: the empty list joins to "", a single part to itself. */
  function JoinSpaces(parts: seq<string>): string {
    if |parts| == 0 then ""
    else if |parts| == 1 then parts[0]
    else parts[0] + " " + JoinSpaces(parts[1..])
  }

  /** Position of the first space of a string that has one. */
  function FirstSpace(s: string): (i: nat)
    requires ' ' in s
    ensures i < |s| && s[i] == ' '
    ensures forall k :: 0 <= k < i ==> s[k] != ' '
  {
    if s[0] == ' ' then 0 else 1 + FirstSpace(s[1..])
  }

  /** Splitting on every single space: the inverse of joining with one space between the parts. */
  function SplitSpaces(s: string): (parts: seq<string>)
    ensures |parts| >= 1
    ensures forall k :: 0 <= k < |parts| ==> ' ' !in parts[k]
    decreases |s|
  {
    if ' ' !in s then [s]
    else
      var i := FirstSpace(s);
      assert forall k :: 0 <= k < i ==> s[..i][k] != ' ';
      [s[..i]] + SplitSpaces(s[i + 1..])
  }

  lemma {:induction false} FirstSpaceOfJoin(a: string, b: string)
    requires ' ' !in a
    ensures ' ' in a + " " + b && FirstSpace(a + " " + b) == |a|
  {
    var s := a + " " + b;
    assert s[|a|] == ' ';
    if a != [] {
      assert s[1..] == a[1..] + " " + b;
      FirstSpaceOfJoin(a[1..], b);
    }
  }

  /** Splitting a joined list gives the list back, provided no part contains a space. */
  lemma {:induction false} SplitJoin(parts: seq<string>)
    requires |parts| >= 1
    requires forall k :: 0 <= k < |parts| ==> ' ' !in parts[k]
    ensures SplitSpaces(JoinSpaces(parts)) == parts
  {
    if |parts| > 1 {
      var head, tail := parts[0], parts[1..];
      var rest := JoinSpaces(tail);
      var s := head + " " + rest;
      assert JoinSpaces(parts) == s;
      assert ' ' !in head;
      FirstSpaceOfJoin(head, rest);
      assert s[..|head|] == head;
      assert s[|head| + 1..] == rest;
      assert SplitSpaces(s) == [head] + SplitSpaces(rest);
      SplitJoin(tail);
      assert parts == [head] + tail;
    }
  }

  /** Joining the split of any string gives the string back. */
  lemma {:induction false} JoinSplit(s: string)
    ensures JoinSpaces(SplitSpaces(s)) == s
    decreases |s|
  {
    if ' ' in s {
      var i := FirstSpace(s);
      var rest := SplitSpaces(s[i + 1..]);
      JoinSplit(s[i + 1..]);
      assert SplitSpaces(s) == [s[..i]] + rest;
      assert s == s[..i] + " " + s[i + 1..];
    }
  }

  /**
   * The characters `String.prototype.trim` removes: the ECMAScript WhiteSpace
   * (tab, vertical tab, form feed, space, no-break space, byte order mark and the
   * other Unicode space separators) and LineTerminator (LF, CR, LS, PS) sets.
   */
  predicate IsTrimmable(c: char) {
    || c == '\t' || c == '\U{B}' || c == '\U{C}' || c == ' ' || c == '\U{A0}' || c == '\U{FEFF}'
    || c == '\U{1680}' || ('\U{2000}' <= c <= '\U{200A}') || c == '\U{202F}' || c == '\U{205F}' || c == '\U{3000}'
    || c == '\n' || c == '\r' || c == '\U{2028}' || c == '\U{2029}'
  }

  /** Drops the trimmable characters at the front: a suffix of `s` that is empty or starts with a kept character. */
  function TrimStart(s: string): (r: string)
    ensures |r| <= |s| && r == s[|s| - |r|..]
    ensures forall k :: 0 <= k < |s| - |r| ==> IsTrimmable(s[k])
    ensures r == [] || !IsTrimmable(r[0])
  {
    if s != [] && IsTrimmable(s[0]) then TrimStart(s[1..]) else s
  }

  /** Drops the trimmable characters at the back: a prefix of `s` that is empty or ends with a kept character. */
  function TrimEnd(s: string): (r: string)
    ensures |r| <= |s| && r == s[..|r|]
    ensures forall k :: |r| <= k < |s| ==> IsTrimmable(s[k])
    ensures r == [] || !IsTrimmable(r[|r| - 1])
  {
    if s != [] && IsTrimmable(s[|s| - 1]) then TrimEnd(s[..|s| - 1]) else s
  }

  /** `s.trim()`. */
  function Trim(s: string): string {
    TrimEnd(TrimStart(s))
  }

  /** Trim leaves nothing trimmable at either end of its result. */
  lemma TrimEndsKept(s: string)
    ensures Trim(s) == [] || (!IsTrimmable(Trim(s)[0]) && !IsTrimmable(Trim(s)[|Trim(s)| - 1]))
  {
    var u := TrimStart(s);
    var r := TrimEnd(u);
    assert Trim(s) == r;
    InnerSlice(s, u, r);
  }

  /**
   * A kept suffix `u` of `s` and a kept prefix `r` of `u`: `r` is the slice of `s`
   * after the dropped front, followed in `s` only by dropped characters, and starts
   * with the first kept character of `u`.
   */
  lemma InnerSlice(s: string, u: string, r: string)
    requires |u| <= |s| && u == s[|s| - |u|..]
    requires u == [] || !IsTrimmable(u[0])
    requires |r| <= |u| && r == u[..|r|]
    requires forall k :: |r| <= k < |u| ==> IsTrimmable(u[k])
    ensures var i := |s| - |u|; i + |r| <= |s| && r == s[i..i + |r|]
    ensures forall k :: |s| - |u| + |r| <= k < |s| ==> IsTrimmable(s[k])
    ensures r == [] || !IsTrimmable(r[0])
  {
    var i := |s| - |u|;
    forall k | i + |r| <= k < |s| ensures IsTrimmable(s[k]) {
      assert s[k] == u[k - i];
    }
    if r != [] {
      assert r[0] == u[0];
    }
  }

  /** Trimming twice is trimming once. */
  lemma TrimIdempotent(s: string)
    ensures Trim(Trim(s)) == Trim(s)
  {
    var r := Trim(s);
    TrimEndsKept(s);
    assert TrimStart(r) == r;
  }
}
