/** Substring, prefix and suffix facts, concatenation of segment lists, and
    ASCII lower-casing. */
module Strings {

  predicate IsPrefix(p: string, s: string) {
    |p| <= |s| && s[..|p|] == p
  }

  predicate IsSuffix(p: string, s: string) {
    |p| <= |s| && s[|s| - |p|..] == p
  }

  predicate OccursAt(s: string, t: string, i: int) {
    0 <= i <= |s| - |t| && s[i..i + |t|] == t
  }

  /** `t` occurs in `s` at some position. */
  predicate Contains(s: string, t: string) {
    exists i | 0 <= i <= |s| - |t| :: OccursAt(s, t, i)
  }

  /** `longer` is `shorter` with `ins` inserted at position `at`. */
  predicate InsertedAt(longer: string, shorter: string, ins: string, at: int) {
    0 <= at <= |shorter| && longer == shorter[..at] + ins + shorter[at..]
  }

  /** The concatenation of a list of segments, in order. */
  function Concat(parts: seq<string>): string {
    if |parts| == 0 then "" else parts[0] + Concat(parts[1..])
  }

  lemma ContainsMiddle(a: string, t: string, b: string)
    ensures Contains(a + t + b, t)
  {
    var s := a + t + b;
    assert OccursAt(s, t, |a|);
  }

  lemma {:induction false} ConcatAppend(a: seq<string>, b: seq<string>)
    ensures Concat(a + b) == Concat(a) + Concat(b)
  {
    if |a| == 0 {
      assert a + b == b;
    } else {
      assert (a + b)[1..] == a[1..] + b;
      ConcatAppend(a[1..], b);
    }
  }

  /** Any run of consecutive segments occurs in the concatenation. */
  lemma ConcatContainsRun(parts: seq<string>, i: int, j: int)
    requires 0 <= i <= j <= |parts|
    ensures Contains(Concat(parts), Concat(parts[i..j]))
  {
    assert parts == parts[..i] + parts[i..j] + parts[j..];
    ConcatAppend(parts[..i] + parts[i..j], parts[j..]);
    ConcatAppend(parts[..i], parts[i..j]);
    ContainsMiddle(Concat(parts[..i]), Concat(parts[i..j]), Concat(parts[j..]));
  }

  /** Every single segment occurs in the concatenation. */
  lemma ConcatContainsPart(parts: seq<string>, k: int)
    requires 0 <= k < |parts|
    ensures Contains(Concat(parts), parts[k])
  {
    ConcatContainsRun(parts, k, k + 1);
    assert parts[k..k + 1] == [parts[k]];
    assert Concat([parts[k]]) == parts[k] + Concat([]);
    assert Concat(parts[k..k + 1]) == parts[k];
  }

  lemma ConcatPrefix(parts: seq<string>, j: int)
    requires 0 <= j <= |parts|
    ensures IsPrefix(Concat(parts[..j]), Concat(parts))
  {
    assert parts == parts[..j] + parts[j..];
    ConcatAppend(parts[..j], parts[j..]);
  }

  lemma ConcatSuffix(parts: seq<string>, i: int)
    requires 0 <= i <= |parts|
    ensures IsSuffix(Concat(parts[i..]), Concat(parts))
  {
    assert parts == parts[..i] + parts[i..];
    ConcatAppend(parts[..i], parts[i..]);
  }

  /** Filling an empty segment inserts its new text into the concatenation
      right after the segments before it. */
  lemma ConcatFill(parts: seq<string>, k: int, x: string)
    requires 0 <= k < |parts| && parts[k] == ""
    ensures InsertedAt(Concat(parts[k := x]), Concat(parts), x, |Concat(parts[..k])|)
  {
    var filled := parts[k := x];
    assert parts == parts[..k] + [""] + parts[k + 1..];
    assert filled == parts[..k] + [x] + parts[k + 1..];
    ConcatAppend(parts[..k] + [""], parts[k + 1..]);
    ConcatAppend(parts[..k], [""]);
    ConcatAppend(parts[..k] + [x], parts[k + 1..]);
    ConcatAppend(parts[..k], [x]);
    assert Concat([x]) == x + Concat([]);
    assert Concat([""]) == "" + Concat([]);
    var pre, post := Concat(parts[..k]), Concat(parts[k + 1..]);
    assert Concat(parts) == pre + post;
    assert Concat(filled) == pre + x + post;
    assert Concat(parts)[..|pre|] == pre;
    assert Concat(parts)[|pre|..] == post;
  }

  function LowerChar(c: char): char {
    if 'A' <= c <= 'Z' then (c as int - 'A' as int + 'a' as int) as char else c
  }

  /** `String.prototype.toLowerCase` on ASCII letters; other characters are kept. */
  function Lower(s: string): (r: string)
    ensures |r| == |s|
    ensures forall i :: 0 <= i < |s| ==> r[i] == LowerChar(s[i])
  {
    seq(|s|, i requires 0 <= i < |s| => LowerChar(s[i]))
  }
}
