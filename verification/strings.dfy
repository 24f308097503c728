/** Character-level string operations with the semantics of the JavaScript
    built-ins the proxy uses (`split`, `join`, `replace(/x/g, …)`), and
    `Find`, a first-occurrence search used to define `split`. */
module Strings {
  import opened Basics

  /** Position of the first occurrence of `c` in `s`, if any. */
  function Find(s: string, c: char): (r: Option<nat>)
    ensures r.Some? ==> r.value < |s| && s[r.value] == c && c !in s[..r.value]
    ensures r.None? ==> c !in s
  {
    if |s| == 0 then None
    else if s[0] == c then Some(0)
    else match Find(s[1..], c)
      case None => None
      case Some(i) =>
        assert s[..i + 1] == [s[0]] + s[1..][..i];
        Some(i + 1)
  }

  /** The first occurrence is unique: any position holding `c` with no `c`
      before it is the one `Find` reports. */
  lemma FindAt(s: string, c: char, i: nat)
    requires i < |s| && s[i] == c && c !in s[..i]
    ensures Find(s, c) == Some(i)
  {
    assert s[i] in s;
    assert forall j | 0 <= j < i :: s[j] != c by {
      forall j | 0 <= j < i
        ensures s[j] != c
      {
        assert s[..i][j] == s[j];
      }
    }
    assert forall j | i < j <= |s| :: s[..j][i] == c;
  }

  /** `s.split(sep)` for a one-character separator: the pieces between
      separators, in order; an empty string yields one empty piece. */
  function Split(s: string, sep: char): (parts: seq<string>)
    ensures |parts| >= 1
    ensures forall p | p in parts :: sep !in p
    ensures parts[0] <= s
    ensures |parts| == 1 <==> sep !in s
    ensures |parts| == 1 ==> parts[0] == s
    ensures |parts| > 1 ==> |parts[0]| < |s| && s[|parts[0]|] == sep
    ensures forall p, x | p in parts && x in p :: x in s
    decreases |s|
  {
    match Find(s, sep)
    case None => [s]
    case Some(i) =>
      assert forall x | x in s[..i] :: x in s;
      assert forall x | x in s[i + 1..] :: x in s;
      [s[..i]] + Split(s[i + 1..], sep)
  }

  /** `parts.join(sep)`. */
  function Join(parts: seq<string>, sep: char): string
  {
    if |parts| == 0 then ""
    else if |parts| == 1 then parts[0]
    else parts[0] + [sep] + Join(parts[1..], sep)
  }

  /** The pieces concatenated without any separator. */
  function Concat(parts: seq<string>): string
  {
    if |parts| == 0 then "" else parts[0] + Concat(parts[1..])
  }

  /** `s` with every occurrence of `c` deleted (`s.replace(/c/g, '')`). */
  function Remove(s: string, c: char): (r: string)
    ensures c !in r
    ensures |r| <= |s|
    ensures forall x | x in r :: x in s
  {
    if |s| == 0 then ""
    else if s[0] == c then Remove(s[1..], c)
    else [s[0]] + Remove(s[1..], c)
  }

  /** `s` with every `from` replaced by `to` (`s.replace(/from/g, to)`). */
  function ReplaceAll(s: string, from: char, to: char): (r: string)
    ensures |r| == |s|
    ensures forall i | 0 <= i < |s| :: r[i] == (if s[i] == from then to else s[i])
  {
    if |s| == 0 then ""
    else [if s[0] == from then to else s[0]] + ReplaceAll(s[1..], from, to)
  }

  /** Splitting where the first separator sits right after `a`. */
  lemma SplitCons(a: string, sep: char, b: string)
    requires sep !in a
    ensures Split(a + [sep] + b, sep) == [a] + Split(b, sep)
  {
    var s := a + [sep] + b;
    assert s[..|a|] == a;
    FindAt(s, sep, |a|);
    assert s[|a| + 1..] == b;
  }

  /** Splitting at a separator placed between two strings gives the pieces
      of the first followed by the pieces of the second. */
  lemma {:induction false} SplitAppend(a: string, sep: char, b: string)
    ensures Split(a + [sep] + b, sep) == Split(a, sep) + Split(b, sep)
    decreases |a|, 1
  {
    match Find(a, sep)
    case None =>
      SplitCons(a, sep, b);
    case Some(i) =>
      Around(a, i);
      SplitAppendAfter(a[..i], sep, a[i + 1..], b);
  }

  /** `SplitAppend` for a first part whose first separator follows `head`. */
  lemma {:induction false} SplitAppendAfter(head: string, sep: char, tail: string, b: string)
    requires sep !in head
    ensures Split(head + [sep] + tail + [sep] + b, sep) == Split(head + [sep] + tail, sep) + Split(b, sep)
    decreases |head + [sep] + tail|, 0
  {
    var rest := tail + [sep] + b;
    Assoc(head + [sep], tail + [sep], b);
    Assoc(head + [sep], tail, [sep]);
    SplitCons(head, sep, rest);
    SplitCons(head, sep, tail);
    SplitAppend(tail, sep, b);
    Assoc([head], Split(tail, sep), Split(b, sep));
  }

  /** Concatenation is associative. */
  lemma Assoc<T>(x: seq<T>, y: seq<T>, z: seq<T>)
    ensures x + (y + z) == (x + y) + z
  {
  }

  /** A string is the part before position `i`, the character there, and
      the part after it. */
  lemma Around(a: string, i: nat)
    requires i < |a|
    ensures a == a[..i] + [a[i]] + a[i + 1..]
  {
  }

  /** The pieces around a one-character separator placed after `x`. */
  lemma AfterSeparator(x: string, sep: char, y: string)
    ensures (x + ([sep] + y))[..|x|] == x
    ensures (x + ([sep] + y))[|x|] == sep
    ensures (x + ([sep] + y))[|x| + 1..] == y
  {
  }

  /** Joining the pieces of a split restores the string. */
  lemma {:induction false} JoinSplit(s: string, sep: char)
    ensures Join(Split(s, sep), sep) == s
    decreases |s|
  {
    match Find(s, sep)
    case None =>
    case Some(i) =>
      var rest := Split(s[i + 1..], sep);
      var parts := [s[..i]] + rest;
      assert Split(s, sep) == parts;
      assert parts[1..] == rest;
      JoinSplit(s[i + 1..], sep);
      assert Join(parts, sep) == s[..i] + [sep] + s[i + 1..];
      Around(s, i);
  }

  /** Splitting a join of separator-free pieces restores the pieces. */
  lemma {:induction false} SplitJoin(parts: seq<string>, sep: char)
    requires |parts| >= 1
    requires forall p | p in parts :: sep !in p
    ensures Split(Join(parts, sep), sep) == parts
  {
    if |parts| > 1 {
      SplitJoin(parts[1..], sep);
      SplitCons(parts[0], sep, Join(parts[1..], sep));
      assert parts == [parts[0]] + parts[1..];
    }
  }

  /** Concatenating the pieces of a split is deleting the separators. */
  lemma {:induction false} ConcatSplit(s: string, sep: char)
    ensures Concat(Split(s, sep)) == Remove(s, sep)
    decreases |s|
  {
    match Find(s, sep)
    case None =>
      RemoveAbsent(s, sep);
    case Some(i) =>
      ConcatSplit(s[i + 1..], sep);
      RemoveAbsent(s[..i], sep);
      RemoveAppend(s[..i], [sep] + s[i + 1..], sep);
      assert s == s[..i] + ([sep] + s[i + 1..]);
      assert ([sep] + s[i + 1..])[1..] == s[i + 1..];
  }

  /** Deleting a character that does not occur changes nothing. */
  lemma {:induction false} RemoveAbsent(s: string, c: char)
    requires c !in s
    ensures Remove(s, c) == s
  {
    if |s| > 0 {
      RemoveAbsent(s[1..], c);
      assert s == [s[0]] + s[1..];
    }
  }

  /** Deletion distributes over concatenation. */
  lemma {:induction false} RemoveAppend(a: string, b: string, c: char)
    ensures Remove(a + b, c) == Remove(a, c) + Remove(b, c)
  {
    if |a| == 0 {
      assert a + b == b;
    } else {
      var ab := a + b;
      assert ab[0] == a[0] && ab[1..] == a[1..] + b;
      RemoveAppend(a[1..], b, c);
      if a[0] != c {
        calc {
          Remove(ab, c);
          [a[0]] + Remove(a[1..] + b, c);
          [a[0]] + (Remove(a[1..], c) + Remove(b, c));
          ([a[0]] + Remove(a[1..], c)) + Remove(b, c);
        }
      }
    }
  }
}
