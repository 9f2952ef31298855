/**
 * The two string operations the namespace extension relies on:
 * `s.split(sep)` and `sep.join(parts)` of Python, for a one-character separator.
 */
module Strings {

  /** Number of occurrences of `c` in `s`. */
  function Occurrences(s: string, c: char): (r: nat)
    ensures r == 0 <==> c !in s
    ensures r <= |s|
  {
    if s == [] then 0 else (if s[0] == c then 1 else 0) + Occurrences(s[1..], c)
  }

  /** Separators in a concatenation are those of its two halves. */
  lemma {:induction false} OccurrencesAppend(a: string, b: string, c: char)
    ensures Occurrences(a + b, c) == Occurrences(a, c) + Occurrences(b, c)
  {
    if a != [] {
      assert (a + b)[0] == a[0] && (a + b)[1..] == a[1..] + b;
      OccurrencesAppend(a[1..], b, c);
    } else {
      assert a + b == b;
    }
  }

  /**
   * `sep.join(parts)`: the parts with one separator between neighbours; two
   * parts give the first, the separator and the second.
   */
  function Join(parts: seq<string>, sep: char): (r: string)
    ensures |parts| == 2 ==> r == parts[0] + [sep] + parts[1]
  {
    if |parts| == 0 then ""
    else if |parts| == 1 then parts[0]
    else parts[0] + [sep] + Join(parts[1..], sep)
  }

  /** Joining separator-free parts puts exactly one separator between neighbours. */
  lemma {:induction false} JoinSeparators(parts: seq<string>, sep: char)
    requires |parts| >= 1
    requires forall i :: 0 <= i < |parts| ==> sep !in parts[i]
    ensures Occurrences(Join(parts, sep), sep) == |parts| - 1
  {
    if |parts| > 1 {
      var rest := Join(parts[1..], sep);
      JoinSeparators(parts[1..], sep);
      OccurrencesAppend(parts[0] + [sep], rest, sep);
      OccurrencesAppend(parts[0], [sep], sep);
      assert Occurrences([sep], sep) == 1;
    }
  }

  /**
   * `s.split(sep)`: the maximal separator-free pieces of `s`, in order.
   * There is always at least one piece (the empty string splits into `[""]`),
   * one more than there are separators, and joining them back gives `s`.
   */
  function Split(s: string, sep: char): (r: seq<string>)
    ensures |r| == Occurrences(s, sep) + 1
    ensures forall i :: 0 <= i < |r| ==> sep !in r[i]
    ensures Join(r, sep) == s
    decreases |s|
  {
    if s == [] then [""]
    else if s[0] == sep then [""] + Split(s[1..], sep)
    else
      var rest := Split(s[1..], sep);
      [[s[0]] + rest[0]] + rest[1..]
  }

  /** Prepending a character to the first part prepends it to the joined string. */
  lemma {:induction false} JoinConsFirst(c: char, parts: seq<string>, sep: char)
    requires |parts| >= 1
    ensures Join([[c] + parts[0]] + parts[1..], sep) == [c] + Join(parts, sep)
  {
    var q := [[c] + parts[0]] + parts[1..];
    assert q[1..] == parts[1..];
  }

  /** Splitting undoes joining when no part holds the separator. */
  lemma {:induction false} SplitJoin(parts: seq<string>, sep: char)
    requires |parts| >= 1
    requires forall i :: 0 <= i < |parts| ==> sep !in parts[i]
    ensures Split(Join(parts, sep), sep) == parts
    decreases |parts|, |parts[0]|
  {
    if parts[0] == [] {
      if |parts| > 1 {
        var tail := parts[1..];
        assert Join(parts, sep) == [sep] + Join(tail, sep);
        SplitJoin(tail, sep);
        assert ([sep] + Join(tail, sep))[1..] == Join(tail, sep);
        assert parts == [""] + tail;
      }
    } else {
      var c := parts[0][0];
      var shorter := [parts[0][1..]] + parts[1..];
      assert sep !in shorter[0];
      assert forall i :: 1 <= i < |shorter| ==> shorter[i] == parts[i];
      SplitJoin(shorter, sep);
      JoinConsFirst(c, shorter, sep);
      assert [c] + shorter[0] == parts[0];
      assert [[c] + shorter[0]] + shorter[1..] == parts;
      var s := Join(parts, sep);
      assert s == [c] + Join(shorter, sep);
      assert s[0] == c && s[1..] == Join(shorter, sep);
      assert c != sep by { assert c == parts[0][0]; }
    }
  }

  /** Joining with one more part appends a separator and that part. */
  lemma {:induction false} JoinSnoc(parts: seq<string>, x: string, sep: char)
    requires |parts| >= 1
    ensures Join(parts + [x], sep) == Join(parts, sep) + [sep] + x
  {
    if |parts| > 1 {
      JoinSnoc(parts[1..], x, sep);
      assert (parts + [x])[1..] == parts[1..] + [x];
    }
  }
}
