/** Route keys are strings "ORIGIN-DEST"; task.py takes them apart with
    `key.split('-')`. This module models that split, its inverse, and the
    hard-coded table of ten routes. */
module RouteKeys {

  type RouteKey = string

  const Separator: char := '-'

  /** Python's `s.split(sep)` for a one-character separator: every
      occurrence of `sep` cuts, empty pieces are kept, and there is always
      at least one piece. */
  function Split(s: string, sep: char): (pieces: seq<string>)
    ensures |pieces| >= 1
    ensures forall i :: 0 <= i < |pieces| ==> sep !in pieces[i]
    decreases |s|
  {
    if s == [] then [""]
    else
      var rest := Split(s[1..], sep);
      if s[0] == sep then [""] + rest
      else [[s[0]] + rest[0]] + rest[1..]
  }

  /** Python's `sep.join(pieces)`. */
  function Join(pieces: seq<string>, sep: char): string
    requires |pieces| >= 1
    decreases |pieces|
  {
    if |pieces| == 1 then pieces[0]
    else pieces[0] + [sep] + Join(pieces[1..], sep)
  }

  /** Joining the pieces of a split gives back the original string. */
  lemma {:induction false} JoinSplit(s: string, sep: char)
    ensures Join(Split(s, sep), sep) == s
    decreases |s|
  {
    if s != [] {
      JoinSplit(s[1..], sep);
      var rest := Split(s[1..], sep);
      if s[0] == sep {
        assert Split(s, sep)[1..] == rest;
        assert s == [sep] + s[1..];
      } else {
        var pieces := Split(s, sep);
        assert pieces[1..] == rest[1..];
        if |rest| == 1 {
          assert s == [s[0]] + rest[0];
        } else {
          assert Join(rest, sep) == rest[0] + [sep] + Join(rest[1..], sep);
          assert s == [s[0]] + s[1..];
        }
      }
    }
  }

  /** A string without the separator splits into itself alone. */
  lemma {:induction false} SplitWhole(a: string, sep: char)
    requires sep !in a
    ensures Split(a, sep) == [a]
    decreases |a|
  {
    if a != [] {
      SplitWhole(a[1..], sep);
      assert [a[0]] + a[1..] == a;
    }
  }

  /** The first separator ends the first piece. */
  lemma {:induction false} SplitFirst(a: string, sep: char, rest: string)
    requires sep !in a
    ensures Split(a + [sep] + rest, sep) == [a] + Split(rest, sep)
    decreases |a|
  {
    var s := a + [sep] + rest;
    if a == [] {
      assert s[1..] == rest;
    } else {
      assert s[1..] == a[1..] + [sep] + rest;
      SplitFirst(a[1..], sep, rest);
      assert [a[0]] + a[1..] == a;
    }
  }

  /** Splitting a join of separator-free pieces gives back the pieces. */
  lemma {:induction false} SplitJoin(pieces: seq<string>, sep: char)
    requires |pieces| >= 1
    requires forall i :: 0 <= i < |pieces| ==> sep !in pieces[i]
    ensures Split(Join(pieces, sep), sep) == pieces
    decreases |pieces|
  {
    if |pieces| == 1 {
      SplitWhole(pieces[0], sep);
    } else {
      SplitJoin(pieces[1..], sep);
      SplitFirst(pieces[0], sep, Join(pieces[1..], sep));
      assert [pieces[0]] + pieces[1..] == pieces;
    }
  }

  /** A key whose split has at least the two pieces task.py indexes. */
  predicate WellFormed(key: RouteKey) {
    |Split(key, Separator)| >= 2
  }

  function Origin(key: RouteKey): string
    requires WellFormed(key)
  {
    Split(key, Separator)[0]
  }

  function Destination(key: RouteKey): string
    requires WellFormed(key)
  {
    Split(key, Separator)[1]
  }

  /** A well-formed key begins with its origin, the separator and its
      destination: either that is the whole key, or a further separator
      follows, so the destination is the whole second piece. */
  lemma KeyStartsWithParts(key: RouteKey)
    requires WellFormed(key)
    ensures var head := Origin(key) + [Separator] + Destination(key);
      head == key || head + [Separator] <= key
  {
    var pieces := Split(key, Separator);
    JoinSplit(key, Separator);
    var tail := Join(pieces[1..], Separator);
    assert key == pieces[0] + [Separator] + tail;
    assert pieces[1..][0] == pieces[1];
    if |pieces| == 2 {
      assert tail == pieces[1];
    } else {
      assert tail == pieces[1] + [Separator] + Join(pieces[2..], Separator) by {
        assert pieces[1..][1..] == pieces[2..];
      }
      assert key == (pieces[0] + [Separator] + pieces[1] + [Separator]) + Join(pieces[2..], Separator);
    }
  }

  /** The key "A-B" built from two separator-free codes names origin A and
      destination B. */
  lemma KeyParts(origin: string, destination: string)
    requires Separator !in origin && Separator !in destination
    ensures var key := origin + [Separator] + destination;
      WellFormed(key) && Origin(key) == origin && Destination(key) == destination
  {
    var key := origin + [Separator] + destination;
    SplitFirst(origin, Separator, destination);
    SplitWhole(destination, Separator);
    assert Split(key, Separator) == [origin, destination];
  }

  /** The fixed route table, in the order of the dictionary literal (which
      is the order Python iterates its keys). */
  const Routes: seq<RouteKey> := [
    "ALA-TSE", "TSE-ALA", "ALA-MOW", "MOW-ALA", "ALA-CIT",
    "CIT-ALA", "TSE-MOW", "MOW-TSE", "TSE-LED", "LED-TSE"
  ]

  predicate AllWellFormed(keys: seq<RouteKey>) {
    forall k :: k in keys ==> WellFormed(k)
  }

  /** No route key appears twice. */
  predicate Distinct(keys: seq<RouteKey>) {
    forall i, j :: 0 <= i < j < |keys| ==> keys[i] != keys[j]
  }

  /** Dropping the last key of a repetition-free list leaves a
      repetition-free list that does not hold the dropped key. */
  lemma DistinctLast(keys: seq<RouteKey>)
    requires Distinct(keys) && keys != []
    ensures var n := |keys| - 1;
      Distinct(keys[..n]) && keys[n] !in keys[..n] &&
      forall k :: k in keys <==> k in keys[..n] || k == keys[n]
  {
    var n := |keys| - 1;
    assert keys == keys[..n] + [keys[n]];
    forall i | 0 <= i < n ensures keys[..n][i] != keys[n] {
      assert keys[i] != keys[n];
    }
  }

  /** No hard-coded key is repeated. */
  lemma RoutesDistinct()
    ensures |Routes| == 10
    ensures Distinct(Routes)
  {
  }

  /** A seven-letter key with the separator in the middle, and nowhere
      else, splits into two three-letter codes. */
  lemma CodePair(k: RouteKey)
    requires |k| == 7 && k[3] == Separator
    requires Separator !in k[..3] && Separator !in k[4..]
    ensures WellFormed(k) && |Origin(k)| == 3 && |Destination(k)| == 3
  {
    assert k == k[..3] + [Separator] + k[4..];
    KeyParts(k[..3], k[4..]);
  }

  /** Every hard-coded key splits into two three-letter codes. */
  lemma RoutesWellFormed()
    ensures forall k :: k in Routes ==> WellFormed(k) && |Origin(k)| == 3 && |Destination(k)| == 3
  {
    forall k | k in Routes
      ensures WellFormed(k) && |Origin(k)| == 3 && |Destination(k)| == 3
    {
      CodePair(k);
    }
  }
}
