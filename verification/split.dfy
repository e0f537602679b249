/**
 * `str.split(sep)` for a one-character separator, and the facts the URL and
 * password helpers rely on: the number of parts is one more than the number
 * of separators, joining the parts back gives the string, and splitting a
 * join of separator-free parts gives the parts back.
 */
module Splitting {
  import opened Text
  import opened Seqs

  /** `s.split(c)`: the maximal separator-free pieces, empty ones included. */
  function Split(s: string, c: char): (parts: seq<string>)
    ensures |parts| > 0
    ensures forall k :: 0 <= k < |parts| ==> c !in parts[k]
    decreases |s|
  {
    if |s| == 0 then [""]
    else
      var rest := Split(s[1..], c);
      if s[0] == c then [""] + rest else [[s[0]] + rest[0]] + rest[1..]
  }

  lemma {:induction false} OccCons(x: char, s: string, c: char)
    ensures Occ([x] + s, c) == (if x == c then 1 else 0) + Occ(s, c)
    decreases |s|
  {
    if |s| > 0 {
      OccCons(x, s[..|s| - 1], c);
      assert ([x] + s)[..|s|] == [x] + s[..|s| - 1];
    } else {
      assert Occ([x], c) == Occ([x][..0], c) + (if x == c then 1 else 0);
    }
  }

  lemma {:induction false} OccAppend(a: string, b: string, c: char)
    ensures Occ(a + b, c) == Occ(a, c) + Occ(b, c)
    decreases |b|
  {
    if |b| == 0 {
      assert a + b == a;
    } else {
      OccAppend(a, b[..|b| - 1], c);
      assert (a + b)[..|a + b| - 1] == a + b[..|b| - 1];
    }
  }

  /** There is one more part than there are separators. */
  lemma {:induction false} SplitCount(s: string, c: char)
    ensures |Split(s, c)| == Occ(s, c) + 1
    decreases |s|
  {
    if |s| > 0 {
      SplitCount(s[1..], c);
      OccCons(s[0], s[1..], c);
      assert s == [s[0]] + s[1..];
    }
  }

  /** `c.join(s.split(c)) == s` */
  lemma {:induction false} JoinSplit(s: string, c: char)
    ensures Join(Split(s, c), [c]) == s
    decreases |s|
  {
    if |s| > 0 {
      JoinSplit(s[1..], c);
      var rest := Split(s[1..], c);
      assert s == [s[0]] + s[1..];
      if s[0] == c {
        JoinFront("", rest, [c]);
      } else if |rest| > 1 {
        var tail := rest[1..];
        JoinFront([s[0]] + rest[0], tail, [c]);
        JoinFront(rest[0], tail, [c]);
        assert [rest[0]] + tail == rest;
        assert ([s[0]] + rest[0]) + [c] + Join(tail, [c]) == [s[0]] + (rest[0] + [c] + Join(tail, [c]));
      }
    }
  }

  /** A part in front of a non-empty list is joined with one separator. */
  lemma JoinFront(w: string, ws: seq<string>, sep: string)
    requires |ws| > 0
    ensures Join([w] + ws, sep) == w + sep + Join(ws, sep)
  {
    assert ([w] + ws)[1..] == ws;
  }

  lemma {:induction false} SplitOfFree(w: string, c: char)
    requires c !in w
    ensures Split(w, c) == [w]
    decreases |w|
  {
    if |w| > 0 {
      assert w[0] != c && c !in w[1..];
      SplitOfFree(w[1..], c);
      assert [w[0]] + w[1..] == w;
    }
  }

  lemma {:induction false} SplitAfterPart(w: string, c: char, r: string)
    requires c !in w
    ensures Split(w + [c] + r, c) == [w] + Split(r, c)
    decreases |w|
  {
    var s := w + [c] + r;
    if |w| == 0 {
      assert s[1..] == r;
    } else {
      assert s[1..] == w[1..] + [c] + r;
      SplitAfterPart(w[1..], c, r);
      assert [w[0]] + w[1..] == w;
    }
  }

  /** Splitting a join of separator-free parts gives the parts back. */
  lemma {:induction false} SplitJoin(parts: seq<string>, c: char)
    requires |parts| > 0
    requires forall k :: 0 <= k < |parts| ==> c !in parts[k]
    ensures Split(Join(parts, [c]), c) == parts
    decreases |parts|
  {
    if |parts| == 1 {
      SplitOfFree(parts[0], c);
    } else {
      SplitJoin(parts[1..], c);
      SplitAfterPart(parts[0], c, Join(parts[1..], [c]));
      assert [parts[0]] + parts[1..] == parts;
    }
  }
}
