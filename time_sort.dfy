/**
  `midiToProcess.sort(...)` with the comparator `a.getTime() < b.getTime()`. `std::list::sort`
  is stable, so the result is the unique ordering by non-decreasing time in which pins with
  equal times keep their insertion order; it is modelled here by insertion sort.
 */
module TimeSort {
  import opened MidiMessages

  predicate SortedByTime(s: seq<Pin>) {
    forall i, j :: 0 <= i < j < |s| ==> s[i].time <= s[j].time
  }

  /** Places `p` just after the last pin whose time is not later than its own. */
  function InsertByTime(s: seq<Pin>, p: Pin): (r: seq<Pin>)
    ensures |r| == |s| + 1
  {
    if s == [] then [p]
    else if s[|s| - 1].time <= p.time then s + [p]
    else
      assert s == s[..|s| - 1] + [s[|s| - 1]];
      InsertByTime(s[..|s| - 1], p) + [s[|s| - 1]]
  }

  /** Inserting adds `p` and nothing else. */
  lemma {:induction false} InsertPermutes(s: seq<Pin>, p: Pin)
    ensures multiset(InsertByTime(s, p)) == multiset(s) + multiset{p}
    decreases |s|
  {
    if s != [] && s[|s| - 1].time > p.time {
      InsertPermutes(s[..|s| - 1], p);
      assert s == s[..|s| - 1] + [s[|s| - 1]];
    }
  }

  /** Every element of the result is `p` or an element of `s`. */
  lemma {:induction false} InsertElements(s: seq<Pin>, p: Pin)
    ensures forall x :: x in InsertByTime(s, p) ==> x == p || x in s
    decreases |s|
  {
    if s != [] && s[|s| - 1].time > p.time {
      InsertElements(s[..|s| - 1], p);
      forall x | x in s[..|s| - 1] ensures x in s {
        var i :| 0 <= i < |s| - 1 && s[..|s| - 1][i] == x;
        assert s[i] == x;
      }
    }
  }

  /** Inserting into a sorted list keeps it sorted. */
  lemma {:induction false} InsertKeepsSorted(s: seq<Pin>, p: Pin)
    requires SortedByTime(s)
    ensures SortedByTime(InsertByTime(s, p))
    decreases |s|
  {
    if s != [] && s[|s| - 1].time > p.time {
      var init, last := s[..|s| - 1], s[|s| - 1];
      InsertKeepsSorted(init, p);
      InsertElements(init, p);
      var q := InsertByTime(init, p);
      forall x | x in q ensures x.time <= last.time {
        if x != p {
          var i :| 0 <= i < |init| && init[i] == x;
          assert s[i] == x;
        }
      }
      assert InsertByTime(s, p) == q + [last];
      forall i, j | 0 <= i < j < |q + [last]| ensures (q + [last])[i].time <= (q + [last])[j].time {
        if j == |q| {
          assert (q + [last])[i] == q[i] && q[i] in q;
        } else {
          assert (q + [last])[i] == q[i] && (q + [last])[j] == q[j];
        }
      }
    }
  }

  /** The stably sorted play list. */
  function StableSortByTime(s: seq<Pin>): (r: seq<Pin>)
    ensures |r| == |s|
  {
    if s == [] then []
    else
      assert s == s[..|s| - 1] + [s[|s| - 1]];
      InsertByTime(StableSortByTime(s[..|s| - 1]), s[|s| - 1])
  }

  /** The sorted list is a permutation of the collected one. */
  lemma {:induction false} StableSortPermutes(s: seq<Pin>)
    ensures multiset(StableSortByTime(s)) == multiset(s)
    decreases |s|
  {
    if s != [] {
      StableSortPermutes(s[..|s| - 1]);
      InsertPermutes(StableSortByTime(s[..|s| - 1]), s[|s| - 1]);
      assert s == s[..|s| - 1] + [s[|s| - 1]];
    }
  }

  /** The sorted list is ordered by non-decreasing time. */
  lemma {:induction false} StableSortSorted(s: seq<Pin>)
    ensures SortedByTime(StableSortByTime(s))
    decreases |s|
  {
    if s != [] {
      StableSortSorted(s[..|s| - 1]);
      InsertKeepsSorted(StableSortByTime(s[..|s| - 1]), s[|s| - 1]);
    }
  }

  /** The pins at time `t`, in order. */
  function AtTime(s: seq<Pin>, t: real): seq<Pin> {
    if s == [] then []
    else AtTime(s[..|s| - 1], t) + if s[|s| - 1].time == t then [s[|s| - 1]] else []
  }

  lemma {:induction false} AtTimeAppend(a: seq<Pin>, b: seq<Pin>, t: real)
    ensures AtTime(a + b, t) == AtTime(a, t) + AtTime(b, t)
    decreases |b|
  {
    if b == [] {
      assert a + b == a;
    } else {
      assert (a + b)[..|a + b| - 1] == a + b[..|b| - 1];
      AtTimeAppend(a, b[..|b| - 1], t);
    }
  }

  lemma AtTimeSingle(x: Pin, t: real)
    ensures AtTime([x], t) == if x.time == t then [x] else []
  {
    assert [x][..0] == [];
  }

  /** Inserting `p` puts it after every pin at its own time and leaves the other times' order alone. */
  lemma {:induction false} InsertKeepsTies(s: seq<Pin>, p: Pin, t: real)
    ensures AtTime(InsertByTime(s, p), t) == AtTime(s, t) + if p.time == t then [p] else []
    decreases |s|
  {
    AtTimeSingle(p, t);
    if s == [] {
      assert AtTime([], t) == [];
    } else if s[|s| - 1].time <= p.time {
      AtTimeAppend(s, [p], t);
    } else {
      var init, last := s[..|s| - 1], s[|s| - 1];
      InsertKeepsTies(init, p, t);
      AtTimeAppend(InsertByTime(init, p), [last], t);
      AtTimeSingle(last, t);
    }
  }

  /** Stability: for every time, the pins at that time keep their original order. */
  lemma {:induction false} StableSortKeepsTies(s: seq<Pin>, t: real)
    ensures AtTime(StableSortByTime(s), t) == AtTime(s, t)
    decreases |s|
  {
    if s != [] {
      StableSortKeepsTies(s[..|s| - 1], t);
      InsertKeepsTies(StableSortByTime(s[..|s| - 1]), s[|s| - 1], t);
    }
  }

  /** Stepping the insertion point back over a later pin. */
  lemma InsertStepBack(s: seq<Pin>, p: Pin, j: nat)
    requires 0 < j <= |s| && s[j - 1].time > p.time
    ensures InsertByTime(s[..j], p) + s[j..] == InsertByTime(s[..j - 1], p) + s[j - 1..]
  {
    assert s[..j][..j - 1] == s[..j - 1];
    assert s[..j][j - 1] == s[j - 1];
    assert InsertByTime(s[..j], p) == InsertByTime(s[..j - 1], p) + [s[j - 1]];
    assert [s[j - 1]] + s[j..] == s[j - 1..];
  }

  /** The insertion point is found once the pin before it is not later than `p`. */
  lemma InsertStops(s: seq<Pin>, p: Pin, j: nat)
    requires j <= |s| && (j == 0 || s[j - 1].time <= p.time)
    ensures InsertByTime(s[..j], p) == s[..j] + [p]
  {
    if j == 0 {
      assert s[..j] == [];
    } else {
      assert s[..j][|s[..j]| - 1] == s[j - 1];
    }
  }

  /** One insertion step, scanning back from the end of the sorted prefix. */
  method Insert(s: seq<Pin>, p: Pin) returns (r: seq<Pin>)
    ensures r == InsertByTime(s, p)
  {
    var j := |s|;
    assert s[..j] == s;
    while j > 0 && s[j - 1].time > p.time
      invariant 0 <= j <= |s|
      invariant InsertByTime(s, p) == InsertByTime(s[..j], p) + s[j..]
    {
      InsertStepBack(s, p, j);
      j := j - 1;
    }
    InsertStops(s, p, j);
    r := s[..j] + [p] + s[j..];
  }

  /** The sort of `PlayList`: the result is the stable sort of the collected pins. */
  method SortByTime(pins: seq<Pin>) returns (sorted: seq<Pin>)
    ensures sorted == StableSortByTime(pins)
  {
    sorted := [];
    var i := 0;
    while i < |pins|
      invariant 0 <= i <= |pins|
      invariant sorted == StableSortByTime(pins[..i])
    {
      assert pins[..i + 1][..i] == pins[..i];
      sorted := Insert(sorted, pins[i]);
      i := i + 1;
    }
    assert pins[..|pins|] == pins;
  }
}
