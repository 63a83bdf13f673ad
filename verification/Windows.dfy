/**
 The compacting per-author record used twice in the broadcast stack: the numbers below `bottom`
 are all present and the numbers in `above` are the present ones that are not covered yet.
 */
module Windows {

  datatype Window = Window(bottom: nat, above: set<nat>)

  const FRESH := Window(1, {})

  predicate Contains(w: Window, x: nat) {
    x < w.bottom || x in w.above
  }

  lemma {:induction false} LeastExists(s: set<nat>, k: nat)
    requires k in s
    ensures exists m :: m in s && forall x :: x in s ==> m <= x
    decreases k
  {
    if x :| x in s && x < k {
      LeastExists(s, x);
    }
  }

  /** The first element of an ordered set. */
  function Least(s: set<nat>): (m: nat)
    requires s != {}
    ensures m in s && forall x :: x in s ==> m <= x
  {
    assert exists m :: m in s && forall x :: x in s ==> m <= x by {
      var k :| k in s;
      LeastExists(s, k);
    }
    var m :| m in s && forall x :: x in s ==> m <= x;
    m
  }

  /** In-order iteration over an ordered set. */
  function Ascending(s: set<nat>): (order: seq<nat>)
    ensures |order| == |s|
    ensures forall x :: x in order <==> x in s
    decreases |s|
  {
    if s == {} then [] else
      var m := Least(s);
      assert s == (s - {m}) + {m};
      [m] + Ascending(s - {m})
  }

  // ------------------------------------------------------------------------------------------
  // The delivered-set record

  /** Consume the leading run b, b+1, ... of the stored numbers; stop at the first other one. */
  function Absorb(b: nat, s: set<nat>): Window
    decreases |s|
  {
    if s != {} && Least(s) == b then
      assert s == (s - {b}) + {b};
      Absorb(b + 1, s - {b})
    else Window(b, s)
  }

  function Insert(w: Window, x: nat): Window {
    if x == w.bottom then Absorb(x + 1, w.above) else Window(w.bottom, w.above + {x})
  }

  function InsertAll(w: Window, xs: seq<nat>): Window {
    if xs == [] then w else Insert(InsertAll(w, xs[..|xs| - 1]), xs[|xs| - 1])
  }

  /** No stored number is already covered, and `bottom` itself is missing. */
  predicate Tight(w: Window) {
    w.bottom >= 1 && forall x :: x in w.above ==> x > w.bottom
  }

  lemma {:induction false} AbsorbContains(b: nat, s: set<nat>, y: nat)
    ensures Contains(Absorb(b, s), y) <==> y < b || y in s
    decreases |s|
  {
    if s != {} && Least(s) == b {
      assert s == (s - {b}) + {b};
      AbsorbContains(b + 1, s - {b}, y);
    }
  }

  lemma {:induction false} AbsorbTight(b: nat, s: set<nat>)
    requires forall x :: x in s ==> x >= b
    ensures Absorb(b, s).bottom >= b
    ensures forall x :: x in Absorb(b, s).above ==> x > Absorb(b, s).bottom
    ensures Absorb(b, s).bottom + |Absorb(b, s).above| == b + |s|
    decreases |s|
  {
    if s != {} && Least(s) == b {
      assert s == (s - {b}) + {b};
      AbsorbTight(b + 1, s - {b});
    }
  }

  /** A stale element at the front blocks every absorption. */
  lemma AbsorbStale(b: nat, s: set<nat>, x: nat)
    requires x in s && x < b
    ensures Absorb(b, s) == Window(b, s)
  {
    assert Least(s) <= x;
  }

  /** Insertion adds exactly the inserted number, whatever the record looked like. */
  lemma InsertContains(w: Window, x: nat, y: nat)
    ensures Contains(Insert(w, x), y) <==> Contains(w, y) || y == x
  {
    if x == w.bottom {
      AbsorbContains(x + 1, w.above, y);
    }
  }

  /** The record stays compact exactly when the inserted number is not below `bottom`. */
  lemma InsertTight(w: Window, x: nat)
    requires Tight(w)
    ensures Tight(Insert(w, x)) <==> x >= w.bottom
  {
    if x == w.bottom {
      AbsorbTight(x + 1, w.above);
    } else if x < w.bottom {
      assert x in Insert(w, x).above;
    }
  }

  /** A number that was missing adds one to the count the record stands for. */
  lemma InsertCount(w: Window, x: nat)
    requires Tight(w) && !Contains(w, x)
    ensures Insert(w, x).bottom + |Insert(w, x).above| == w.bottom + |w.above| + 1
  {
    if x == w.bottom {
      AbsorbTight(x + 1, w.above);
    }
  }

  /** After any inserts, in any order and with repeats, the record answers like a plain set. */
  lemma {:induction false} InsertAllRefinesSet(xs: seq<nat>, y: nat)
    requires y >= 1
    ensures Contains(InsertAll(FRESH, xs), y) <==> y in xs
  {
    if xs != [] {
      var rest, x := xs[..|xs| - 1], xs[|xs| - 1];
      assert xs == rest + [x];
      InsertAllRefinesSet(rest, y);
      InsertContains(InsertAll(FRESH, rest), x, y);
    }
  }

  predicate Distinct(xs: seq<nat>) {
    forall i, j :: 0 <= i < j < |xs| ==> xs[i] != xs[j]
  }

  /**
   Under fresh inserts only, `bottom` is the least missing number, everything stored lies beyond
   it, and `bottom - 1` plus the stored size is the number of inserts.
   */
  lemma {:induction false} InsertAllCompact(xs: seq<nat>)
    requires Distinct(xs) && forall i :: 0 <= i < |xs| ==> xs[i] >= 1
    ensures Tight(InsertAll(FRESH, xs))
    ensures InsertAll(FRESH, xs).bottom !in xs
    ensures forall y :: 1 <= y < InsertAll(FRESH, xs).bottom ==> y in xs
    ensures forall y :: y in InsertAll(FRESH, xs).above <==> y in xs && y > InsertAll(FRESH, xs).bottom
    ensures InsertAll(FRESH, xs).bottom - 1 + |InsertAll(FRESH, xs).above| == |xs|
  {
    if xs != [] {
      var rest, x := xs[..|xs| - 1], xs[|xs| - 1];
      InsertAllCompact(rest);
      var w := InsertAll(FRESH, rest);
      assert x !in rest;
      InsertAllRefinesSet(rest, x);
      InsertTight(w, x);
      InsertCount(w, x);
    }
    var w := InsertAll(FRESH, xs);
    forall y: nat | y >= 1
      ensures Contains(w, y) <==> y in xs
    {
      InsertAllRefinesSet(xs, y);
    }
    assert !Contains(w, w.bottom);
  }

  /** A stored number that is not beyond `bottom` is never removed. */
  lemma LooseStays(w: Window, x: nat, y: nat)
    requires y in w.above && y <= w.bottom
    ensures y in Insert(w, x).above && y <= Insert(w, x).bottom
  {
    if x == w.bottom {
      AbsorbStale(x + 1, w.above, y);
    }
  }

  /** The i-th number was already covered: it and everything below it came earlier. */
  predicate Stale(xs: seq<nat>, i: nat)
    requires i < |xs|
  {
    forall y :: 1 <= y <= xs[i] ==> y in xs[..i]
  }

  lemma StaleIsBelow(xs: seq<nat>, i: nat)
    requires i < |xs| && Tight(InsertAll(FRESH, xs[..i]))
    ensures Stale(xs, i) <==> xs[i] < InsertAll(FRESH, xs[..i]).bottom
  {
    var w := InsertAll(FRESH, xs[..i]);
    forall y: nat | y >= 1
      ensures Contains(w, y) <==> y in xs[..i]
    {
      InsertAllRefinesSet(xs[..i], y);
    }
    assert !Contains(w, w.bottom);
  }

  /**
   Over arbitrary inserts, the record stays compact if and only if no number is inserted after it
   and everything below it had been: a repeat of a number that is still stored does no harm.
   */
  lemma {:induction false} CompactExactly(xs: seq<nat>)
    ensures InsertAll(FRESH, xs).bottom >= 1
    ensures Tight(InsertAll(FRESH, xs)) <==> forall i :: 0 <= i < |xs| ==> !Stale(xs, i)
  {
    if xs != [] {
      var k := |xs| - 1;
      var rest, x := xs[..k], xs[k];
      var w := InsertAll(FRESH, rest);
      CompactExactly(rest);
      forall i | 0 <= i < k
        ensures Stale(xs, i) <==> Stale(rest, i)
      {
        assert xs[..i] == rest[..i];
      }
      AbsorbGrows(x + 1, w.above);
      if Tight(w) {
        InsertTight(w, x);
        StaleIsBelow(xs, k);
      } else {
        var y :| y in w.above && y <= w.bottom;
        LooseStays(w, x, y);
      }
    }
  }

  lemma {:induction false} AbsorbGrows(b: nat, s: set<nat>)
    ensures Absorb(b, s).bottom >= b
    decreases |s|
  {
    if s != {} && Least(s) == b {
      assert s == (s - {b}) + {b};
      AbsorbGrows(b + 1, s - {b});
    }
  }

  /** With a repeated insert the compaction claim fails: 3 is present, yet `bottom` stays at 3. */
  lemma RepeatBlocksCompaction()
    ensures InsertAll(FRESH, [1, 1, 3, 2]) == Window(3, {1, 3})
  {
    var w1 := InsertAll(FRESH, [1]);
    assert [1][..0] == [];
    assert w1 == Window(2, {});
    assert [1, 1][..1] == [1];
    assert InsertAll(FRESH, [1, 1]) == Window(2, {1});
    assert [1, 1, 3][..2] == [1, 1];
    assert InsertAll(FRESH, [1, 1, 3]) == Window(2, {1, 3});
    assert [1, 1, 3, 2][..3] == [1, 1, 3];
    AbsorbStale(3, {1, 3}, 1);
  }

  /** Two compact records with the same members are equal; inclusion of members orders `bottom`. */
  lemma TightUnique(v: Window, w: Window)
    requires Tight(v) && Tight(w)
    requires forall x :: x >= 1 && Contains(v, x) ==> Contains(w, x)
    ensures v.bottom <= w.bottom
    ensures (forall x :: x >= 1 && Contains(w, x) ==> Contains(v, x)) ==> v == w
  {
    assert !Contains(w, w.bottom);
    assert !Contains(v, w.bottom);
    assert v.bottom <= w.bottom;
    if forall x :: x >= 1 && Contains(w, x) ==> Contains(v, x) {
      assert !Contains(v, v.bottom);
      assert v.bottom == w.bottom;
      assert forall x :: x in v.above ==> Contains(v, x) && Contains(w, x) && x in w.above;
      assert forall x :: x in w.above ==> Contains(w, x) && Contains(v, x) && x in v.above;
      assert v.above == w.above;
    }
  }

  // ------------------------------------------------------------------------------------------
  // The FIFO record

  datatype Drained = Drained(window: Window, logged: seq<nat>)

  /** Log in order while the first stored number does not exceed `next`. */
  function Drain(next: nat, s: set<nat>): Drained
    decreases |s|
  {
    if s != {} && Least(s) <= next then
      var m := Least(s);
      assert s == (s - {m}) + {m};
      var d := Drain(next + 1, s - {m});
      Drained(d.window, [m] + d.logged)
    else Drained(Window(next, s), [])
  }

  function Arrive(w: Window, x: nat): Drained {
    if x < w.bottom then Drained(w, []) else Drain(w.bottom, w.above + {x})
  }

  /** The numbers lo, lo+1, ..., hi-1. */
  function Range(lo: nat, hi: nat): (r: seq<nat>)
    requires lo <= hi
    ensures |r| == hi - lo && forall i :: 0 <= i < |r| ==> r[i] == lo + i
  {
    seq(hi - lo, i requires 0 <= i => lo + i)
  }

  /**
   What the drain does to any stored numbers, also to such as lie below `next`: it logs them in order as
   long as they do not run ahead of the count, and leaves exactly the rest, all beyond it.
   */
  lemma {:induction false} DrainExact(next: nat, s: set<nat>)
    ensures var d := Drain(next, s);
            && d.window.bottom == next + |d.logged|
            && (forall x :: x in s <==> x in d.window.above || x in d.logged)
            && (forall x :: x in d.window.above ==> x > d.window.bottom)
            && (forall i :: 0 <= i < |d.logged| ==> d.logged[i] <= next + i)
            && (forall i, j :: 0 <= i < j < |d.logged| ==> d.logged[i] < d.logged[j])
    decreases |s|
  {
    if s != {} && Least(s) <= next {
      var m := Least(s);
      assert s == (s - {m}) + {m};
      DrainExact(next + 1, s - {m});
      var rest := Drain(next + 1, s - {m}).logged;
      assert forall i :: 0 <= i < |rest| ==> rest[i] in s - {m};
    }
  }

  /** When nothing stored is below `next`, draining is absorbing, and the log is the run passed. */
  lemma {:induction false} DrainIsAbsorb(next: nat, s: set<nat>)
    requires forall x :: x in s ==> x >= next
    ensures Drain(next, s).window == Absorb(next, s)
    ensures next <= Absorb(next, s).bottom
    ensures Drain(next, s).logged == Range(next, Absorb(next, s).bottom)
    decreases |s|
  {
    if s != {} && Least(s) == next {
      assert s == (s - {next}) + {next};
      DrainIsAbsorb(next + 1, s - {next});
    }
  }

  /**
   Coupling of the two loops: on one compact record, the FIFO loop and the delivered-set loop
   leave the same record exactly when the arrival is not below `bottom`.
   */
  lemma ArriveIsInsert(w: Window, x: nat)
    requires Tight(w)
    ensures Arrive(w, x).window == Insert(w, x) <==> x >= w.bottom
    ensures Tight(Arrive(w, x).window)
    ensures Arrive(w, x).window.bottom >= w.bottom
    ensures Arrive(w, x).logged == Range(w.bottom, Arrive(w, x).window.bottom)
  {
    if x >= w.bottom {
      DrainIsAbsorb(w.bottom, w.above + {x});
      InsertTight(w, x);
      if x == w.bottom {
        assert (w.above + {x}) - {x} == w.above;
      }
    } else {
      assert x in Insert(w, x).above;
    }
  }

  function ArriveAll(w: Window, xs: seq<nat>): Drained {
    if xs == [] then Drained(w, []) else
      var d := ArriveAll(w, xs[..|xs| - 1]);
      var e := Arrive(d.window, xs[|xs| - 1]);
      Drained(e.window, d.logged + e.logged)
  }

  /** Membership after one arrival. */
  lemma ArriveContains(w: Window, x: nat, y: nat)
    requires Tight(w)
    ensures Contains(Arrive(w, x).window, y) <==> Contains(w, y) || y == x
  {
    ArriveIsInsert(w, x);
    if x >= w.bottom {
      InsertContains(w, x, y);
    }
  }

  /**
   For arrivals in any order and with repeats, what is logged is 1, 2, ..., k in order, where k is
   the longest gap-free prefix of what arrived, and what is kept is exactly the arrivals above k.
   */
  lemma {:induction false} ArriveAllRefinesPrefix(xs: seq<nat>)
    ensures var d := ArriveAll(FRESH, xs);
            var k := d.window.bottom - 1;
            && Tight(d.window)
            && d.logged == Range(1, k + 1)
            && (forall y :: 1 <= y <= k ==> y in xs)
            && k + 1 !in xs
            && (forall y :: y in d.window.above <==> y in xs && y > k)
  {
    if xs != [] {
      var rest, x := xs[..|xs| - 1], xs[|xs| - 1];
      ArriveAllRefinesPrefix(rest);
      var v := ArriveAll(FRESH, rest).window;
      ArriveIsInsert(v, x);
      assert xs == rest + [x];
      var w := Arrive(v, x).window;
      forall y: nat | y >= 1
        ensures Contains(w, y) <==> y in xs
      {
        ArriveContains(v, x, y);
        assert Contains(v, y) <==> y in rest;
      }
      assert !Contains(w, w.bottom);
      assert Range(1, v.bottom) + Range(v.bottom, w.bottom) == Range(1, w.bottom);
      assert forall y :: y in w.above ==> Contains(w, y);
    }
  }
}
