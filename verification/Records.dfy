/** The delivered-set objects of the uniform layer, with their loops. */
module Records {
  import opened Types
  import opened Windows
  import opened Urb

  /** An in-order iteration that has the elements of rest still ahead. */
  ghost predicate Ahead(order: seq<nat>, i: nat, rest: set<nat>) {
    i <= |order| && order[i..] == Ascending(rest)
  }

  lemma AscendingStart(s: set<nat>)
    ensures Ahead(Ascending(s), 0, s)
  {
    hide Ascending;
  }

  /** In-order iteration meets the least remaining element next. */
  lemma AscendingStep(order: seq<nat>, i: nat, rest: set<nat>)
    requires Ahead(order, i, rest)
    ensures i <= |order| && (i == |order| <==> rest == {})
    ensures i < |order| ==> order[i] == Least(rest) && Ahead(order, i + 1, rest - {order[i]})
  {
    if i < |order| {
      assert order[i] == order[i..][0];
      assert order[i + 1..] == order[i..][1..];
    }
  }

  lemma AbsorbStep(b: nat, rest: set<nat>)
    ensures rest != {} && Least(rest) == b ==> Absorb(b, rest) == Absorb(b + 1, rest - {b})
    ensures rest == {} || Least(rest) != b ==> Absorb(b, rest) == Window(b, rest)
  {
  }

  function Elems(xs: seq<nat>): set<nat> {
    set y | y in xs
  }

  lemma LessOne(s: set<nat>, xs: seq<nat>, x: nat)
    ensures s - Elems(xs + [x]) == s - Elems(xs) - {x}
  {
  }

  lemma NoElems(s: set<nat>)
    ensures s - Elems([]) == s
  {
  }

  /** The elements of a list, removed one by one from a set. */
  method EraseAll(s: set<nat>, xs: seq<nat>) returns (r: set<nat>)
    ensures r == s - Elems(xs)
  {
    r := s;
    for j := 0 to |xs|
      invariant r == s - Elems(xs[..j])
    {
      r := r - {xs[j]};
      assert xs[..j + 1] == xs[..j] + [xs[j]];
    }
    assert xs[..|xs|] == xs;
  }

  /** `UniformReliableBroadcast::DeliveredSet::PeerState` */
  class PeerState {
    var bottom: nat
    var delivered: set<nat>

    ghost function View(): Window
      reads this
    {
      Window(bottom, delivered)
    }

    constructor ()
      ensures View() == FRESH
    {
      bottom := 1;
      delivered := {};
    }

    predicate Contains(x: nat)
      reads this
      ensures Contains(x) == Windows.Contains(View(), x)
    {
      x < bottom || x in delivered
    }

    /** Advance `bottom` over the run that x completes, or store x. */
    method Insert(x: nat)
      modifies this
      ensures View() == Windows.Insert(old(View()), x)
    {
      hide Ahead, Ascending, Least, Absorb, Elems;
      if x == bottom {
        bottom := bottom + 1;
        var toRemove: seq<nat> := [];
        NoElems(delivered);
        var order := Ascending(delivered);
        ghost var rest := delivered;
        AscendingStart(delivered);
        var i := 0;
        while i < |order|
          invariant 0 <= i <= |order|
          invariant delivered == old(delivered)
          invariant Ahead(order, i, rest)
          invariant rest == delivered - Elems(toRemove)
          invariant Absorb(bottom, rest) == Absorb(x + 1, delivered)
        {
          AscendingStep(order, i, rest);
          AbsorbStep(bottom, rest);
          if order[i] != bottom {
            break;
          }
          LessOne(delivered, toRemove, order[i]);
          toRemove := toRemove + [order[i]];
          rest := rest - {order[i]};
          bottom := bottom + 1;
          i := i + 1;
        }
        AscendingStep(order, i, rest);
        AbsorbStep(bottom, rest);
        delivered := EraseAll(delivered, toRemove);
      } else {
        delivered := delivered + {x};
      }
    }
  }

  /** `UniformReliableBroadcast::DeliveredSet`: one record per author, created on first insert. */
  class DeliveredSet {
    var state: map<Pid, PeerState>

    ghost predicate Valid()
      reads this
    {
      forall a, b :: a in state && b in state && a != b ==> state[a] != state[b]
    }

    ghost function View(): map<Pid, Window>
      reads this, state.Values
    {
      map a | a in state :: state[a].View()
    }

    constructor ()
      ensures Valid() && View() == map[] && state == map[]
    {
      state := map[];
    }

    predicate Contains(id: MsgId)
      reads this, state.Values
      ensures Contains(id) == Has(View(), id)
    {
      id.author in state && state[id.author].Contains(id.num)
    }

    method Insert(id: MsgId)
      requires Valid()
      modifies this, state.Values
      ensures Valid() && fresh(state.Values - old(state.Values))
      ensures View() == InsertId(old(View()), id)
    {
      if id.author !in state {
        var record := new PeerState();
        state := state[id.author := record];
      }
      state[id.author].Insert(id.num);
    }
  }
}
