/** The log checker: its loop, and exactly which logs it accepts. */
module Checker {
  import opened Types
  import opened Logs
  import opened Urb
  import System
  import Theorems

  /** The b-lines are 1..m in order, and the d-lines of every author are 1..k in order. */
  ghost predicate Acceptable(lines: seq<Line>) {
    && BNums(lines) == UpTo(|BNums(lines)|)
    && (forall a :: DNums(lines, a) == UpTo(|DNums(lines, a)|))
  }

  lemma {:induction false} NumsOfPrefix(lines: seq<Line>, i: nat, a: int)
    requires i <= |lines|
    ensures BNums(lines[..i]) <= BNums(lines)
    ensures DNums(lines[..i], a) <= DNums(lines, a)
    decreases |lines|
  {
    if i < |lines| {
      var k := |lines| - 1;
      NumsOfPrefix(lines[..k], i, a);
      assert lines[..k][..i] == lines[..i];
    } else {
      assert lines[..i] == lines;
    }
  }

  lemma {:induction false} PrefixOfUpTo(xs: seq<int>, ys: seq<int>)
    requires xs <= ys && ys == UpTo(|ys|)
    ensures xs == UpTo(|xs|)
  {
    forall i | 0 <= i < |xs|
      ensures xs[i] == i + 1
    {
      assert xs[i] == ys[i];
    }
  }

  lemma PrefixAcceptable(lines: seq<Line>, i: nat)
    requires Acceptable(lines) && i <= |lines|
    ensures Acceptable(lines[..i])
  {
    NumsOfPrefix(lines, i, 0);
    PrefixOfUpTo(BNums(lines[..i]), BNums(lines));
    forall a
      ensures DNums(lines[..i], a) == UpTo(|DNums(lines[..i], a)|)
    {
      NumsOfPrefix(lines, i, a);
      PrefixOfUpTo(DNums(lines[..i], a), DNums(lines, a));
    }
  }

  /** Once a prefix of a log is wrong, no continuation repairs it. */
  lemma WrongPrefix(lines: seq<Line>, i: nat)
    requires i <= |lines| && !Acceptable(lines[..i])
    ensures !Acceptable(lines)
  {
    hide Acceptable;
    if Acceptable(lines) {
      PrefixAcceptable(lines, i);
    }
  }

  function Expected(next: map<int, int>, a: int): int {
    if a in next then next[a] else 1
  }

  /** What the checker carries from line to line. */
  ghost predicate Tracks(lines: seq<Line>, i: int, next: map<int, int>) {
    && i == |BNums(lines)| + 1
    && (forall a :: Expected(next, a) == |DNums(lines, a)| + 1)
  }

  lemma UpToGrows(xs: seq<int>, k: int)
    requires xs == UpTo(|xs|)
    ensures xs + [k] == UpTo(|xs| + 1) <==> k == |xs| + 1
  {
    if k == |xs| + 1 {
      assert xs + [k] == UpTo(|xs| + 1);
    } else {
      assert (xs + [k])[|xs|] != UpTo(|xs| + 1)[|xs|];
    }
  }

  lemma BStep(lines: seq<Line>, k: int, i: int, next: map<int, int>)
    requires Acceptable(lines) && Tracks(lines, i, next)
    ensures Acceptable(lines + [B(k)]) <==> k == i
    ensures Tracks(lines + [B(k)], i + 1, next)
  {
    hide BNums, DNums, UpTo;
    BNumsAppend(lines, B(k));
    UpToGrows(BNums(lines), k);
    forall a
      ensures DNums(lines + [B(k)], a) == DNums(lines, a)
    {
      DNumsAppend(lines, B(k), a);
    }
  }

  lemma DStep(lines: seq<Line>, a: int, k: int, i: int, next: map<int, int>)
    requires Acceptable(lines) && Tracks(lines, i, next)
    ensures Acceptable(lines + [D(a, k)]) <==> k == Expected(next, a)
    ensures k == Expected(next, a) ==> Tracks(lines + [D(a, k)], i, next[a := k + 1])
  {
    hide BNums, DNums, UpTo;
    var l := D(a, k);
    BNumsAppend(lines, l);
    UpToGrows(DNums(lines, a), k);
    forall b
      ensures DNums(lines + [l], b) == DNums(lines, b) + (if b == a then [k] else [])
    {
      DNumsAppend(lines, l, b);
    }
  }

  lemma OtherStep(lines: seq<Line>, i: int, next: map<int, int>)
    requires Acceptable(lines) && Tracks(lines, i, next)
    ensures Acceptable(lines + [Other]) && Tracks(lines + [Other], i, next)
  {
    hide BNums, DNums, UpTo;
    BNumsAppend(lines, Other);
    forall a
      ensures DNums(lines + [Other], a) == DNums(lines, a)
    {
      DNumsAppend(lines, Other, a);
    }
  }

  lemma EmptyTracks()
    ensures Acceptable([]) && Tracks([], 1, map[])
  {
  }

  /** `checkProcess`: accepts exactly the acceptable logs. */
  method CheckProcess(lines: seq<Line>) returns (ok: bool)
    ensures ok <==> Acceptable(lines)
  {
    hide Acceptable, Tracks;
    var i := 1;
    var nextMessage: map<int, int> := map[];
    EmptyTracks();
    for n := 0 to |lines|
      invariant Acceptable(lines[..n])
      invariant Tracks(lines[..n], i, nextMessage)
    {
      assert lines[..n + 1] == lines[..n] + [lines[n]];
      match lines[n] {
        case B(num) =>
          BStep(lines[..n], num, i, nextMessage);
          if num != i {
            WrongPrefix(lines, n + 1);
            return false;
          }
          i := i + 1;
        case D(author, num) =>
          DStep(lines[..n], author, num, i, nextMessage);
          if num != Expected(nextMessage, author) {
            WrongPrefix(lines, n + 1);
            return false;
          }
          nextMessage := nextMessage[author := num + 1];
        case Other =>
          OtherStep(lines[..n], i, nextMessage);
      }
    }
    assert lines[..|lines|] == lines;
    return true;
  }

  lemma LocalLogAccepted(p: Proc)
    requires LocalInv(p)
    ensures Acceptable(p.log)
  {
    hide ThrottleInv, TableInv;
    forall a
      ensures DNums(p.log, a) == UpTo(|DNums(p.log, a)|)
    {
      if a >= 0 {
        var pid: Pid := a;
        assert DNums(p.log, pid) == UpTo(At(p.fifo, pid).bottom - 1);
      }
    }
  }

  /** Every log of every run, of crashed processes too, is accepted. */
  lemma RunLogsAccepted(c: System.Config, s: System.State, p: Pid)
    requires System.Reachable(c, s) && p in s.procs
    ensures Acceptable(s.procs[p].log)
  {
    hide LocalInv, System.Reachable;
    Theorems.LocalFacts(c, s, p);
    LocalLogAccepted(s.procs[p]);
  }
}
