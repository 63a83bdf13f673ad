/** Vocabulary shared by every layer: process ids, message ids, messages and log lines. */
module Types {

  type byte = x: int | 0 <= x < 256
  type Bytes = seq<byte>
  type Pid = nat

  datatype Option<+T> = None | Some(value: T)

  /** A message is identified by its author and the author's own running number. */
  datatype MsgId = MsgId(author: Pid, num: nat)

  datatype Message = Message(id: MsgId, payload: Bytes)

  /** One line of an output file: `b num`, `d author num`, or a line of neither kind. */
  datatype Line = B(num: int) | D(author: int, num: int) | Other

  /** The ids of a system of n processes are 1..n. */
  function Pids(n: nat): (s: set<Pid>)
    ensures forall p :: p in s <==> 1 <= p <= n
  {
    if n == 0 then {} else Pids(n - 1) + {n}
  }

  lemma {:induction false} PidsCount(n: nat)
    ensures |Pids(n)| == n
  {
    if n > 0 {
      PidsCount(n - 1);
      var rest := Pids(n - 1);
      assert n !in rest && Pids(n) == rest + {n};
      hide Pids;
      assert |rest + {n}| == |rest| + 1;
    }
  }

  lemma {:induction false} SubsetCount<T>(a: set<T>, b: set<T>)
    requires a <= b
    ensures |a| <= |b|
  {
    if a != {} {
      var x :| x in a;
      SubsetCount(a - {x}, b - {x});
    }
  }

  /** Two strict majorities of 1..n share a member. */
  lemma MajoritiesMeet(n: nat, a: set<Pid>, b: set<Pid>) returns (p: Pid)
    requires a <= Pids(n) && b <= Pids(n)
    requires 2 * |a| > n && 2 * |b| > n
    ensures p in a && p in b
  {
    if a * b == {} {
      assert |a + b| == |a| + |b|;
      PidsCount(n);
      SubsetCount(a + b, Pids(n));
      assert false;
    }
    p :| p in a * b;
  }
}
