/**
 The intrusive singly linked queues of kernel/sched.c, seen as sequences.

 A queue is a head pointer plus the `queueNext` links of the process
 table. `IsChain(t, head, q)` says that following the links from `head`
 visits exactly the distinct pids of `q`, in order, and then reaches
 NULL. The lemmas here are the pointer-level facts the scheduler's
 operations rely on: a chain is determined by its head, and what the
 two kinds of relinking (append at the tail, skip a node) do to it.
 */
module Chain {
  import opened Wrappers
  import opened Process

  /** The head pointer of the queue `q`. */
  function HeadOf(q: seq<Pid>): Option<Pid>
  {
    if |q| == 0 then None else Some(q[0])
  }

  /** `t` with the link of `x` set to `next`. */
  function Relink(t: Table, x: Pid, next: Option<Pid>): (t': Table)
    ensures t'[x].queueNext == next
    ensures forall y: Pid :: y != x ==> t'[y] == t[y]
  {
    t[x := t[x].(queueNext := next)]
  }

  /** The link stored in `q[i]` when `q` is laid out as a chain. */
  function NextOf(q: seq<Pid>, i: nat): Option<Pid>
  {
    if i + 1 < |q| then Some(q[i + 1]) else None
  }

  ghost predicate Distinct(q: seq<Pid>)
  {
    forall i, j :: 0 <= i < j < |q| ==> q[i] != q[j]
  }

  /** No pid is on both queues. */
  ghost predicate Disjoint(q1: seq<Pid>, q2: seq<Pid>)
  {
    forall i, j :: 0 <= i < |q1| && 0 <= j < |q2| ==> q1[i] != q2[j]
  }

  /** Following the links of `t` from `head` visits exactly `q`, then NULL. */
  ghost predicate IsChain(t: Table, head: Option<Pid>, q: seq<Pid>)
  {
    && Distinct(q)
    && head == HeadOf(q)
    && forall i {:trigger t[q[i]]} :: 0 <= i < |q| ==> t[q[i]].queueNext == NextOf(q, i)
  }

  /** Stepping along one link from a chain's head leaves the rest of the chain. */
  lemma ChainStep(t: Table, p: Pid, q: seq<Pid>)
    requires IsChain(t, Some(p), q)
    ensures |q| >= 1 && q[0] == p
    ensures t[p].queueNext == HeadOf(q[1..])
    ensures IsChain(t, t[p].queueNext, q[1..])
  {
    assert q[0] == p;
  }

  /** The links determine the queue: a head has at most one chain. */
  lemma {:induction false} ChainUnique(t: Table, head: Option<Pid>, q1: seq<Pid>, q2: seq<Pid>)
    requires IsChain(t, head, q1) && IsChain(t, head, q2)
    ensures q1 == q2
    decreases |q1|
  {
    match head
    case None =>
    case Some(p) =>
      ChainStep(t, p, q1);
      ChainStep(t, p, q2);
      ChainUnique(t, t[p].queueNext, q1[1..], q2[1..]);
      assert q1 == [p] + q1[1..];
      assert q2 == [p] + q2[1..];
  }

  /** Changing links outside the chain does not change the chain. */
  lemma ChainFrame(t: Table, t': Table, head: Option<Pid>, q: seq<Pid>)
    requires IsChain(t, head, q)
    requires forall i :: 0 <= i < |q| ==> t'[q[i]].queueNext == t[q[i]].queueNext
    ensures IsChain(t', head, q)
  {
  }

  /** Linking `proc` after the tail of a chain, with its own link cleared, appends it. */
  lemma ChainAppend(t: Table, t': Table, head: Option<Pid>, q: seq<Pid>, proc: Pid)
    requires IsChain(t, head, q) && proc !in q && |q| > 0
    requires forall i :: 0 <= i < |q| - 1 ==> t'[q[i]].queueNext == t[q[i]].queueNext
    requires t'[q[|q| - 1]].queueNext == Some(proc)
    requires t'[proc].queueNext == None
    ensures IsChain(t', head, q + [proc])
  {
  }

  /** Pointing `q[k-1]` at `q[k]`'s successor removes `q[k]` and keeps the order of the rest. */
  lemma ChainSkip(t: Table, head: Option<Pid>, q: seq<Pid>, k: nat)
    requires IsChain(t, head, q) && 1 <= k < |q|
    ensures IsChain(Relink(t, q[k - 1], t[q[k]].queueNext), head, q[..k] + q[k + 1..])
  {
  }
}
