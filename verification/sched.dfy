/**
 The scheduler of kernel/sched.c: the ready and blocked queues, the
 wait-condition query, and the scheduling decision.

 Each C function becomes a pure function from the scheduler's globals to
 new globals. The queues stay intrusive: the only representation of a
 queue is its head pointer and the single `queueNext` link of each
 process record, shared by both queues, exactly as in the C code. Every
 operation also takes, as a ghost argument, the sequence of pids the
 queue holds (`IsChain`); it is used for termination and in contracts
 only, never to compute a result.
 */
module Sched {
  import opened Wrappers
  import opened Process
  import opened Chain

  /** The scheduler's globals: the process table, the two queue heads, and the hart. */
  datatype State = State(procs: Table, readyHead: Option<Pid>, blockedHead: Option<Pid>, hart: Hart)

  /** `t'` differs from `t` at most in status words and queue links. */
  ghost predicate SameExceptSchedFields(t: Table, t': Table)
  {
    forall x: Pid :: t'[x] == t[x].(status := t'[x].status, queueNext := t'[x].queueNext)
  }

  /** Both queues are well-formed chains and share no process. */
  ghost predicate Queues(s: State, rq: seq<Pid>, bq: seq<Pid>)
  {
    && IsChain(s.procs, s.readyHead, rq)
    && IsChain(s.procs, s.blockedHead, bq)
    && Disjoint(rq, bq)
  }

  // ---------------------------------------------------------------------
  // Appending to a queue (insert_to_ready_queue, insert_to_blocked_queue)
  // ---------------------------------------------------------------------

  /**
   The scan of the insert functions: walk from `p` to the last node,
   giving up as soon as `proc` is met. `None` means "already queued",
   `Some(tail)` names the last node.
   */
  function FindTail(t: Table, p: Pid, proc: Pid, ghost q: seq<Pid>): (r: Option<Pid>)
    requires IsChain(t, Some(p), q)
    ensures r.None? <==> proc in q
    ensures r.Some? ==> r.value == q[|q| - 1]
    decreases |q|
  {
    ChainStep(t, p, q);
    match t[p].queueNext
    case None => if p == proc then None else Some(p)
    case Some(n) => if p == proc then None else FindTail(t, n, proc, q[1..])
  }

  /**
   The common body of both insert functions on the queue `head` (holding
   `q`), with `st` the status a newly queued process gets.
   */
  function Enqueue(t: Table, head: Option<Pid>, proc: Pid, st: Status, ghost q: seq<Pid>)
    : (r: (Table, Option<Pid>))
    requires IsChain(t, head, q)
    ensures proc in q ==> r == (t, head)
    ensures proc !in q ==> IsChain(r.0, r.1, q + [proc]) && r.0[proc].status == st
    ensures forall x: Pid :: x != proc ==> r.0[x].status == t[x].status
    ensures forall x: Pid :: x != proc && x !in q ==> r.0[x] == t[x]
    ensures SameExceptSchedFields(t, r.0)
  {
    match head
    case None =>
      var t1 := t[proc := t[proc].(status := st, queueNext := None)];
      assert q + [proc] == [proc];
      (t1, Some(proc))
    case Some(h) =>
      match FindTail(t, h, proc, q)
      case None => (t, head)
      case Some(tail) =>
        var t1 := t[tail := t[tail].(queueNext := Some(proc))];
        var t2 := t1[proc := t1[proc].(status := st, queueNext := None)];
        ChainAppend(t, t2, head, q, proc);
        (t2, head)
  }

  /**
   What an append does to another queue that shares no process with the
   target queue: nothing, unless `proc` itself is on it, in which case
   the cleared link of `proc` cuts that queue right after `proc`.
   */
  lemma EnqueueCutsOther(t: Table, head: Option<Pid>, proc: Pid, st: Status, q: seq<Pid>,
                         head2: Option<Pid>, q2: seq<Pid>)
    requires IsChain(t, head, q) && IsChain(t, head2, q2) && Disjoint(q, q2)
    ensures proc !in q2 ==> IsChain(Enqueue(t, head, proc, st, q).0, head2, q2)
    ensures forall k :: 0 <= k < |q2| && q2[k] == proc ==>
      IsChain(Enqueue(t, head, proc, st, q).0, head2, q2[..k + 1])
  {
  }

  /**
   `insert_to_ready_queue`: append `proc` to the ready queue and mark it
   READY, unless it is already queued there, in which case nothing
   changes. The empty queue is the case `rq == []`.
   */
  function InsertToReadyQueue(s: State, proc: Pid, ghost rq: seq<Pid>): (s': State)
    requires IsChain(s.procs, s.readyHead, rq)
    ensures proc in rq ==> s' == s
    ensures proc !in rq ==> IsChain(s'.procs, s'.readyHead, rq + [proc])
    ensures proc !in rq ==> s'.procs[proc].status == READY && s'.procs[proc].queueNext == None
    ensures forall x: Pid :: x != proc ==> s'.procs[x].status == s.procs[x].status
    ensures forall x: Pid :: x != proc && x !in rq ==> s'.procs[x] == s.procs[x]
    ensures SameExceptSchedFields(s.procs, s'.procs)
    ensures s'.blockedHead == s.blockedHead && s'.hart == s.hart
  {
    var r := Enqueue(s.procs, s.readyHead, proc, READY, rq);
    s.(procs := r.0, readyHead := r.1)
  }

  /** `insert_to_blocked_queue`: the same append, on the blocked queue, with status BLOCKED. */
  function InsertToBlockedQueue(s: State, proc: Pid, ghost bq: seq<Pid>): (s': State)
    requires IsChain(s.procs, s.blockedHead, bq)
    ensures proc in bq ==> s' == s
    ensures proc !in bq ==> IsChain(s'.procs, s'.blockedHead, bq + [proc])
    ensures proc !in bq ==> s'.procs[proc].status == BLOCKED && s'.procs[proc].queueNext == None
    ensures forall x: Pid :: x != proc ==> s'.procs[x].status == s.procs[x].status
    ensures forall x: Pid :: x != proc && x !in bq ==> s'.procs[x] == s.procs[x]
    ensures SameExceptSchedFields(s.procs, s'.procs)
    ensures s'.readyHead == s.readyHead && s'.hart == s.hart
  {
    var r := Enqueue(s.procs, s.blockedHead, proc, BLOCKED, bq);
    s.(procs := r.0, blockedHead := r.1)
  }

  // ---------------------------------------------------------------------
  // remove_from_blocked_queue
  // ---------------------------------------------------------------------

  /**
   The fast/slow walk of `remove_from_blocked_queue` once the head is
   known not to be `proc`: `slow` is the node before `fast`, and when
   `fast` is `proc` the link of `slow` skips it. `q` is the chain from
   `slow`.
   */
  function UnlinkAfter(t: Table, slow: Pid, proc: Pid, ghost q: seq<Pid>): (r: Table)
    requires IsChain(t, Some(slow), q) && slow != proc
    ensures proc !in q ==> r == t
    ensures forall k :: 1 <= k < |q| && q[k] == proc ==> r == Relink(t, q[k - 1], t[proc].queueNext)
    decreases |q|
  {
    ChainStep(t, slow, q);
    match t[slow].queueNext
    case None => t
    case Some(fast) =>
      if fast == proc then t[slow := t[slow].(queueNext := t[fast].queueNext)]
      else
        var r := UnlinkAfter(t, fast, proc, q[1..]);
        UnlinkShift(t, r, proc, q);
        r
  }

  /** The contract of `UnlinkAfter` for the chain after `slow`, read back on the chain from `slow`. */
  lemma UnlinkShift(t: Table, r: Table, proc: Pid, q: seq<Pid>)
    requires |q| >= 2 && q[1] != proc
    requires forall k :: 1 <= k < |q[1..]| && q[1..][k] == proc ==>
      r == Relink(t, q[1..][k - 1], t[proc].queueNext)
    ensures forall k :: 1 <= k < |q| && q[k] == proc ==> r == Relink(t, q[k - 1], t[proc].queueNext)
  {
    forall k | 1 <= k < |q| && q[k] == proc
      ensures r == Relink(t, q[k - 1], t[proc].queueNext)
    {
      assert q[1..][k - 1] == q[k];
      assert q[1..][k - 2] == q[k - 1];
    }
  }

  /**
   `remove_from_blocked_queue`: unlink `proc` from the blocked queue,
   keeping the other processes in order; nothing happens when the queue
   is empty or `proc` is not on it. No status changes, and the removed
   process keeps its own (now stale) link.
   */
  function RemoveFromBlockedQueue(s: State, proc: Pid, ghost bq: seq<Pid>): (s': State)
    requires IsChain(s.procs, s.blockedHead, bq)
    ensures proc !in bq ==> s' == s
    ensures forall k :: 0 <= k < |bq| && bq[k] == proc ==>
      IsChain(s'.procs, s'.blockedHead, bq[..k] + bq[k + 1..])
    ensures forall x: Pid :: s'.procs[x].status == s.procs[x].status
    ensures forall x: Pid :: (x !in bq || x == proc) ==> s'.procs[x] == s.procs[x]
    ensures SameExceptSchedFields(s.procs, s'.procs)
    ensures s'.readyHead == s.readyHead && s'.hart == s.hart
  {
    match s.blockedHead
    case None => s
    case Some(h) =>
      ChainStep(s.procs, h, bq);
      if h == proc then
        RemoveHead(s.procs, proc, bq);
        s.(blockedHead := s.procs[h].queueNext)
      else
        var t' := UnlinkAfter(s.procs, h, proc, bq);
        RemoveInterior(s.procs, t', s.blockedHead, proc, bq);
        s.(procs := t')
  }

  lemma RemoveHead(t: Table, proc: Pid, q: seq<Pid>)
    requires IsChain(t, Some(proc), q)
    ensures forall k :: 0 <= k < |q| && q[k] == proc ==>
      IsChain(t, t[proc].queueNext, q[..k] + q[k + 1..])
  {
  }

  lemma RemoveInterior(t: Table, t': Table, head: Option<Pid>, proc: Pid, q: seq<Pid>)
    requires IsChain(t, head, q) && |q| > 0 && q[0] != proc
    requires proc !in q ==> t' == t
    requires forall k :: 1 <= k < |q| && q[k] == proc ==> t' == Relink(t, q[k - 1], t[proc].queueNext)
    ensures forall k :: 0 <= k < |q| && q[k] == proc ==> IsChain(t', head, q[..k] + q[k + 1..])
    ensures forall x: Pid :: t'[x].status == t[x].status
    ensures forall x: Pid :: (x !in q || x == proc) ==> t'[x] == t[x]
    ensures SameExceptSchedFields(t, t')
  {
    if proc in q {
      var k :| 0 <= k < |q| && q[k] == proc;
      assert k >= 1;
      var pred := q[k - 1];
      assert t' == Relink(t, pred, t[proc].queueNext);
      ChainSkip(t, head, q, k);
      forall k' | 0 <= k' < |q| && q[k'] == proc
        ensures IsChain(t', head, q[..k'] + q[k' + 1..])
      {
        assert k' == k;
      }
      forall x: Pid
        ensures t'[x] == t[x].(queueNext := t'[x].queueNext)
        ensures x !in q || x == proc ==> t'[x] == t[x]
      {
        if x == pred {
          assert pred in q && pred != proc;
        }
      }
    }
  }

  // ---------------------------------------------------------------------
  // is_blocked
  // ---------------------------------------------------------------------

  /** `procs[j]` is an exited child of `proc`. */
  predicate ZombieChildOf(t: Table, j: Pid, proc: Pid)
  {
    t[j].status == ZOMBIE && t[j].parent == Some(proc)
  }

  /** `waitpid` is "any child" or a slot of the table: `is_blocked` indexes the table with it unchecked. */
  predicate WaitTargetOk(p: Proc)
  {
    p.waitpid == -1 || 0 <= p.waitpid < NPROC
  }

  /** The scan of `is_blocked` for an exited child, from slot `i` upwards. */
  function FirstZombieChild(t: Table, proc: Pid, i: nat): (r: int)
    requires i <= NPROC
    ensures r == -1 || i <= r < NPROC
    ensures r == -1 <==> forall j: Pid :: i <= j ==> !ZombieChildOf(t, j, proc)
    ensures r != -1 ==> ZombieChildOf(t, r, proc)
    ensures r != -1 ==> forall j: Pid :: i <= j < r ==> !ZombieChildOf(t, j, proc)
    decreases NPROC - i
  {
    if i == NPROC then -1
    else if t[i].status == ZOMBIE && t[i].parent == Some(proc) then
      assert ZombieChildOf(t, i, proc);
      i
    else FirstZombieChild(t, proc, i + 1)
  }

  /**
   `is_blocked`, despite its name, reports whether the wait of `proc` is
   over: it yields the pid of the process it was waiting for, or -1 if
   that process has not exited. Waiting for "any child" picks the
   lowest-numbered exited child.
   */
  function IsBlocked(t: Table, proc: Pid): (r: int)
    requires WaitTargetOk(t[proc])
    ensures t[proc].waitpid == -1 ==>
      (r == -1 <==> forall j: Pid :: !ZombieChildOf(t, j, proc))
    ensures t[proc].waitpid == -1 && r != -1 ==>
      0 <= r < NPROC && ZombieChildOf(t, r, proc) && forall j: Pid :: j < r ==> !ZombieChildOf(t, j, proc)
    ensures t[proc].waitpid != -1 ==>
      (r != -1 <==> t[t[proc].waitpid].status == ZOMBIE) && (r != -1 ==> r == t[proc].waitpid)
  {
    if t[proc].waitpid == -1 then FirstZombieChild(t, proc, 0)
    else if t[t[proc].waitpid].status == ZOMBIE then t[proc].waitpid
    else -1
  }

  // ---------------------------------------------------------------------
  // schedule
  // ---------------------------------------------------------------------

  /** Every process on the blocked queue can be asked `IsBlocked`. */
  ghost predicate WaitsOk(t: Table, bq: seq<Pid>)
  {
    forall i {:trigger t[bq[i]]} :: 0 <= i < |bq| ==> WaitTargetOk(t[bq[i]])
  }

  /** The first position at or after `k` on the blocked queue whose wait is over, or `|bq|`. */
  ghost function FirstWoken(t: Table, bq: seq<Pid>, k: nat): (j: nat)
    requires k <= |bq| && WaitsOk(t, bq)
    ensures k <= j <= |bq|
    ensures j < |bq| ==> IsBlocked(t, bq[j]) != -1
    ensures forall i {:trigger IsBlocked(t, bq[i])} :: k <= i < j ==> IsBlocked(t, bq[i]) == -1
    decreases |bq| - k
  {
    if k == |bq| then |bq|
    else if IsBlocked(t, bq[k]) != -1 then k
    else FirstWoken(t, bq, k + 1)
  }

  /**
   The state after a sweep that woke `bq[j]`: it is now READY at the end
   of the ready queue, the blocked queue stops before it, nothing else
   changed status, and the records that were on neither queue or behind
   it are untouched.
   */
  ghost predicate WokeAt(s: State, s': State, rq: seq<Pid>, bq: seq<Pid>, j: nat)
    requires j < |bq|
  {
    && Queues(s', rq + [bq[j]], bq[..j])
    && s'.procs[bq[j]].status == READY
    && (forall x: Pid :: x != bq[j] ==> s'.procs[x].status == s.procs[x].status)
    && SameExceptSchedFields(s.procs, s'.procs)
    && (forall x: Pid :: x !in rq && x !in bq ==> s'.procs[x] == s.procs[x])
    && (forall i :: j < i < |bq| ==> s'.procs[bq[i]] == s.procs[bq[i]])
    && s'.hart == s.hart
  }

  /** One woken step of the sweep: insert into the ready queue, then remove from the blocked queue. */
  lemma WakeStep(s: State, rq: seq<Pid>, bq: seq<Pid>, k: nat)
    requires Queues(s, rq, bq) && WaitsOk(s.procs, bq) && k < |bq|
    ensures IsChain(InsertToReadyQueue(s, bq[k], rq).procs, s.blockedHead, bq[..k + 1])
    ensures
      var s2 := RemoveFromBlockedQueue(InsertToReadyQueue(s, bq[k], rq), bq[k], bq[..k + 1]);
      && Queues(s2, rq + [bq[k]], bq[..k])
      && WaitsOk(s2.procs, bq[..k])
      && s2.procs[bq[k]].queueNext == None
      && WokeAt(s, s2, rq, bq, k)
  {
    var x := bq[k];
    assert x !in rq;
    var s1 := InsertToReadyQueue(s, x, rq);
    EnqueueCutsOther(s.procs, s.readyHead, x, READY, rq, s.blockedHead, bq);
    var b1 := bq[..k + 1];
    var s2 := RemoveFromBlockedQueue(s1, x, b1);
    WakeChains(s, s1, s2, rq, bq, k);
    WakeFields(s, s1, s2, rq, bq, k);
  }

  lemma WakeChains(s: State, s1: State, s2: State, rq: seq<Pid>, bq: seq<Pid>, k: nat)
    requires Queues(s, rq, bq) && k < |bq|
    requires s1 == InsertToReadyQueue(s, bq[k], rq)
    requires IsChain(s1.procs, s1.blockedHead, bq[..k + 1])
    requires s2 == RemoveFromBlockedQueue(s1, bq[k], bq[..k + 1])
    ensures Queues(s2, rq + [bq[k]], bq[..k])
    ensures s2.procs[bq[k]].queueNext == None
  {
    var x := bq[k];
    var b1 := bq[..k + 1];
    assert x !in rq;
    assert b1[k] == x;
    assert b1[..k] + b1[k + 1..] == bq[..k];
    var r1 := rq + [x];
    forall i | 0 <= i < |r1|
      ensures s2.procs[r1[i]].queueNext == s1.procs[r1[i]].queueNext
    {
      if i < |rq| {
        assert r1[i] !in b1;
      }
    }
    ChainFrame(s1.procs, s2.procs, s2.readyHead, r1);
    forall i, j | 0 <= i < |r1| && 0 <= j < |bq[..k]|
      ensures r1[i] != bq[..k][j]
    {
      if i == |rq| {
        assert r1[i] == bq[k];
      }
    }
  }

  lemma WakeFields(s: State, s1: State, s2: State, rq: seq<Pid>, bq: seq<Pid>, k: nat)
    requires Queues(s, rq, bq) && WaitsOk(s.procs, bq) && k < |bq|
    requires s1 == InsertToReadyQueue(s, bq[k], rq)
    requires IsChain(s1.procs, s1.blockedHead, bq[..k + 1])
    requires s2 == RemoveFromBlockedQueue(s1, bq[k], bq[..k + 1])
    ensures WaitsOk(s2.procs, bq[..k])
    ensures s2.procs[bq[k]].status == READY
    ensures forall x: Pid :: x != bq[k] ==> s2.procs[x].status == s.procs[x].status
    ensures SameExceptSchedFields(s.procs, s2.procs)
    ensures forall x: Pid :: x !in rq && x !in bq ==> s2.procs[x] == s.procs[x]
    ensures forall i :: k < i < |bq| ==> s2.procs[bq[i]] == s.procs[bq[i]]
    ensures s2.hart == s.hart
  {
  }

  /**
   The loop `for (p = blocked_queue_head; p; p = p->queue_next)` of
   `schedule`, entered at position `k` of the blocked queue. A process
   whose wait is over is inserted into the ready queue and then removed
   from the blocked queue; the loop then follows that process's link,
   which the insertion has cleared, so the sweep stops after the first
   process it wakes.
   */
  function SweepFrom(s: State, p: Option<Pid>, ghost rq: seq<Pid>, ghost bq: seq<Pid>, ghost k: nat)
    : (s': State)
    requires Queues(s, rq, bq) && WaitsOk(s.procs, bq)
    requires k <= |bq| && p == (if k < |bq| then Some(bq[k]) else None)
    ensures FirstWoken(s.procs, bq, k) == |bq| ==> s' == s
    ensures FirstWoken(s.procs, bq, k) < |bq| ==> WokeAt(s, s', rq, bq, FirstWoken(s.procs, bq, k))
    decreases |bq| - k
  {
    match p
    case None => s
    case Some(x) =>
      if IsBlocked(s.procs, x) != -1 then
        WakeStep(s, rq, bq, k);
        var s1 := InsertToReadyQueue(s, x, rq);
        var s2 := RemoveFromBlockedQueue(s1, x, bq[..k + 1]);
        SweepFrom(s2, s2.procs[x].queueNext, rq + [x], bq[..k], k)
      else
        ChainStep(s.procs, x, bq[k..]);
        SweepFrom(s, s.procs[x].queueNext, rq, bq, k + 1)
  }

  /** How a call of `schedule` ends; the C function never returns. */
  datatype Outcome =
    | Shutdown             // shutdown(0): nothing left to run
    | Panic                // panic: something is unfinished but nothing is ready
    | AssertFail           // the assertion on the ready head's status fails
    | Dispatched(pid: Pid) // switch_to(current) is called with this process

  datatype Step = Step(state: State, outcome: Outcome)

  /** A process that needs no more scheduling. */
  predicate Finished(st: Status)
  {
    st == FREE || st == ZOMBIE
  }

  /** The `should_shutdown` scan of `schedule`, from slot `i` upwards. */
  function AllFinishedFrom(t: Table, i: nat): (r: bool)
    requires i <= NPROC
    ensures r <==> forall j: Pid :: i <= j ==> Finished(t[j].status)
    decreases NPROC - i
  {
    if i == NPROC then true
    else AllFinishedFrom(t, i + 1) && Finished(t[i].status)
  }

  /** The ready queue once the sweep is over. */
  ghost function ReadyAfterSweep(s: State, rq: seq<Pid>, bq: seq<Pid>): seq<Pid>
    requires WaitsOk(s.procs, bq)
  {
    var j := FirstWoken(s.procs, bq, 0);
    if j < |bq| then rq + [bq[j]] else rq
  }

  /** The sweep as `schedule` runs it: only when the blocked queue is non-empty. */
  function Sweep(s: State, ghost rq: seq<Pid>, ghost bq: seq<Pid>): (s': State)
    requires Queues(s, rq, bq) && WaitsOk(s.procs, bq)
    ensures var j := FirstWoken(s.procs, bq, 0);
      && Queues(s', ReadyAfterSweep(s, rq, bq), bq[..j])
      && (j == |bq| ==> s' == s)
      && (j < |bq| ==> WokeAt(s, s', rq, bq, j))
  {
    assert bq[..|bq|] == bq;
    if s.blockedHead.Some? then SweepFrom(s, s.blockedHead, rq, bq, 0) else s
  }

  /**
   `schedule`: sweep the blocked queue, then either end the run (nothing
   ready: shut down if every process is FREE or ZOMBIE, panic otherwise)
   or take the head of the ready queue, check that it is READY, mark it
   RUNNING, make it current and switch to it.
   */
  function Schedule(s: State, ghost rq: seq<Pid>, ghost bq: seq<Pid>): (r: Step)
    requires Queues(s, rq, bq) && WaitsOk(s.procs, bq)
    ensures r.outcome == Shutdown <==>
      |ReadyAfterSweep(s, rq, bq)| == 0 && forall x: Pid :: Finished(s.procs[x].status)
    ensures r.outcome == Panic <==>
      |ReadyAfterSweep(s, rq, bq)| == 0 && !(forall x: Pid :: Finished(s.procs[x].status))
    ensures r.outcome == AssertFail <==> |rq| > 0 && s.procs[rq[0]].status != READY
    ensures r.outcome.Shutdown? || r.outcome.Panic? ==> r.state == s
    ensures r.outcome.Dispatched? ==>
      var ready, j := ReadyAfterSweep(s, rq, bq), FirstWoken(s.procs, bq, 0);
      && |ready| > 0
      && r.outcome.pid == ready[0]
      && r.state.procs[ready[0]].status == RUNNING
      && r.state.hart == s.hart.(current := Some(ready[0]))
      && Queues(r.state, ready[1..], bq[..j])
      && (j < |bq| && bq[j] != ready[0] ==> r.state.procs[bq[j]].status == READY)
      && (forall x: Pid :: x != ready[0] && (j == |bq| || x != bq[j]) ==>
            r.state.procs[x].status == s.procs[x].status)
      && SameExceptSchedFields(s.procs, r.state.procs)
  {
    var s1 := Sweep(s, rq, bq);
    SweepHead(s, rq, bq);
    match s1.readyHead
    case None => Step(s1, if AllFinishedFrom(s1.procs, 0) then Shutdown else Panic)
    case Some(h) =>
      var s2 := s1.(hart := s1.hart.(current := Some(h)));
      if s2.procs[h].status != READY then Step(s2, AssertFail)
      else
        var s3 := s2.(readyHead := s2.procs[h].queueNext);
        var s4 := s3.(procs := s3.procs[h := s3.procs[h].(status := RUNNING)]);
        DispatchFacts(s, rq, bq, s4, h);
        Step(s4, Dispatched(h))
  }

  /**
   What `schedule` reads from the state the sweep leaves: the ready head
   is the first entry of the new ready queue, and it fails the READY
   check exactly when the old ready head did.
   */
  lemma SweepHead(s: State, rq: seq<Pid>, bq: seq<Pid>)
    requires Queues(s, rq, bq) && WaitsOk(s.procs, bq)
    ensures var s1, ready := Sweep(s, rq, bq), ReadyAfterSweep(s, rq, bq);
      && (|ready| == 0 ==> s1 == s && s1.readyHead.None?)
      && (|ready| > 0 ==> s1.readyHead == Some(ready[0]))
      && (|ready| > 0 ==>
            (s1.procs[ready[0]].status != READY <==> |rq| > 0 && s.procs[rq[0]].status != READY))
  {
    var j := FirstWoken(s.procs, bq, 0);
    if |rq| > 0 && j < |bq| {
      assert rq[0] != bq[j];
    }
  }

  /** The dispatch half of `schedule`, after a sweep that left a READY process at the ready head. */
  lemma DispatchFacts(s: State, rq: seq<Pid>, bq: seq<Pid>, s4: State, h: Pid)
    requires Queues(s, rq, bq) && WaitsOk(s.procs, bq)
    requires Sweep(s, rq, bq).readyHead == Some(h) && Sweep(s, rq, bq).procs[h].status == READY
    requires var s1 := Sweep(s, rq, bq);
      s4 == s1.(hart := s1.hart.(current := Some(h)), readyHead := s1.procs[h].queueNext,
                procs := s1.procs[h := s1.procs[h].(status := RUNNING)])
    ensures var ready, j := ReadyAfterSweep(s, rq, bq), FirstWoken(s.procs, bq, 0);
      && |ready| > 0 && h == ready[0]
      && s4.procs[ready[0]].status == RUNNING
      && s4.hart == s.hart.(current := Some(ready[0]))
      && Queues(s4, ready[1..], bq[..j])
      && (j < |bq| && bq[j] != ready[0] ==> s4.procs[bq[j]].status == READY)
      && (forall x: Pid :: x != ready[0] && (j == |bq| || x != bq[j]) ==>
            s4.procs[x].status == s.procs[x].status)
      && SameExceptSchedFields(s.procs, s4.procs)
      && (forall x: Pid :: x !in rq && x !in bq ==> s4.procs[x] == s.procs[x])
      && (forall i :: j < i < |bq| ==> s4.procs[bq[i]] == s.procs[bq[i]])
  {
    var s1, ready, j := Sweep(s, rq, bq), ReadyAfterSweep(s, rq, bq), FirstWoken(s.procs, bq, 0);
    SweepHead(s, rq, bq);
    DispatchKeepsQueues(s1, s4, ready, bq[..j]);
  }

  /** Taking the head off the ready queue and marking it RUNNING leaves two well-formed queues. */
  lemma DispatchKeepsQueues(s1: State, s4: State, ready: seq<Pid>, blocked: seq<Pid>)
    requires Queues(s1, ready, blocked) && |ready| > 0
    requires s4.readyHead == s1.procs[ready[0]].queueNext
    requires s4.blockedHead == s1.blockedHead
    requires s4.procs == s1.procs[ready[0] := s1.procs[ready[0]].(status := RUNNING)]
    ensures Queues(s4, ready[1..], blocked)
  {
    ChainStep(s1.procs, ready[0], ready);
    ChainFrame(s1.procs, s4.procs, s4.readyHead, ready[1..]);
    ChainFrame(s1.procs, s4.procs, s4.blockedHead, blocked);
  }
}
