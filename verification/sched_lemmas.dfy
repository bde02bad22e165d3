/**
 Properties of the scheduler that relate several calls, or a call and
 an invariant: idempotent enqueueing, the effect of the shared queue
 link, what one sweep of the blocked queue leaves behind, and when the
 "status matches queue membership" invariant survives `schedule`.
 */
module SchedLemmas {
  import opened Wrappers
  import opened Process
  import opened Chain
  import opened Sched

  /** Inserting a process into the ready queue twice is the same as inserting it once. */
  lemma {:induction false} InsertToReadyQueueIdempotent(s: State, proc: Pid, rq: seq<Pid>, rq': seq<Pid>)
    requires IsChain(s.procs, s.readyHead, rq)
    requires IsChain(InsertToReadyQueue(s, proc, rq).procs, InsertToReadyQueue(s, proc, rq).readyHead, rq')
    ensures InsertToReadyQueue(InsertToReadyQueue(s, proc, rq), proc, rq') == InsertToReadyQueue(s, proc, rq)
  {
    var s1 := InsertToReadyQueue(s, proc, rq);
    if proc in rq {
      ChainUnique(s.procs, s.readyHead, rq, rq');
    } else {
      ChainUnique(s1.procs, s1.readyHead, rq + [proc], rq');
      assert proc in rq';
    }
  }

  /** Inserting a process into the blocked queue twice is the same as inserting it once. */
  lemma {:induction false} InsertToBlockedQueueIdempotent(s: State, proc: Pid, bq: seq<Pid>, bq': seq<Pid>)
    requires IsChain(s.procs, s.blockedHead, bq)
    requires IsChain(InsertToBlockedQueue(s, proc, bq).procs, InsertToBlockedQueue(s, proc, bq).blockedHead, bq')
    ensures InsertToBlockedQueue(InsertToBlockedQueue(s, proc, bq), proc, bq') == InsertToBlockedQueue(s, proc, bq)
  {
    var s1 := InsertToBlockedQueue(s, proc, bq);
    if proc in bq {
      ChainUnique(s.procs, s.blockedHead, bq, bq');
    } else {
      ChainUnique(s1.procs, s1.blockedHead, bq + [proc], bq');
      assert proc in bq';
    }
  }

  /**
   The ready and blocked queues share the `queueNext` field. Inserting a
   process that is not blocked leaves the blocked queue alone and keeps
   the queues disjoint; inserting a process that sits at position `k` of
   the blocked queue clears its link and so cuts the blocked queue right
   after it.
   */
  lemma InsertToReadyQueueCutsBlocked(s: State, proc: Pid, rq: seq<Pid>, bq: seq<Pid>)
    requires Queues(s, rq, bq)
    ensures proc !in bq ==>
      Queues(InsertToReadyQueue(s, proc, rq), if proc in rq then rq else rq + [proc], bq)
    ensures forall k :: 0 <= k < |bq| && bq[k] == proc ==>
      IsChain(InsertToReadyQueue(s, proc, rq).procs, s.blockedHead, bq[..k + 1])
  {
    EnqueueCutsOther(s.procs, s.readyHead, proc, READY, rq, s.blockedHead, bq);
  }

  /** The same effect of the shared link, with the roles of the queues exchanged. */
  lemma InsertToBlockedQueueCutsReady(s: State, proc: Pid, rq: seq<Pid>, bq: seq<Pid>)
    requires Queues(s, rq, bq)
    ensures proc !in rq ==>
      Queues(InsertToBlockedQueue(s, proc, bq), rq, if proc in bq then bq else bq + [proc])
    ensures forall k :: 0 <= k < |rq| && rq[k] == proc ==>
      IsChain(InsertToBlockedQueue(s, proc, bq).procs, s.readyHead, rq[..k + 1])
  {
    EnqueueCutsOther(s.procs, s.blockedHead, proc, BLOCKED, bq, s.readyHead, rq);
  }

  /**
   After a sweep that wakes `bq[j]`, every process behind it on the old
   blocked queue is on neither queue, and its status is unchanged: a
   BLOCKED process there is never looked at by a later sweep.
   */
  lemma {:induction false} SweepDropsLaterBlocked(s: State, rq: seq<Pid>, bq: seq<Pid>, rq': seq<Pid>, bq': seq<Pid>)
    requires Queues(s, rq, bq) && WaitsOk(s.procs, bq)
    requires IsChain(Sweep(s, rq, bq).procs, Sweep(s, rq, bq).readyHead, rq')
    requires IsChain(Sweep(s, rq, bq).procs, Sweep(s, rq, bq).blockedHead, bq')
    ensures forall i :: FirstWoken(s.procs, bq, 0) < i < |bq| ==>
      && bq[i] !in rq'
      && bq[i] !in bq'
      && Sweep(s, rq, bq).procs[bq[i]].status == s.procs[bq[i]].status
  {
    var s' := Sweep(s, rq, bq);
    var j := FirstWoken(s.procs, bq, 0);
    ChainUnique(s'.procs, s'.readyHead, ReadyAfterSweep(s, rq, bq), rq');
    ChainUnique(s'.procs, s'.blockedHead, bq[..j], bq');
    forall i | j < i < |bq|
      ensures bq[i] !in rq' && bq[i] !in bq'
    {
      assert forall m :: 0 <= m < |rq| ==> rq[m] != bq[i];
      assert forall m :: 0 <= m < j ==> bq[m] != bq[i];
    }
  }

  /** Every process's status agrees with the queue it is on (the intended invariant). */
  ghost predicate StatusMatchesQueues(s: State, rq: seq<Pid>, bq: seq<Pid>)
  {
    forall x: Pid ::
      && (s.procs[x].status == READY <==> x in rq)
      && (s.procs[x].status == BLOCKED <==> x in bq)
  }

  /** Queueing a process that is not blocked keeps statuses and queues in agreement. */
  lemma InsertToReadyQueueKeepsStatusMatch(s: State, proc: Pid, rq: seq<Pid>, bq: seq<Pid>)
    requires Queues(s, rq, bq) && StatusMatchesQueues(s, rq, bq) && proc !in bq
    ensures StatusMatchesQueues(InsertToReadyQueue(s, proc, rq), if proc in rq then rq else rq + [proc], bq)
  {
    var s', rq' := InsertToReadyQueue(s, proc, rq), if proc in rq then rq else rq + [proc];
    forall x: Pid
      ensures (s'.procs[x].status == READY <==> x in rq') && (s'.procs[x].status == BLOCKED <==> x in bq)
    {
      if x == proc {
        assert proc in rq';
      } else {
        assert x in rq' <==> x in rq;
      }
    }
    assert StatusMatchesQueues(s', rq', bq);
  }

  /** Blocking a process that is not ready keeps statuses and queues in agreement. */
  lemma InsertToBlockedQueueKeepsStatusMatch(s: State, proc: Pid, rq: seq<Pid>, bq: seq<Pid>)
    requires Queues(s, rq, bq) && StatusMatchesQueues(s, rq, bq) && proc !in rq
    ensures StatusMatchesQueues(InsertToBlockedQueue(s, proc, bq), rq, if proc in bq then bq else bq + [proc])
  {
    var s', bq' := InsertToBlockedQueue(s, proc, bq), if proc in bq then bq else bq + [proc];
    forall x: Pid
      ensures (s'.procs[x].status == READY <==> x in rq) && (s'.procs[x].status == BLOCKED <==> x in bq')
    {
      if x == proc {
        assert proc in bq';
      } else {
        assert x in bq' <==> x in bq;
      }
    }
    assert StatusMatchesQueues(s', rq, bq');
  }

  /**
   When no blocked process is left behind the one woken (it is the last
   on the blocked queue, or none is woken), `schedule` keeps statuses and
   queues in agreement; the process it switches to is on neither queue.
   */
  lemma ScheduleKeepsStatusMatch(s: State, rq: seq<Pid>, bq: seq<Pid>)
    requires Queues(s, rq, bq) && WaitsOk(s.procs, bq) && StatusMatchesQueues(s, rq, bq)
    requires FirstWoken(s.procs, bq, 0) >= |bq| - 1
    ensures Schedule(s, rq, bq).outcome != AssertFail
    ensures
      var r, ready, j := Schedule(s, rq, bq), ReadyAfterSweep(s, rq, bq), FirstWoken(s.procs, bq, 0);
      r.outcome.Dispatched? ==> StatusMatchesQueues(r.state, ready[1..], bq[..j])
  {
    var r, ready, j := Schedule(s, rq, bq), ReadyAfterSweep(s, rq, bq), FirstWoken(s.procs, bq, 0);
    if |rq| > 0 {
      assert rq[0] in rq;
    }
    if r.outcome.Dispatched? {
      DispatchKeepsStatusMatch(s, r.state, rq, bq, ready, j);
    }
  }

  /** The bookkeeping behind `ScheduleKeepsStatusMatch`, stated over the two states only. */
  lemma DispatchKeepsStatusMatch(s: State, s': State, rq: seq<Pid>, bq: seq<Pid>, ready: seq<Pid>, j: nat)
    requires Distinct(ready) && Distinct(bq) && Disjoint(rq, bq) && StatusMatchesQueues(s, rq, bq)
    requires |bq| - 1 <= j <= |bq|
    requires ready == if j < |bq| then rq + [bq[j]] else rq
    requires |ready| > 0 && s'.procs[ready[0]].status == RUNNING
    requires j < |bq| && bq[j] != ready[0] ==> s'.procs[bq[j]].status == READY
    requires forall x: Pid :: x != ready[0] && (j == |bq| || x != bq[j]) ==>
      s'.procs[x].status == s.procs[x].status
    ensures StatusMatchesQueues(s', ready[1..], bq[..j])
  {
    forall x: Pid
      ensures (s'.procs[x].status == READY <==> x in ready[1..])
      ensures (s'.procs[x].status == BLOCKED <==> x in bq[..j])
    {
      DispatchStatusOf(s, s', rq, bq, ready, j, x);
    }
    assert StatusMatchesQueues(s', ready[1..], bq[..j]);
  }

  lemma DispatchStatusOf(s: State, s': State, rq: seq<Pid>, bq: seq<Pid>, ready: seq<Pid>, j: nat, x: Pid)
    requires Distinct(ready) && Distinct(bq) && Disjoint(rq, bq) && StatusMatchesQueues(s, rq, bq)
    requires |bq| - 1 <= j <= |bq|
    requires ready == if j < |bq| then rq + [bq[j]] else rq
    requires |ready| > 0 && s'.procs[ready[0]].status == RUNNING
    requires j < |bq| && bq[j] != ready[0] ==> s'.procs[bq[j]].status == READY
    requires x != ready[0] && (j == |bq| || x != bq[j]) ==> s'.procs[x].status == s.procs[x].status
    ensures (s'.procs[x].status == READY <==> x in ready[1..])
    ensures (s'.procs[x].status == BLOCKED <==> x in bq[..j])
  {
    var h := ready[0];
    if x == h {
      assert h !in ready[1..] by { assert forall m :: 1 <= m < |ready| ==> ready[m] != ready[0]; }
      assert h !in bq[..j] by {
        if |rq| > 0 {
          assert forall m :: 0 <= m < j ==> bq[m] != rq[0];
        } else {
          assert forall m :: 0 <= m < j ==> bq[m] != bq[j];
        }
      }
    } else if j < |bq| && x == bq[j] {
      assert x in ready[1..] by { assert ready[1..][|ready| - 2] == x; }
      assert x !in bq[..j] by { assert forall m :: 0 <= m < j ==> bq[m] != bq[j]; }
      assert x !in rq by { assert forall m :: 0 <= m < |rq| ==> rq[m] != bq[j]; }
    } else {
      assert x in rq <==> x in ready[1..] by {
        if x in rq {
          var m :| 0 <= m < |rq| && rq[m] == x;
          assert ready[1..][m - 1] == x;
        }
        if x in ready[1..] {
          var m :| 0 <= m < |ready[1..]| && ready[1..][m] == x;
          assert ready[m + 1] == x;
        }
      }
      assert x in bq <==> x in bq[..j] by {
        if x in bq {
          var m :| 0 <= m < |bq| && bq[m] == x;
          assert bq[..j][m] == x;
        }
      }
    }
  }

  /**
   The invariant does not survive a sweep that wakes a process with more
   blocked processes behind it: the next one keeps status BLOCKED but is
   on neither queue any more, whatever chains the new state has.
   */
  lemma ScheduleLosesBlocked(s: State, rq: seq<Pid>, bq: seq<Pid>, rq': seq<Pid>, bq': seq<Pid>)
    requires Queues(s, rq, bq) && WaitsOk(s.procs, bq) && StatusMatchesQueues(s, rq, bq)
    requires FirstWoken(s.procs, bq, 0) < |bq| - 1
    requires IsChain(Schedule(s, rq, bq).state.procs, Schedule(s, rq, bq).state.readyHead, rq')
    requires IsChain(Schedule(s, rq, bq).state.procs, Schedule(s, rq, bq).state.blockedHead, bq')
    ensures Schedule(s, rq, bq).outcome.Dispatched?
    ensures var y := bq[FirstWoken(s.procs, bq, 0) + 1];
      && Schedule(s, rq, bq).state.procs[y].status == BLOCKED
      && y !in rq'
      && y !in bq'
    ensures !StatusMatchesQueues(Schedule(s, rq, bq).state, rq', bq')
  {
    var r, ready, j := Schedule(s, rq, bq), ReadyAfterSweep(s, rq, bq), FirstWoken(s.procs, bq, 0);
    if |rq| > 0 {
      assert rq[0] in rq;
    }
    assert r.outcome.Dispatched?;
    ChainUnique(r.state.procs, r.state.readyHead, ready[1..], rq');
    ChainUnique(r.state.procs, r.state.blockedHead, bq[..j], bq');
    var y := bq[j + 1];
    LaterBlockedOffQueues(rq, bq, j);
    assert y in bq;
    assert r.state.procs[y].status == BLOCKED;
  }

  /** The pid behind the woken one is neither on the new ready queue nor on the cut blocked queue. */
  lemma LaterBlockedOffQueues(rq: seq<Pid>, bq: seq<Pid>, j: nat)
    requires Distinct(bq) && Disjoint(rq, bq) && j + 1 < |bq|
    ensures bq[j + 1] != (rq + [bq[j]])[0]
    ensures bq[j + 1] !in (rq + [bq[j]])[1..]
    ensures bq[j + 1] !in bq[..j]
  {
  }

  /**
   Besides the head it dispatches and the process it wakes, `schedule`
   touches only links of records on the queues: every record that was on
   neither queue, or behind the woken process, is exactly as before.
   */
  lemma ScheduleFrame(s: State, rq: seq<Pid>, bq: seq<Pid>)
    requires Queues(s, rq, bq) && WaitsOk(s.procs, bq)
    ensures var r, j := Schedule(s, rq, bq), FirstWoken(s.procs, bq, 0);
      && (forall x: Pid :: x !in rq && x !in bq ==> r.state.procs[x] == s.procs[x])
      && (forall i :: j < i < |bq| ==> r.state.procs[bq[i]] == s.procs[bq[i]])
  {
    var s1 := Sweep(s, rq, bq);
    SweepHead(s, rq, bq);
    if s1.readyHead.Some? && s1.procs[s1.readyHead.value].status == READY {
      var h := s1.readyHead.value;
      var s4 := s1.(hart := s1.hart.(current := Some(h)), readyHead := s1.procs[h].queueNext,
                    procs := s1.procs[h := s1.procs[h].(status := RUNNING)]);
      DispatchFacts(s, rq, bq, s4, h);
      assert Schedule(s, rq, bq).state == s4;
    }
  }

  /**
   `schedule` ends with `switch_to(current)`: the process it dispatches
   is the one `switch_to` makes current and returns to, in user mode,
   at its saved program counter, still RUNNING.
   */
  lemma ScheduleThenSwitchTo(s: State, rq: seq<Pid>, bq: seq<Pid>, trapVector: Word, trapHandler: Word)
    requires Queues(s, rq, bq) && WaitsOk(s.procs, bq)
    requires Schedule(s, rq, bq).outcome.Dispatched?
    ensures
      var r := Schedule(s, rq, bq);
      var p := r.outcome.pid;
      var t := Process.SwitchTo(r.state.hart, r.state.procs, r.state.hart.current, trapVector, trapHandler);
      && t.ReturnToUser?
      && t.hart.current == Some(p)
      && t.procs[p].status == RUNNING
      && t.hart.sepc == s.procs[p].trapframe.epc
      && t.frame.kernelSp == s.procs[p].kstack
      && t.hart.sstatus & SSTATUS_SPP == 0
  {
  }

  /**
   A parent waiting for any child while one child has exited and another
   is still running: `schedule` finds the exited child, wakes the parent
   and dispatches it, and leaves the running child alone.
   */
  lemma WaitForAnyChildScenario(s: State, parent: Pid, exited: Pid, running: Pid)
    requires Queues(s, [], [parent])
    requires s.procs[parent].status == BLOCKED && s.procs[parent].waitpid == -1
    requires ZombieChildOf(s.procs, exited, parent)
    requires forall x: Pid :: x != exited ==> !ZombieChildOf(s.procs, x, parent)
    requires s.procs[running].status == RUNNING && s.procs[running].parent == Some(parent)
    ensures IsBlocked(s.procs, parent) == exited
    ensures Schedule(s, [], [parent]).outcome == Dispatched(parent)
    ensures Schedule(s, [], [parent]).state.procs[parent].status == RUNNING
    ensures Schedule(s, [], [parent]).state.procs[running] == s.procs[running]
    ensures Schedule(s, [], [parent]).state.blockedHead == None
  {
    assert FirstWoken(s.procs, [parent], 0) == 0;
  }

  /** Nothing queued and every process FREE or ZOMBIE: the machine shuts down. */
  lemma AllFinishedScenario(s: State)
    requires Queues(s, [], []) && forall x: Pid :: Finished(s.procs[x].status)
    ensures Schedule(s, [], []).outcome == Shutdown
  {
  }

  /** A lone blocked process whose children have not exited: nothing can run, so the kernel panics. */
  lemma UnfinishableWaitScenario(s: State, p: Pid)
    requires Queues(s, [], [p])
    requires s.procs[p].status == BLOCKED && s.procs[p].waitpid == -1
    requires forall x: Pid :: !ZombieChildOf(s.procs, x, p)
    ensures Schedule(s, [], [p]).outcome == Panic
  {
    assert FirstWoken(s.procs, [p], 0) == 1;
    assert !Finished(s.procs[p].status);
  }
}
