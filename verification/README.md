# Scheduler queues and `switch_to` of the PKE teaching kernel, in Dafny

This project models the process-multiplexing core of a small RISC-V
supervisor-mode kernel (the PKE lab kernel). It covers two parts:

- **The scheduler** (`kernel/sched.c`). It keeps two intrusive singly linked
  queues, ready and blocked, over a fixed process table. It has the
  wait-condition query `is_blocked` and the decision `schedule()`. That
  decision sweeps the blocked queue, then shuts down or panics when nothing
  is ready, or else dequeues the ready head and dispatches it.
- **The context switch** `switch_to` (`kernel/process.c`). It sets the
  `current` pointer, `stvec`, the trapframe's kernel re-entry fields, the
  `sstatus` and `sepc` CSRs, and then hands the trapframe to `return_to_user`.

## How the model is built

- `wrappers.dfy` (`Wrappers`): `Option`, standing for a nullable pointer.
- `process.dfy` (`Process`): the records, and `switch_to` itself.
  - The records are `Trapframe`, `Proc` and `Hart`. `Hart` holds `stvec`,
    `sstatus`, `sepc` and the `current` pointer.
  - The process table is `Table`, a sequence of exactly `NPROC` records.
  - `sstatus` is a `bv64`. SPP is bit 8 and SPIE is bit 5, as in section
    4.1.1 of the RISC-V Privileged Architecture specification.
  - The link-time addresses of the trap vector and of the trap handler are
    parameters.
  - `switch_to` returns a `Transfer`. That is either `NullProcess` (the
    failed `assert(proc)`) or `ReturnToUser(hart, table, trapframe)`: the
    state at the moment `return_to_user` is called.
- `chain.dfy` (`Chain`): what a queue is.
  - A queue is a head pointer plus the single `queueNext` link of every
    record. Both queues share that one link, as in the C code.
  - `IsChain(t, head, q)` says that following the links from `head` visits
    exactly the distinct pids `q` and then reaches NULL.
  - `ChainUnique` shows that a head pointer determines its queue.
  - The other lemmas give the effect of the two relinkings the code
    performs: appending at the tail and skipping a node.
- `sched.dfy` (`Sched`): every function of `kernel/sched.c` except the
  debug printer.
  - Each one is a pure function from the scheduler globals (`State`: table,
    two queue heads, hart) to new globals.
  - Each takes the current queue contents as a ghost argument. That
    argument is used for termination and in contracts, never to compute a
    result.
  - `schedule()` returns a `Step`: the new state plus an `Outcome`. The
    outcome is `Shutdown`, `Panic`, `AssertFail` or `Dispatched(pid)`, in
    place of the calls that never return.
- `sched_lemmas.dfy` (`SchedLemmas`): properties that relate several calls,
  or a call and an invariant.

## What the code does

- **One wake-up per sweep.** The loop at `kernel/sched.c:111-116` is
  written to visit every process on the blocked queue and wake each one
  whose wait is over. It follows the `queue_next` link, and that link is
  cleared along the way:
  - `insert_to_ready_queue` sets `queue_next = NULL` on the woken process
    (`kernel/sched.c:20`, `:35`).
  - `remove_from_blocked_queue` then reads that link (`:73`, `:81`), and so
    does the loop's `p = p->queue_next` (`:111`).
  - So a sweep wakes at most the first satisfied process and then stops.
  - The blocked processes behind it are unlinked from the blocked queue.
    A later sweep starts at `blocked_queue_head`, so it does not reach
    them unless something re-inserts them. They keep the status BLOCKED.

  The model follows the code. `Sched.SweepFrom` and `Sched.Sweep` state
  exactly this behaviour. `SchedLemmas.SweepDropsLaterBlocked` and
  `SchedLemmas.ScheduleLosesBlocked` prove its consequences:
  - The invariant "READY ⇔ on the ready queue, BLOCKED ⇔ on the blocked
    queue" breaks whenever the woken process is not the last one on the
    blocked queue: the process right behind it stays BLOCKED and is on
    neither queue.
  - `SchedLemmas.ScheduleKeepsStatusMatch` proves that the invariant holds
    otherwise.
- **No address-space switch.** The trapframe has a `kernel_satp` field
  (`kernel/process.h:17-18`) that this `switch_to` never sets: it fills in
  only `kernel_sp` and `kernel_trap` (`kernel/process.c:39-40`), and
  `return_to_user` receives only the trapframe (`:55`). The model does the
  same.

## Model

| member | source | states |
|---|---|---|
| Process.UserReturnStatus | kernel/process.c:44-49 | the new status word has SPP clear and SPIE set; every other bit equals the old word's |
| Process.UserReturnStatusIdempotent | kernel/process.c:44-46 | applying the status-word update to its own result gives the same word |
| Process.SwitchTo | kernel/process.c:28-56 | a null process is a failed assertion; otherwise the process becomes current, `stvec` holds the trap vector, the trapframe gets the process's kernel stack and the handler address with registers, `epc` and `kernel_satp` kept, `sstatus` returns to user mode with interrupts enabled, `sepc` is the saved `epc`, only this process's record changes, and its trapframe is handed to `return_to_user` |
| Chain.ChainUnique | kernel/sched.c:8-10 | a queue head pointer together with the links determines the whole queue |
| Chain.ChainAppend | kernel/sched.c:33-35 | linking a new process after the tail, with its own link cleared, yields the old queue followed by that process |
| Chain.ChainSkip | kernel/sched.c:79-85 | pointing the predecessor at the successor of the k-th node removes exactly that node and keeps the order of the others |
| Sched.FindTail | kernel/sched.c:26-32 | the scan stops with "already queued" exactly when the process is on the queue, and otherwise ends at the queue's last node |
| Sched.InsertToReadyQueue | kernel/sched.c:15-38 | if the process is already on the ready queue, nothing changes; otherwise it is appended at the tail (a singleton queue when the queue was empty), marked READY with a NULL link, and no other process's status changes |
| Sched.InsertToBlockedQueue | kernel/sched.c:43-64 | the same three contracts for the blocked queue and status BLOCKED |
| Sched.UnlinkAfter | kernel/sched.c:76-87 | the fast/slow walk changes nothing if the process is absent, and otherwise relinks only the process's predecessor |
| Sched.RemoveFromBlockedQueue | kernel/sched.c:67-88 | nothing changes when the queue is empty or the process is absent; otherwise the queue becomes the old one without the process, others in their order (head and interior alike); no status changes, and records off the queue are untouched |
| Sched.FirstZombieChild | kernel/sched.c:152-156 | the scan returns the lowest slot holding an exited child of the process, or -1 when there is none |
| Sched.IsBlocked | kernel/sched.c:150-162 | waiting for any child: the lowest-numbered ZOMBIE child, or -1 if none; waiting for a pid: that pid if it is ZOMBIE, else -1; the pid must be a table slot |
| Sched.AllFinishedFrom | kernel/sched.c:122-129 | `should_shutdown` stays 1 exactly when every process is FREE or ZOMBIE |
| Sched.SweepFrom | kernel/sched.c:110-116 | if no process from this point on has its wait satisfied, nothing changes; otherwise only the first one is woken (READY, appended to the ready queue), the blocked queue stops just before it, and no other status changes |
| Sched.Sweep | kernel/sched.c:109-117 | the sweep leaves two well-formed disjoint queues: the ready queue plus at most the first satisfied blocked process, and the blocked queue cut just before that process; records on neither queue or behind the woken one are unchanged |
| Sched.Schedule | kernel/sched.c:107-146 | Shutdown iff nothing is ready after the sweep and every process is FREE or ZOMBIE; Panic iff nothing is ready and some process is not; AssertFail iff the ready head is not READY; otherwise the head is dispatched: it becomes RUNNING and current, the rest of the ready queue keeps its order, and no other status changes beyond the sweep's |
| Sched.DispatchKeepsQueues | kernel/sched.c:139-143 | taking the head off the ready queue and marking it RUNNING leaves the rest of the ready queue in order and the blocked queue intact |
| SchedLemmas.InsertToReadyQueueIdempotent | kernel/sched.c:26-32 | inserting a process into the ready queue twice equals inserting it once |
| SchedLemmas.InsertToBlockedQueueIdempotent | kernel/sched.c:51-58 | inserting a process into the blocked queue twice equals inserting it once |
| SchedLemmas.InsertToReadyQueueCutsBlocked | kernel/sched.c:18-35 | inserting a process that is not blocked keeps the queues disjoint and the blocked queue intact; inserting the k-th blocked process cuts the blocked queue right after it, because the link is shared |
| SchedLemmas.InsertToBlockedQueueCutsReady | kernel/sched.c:45-62 | the same effect of the shared link, with the two queues exchanged |
| SchedLemmas.SweepDropsLaterBlocked | kernel/sched.c:111-115 | after a sweep, every process behind the woken one is on neither queue and keeps its status |
| SchedLemmas.InsertToReadyQueueKeepsStatusMatch | kernel/sched.c:15-38 | queueing a process that is not blocked keeps "READY iff on the ready queue, BLOCKED iff on the blocked queue" |
| SchedLemmas.InsertToBlockedQueueKeepsStatusMatch | kernel/sched.c:43-64 | blocking a process that is not ready keeps the same agreement |
| SchedLemmas.ScheduleKeepsStatusMatch | kernel/sched.c:107-146 | when the sweep leaves no blocked process behind the woken one, `schedule` cannot fail its assertion and keeps statuses and queues in agreement |
| SchedLemmas.ScheduleLosesBlocked | kernel/sched.c:109-117 | when a blocked process sits behind the woken one, `schedule` dispatches; afterwards the process right behind the woken one is still BLOCKED but on neither the ready nor the blocked queue, whatever chains the new state has, so statuses and queues no longer agree |
| SchedLemmas.ScheduleFrame | kernel/sched.c:107-146 | whatever the outcome, every record that was on neither queue, and every blocked record behind the woken process, is exactly as before `schedule` |
| SchedLemmas.ScheduleThenSwitchTo | kernel/sched.c:139-145 | the process `schedule` dispatches is the one `switch_to` makes current and returns to, still RUNNING, at its saved `epc`, in user mode |
| SchedLemmas.WaitForAnyChildScenario | kernel/sched.c:107-162 | a parent waiting for any child, with one child exited and one running: the query reports the exited child, the parent is dispatched, and the running child's record is exactly as before |
| SchedLemmas.AllFinishedScenario | kernel/sched.c:119-133 | with both queues empty and every process FREE or ZOMBIE, `schedule` shuts down |
| SchedLemmas.UnfinishableWaitScenario | kernel/sched.c:119-136 | with one process blocked on children that never exited and nothing ready, `schedule` panics |

## Left out

- The per-process heap allocator (`memblock_alloc`, `memblock_free`) is not part of this model. Only its declarations (`kernel/process.h:29-30`) and a user program calling it are available, not its body.
- `print_blocked_queue` and `print_error_line` are left out. They are debug output; the second also reads a source file through the host.
- All `sprint` logging is left out. So is the `pid` field, which only logging reads.
- `shutdown`, `panic`, `assert` failure and `return_to_user` never return. They are modelled as terminal outcomes (`Outcome`, `Transfer`), not as behaviour.
- `kernel/kernel.c` is left out: the boot path, argument retrieval from the host, ELF loading, and the spin lock and barrier across harts.
- Concurrent access to the queues from several harts is left out. The code does not synchronise it, and it is not a sequential property.
- `TIME_SLICE_LEN` drives no logic in this code.
- `NPROC` comes from `kernel/config.h`, which is not part of this model. It is fixed at 32 here, and no proof depends on the value.
- The layout of `riscv_regs` is not modelled. The registers are an opaque sequence of words that `switch_to` carries over unchanged.
- Sched.Schedule: requires both queues to be well-formed, acyclic and disjoint (`Queues`). The C code does not check this. On a cyclic blocked queue where no process's wait is over, the sweep loop (`kernel/sched.c:111`) never ends. On a cyclic ready queue, the scan in `insert_to_ready_queue` (`kernel/sched.c:28`) never ends once the sweep wakes a process. Disjointness is the invariant the sweep relies on when it moves a blocked process to the ready queue. Cyclic or overlapping queues on which the C code happens to terminate are not modelled.
- Sched.Schedule: requires every process on the blocked queue to have a valid wait target. The code reads the wait target only of the processes the sweep visits, up to the first one it wakes.
- Sched.IsBlocked: requires `waitpid` to be -1 or a table slot. The code indexes the table with it unchecked.
