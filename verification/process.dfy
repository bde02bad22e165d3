/**
 Process records, the hart's privileged state, and `switch_to`, the
 transfer of a hart to a user-mode process (kernel/process.c).

 The record layout follows kernel/process.h for the trapframe and the
 kernel stack; the scheduling fields (status, parent, waitpid, queue link)
 that kernel/sched.c relies on are not in that header and are defined here
 abstractly.
 */
module Process {
  import opened Wrappers

  /** A 64-bit machine word (`uint64`). */
  type Word = bv64

  /** Capacity of the process table. */
  const NPROC: nat := 32

  /** A process identifier: an index into the process table. */
  type Pid = p: nat | p < NPROC

  datatype Status = FREE | READY | RUNNING | BLOCKED | ZOMBIE

  /** Saved user context plus the fields a trap needs to re-enter the kernel. */
  datatype Trapframe = Trapframe(
    regs: seq<Word>,    // the general registers, never inspected here
    kernelSp: Word,     // the process's kernel stack
    kernelTrap: Word,   // address of the S-mode trap handler
    epc: Word,          // saved user program counter
    kernelSatp: Word)   // kernel page-table token

  /** One process-table slot. `waitpid == -1` means "wait for any child". */
  datatype Proc = Proc(
    kstack: Word,
    trapframe: Trapframe,
    status: Status,
    parent: Option<Pid>,
    waitpid: int,
    queueNext: Option<Pid>)

  const FreeSlot: Proc :=
    Proc(0, Trapframe([], 0, 0, 0, 0), FREE, None, -1, None)

  /** The process table `procs[NPROC]`. */
  type Table = t: seq<Proc> | |t| == NPROC witness seq(NPROC, _ => FreeSlot)

  /** The per-hart state `switch_to` touches: three CSRs and the `current` pointer. */
  datatype Hart = Hart(stvec: Word, sstatus: Word, sepc: Word, current: Option<Pid>)

  /** Bit 8 of `sstatus`: the privilege mode before the trap (1 = supervisor). */
  const SSTATUS_SPP: Word := 1 << 8
  /** Bit 5 of `sstatus`: the interrupt-enable bit before the trap. */
  const SSTATUS_SPIE: Word := 1 << 5

  /**
   The status word `sret` should see: return to user mode with
   interrupts enabled. Every bit other than SPP and SPIE is kept.
   */
  function UserReturnStatus(x: Word): (r: Word)
    ensures r & SSTATUS_SPP == 0
    ensures r & SSTATUS_SPIE == SSTATUS_SPIE
    ensures r & !(SSTATUS_SPP | SSTATUS_SPIE) == x & !(SSTATUS_SPP | SSTATUS_SPIE)
  {
    (x & !SSTATUS_SPP) | SSTATUS_SPIE
  }

  /** Applying the status update to its own result changes nothing. */
  lemma UserReturnStatusIdempotent(x: Word)
    ensures UserReturnStatus(UserReturnStatus(x)) == UserReturnStatus(x)
  {
  }

  /** Where `switch_to` ends: a failed assertion, or the user-return primitive. */
  datatype Transfer =
    | NullProcess
    | ReturnToUser(hart: Hart, procs: Table, frame: Trapframe)

  /**
   `switch_to(proc)`: makes `proc` current, points `stvec` at the trap
   vector, fills in the trapframe's kernel re-entry fields, prepares
   `sstatus` and `sepc`, and hands the trapframe to `return_to_user`.
   The link-time addresses of the trap vector and the trap handler are
   parameters.
   */
  function SwitchTo(h: Hart, procs: Table, proc: Option<Pid>, trapVector: Word, trapHandler: Word)
    : (r: Transfer)
    ensures proc.None? <==> r.NullProcess?
    ensures proc.Some? ==>
      var p := proc.value; var was := procs[p];
      && r.hart.current == proc
      && r.hart.stvec == trapVector
      && r.frame.kernelSp == was.kstack
      && r.frame.kernelTrap == trapHandler
      && r.frame.regs == was.trapframe.regs
      && r.frame.epc == was.trapframe.epc
      && r.frame.kernelSatp == was.trapframe.kernelSatp
      && r.hart.sstatus & SSTATUS_SPP == 0
      && r.hart.sstatus & SSTATUS_SPIE == SSTATUS_SPIE
      && r.hart.sstatus & !(SSTATUS_SPP | SSTATUS_SPIE) == h.sstatus & !(SSTATUS_SPP | SSTATUS_SPIE)
      && r.hart.sepc == was.trapframe.epc
      && r.procs[p] == was.(trapframe := r.frame)
      && (forall q: Pid :: q != p ==> r.procs[q] == procs[q])
  {
    match proc
    case None => NullProcess
    case Some(p) =>
      var h1 := h.(current := proc, stvec := trapVector);
      var tf := procs[p].trapframe.(kernelSp := procs[p].kstack, kernelTrap := trapHandler);
      var procs1 := procs[p := procs[p].(trapframe := tf)];
      var h2 := h1.(sstatus := UserReturnStatus(h1.sstatus));
      var h3 := h2.(sepc := procs1[p].trapframe.epc);
      ReturnToUser(h3, procs1, procs1[p].trapframe)
  }
}
