/** The process table (`include/proc.h`, `include/msg.h`) and the sleep/wake primitives. */
module ProcTable {

  const NPROC := 64
  const TASK_IDLE := 0
  const TASK_SYS := 1
  const TASK_MM := 2
  const TASK_FS := 3
  const ANY := -1

  datatype ProcState = UNUSED | EMBRYO | SLEEPING | RUNNABLE | ZOMBIE | SENDING | RECVING

  /** The kernel pointers that travel in messages or serve as sleep channels. */
  datatype Ptr =
    | Null
    | ProcAt(slot: int)          // &ptable[slot]
    | ReadOpen(pipe: nat)        // &pipe->readopen
    | WriteOpen(pipe: nat)       // &pipe->writeopen
    | Tty                        // &tty
    | Buf(sector: nat)           // a disk buffer

  datatype MsgType =
    | MSG_BAD | MSG_SYSRET | MSG_BESLEEP
    | MSG_OPEN | MSG_CLOSE | MSG_READ | MSG_WRITE | MSG_CHDIR | MSG_DUP | MSG_LINK
    | MSG_UNLINK | MSG_MKDIR | MSG_MKNOD | MSG_PIPE | MSG_STAT | MSG_SEEK | MSG_GOTOXY
    | MSG_TTYMODE | MSG_CLS | MSG_TTYCOLOR
    | MSG_FORK | MSG_EXEC | MSG_EXIT | MSG_WAIT | MSG_SBRK
    | MSG_PID | MSG_PPID | MSG_SLEEP | MSG_TICKS

  /**
   `tag` is a history field: the sender's request number. The kernel copies messages
   whole and the servers answer in the message they received, so it travels along.
   */
  datatype Msg = Msg(typ: MsgType, source: int, p1: Ptr, p2: Ptr, i1: int, i2: int, tag: nat)

  /**
   One table entry. `mbuf` is the buffer on the process's own kernel stack that
   `msgp` points to while the process is SENDING or RECVING.
   */
  datatype Proc = Proc(
    state: ProcState, priority: nat, counter: nat, pid: nat, parent: int, tmp: Ptr,
    mbuf: Msg, sendto: int, recvfrom: int, msgstate: int)

  type Table = seq<Proc>

  predicate IsSlot(p: int) { 0 <= p < NPROC }

  ghost predicate TableOk(t: Table) {
    && |t| == NPROC
    && (forall p :: IsSlot(p) && t[p].state == SENDING ==> IsSlot(t[p].sendto))
    && (forall p :: IsSlot(p) && t[p].state == RECVING ==> IsSlot(t[p].recvfrom) || t[p].recvfrom == ANY)
  }

  /** wake_up: every process asleep on `w` becomes RUNNABLE. */
  function Woken(t: Table, w: Ptr): (r: Table)
    ensures |r| == |t|
  {
    seq(|t|, p requires 0 <= p < |t| =>
      if t[p].state == SLEEPING && t[p].tmp == w then t[p].(state := RUNNABLE) else t[p])
  }
}
