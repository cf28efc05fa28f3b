/** The records of the nucleus: processor states, process control blocks, semaphore descriptors. */
module Types {

  datatype Option<+T> = None | Some(value: T)

  /** An address. Semaphores are named by the address of their integer. */
  type Addr = nat

  const WORD_LEN := 4

  const STATE_REG_NUM := 31

  type Registers = r: seq<int> | |r| == STATE_REG_NUM witness seq(STATE_REG_NUM, _ => 0)

  /** Places of the registers the nucleus itself reads or writes. */
  const V0 := 1
  const A0 := 3
  const A1 := 4
  const A2 := 5
  const A3 := 6

  /** A saved processor state. Words that are examined bit by bit are bit vectors. */
  datatype CpuState = CpuState(entryHI: bv32, cause: bv32, status: bv32, pc: int, reg: Registers) {
    /** This state with v0 replaced. */
    function WithV0(v: int): CpuState {
      this.(reg := reg[V0 := v])
    }

    /** This state with the program counter moved past the SYSCALL instruction. */
    function Advanced(): CpuState {
      this.(pc := pc + WORD_LEN)
    }
  }

  const ZERO_STATE := CpuState(0, 0, 0, 0, seq(STATE_REG_NUM, _ => 0))

  class Pcb {
    // queue links: free list, ready queue or one semaphore queue
    var next: Pcb?
    var prev: Pcb?
    // process tree links
    var parent: Pcb?
    var child: Pcb?
    var leftSib: Pcb?
    var rightSib: Pcb?
    // process status
    var state: CpuState
    var time: int
    var semAdd: Option<Addr>
    // address of the support structure, if one was given
    var support: Option<int>

    /** A block of the static PCB table: every field starts out cleared. */
    constructor ()
      ensures next == null && prev == null && parent == null && child == null
      ensures leftSib == null && rightSib == null && state == ZERO_STATE
      ensures time == 0 && semAdd == None && support == None
    {
      next, prev, parent, child, leftSib, rightSib := null, null, null, null, null, null;
      state, time, semAdd, support := ZERO_STATE, 0, None, None;
    }
  }

  /** The singleton set of a non-null pointer; what a method given that pointer may change. */
  ghost function Cell(p: Pcb?): set<Pcb> {
    if p == null then {} else {p}
  }

  class Semd {
    var next: Semd?
    var semAdd: Addr
    // tail pointer of the queue of processes blocked on semAdd
    var procQ: Pcb?

    constructor ()
      ensures next == null && semAdd == 0 && procQ == null
    {
      next, semAdd, procQ := null, 0, null;
    }
  }
}
