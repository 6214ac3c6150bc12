/**
 * The fetch/decode/dispatch engine of the CHIP-8 interpreter.
 *
 * Two layers:
 *  - a pure view of the machine (`Machine`) with one function per opcode
 *    handler, the handler-table selection, the dispatcher `Step` and the
 *    fetch-then-dispatch `Cycle`; the lemmas at the end state what each
 *    opcode family does to the whole machine;
 *  - the class `Chip8`, whose array and scalar fields are updated in place
 *    by methods; each method states its effect on the fields, and the
 *    handlers, the dispatcher and the cycle are proved to move `State()`
 *    exactly as the matching pure function says.
 *
 * The model follows the interpreter as written: the dispatcher adds 2 to
 * `pc` after EVERY handler, the 0x4 family is sent to the 3XNN handler, the
 * skip handlers always compare register V0, and `pc` is an unsigned short
 * whose additions wrap at 2^16.
 */
module Interpreter {

  /** An `unsigned char` / `uint8_t`. */
  type Byte = x: int | 0 <= x < 0x100

  /** An `unsigned short` / `uint16_t`. */
  type Word = x: int | 0 <= x < 0x1_0000

  const MemorySize: nat := 4096
  const RegisterCount: nat := 16
  const ScreenWidth: nat := 64
  const ScreenHeight: nat := 32
  const GfxSize: nat := ScreenWidth * ScreenHeight

  /** The return-address stack is one LIFO sequence; its top is the last element. */
  datatype Machine = Machine(
    memory: seq<Byte>,
    v: seq<Byte>,
    i: Word,
    pc: Word,
    gfx: seq<Byte>,
    delayTimer: Byte,
    soundTimer: Byte,
    stack: seq<Word>)

  predicate WellFormed(m: Machine)
  {
    |m.memory| == MemorySize && |m.v| == RegisterCount && |m.gfx| == GfxSize
  }

  /** `pc += 2` on an unsigned short. */
  function Advance(pc: Word): Word
  {
    (pc + 2) % 0x1_0000
  }

  /** The big-endian instruction word held at `addr` and `addr + 1`. */
  function FetchWord(mem: seq<Byte>, addr: nat): (w: Word)
    requires addr + 1 < |mem|
    ensures w / 0x100 == mem[addr] && w % 0x100 == mem[addr + 1]
  {
    (mem[addr] as int) * 0x100 + mem[addr + 1]
  }

  /** The entries of the handler table. */
  datatype Handler = Handler0 | Handler1 | Handler2 | Handler3 | Handler4 | HandlerUnknown

  /** The switch on `op & 0xF000`: 0x4xxx is sent to the 3XNN handler, so the 4XNN handler is never chosen. */
  function SelectHandler(op: Word): (h: Handler)
    ensures h != Handler4
    ensures op / 0x1000 <= 2 ==> h == [Handler0, Handler1, Handler2][op / 0x1000]
    ensures h == Handler3 <==> op / 0x1000 == 3 || op / 0x1000 == 4
    ensures h == HandlerUnknown <==> op / 0x1000 >= 5
  {
    match op / 0x1000
    case 0 => Handler0
    case 1 => Handler1
    case 2 => Handler2
    case 3 => Handler3
    case 4 => Handler3
    case _ => HandlerUnknown
  }

  /** The register index `(op & 0x0F00) >> 16` of the skip handlers: the masked bits lie below bit 16, so it is always 0. */
  function SkipRegister(op: Word): (reg: nat)
    ensures reg == 0
  {
    (op / 0x100 % 0x10) * 0x100 / 0x1_0000
  }

  /** Opcode family 0: clear the screen (and advance `pc` once), return from a subroutine, or do nothing. */
  function Handle0(m: Machine, op: Word): (r: Machine)
    requires WellFormed(m)
    requires op == 0x00EE ==> |m.stack| > 0
    ensures WellFormed(r)
    ensures op == 0x00E0 ==> (forall j :: 0 <= j < GfxSize ==> r.gfx[j] == 0) && r.(gfx := m.gfx, pc := m.pc) == m && r.pc == Advance(m.pc)
    ensures op == 0x00EE ==> r.stack + [r.pc] == m.stack && r.(stack := m.stack, pc := m.pc) == m
    ensures op != 0x00E0 && op != 0x00EE ==> r == m
  {
    if op == 0x00E0 then
      m.(gfx := seq(GfxSize, _ => 0), pc := Advance(m.pc))
    else if op == 0x00EE then
      m.(pc := m.stack[|m.stack| - 1], stack := m.stack[..|m.stack| - 1])
    else
      m
  }

  /** 1NNN: `pc` becomes NNN. */
  function Handle1(m: Machine, op: Word): (r: Machine)
    ensures r.pc < 0x1000 && (op / 0x1000) * 0x1000 + r.pc == op
    ensures r.(pc := m.pc) == m
  {
    m.(pc := op % 0x1000)
  }

  /** 2NNN: the current `pc` is pushed and `pc` becomes NNN. */
  function Handle2(m: Machine, op: Word): (r: Machine)
    ensures r.pc < 0x1000 && (op / 0x1000) * 0x1000 + r.pc == op
    ensures |r.stack| == |m.stack| + 1 && r.stack[..|m.stack|] == m.stack && r.stack[|m.stack|] == m.pc
    ensures r.(pc := m.pc, stack := m.stack) == m
  {
    m.(stack := m.stack + [m.pc], pc := op % 0x1000)
  }

  /** 3XNN: advance once more when the register equals NN, then advance. */
  function Handle3(m: Machine, op: Word): (r: Machine)
    requires WellFormed(m)
    ensures r == m.(pc := (m.pc + if m.v[0] == op % 0x100 then 4 else 2) % 0x1_0000)
  {
    var skipped := if m.v[SkipRegister(op)] == op % 0x100 then m.(pc := Advance(m.pc)) else m;
    skipped.(pc := Advance(skipped.pc))
  }

  /** 4XNN: advance once more when the register differs from NN, then advance. */
  function Handle4(m: Machine, op: Word): (r: Machine)
    requires WellFormed(m)
    ensures r == m.(pc := (m.pc + if m.v[0] != op % 0x100 then 4 else 2) % 0x1_0000)
  {
    var skipped := if m.v[SkipRegister(op)] != op % 0x100 then m.(pc := Advance(m.pc)) else m;
    skipped.(pc := Advance(skipped.pc))
  }

  /** Any other family: reported and skipped by advancing once. */
  function HandleUnknown(m: Machine): (r: Machine)
    ensures (r.pc - m.pc) % 0x1_0000 == 2
    ensures r.(pc := m.pc) == m
  {
    m.(pc := Advance(m.pc))
  }

  function RunHandler(m: Machine, h: Handler, op: Word): Machine
    requires WellFormed(m)
    requires h == Handler0 && op == 0x00EE ==> |m.stack| > 0
  {
    match h
    case Handler0 => Handle0(m, op)
    case Handler1 => Handle1(m, op)
    case Handler2 => Handle2(m, op)
    case Handler3 => Handle3(m, op)
    case Handler4 => Handle4(m, op)
    case HandlerUnknown => HandleUnknown(m)
  }

  /**
   * The dispatcher: run the selected handler, then advance `pc` by 2
   * unconditionally. No handler touches memory, the registers, `I`
   * or the timers.
   */
  function Step(m: Machine, op: Word): (r: Machine)
    requires WellFormed(m)
    requires op == 0x00EE ==> |m.stack| > 0
    ensures WellFormed(r)
    ensures r.memory == m.memory && r.v == m.v && r.i == m.i
    ensures r.delayTimer == m.delayTimer && r.soundTimer == m.soundTimer
  {
    var handled := RunHandler(m, SelectHandler(op), op);
    handled.(pc := Advance(handled.pc))
  }

  /** One cycle: fetch the word at `pc` and dispatch it. */
  function Cycle(m: Machine): (r: Machine)
    requires WellFormed(m) && m.pc + 1 < MemorySize
    requires FetchWord(m.memory, m.pc) == 0x00EE ==> |m.stack| > 0
    ensures WellFormed(r) && r.memory == m.memory && r.v == m.v && r.i == m.i
    ensures m.memory[m.pc] / 0x10 == 1 ==> r == m.(pc := (m.memory[m.pc] as int % 0x10) * 0x100 + m.memory[m.pc + 1] + 2)
    ensures m.memory[m.pc] / 0x10 >= 5 ==> r == m.(pc := (m.pc + 4) % 0x1_0000)
  {
    Step(m, FetchWord(m.memory, m.pc))
  }

  // ---------- What each opcode family does, as dispatched ----------

  /** 1NNN lands on NNN + 2, not on NNN; nothing else changes. */
  lemma JumpLandsPastTarget(m: Machine, op: Word)
    requires WellFormed(m) && op / 0x1000 == 1
    ensures Step(m, op) == m.(pc := op % 0x1000 + 2)
  {
  }

  /** 2NNN pushes the address of the call instruction itself and lands on NNN + 2. */
  lemma CallPushesCallSite(m: Machine, op: Word)
    requires WellFormed(m) && op / 0x1000 == 2
    ensures Step(m, op) == m.(stack := m.stack + [m.pc], pc := op % 0x1000 + 2)
    ensures |Step(m, op).stack| == |m.stack| + 1
  {
  }

  /** 00EE pops the top address and lands 2 past it. */
  lemma ReturnPopsTop(m: Machine)
    requires WellFormed(m) && |m.stack| > 0
    ensures Step(m, 0x00EE) == m.(pc := Advance(m.stack[|m.stack| - 1]), stack := m.stack[..|m.stack| - 1])
    ensures |Step(m, 0x00EE).stack| == |m.stack| - 1
  {
  }

  /** A call followed by a return restores the stack and resumes 2 past the call site. */
  lemma CallThenReturn(m: Machine, op: Word)
    requires WellFormed(m) && op / 0x1000 == 2
    ensures Step(Step(m, op), 0x00EE) == m.(pc := Advance(m.pc))
  {
    var called := Step(m, op);
    CallPushesCallSite(m, op);
    assert called.stack[..|called.stack| - 1] == m.stack;
  }

  /** 00E0 blanks every pixel and advances `pc` by 4, once in the handler and once in the dispatcher. */
  lemma ClearScreenBlanksAndAdvancesFour(m: Machine)
    requires WellFormed(m)
    ensures Step(m, 0x00E0) == m.(gfx := seq(GfxSize, _ => 0), pc := (m.pc + 4) % 0x1_0000)
  {
  }

  /** 3XNN and 4XNN both compare V0 with NN: `pc` advances by 6 on equality, else by 4. */
  lemma SkipComparesRegisterZero(m: Machine, op: Word)
    requires WellFormed(m) && (op / 0x1000 == 3 || op / 0x1000 == 4)
    ensures Step(m, op) == m.(pc := (m.pc + if m.v[0] == op % 0x100 then 6 else 4) % 0x1_0000)
  {
  }

  /** Families 5 to F advance `pc` by 4 and change nothing else. */
  lemma UnknownAdvancesFour(m: Machine, op: Word)
    requires WellFormed(m) && op / 0x1000 >= 5
    ensures Step(m, op) == m.(pc := (m.pc + 4) % 0x1_0000)
  {
  }

  /** A 0NNN word other than 00E0 and 00EE only advances `pc` by 2. */
  lemma OtherSystemWordAdvancesTwo(m: Machine, op: Word)
    requires WellFormed(m) && op / 0x1000 == 0 && op != 0x00E0 && op != 0x00EE
    ensures Step(m, op) == m.(pc := Advance(m.pc))
  {
  }

  /** A program whose first word at 0x200 jumps to 0x200 leaves `pc` at 0x202 after one cycle. */
  lemma JumpToSelfLandsPastIt(m: Machine)
    requires WellFormed(m) && m.pc == 0x200
    requires m.memory[0x200] == 0x12 && m.memory[0x201] == 0x00
    ensures Cycle(m) == m.(pc := 0x202)
  {
    JumpLandsPastTarget(m, FetchWord(m.memory, m.pc));
  }

  // ---------- The interpreter object ----------

  class Chip8 {
    var memory: array<Byte>
    var V: array<Byte>
    var I: Word
    var pc: Word
    var gfx: array<Byte>
    var delayTimer: Byte
    var soundTimer: Byte
    var stack: seq<Word>

    ghost predicate Valid()
      reads this
    {
      memory.Length == MemorySize && V.Length == RegisterCount && gfx.Length == GfxSize &&
      memory != V && memory != gfx && V != gfx
    }

    /** The pure view of the fields. */
    ghost function State(): (m: Machine)
      reads this, memory, V, gfx
      requires Valid()
      ensures WellFormed(m)
    {
      Machine(memory[..], V[..], I, pc, gfx[..], delayTimer, soundTimer, stack)
    }

    /** Default construction: the arrays and scalars are left indeterminate; only the stack is known to be empty. */
    constructor ()
      ensures Valid() && fresh(memory) && fresh(V) && fresh(gfx)
      ensures stack == []
    {
      memory := new Byte[MemorySize];
      V := new Byte[RegisterCount];
      gfx := new Byte[GfxSize];
      I, pc := 0, 0;
      delayTimer, soundTimer := 0, 0;
      stack := [];
    }

    /** Copies the font table into the first `|font|` memory cells. */
    method LoadFont(font: seq<Byte>)
      requires Valid() && |font| <= MemorySize
      modifies memory
      ensures Valid()
      ensures State() == old(State()).(memory := font + old(memory[..])[|font|..])
    {
      for i := 0 to |font|
        invariant forall j :: 0 <= j < i ==> memory[j] == font[j]
        invariant forall j :: i <= j < MemorySize ==> memory[j] == old(memory[j])
      {
        memory[i] := font[i];
      }
      assert memory[..] == font + old(memory[..])[|font|..];
    }

    /** The big-endian word at `pc`; reads memory and changes nothing. */
    function NextOpCode(): (op: Word)
      reads this, memory
      requires Valid() && pc + 1 < MemorySize
      ensures op / 0x100 == memory[pc] && op % 0x100 == memory[pc + 1]
    {
      FetchWord(memory[..], pc)
    }

    method IncrementPc()
      modifies this`pc
      ensures pc == Advance(old(pc))
    {
      pc := (pc + 2) % 0x1_0000;
    }

    method HandleOpCode0(op: Word)
      requires Valid()
      requires op == 0x00EE ==> |stack| > 0
      modifies this`pc, this`stack, gfx
      ensures Valid()
      ensures State() == Handle0(old(State()), op)
    {
      if op == 0x00E0 {
        for i := 0 to gfx.Length
          modifies gfx
          invariant forall j :: 0 <= j < i ==> gfx[j] == 0
        {
          gfx[i] := 0;
        }
        assert gfx[..] == seq(GfxSize, _ => 0);
        IncrementPc();
      } else if op == 0x00EE {
        pc := stack[|stack| - 1];
        stack := stack[..|stack| - 1];
      }
    }

    method HandleOpCode1(op: Word)
      requires Valid()
      modifies this`pc
      ensures Valid()
      ensures State() == Handle1(old(State()), op)
    {
      pc := op % 0x1000;
    }

    method HandleOpCode2(op: Word)
      requires Valid()
      modifies this`pc, this`stack
      ensures Valid()
      ensures State() == Handle2(old(State()), op)
    {
      stack := stack + [pc];
      pc := op % 0x1000;
    }

    method HandleOpCode3(op: Word)
      requires Valid()
      modifies this`pc
      ensures Valid()
      ensures State() == Handle3(old(State()), op)
    {
      var reg := SkipRegister(op);
      var val := op % 0x100;
      if V[reg] == val {
        IncrementPc();
      }
      IncrementPc();
    }

    method HandleOpCode4(op: Word)
      requires Valid()
      modifies this`pc
      ensures Valid()
      ensures State() == Handle4(old(State()), op)
    {
      var reg := SkipRegister(op);
      var val := op % 0x100;
      if V[reg] != val {
        IncrementPc();
      }
      IncrementPc();
    }

    method HandleOpCodeUnknown(op: Word)
      requires Valid()
      modifies this`pc
      ensures Valid()
      ensures State() == HandleUnknown(old(State()))
    {
      IncrementPc();
    }

    /** Looks the handler up, runs it, then advances `pc` by 2. */
    method HandleOpCode(op: Word)
      requires Valid()
      requires op == 0x00EE ==> |stack| > 0
      modifies this`pc, this`stack, gfx
      ensures Valid()
      ensures State() == Step(old(State()), op)
    {
      var handler := SelectHandler(op);
      match handler {
        case Handler0 => HandleOpCode0(op);
        case Handler1 => HandleOpCode1(op);
        case Handler2 => HandleOpCode2(op);
        case Handler3 => HandleOpCode3(op);
        case Handler4 => assert false;  // never selected
        case HandlerUnknown => HandleOpCodeUnknown(op);
      }
      pc := (pc + 2) % 0x1_0000;
    }

    method PerformCycle()
      requires Valid() && pc + 1 < MemorySize
      requires NextOpCode() == 0x00EE ==> |stack| > 0
      modifies this`pc, this`stack, gfx
      ensures Valid()
      ensures State() == Cycle(old(State()))
    {
      var op := NextOpCode();
      HandleOpCode(op);
    }
  }
}
