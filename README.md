# CHIP-8 interpreter engine and keyboard, modelled in Dafny

This project models two parts of a small CHIP-8 interpreter written in C++:

- the fetch/decode/dispatch engine of `src/chip8.cpp`, in module `Interpreter` (`interpreter.dfy`);
- the key queries, the wait for a key press and the key remapping of `src/keyboard.cpp`, in module `Keys` (`keyboard.dfy`).

## The interpreter engine

The machine state follows `include/chip8.h`:

- 4096 bytes of memory;
- sixteen byte registers `V`;
- the 16-bit index register `I` and program counter `pc`;
- a 64×32 byte graphics buffer `gfx`;
- the two timers;
- a return-address stack.

The class `Interpreter.Chip8` holds these as `array` fields, scalar fields and a `seq` for the stack. Its methods update them in place, as the C++ member functions do. Each method states its effect on the fields. Each handler method moves the pure view `State()` exactly as its pure handler function says, `HandleOpCode` matches `Step` and `PerformCycle` matches `Cycle`. The lemmas about `Step` then state what each opcode family does to the whole machine.

The model follows the code as written. In several places this code departs from CHIP-8 as usually specified, and the model keeps the code's behaviour:

- The dispatcher adds 2 to `pc` after every handler (`src/chip8.cpp:63`). So a jump `1NNN` lands on `NNN + 2`, and a call lands on `NNN + 2`. A call pushes the address of the call instruction itself, and a return resumes 2 past it. Handlers that advance `pc` themselves advance it twice: a clear-screen moves `pc` by 4, a skip by 4 or 6, and an unknown word by 4.
- Words `4XNN` are sent to the `3XNN` handler (`src/chip8.cpp:53-54`). The `4XNN` handler exists but is never chosen: `SelectHandler` never returns `Handler4`.
- The skip handlers compute the register index as `(opcode & 0x0F00) >> 16`, which is always 0 (`src/chip8.cpp:116`, `126`). So they always compare `V0`.
- The header declares `stack` as an array of sixteen `std::stack`s (`include/chip8.h:11`), but the code uses it as one stack. The model has one LIFO sequence whose top is its last element, with no depth bound, as the code has none.
- `pc` is an `unsigned short`, so every `pc += 2` is taken modulo 2^16.
- Only the word families 0 to 4 have handlers. Families 5 to F go to the unknown-word handler, which advances `pc` once.

`std::stack::top` on an empty stack and a read past the end of memory are undefined behaviour in C++. The model makes them preconditions: `00EE` requires a non-empty stack, and fetching requires `pc + 1 < 4096`.

## The keyboard

`Keys.Keyboard` holds `key_map`, the 16-entry table from logical key to scancode, as an `array` that `RemapKey` updates in place. The host keyboard state that `SDL_GetKeyboardState` returns is a `Snapshot`: one flag per scancode, 512 of them (`SDL_NUM_SCANCODES`), supplied by the caller.

`await_key_press` reads the key state once and then polls without end. The model method takes the finite sequence of snapshots the loop would read, one per `get_key_state` call. It returns `Some(k)` for the key the C++ returns, or `None` when the snapshots run out while it is still waiting. Its result is the pure function `FirstPress` of the 16-key states. Lemmas state, in both directions, which key `FirstPress` reports. Another lemma states that a key held down from the first snapshot onwards is never reported. SDL refreshes its key-state array only when events are pumped, and `await_key_press` pumps none; successive reads are then equal, and by `UnchangingStatesReportNothing` the wait, as written, never returns.

## Model

| member | source | states |
|---|---|---|
| `Interpreter.FetchWord` | src/chip8.cpp:27-31 | the fetched word is big-endian: its high byte is the cell at the address and its low byte the next cell |
| `Interpreter.Chip8.NextOpCode` | src/chip8.cpp:27-31 | reads only, given `pc + 1 < 4096`: the result's high byte is `memory[pc]` and its low byte `memory[pc + 1]` |
| `Interpreter.SelectHandler` | src/chip8.cpp:36-59 | handler choice by high nibble, for the whole switch: 0, 1 and 2 select their own handlers, 3 and 4 both select the 3XNN handler, 5 to F select the unknown-word handler, and the 4XNN handler is never selected |
| `Interpreter.SkipRegister` | src/chip8.cpp:114-132 | the skip handlers' register index `(op & 0x0F00) >> 16` is 0 for every word |
| `Interpreter.Handle0` | src/chip8.cpp:87-99 | the family-0 handler alone: `00E0` zeroes every `gfx` cell, advances `pc` by 2 and changes nothing else; `00EE` removes the top of the stack, which becomes `pc` (pushing it back gives the old stack), and changes nothing else; any other word changes nothing |
| `Interpreter.Handle1` | src/chip8.cpp:101-105 | the jump handler alone: `pc` becomes the low 12 bits of the word and nothing else changes |
| `Interpreter.Handle2` | src/chip8.cpp:107-112 | the call handler alone: the old `pc` is appended on top of the unchanged stack, `pc` becomes the low 12 bits of the word, and nothing else changes |
| `Interpreter.Handle3` | src/chip8.cpp:114-122 | the 3XNN handler alone advances `pc` by 4 when `V0` equals the low byte, else by 2, and changes nothing else |
| `Interpreter.Handle4` | src/chip8.cpp:124-132 | the unused 4XNN handler alone advances `pc` by 4 when `V0` differs from the low byte, else by 2, and changes nothing else |
| `Interpreter.HandleUnknown` | src/chip8.cpp:135-138 | the unknown-word handler alone: `pc` moves forward by 2 modulo 2^16 and nothing else changes |
| `Interpreter.Cycle` | src/chip8.cpp:66-73 | one fetch-and-dispatch never changes memory, registers or `I`; when the byte at `pc` has high nibble 1 the result is the machine with `pc` at the 12-bit target formed from the two fetched bytes plus 2; with high nibble 5 to F, `pc` moves by 4 and nothing else changes |
| `Interpreter.Step` | src/chip8.cpp:33-64 | dispatching any word keeps the state shapes and never changes memory, the registers, `I` or the timers |
| `Interpreter.JumpLandsPastTarget` | src/chip8.cpp:101-105 | with the dispatcher's advance (line 63), `1NNN` leaves `pc = NNN + 2` and every other part of the machine, stack included, unchanged |
| `Interpreter.CallPushesCallSite` | src/chip8.cpp:107-112 | `2NNN` pushes the call instruction's own address (stack length + 1) and leaves `pc = NNN + 2`; nothing else changes |
| `Interpreter.ReturnPopsTop` | src/chip8.cpp:94-98 | on a non-empty stack, `00EE` pops the top (stack length − 1) and leaves `pc` 2 past the popped address; nothing else changes |
| `Interpreter.CallThenReturn` | src/chip8.cpp:94-112 | a call followed by a return gives back the original machine with `pc` advanced by 2 past the call site |
| `Interpreter.ClearScreenBlanksAndAdvancesFour` | src/chip8.cpp:88-93 | `00E0` sets every `gfx` cell to 0 and advances `pc` by 4; memory, registers and stack are unchanged |
| `Interpreter.SkipComparesRegisterZero` | src/chip8.cpp:50-55 | as dispatched, `3XNN` and `4XNN` both advance `pc` by 6 when `V0` equals NN, else by 4, and change nothing else |
| `Interpreter.UnknownAdvancesFour` | src/chip8.cpp:135-138 | words with high nibble 5 to F advance `pc` by 4 and change nothing else |
| `Interpreter.OtherSystemWordAdvancesTwo` | src/chip8.cpp:87-99 | a `0NNN` word other than `00E0` and `00EE` only advances `pc` by 2 |
| `Interpreter.JumpToSelfLandsPastIt` | src/chip8.cpp:66-73 | one cycle on the word `1200` at `pc = 0x200` leaves `pc = 0x202` and the rest of the machine unchanged |
| `Interpreter.Chip8.constructor` | include/chip8.h:3-11 | default construction gives memory of 4096 bytes, 16 registers, a 2048-cell `gfx` and an empty stack; other contents are not promised |
| `Interpreter.Chip8.LoadFont` | src/chip8.cpp:6-10 | the first memory cells, as many as the font has, become the font bytes; every other cell, the registers, `I`, `pc`, `gfx` and the stack are unchanged |
| `Interpreter.Chip8.IncrementPc` | src/chip8.cpp:82-84 | `pc` advances by 2 modulo 2^16 and nothing else changes |
| `Interpreter.Chip8.HandleOpCode0` | src/chip8.cpp:87-99 | the in-place clear loop and the pop move the fields exactly as `Handle0` |
| `Interpreter.Chip8.HandleOpCode1` | src/chip8.cpp:101-105 | the fields move exactly as `Handle1`: `pc` becomes NNN |
| `Interpreter.Chip8.HandleOpCode2` | src/chip8.cpp:107-112 | the fields move exactly as `Handle2`: push of `pc`, then `pc` becomes NNN |
| `Interpreter.Chip8.HandleOpCode3` | src/chip8.cpp:114-122 | the fields move exactly as `Handle3` |
| `Interpreter.Chip8.HandleOpCode4` | src/chip8.cpp:124-132 | the fields move exactly as `Handle4` |
| `Interpreter.Chip8.HandleOpCodeUnknown` | src/chip8.cpp:135-138 | `pc` advances by 2 and nothing else changes |
| `Interpreter.Chip8.HandleOpCode` | src/chip8.cpp:33-64 | the table lookup, the handler call and the final `pc += 2` move the fields exactly as `Step` |
| `Interpreter.Chip8.PerformCycle` | src/chip8.cpp:66-73 | fetching the word at `pc` and dispatching it moves the fields exactly as `Cycle` |
| `Keys.Keyboard.IsKeyDown` | src/keyboard.cpp:3-6 | the reference query: key `key` is down exactly when the snapshot flag of its mapped scancode `keyMap[key]` is set, i.e. entry `key` of the 16-key state of that snapshot |
| `Keys.Keyboard.IsKeyUp` | src/keyboard.cpp:3-11 | for the same snapshot, a key is up exactly when it is not down |
| `Keys.Keyboard.GetKeyState` | src/keyboard.cpp:13-21 | returns 16 entries; entry `i` is whether key `i` is down, i.e. the snapshot flag of `key_map[i]` |
| `Keys.LowestRisingEdgeFrom` | src/keyboard.cpp:29-33 | the scan from key `from` returns the lowest key at or above `from` that is down now and was up before, or nothing exactly when no such key exists |
| `Keys.LowestRisingEdgeIsLowest` | src/keyboard.cpp:29-33 | the scan of one pair reports `k` exactly when `k` is its lowest rising edge, and nothing exactly when the pair has no rising edge |
| `Keys.FirstPress` | src/keyboard.cpp:23-37 | the reported key is below 16 |
| `Keys.FirstPressIsFirstLowestEdge` | src/keyboard.cpp:23-37 | the wait reports `k` exactly when `k` is the lowest rising edge of the first consecutive pair that has one, and reports nothing exactly when no pair has a rising edge |
| `Keys.HeldKeyNeverReported` | src/keyboard.cpp:24-35 | a key down in every snapshot, the first included, is never reported: the previous state is always the last one read |
| `Keys.UnchangingStatesReportNothing` | src/keyboard.cpp:23-37 | when every key state read is the same, the wait reports no key |
| `Keys.Keyboard.AwaitKeyPress` | src/keyboard.cpp:23-37 | the polling loops return exactly `FirstPress` of the key states of the snapshots, a key below 16 when there is one |
| `Keys.Keyboard.constructor` | include/keyboard.h:16-33 | the key map is a fresh 16-entry table holding the given default scancodes |
| `Keys.Keyboard.RemapKey` | src/keyboard.cpp:39-41 | `key_map[c]` becomes the new scancode and the other 15 entries keep theirs |
| `Keys.RemapRedirectsOneKey` | src/keyboard.cpp:39-41 | after a remap of `c` to `s`, key `c` reads the flag of `s` and every other key reads what it read before |

## Left out

- `load_rom` (`src/chip8.cpp:12-25`): file-stream input and the throw on a missing file are I/O.
- `print_memory` (`src/chip8.cpp:75-80`) and all console logging (lines 13, 34 and 136): console output only.
- `src/main.cpp`: SDL initialisation, the window, the renderer and the event loop are I/O. `draw_screen` and `draw_flag` are referenced there, but defined in neither `include/chip8.h` nor `src/chip8.cpp`.
- `SDL_GetKeyboardState`: a foreign call, replaced by `Snapshot` parameters.
- The font table and its size: `font.h` is not part of this model. `LoadFont` takes the table as a parameter of at most 4096 bytes.
- The default scancodes of `include/keyboard.h:16-33` are data; the constructor takes them as a parameter and scancodes are opaque numbers below 512.
- Opcodes 5 to F beyond the unknown-word handler, the timers' decay, sprite drawing, random numbers, and suspension while awaiting a key are not in the interpreter's code and are not modelled.
- `Keys.Keyboard.AwaitKeyPress`: the C++ loop can poll forever; the model reads a finite sequence of snapshots and returns `None` when it runs out while still waiting.
- `Interpreter.Chip8.constructor`: C++ default construction leaves memory, registers, `I`, `pc`, `gfx` and the timers indeterminate, so the constructor promises nothing about their contents.
- A return on an empty stack and a fetch at `pc >= 4095` are undefined behaviour in C++; they are preconditions of `HandleOpCode`, `PerformCycle` and `NextOpCode`, not modelled outcomes. Such `pc` values are reachable: a jump `1FFF` leaves `pc = 0x1001`.
- `is_key_down`, `is_key_up` and `remap_key` with a key index of 16 or more read or write `key_map` out of bounds, which is undefined behaviour; `IsKeyDown`, `IsKeyUp` and `RemapKey` therefore require `key < 16`.
- The header declares fixed C arrays (`include/chip8.h:4-11`) while `src/chip8.cpp` calls `memory.size()` and `gfx.size()`; the model uses the sizes the header gives.
