# mochi8 core in Dafny

mochi8 is a CHIP-8 / S-CHIP toolchain written in Java. It has three parts:

- an interpreter, the `Chip8` processor on top of `GenericCPU`;
- an assembler for the CHIPPER 2.11 dialect, built from a line `Tokenizer`, a shunting-yard `ExpressionParser` and the two-pass `Assembler`;
- a `Disassembler`, with the small helpers `Util`, `CmdArgs`, the keypad table of `Board` and the radio-command naming of `UICommandSite` / `UICommand`.

This project models each of these Java classes in Dafny and proves what the code promises about them.

How the Java classes are modelled:

- **Classes the Java updates in place.** Each becomes a Dafny `class` with the same fields: arrays for the byte arrays, and `seq`/`map` fields for the lists and hash maps that are reassigned. Each method is proved to change that state exactly as a specification function of the old state says, for example `Abs() == M.RunOpcode(old(Abs()), op, rnd)`. Lemmas then prove the Java code's documented behaviour about those functions.
- **Pure code.** This becomes datatypes, functions and lemmas.
- **Exceptions.** A Java exception becomes an explicit result: `Outcome(state, Some(fault))`, `thrown`, `raised`, `Option` or `NextResult.MissingValue`. Where Java leaves a partially updated state behind, the result carries that same partial state.
- **Integers.** Java `int` arithmetic that can wrap, such as the expression evaluator and `Fx1E`, is written out with 32-bit wrap-around (`Bits.Wrap32`) or the 12-bit mask.
- **Bytes.** The bytes stored in the interpreter are their unsigned values 0..255. Java reads them through `b2i` or `& 0xFF`, and `Util.B2iOfCast` shows that this view is exact.

Modules and files:

| module | file | Java class |
|---|---|---|
| `Wrappers`, `Bits`, `JavaString` | wrappers.dfy, bits.dfy, java_string.dfy | `Option`, Java `int` bit operations, `String.trim` / `startsWith` / `equalsIgnoreCase` |
| `Util` | util.dfy | `Util` |
| `GenericCpu` | generic_cpu.dfy | `GenericCPU` |
| `Chip8Machine`, `Chip8`, `Chip8Properties` | chip8_machine.dfy, chip8.dfy, chip8_properties.dfy | `Chip8` (state machine, class, properties) |
| `Board` | board.dfy | `Board` key table and `onException` |
| `CmdArgs` | cmd_args.dfy | `CmdArgs`, `ArgDef` |
| `UiCommandSite`, `UiCommand` | ui_command_site.dfy, ui_command.dfy | `UICommandSite`, `UICommand` |
| `AsmErrors` | asm_error.dfy | `AsmError` codes |
| `Tokenizer` | tokenizer.dfy | `Tokenizer` |
| `ExpressionParser`, `ExpressionProperties` | expression_parser.dfy, expression_properties.dfy | `ExpressionParser` |
| `AssemblerSpec`, `Assembler`, `AssemblerLines`, `AssemblerPasses`, `AssemblerProperties` | assembler_spec.dfy, assembler.dfy, assembler_lines.dfy, assembler_passes.dfy, assembler_properties.dfy | `Assembler`, `AsmLine`, `Mnemonics`, `Directives` |
| `DisassemblerSpec`, `Disassembler`, `DisassemblerProperties` | disassembler_spec.dfy, disassembler.dfy, disassembler_properties.dfy | `Disassembler`, `DasmLine` |

## Model

The plain getters (`GenericCpu.GenericCpu.HasStartedRunning`, `GenericCpu.GenericCpu.IsPaused`, `Board.Board.GetKeyboardState`, `UiCommand.UiCommand.GetRadioSelectionActionCommand`, `Tokenizer.Tokenizer.GetLastErrors`, `ExpressionParser.ExpressionParser.GetUsedSymbolSet`, `Disassembler.Disassembler.GetDisassembleResult`) are field reads and have no row of their own; what they return is stated by the rows of the methods that set those fields. `Board.OnException`, a one-line test of the exception, is stated by `Board.ExitKeepsLoop`.

| member | source | states |
|---|---|---|
| Util.ToByte | src/main/java/com/taibaisoft/chip8/processor/Chip8.java:454 | Java's `(byte)` cast gives a value in -128..127 congruent to its argument mod 256 |
| Util.B2i | src/main/java/com/taibaisoft/chip8/platform/Util.java:47-49 | `b2i` gives a value in 0..255, congruent to the byte mod 256 and equal to it for non-negative bytes |
| Util.B2iOfCast | src/main/java/com/taibaisoft/chip8/platform/Util.java:47-49 | `b2i((byte) x)` is `x mod 256`, so storing through a cast and reading through `b2i` keeps exactly the low eight bits |
| Util.Fill | src/main/java/com/taibaisoft/chip8/platform/Util.java:37-42 | the loop of `fill` leaves every element equal to `val` |
| Util.ShiftLeftOnce | src/main/java/com/taibaisoft/chip8/platform/Util.java:63-71 | one pass of the left loop, taking each cell from its right neighbour before overwriting it, gives `ShiftOnce(old, -1)` |
| Util.ShiftRightOnce | src/main/java/com/taibaisoft/chip8/platform/Util.java:74-83 | one descending pass of the right loop gives `ShiftOnce(old, 1)` |
| Util.ShiftUpOnce | src/main/java/com/taibaisoft/chip8/platform/Util.java:86-95 | one pass of the up loop gives `ShiftOnce(old, -2)`: every row takes the row below and the last row is cleared |
| Util.ShiftDownOnce | src/main/java/com/taibaisoft/chip8/platform/Util.java:98-107 | one descending pass of the down loop gives `ShiftOnce(old, 2)`: every row takes the row above and the first row is cleared |
| Util.ShiftArray | src/main/java/com/taibaisoft/chip8/platform/Util.java:57-113 | `shiftArray` changes a non-null array into `Shifted(old, n, cols, width)` and leaves a null one alone |
| Util.RowInterior | src/main/java/com/taibaisoft/chip8/platform/Util.java:65-66 | in a buffer of whole rows the left loop never reads `m[len]` |
| Util.ShiftOnceBy | src/main/java/com/taibaisoft/chip8/platform/Util.java:61-108 | one more pass of any direction is a scroll by one more cell or row (the four `Shift*OnceBy` lemmas) |
| Util.ShiftsAreShiftedBy | src/main/java/com/taibaisoft/chip8/platform/Util.java:61-108 | `k` passes of the inner loop compose into one scroll by `k` |
| Util.ShiftedIsScroll | src/main/java/com/taibaisoft/chip8/platform/Util.java:57-113 | `cols <= 0` or a direction other than -1, 1, -2, 2 leaves the array unchanged; otherwise the rows move left/right by `cols % width` cells, or up/down by `cols % width` rows, and the vacated cells become 0 |
| Util.ShiftedCells | src/main/java/com/taibaisoft/chip8/platform/Util.java:57-113 | scrolling keeps the length and every cell of the result is 0 or a cell of the input |
| Util.ShiftedKeepsBits | src/main/java/com/taibaisoft/chip8/platform/Util.java:57-113 | scrolling a 0/1 pixel buffer leaves it a 0/1 pixel buffer |
| Util.LeftInRange | src/main/java/com/taibaisoft/chip8/platform/Util.java:63-71 | a left scroll by `c` reads only inside the buffer when its length is whole rows |
| GenericCpu.GenericCpu.constructor | src/main/java/com/taibaisoft/framework/GenericCPU.java:35-46 | a fresh processor has `pc` 0, `sp` 0, a zeroed stack of 32 entries and all 8 timer intervals at -1 (unregistered), and is neither running nor paused (also GenericCPU.java:89-93) |
| GenericCpu.GenericCpu.RegisterTimer | src/main/java/com/taibaisoft/framework/GenericCPU.java:100-104 | the interval is written for `0 <= id < 8`; any other id changes nothing |
| GenericCpu.GenericCpu.DeregisterTimer | src/main/java/com/taibaisoft/framework/GenericCPU.java:105-109 | only ids 1..7 are reset to -1, so timer 0 can never be deregistered |
| GenericCpu.GenericCpu.Run | src/main/java/com/taibaisoft/framework/GenericCPU.java:117-123 | `run` sets `running` and changes nothing else, a second call included; afterwards `hasStartedRunning` is true and `isPaused` is the `paused` flag (also GenericCPU.java:142-144) |
| GenericCpu.GenericCpu.Stop | src/main/java/com/taibaisoft/framework/GenericCPU.java:128-141 | `stop` clears `running` and `paused` and keeps `pc` and the stack; afterwards neither `hasStartedRunning` nor `isPaused` holds (also GenericCPU.java:164-166) |
| GenericCpu.GenericCpu.Pause | src/main/java/com/taibaisoft/framework/GenericCPU.java:145-147 | only `paused` changes, to true; `isPaused` then holds exactly when the processor has started running (also GenericCPU.java:164-166) |
| GenericCpu.GenericCpu.Resume | src/main/java/com/taibaisoft/framework/GenericCPU.java:148-150 | only `paused` changes, to false; `isPaused` is then false |
| Chip8Machine.SpriteBit | src/main/java/com/taibaisoft/chip8/processor/Chip8.java:249 | the extracted sprite bit `(b >>> (7-k)) & 1` is 0 or 1 |
| Chip8Machine.CellFormula | src/main/java/com/taibaisoft/chip8/processor/Chip8.java:247-248 | the pixel index is `(sx + k + 8q) % H + cy * H` |
| Chip8Machine.NextRowFormula | src/main/java/com/taibaisoft/chip8/processor/Chip8.java:260 | the next screen row is `(cy + 1) % V` |
| Chip8Machine.BlittingKeepsPixels | src/main/java/com/taibaisoft/chip8/processor/Chip8.java:244-261 | the three loops of `blitSprite` store only 0 or 1 into a 0/1 pixel buffer, by induction over the loops |
| Chip8Machine.Drawing | src/main/java/com/taibaisoft/chip8/processor/Chip8.java:235-262 | a sprite draw keeps the machine invariant, changes only the pixel buffer and VF, and leaves VF at 0 or 1; what it draws is stated by `Chip8Properties.DrawingXor` |
| Chip8Machine.Blit | src/main/java/com/taibaisoft/chip8/processor/Chip8.java:235-262 | DRW with its `pc` step keeps the invariant and changes no register but VF, which ends 0 or 1; the exclusive-or drawing and the collision flag are stated by `Chip8Properties.BlitXor` (also Chip8.java:583-591) |
| Chip8Machine.FirstPressed | src/main/java/com/taibaisoft/chip8/processor/Chip8.java:626-631 | the key scan stops at the lowest key reading 1: every earlier key reads something else, and the result is 16 when none reads 1 |
| Chip8Machine.FirstPressedUnique | src/main/java/com/taibaisoft/chip8/processor/Chip8.java:626-631 | any index with those two properties is the one the scan finds |
| Chip8Machine.Transfers | src/main/java/com/taibaisoft/chip8/processor/Chip8.java:675-683 | the loops of Fx55/Fx65 complete all `x + 1` transfers exactly when `I + x` lies inside memory |
| Chip8Machine.RunOpcode | src/main/java/com/taibaisoft/chip8/processor/Chip8.java:340-704 | every opcode, including those that raise, leaves a state satisfying the machine invariant (sizes, 12-bit I, 0/1 pixels, timers in 0..255, stack bound, screen size) |
| Chip8Machine.OneCycle | src/main/java/com/taibaisoft/chip8/processor/Chip8.java:270-284 | every cycle keeps the machine invariant |
| Chip8Machine.Overwrite | src/main/java/com/taibaisoft/chip8/processor/Chip8.java:196 | `System.arraycopy` on values: the copied range holds the elements of the array copied from and every other cell is kept |
| Chip8Machine.Plot | src/main/java/com/taibaisoft/chip8/processor/Chip8.java:254-257 | one pixel update keeps the buffer's size |
| Chip8Machine.Cell | src/main/java/com/taibaisoft/chip8/processor/Chip8.java:247-248 | the pixel index always lies inside the 8192-cell buffer |
| Chip8Machine.NextRow | src/main/java/com/taibaisoft/chip8/processor/Chip8.java:260 | the next row is a row of the screen |
| Chip8Machine.Blitting | src/main/java/com/taibaisoft/chip8/processor/Chip8.java:244-261 | the sprite loops keep the buffer's size |
| Chip8Machine.Draw | src/main/java/com/taibaisoft/chip8/processor/Chip8.java:572-592 | DRW keeps the machine invariant; what it draws is stated by `Chip8Properties.DrawXor` |
| Chip8Machine.ClearScreen | src/main/java/com/taibaisoft/chip8/processor/Chip8.java:345-356 | CLS (and the 64x64 CLS) keeps the invariant |
| Chip8Machine.Return | src/main/java/com/taibaisoft/chip8/processor/Chip8.java:357-361 | RET keeps the invariant, an empty stack raising |
| Chip8Machine.Scroll | src/main/java/com/taibaisoft/chip8/processor/Chip8.java:362-371 | SCR, SCL and SCD keep the invariant (also Chip8.java:397-401) |
| Chip8Machine.SetExtended | src/main/java/com/taibaisoft/chip8/processor/Chip8.java:378-395 | LOW and HIGH keep the invariant |
| Chip8Machine.Exec0 | src/main/java/com/taibaisoft/chip8/processor/Chip8.java:344-410 | every 0nnn opcode keeps the invariant, EXT raising |
| Chip8Machine.ExecKey | src/main/java/com/taibaisoft/chip8/processor/Chip8.java:593-609 | SKP and SKNP keep the invariant |
| Chip8Machine.KeyWait | src/main/java/com/taibaisoft/chip8/processor/Chip8.java:617-641 | Fx0A keeps the invariant |
| Chip8Machine.StoreRegs | src/main/java/com/taibaisoft/chip8/processor/Chip8.java:672-679 | Fx55's copy keeps memory's size |
| Chip8Machine.LoadRegs | src/main/java/com/taibaisoft/chip8/processor/Chip8.java:680-685 | Fx65's copy keeps 16 registers |
| Chip8Machine.CopyPrefix | src/main/java/com/taibaisoft/chip8/processor/Chip8.java:686-697 | the RPL copies keep 16 entries |
| Chip8Machine.Bcd | src/main/java/com/taibaisoft/chip8/processor/Chip8.java:657-671 | the BCD store keeps memory's size |
| Chip8Machine.StoreBcd | src/main/java/com/taibaisoft/chip8/processor/Chip8.java:657-671 | Fx33 keeps the invariant, raising past the end of memory |
| Chip8Machine.StoreRegisters | src/main/java/com/taibaisoft/chip8/processor/Chip8.java:672-679 | Fx55 keeps the invariant, raising past the end of memory |
| Chip8Machine.LoadRegisters | src/main/java/com/taibaisoft/chip8/processor/Chip8.java:680-685 | Fx65 keeps the invariant, raising past the end of memory |
| Chip8Machine.ExecFMem | src/main/java/com/taibaisoft/chip8/processor/Chip8.java:657-685 | the memory group of Fxnn keeps the invariant |
| Chip8Machine.ExecFTimers | src/main/java/com/taibaisoft/chip8/processor/Chip8.java:614-616 | the timer group of Fxnn keeps timers below 256 and the invariant (also Chip8.java:642-647) |
| Chip8Machine.ExecFRegs | src/main/java/com/taibaisoft/chip8/processor/Chip8.java:648-656 | the index and RPL group of Fxnn keeps I to 12 bits and the invariant (also Chip8.java:686-697) |
| Chip8Machine.ExecF | src/main/java/com/taibaisoft/chip8/processor/Chip8.java:610-702 | every Fxnn opcode keeps the invariant |
| Chip8Machine.ExecFlow | src/main/java/com/taibaisoft/chip8/processor/Chip8.java:412-421 | JP, CALL and JP V0 keep the invariant, a CALL with a full stack raising (also Chip8.java:561-563) |
| Chip8Machine.ExecSkip | src/main/java/com/taibaisoft/chip8/processor/Chip8.java:422-450 | the skip opcodes keep the invariant (also Chip8.java:546-556) |
| Chip8Machine.RegisterOp | src/main/java/com/taibaisoft/chip8/processor/Chip8.java:469-545 | the 8xyn arithmetic keeps 16 registers |
| Chip8Machine.ExecRegs | src/main/java/com/taibaisoft/chip8/processor/Chip8.java:451-545 | LD, ADD, the 8xyn group, LD I and RND keep the invariant (also Chip8.java:557-571) |
| Chip8Machine.FontImage | src/main/java/com/taibaisoft/chip8/processor/Chip8.java:288-298 | the font image is a full 4096-byte memory |
| Chip8Properties.RunsFx | src/main/java/com/taibaisoft/chip8/processor/Chip8.java:610-702 | `runOpcode` sends every Fxnn opcode to the F group |
| Chip8.Chip8.constructor | src/main/java/com/taibaisoft/chip8/processor/Chip8.java:115-137 | a new processor has no memory, zeroed registers, stack, pixels and keys, the 64x32 screen and load address 0x200; timer 0 is registered with period 10^9/60 ns and timers 1..7 stay unregistered (also Chip8.java:157-167, GenericCPU.java:89-93) |
| Chip8.Chip8.OneCycle | src/main/java/com/taibaisoft/chip8/processor/Chip8.java:270-284 | the arrays and fields change exactly as `Chip8Machine.OneCycle` says, with the exception raised, and the class invariant holds afterwards |
| Chip8.Chip8.RunOpcode | src/main/java/com/taibaisoft/chip8/processor/Chip8.java:340-704 | decoding on the top nibble runs the group method that matches `Chip8Machine.RunOpcode` |
| Chip8.Chip8.Exec0 | src/main/java/com/taibaisoft/chip8/processor/Chip8.java:344-410 | group 0 (CLS, RET, the scrolls, EXIT, LOW, HIGH, ignored SYS) changes the state as `Chip8Machine.Exec0` says |
| Chip8.Chip8.ClearScreen | src/main/java/com/taibaisoft/chip8/processor/Chip8.java:345-356 | 0230 and 00E0 turn every pixel off and step `pc` |
| Chip8.Chip8.Return | src/main/java/com/taibaisoft/chip8/processor/Chip8.java:357-361 | RET decrements `sp` and resumes at the stored address + 2; on an empty stack it raises with `sp` at -1 |
| Chip8.Chip8.ScrollScreen | src/main/java/com/taibaisoft/chip8/processor/Chip8.java:362-371 | the scrolls run `shiftArray` on the pixel buffer with the current width and step `pc` (also Chip8.java:397-401) |
| Chip8.Chip8.SetExtended | src/main/java/com/taibaisoft/chip8/processor/Chip8.java:378-395 | 00FE / 00FF switch extended mode and the screen size, a repeat changing nothing but `pc` |
| Chip8.Chip8.ExecFlow | src/main/java/com/taibaisoft/chip8/processor/Chip8.java:412-420 | JP, CALL (stack push, raising outside the 32 entries) and JP V0 change the state as `Chip8Machine.ExecFlow` says (also Chip8.java:561-563) |
| Chip8.Chip8.ExecSkip | src/main/java/com/taibaisoft/chip8/processor/Chip8.java:422-450 | SE and SNE change `pc` as `Chip8Machine.ExecSkip` says (also Chip8.java:546-555) |
| Chip8.Chip8.ExecRegs | src/main/java/com/taibaisoft/chip8/processor/Chip8.java:451-571 | LD, ADD, the 8xyN group, LD I and RND change V, I and `pc` as `Chip8Machine.ExecRegs` says |
| Chip8.Chip8.RegisterOp | src/main/java/com/taibaisoft/chip8/processor/Chip8.java:451-468 | the register array ends as `Chip8Machine.RegisterOp` of the old one (also Chip8.java:564-568) |
| Chip8.Chip8.Alu | src/main/java/com/taibaisoft/chip8/processor/Chip8.java:469-543 | the 8xyN cases leave the registers as `Chip8Machine.Alu` says, VF written before Vx |
| Chip8.Chip8.Draw | src/main/java/com/taibaisoft/chip8/processor/Chip8.java:572-592 | DRW draws N bytes for N > 0, 32 bytes in extended mode for N = 0, otherwise nothing; the state ends as `Chip8Machine.Draw`, whose drawing `Chip8Properties.DrawXor` states |
| Chip8.Chip8.Blit | src/main/java/com/taibaisoft/chip8/processor/Chip8.java:235-262 | `blitSprite` plus the `pc` step end in the state `Chip8Machine.Blit` gives, so the sprite is drawn by exclusive or with VF the collision flag as `Chip8Properties.BlitXor` proves; a sprite byte past memory raises with the rows drawn so far |
| Chip8.Chip8.BlitPixels | src/main/java/com/taibaisoft/chip8/processor/Chip8.java:235-262 | the drawing loops leave pixels and VF as `Chip8Machine.Drawing` says |
| Chip8.Chip8.BlitLoops | src/main/java/com/taibaisoft/chip8/processor/Chip8.java:242-261 | the outer two loops, with VF cleared first, leave the screen as `Chip8Machine.Blitting` and change no register but VF |
| Chip8.Chip8.BlitByte | src/main/java/com/taibaisoft/chip8/processor/Chip8.java:246-258 | the innermost loop XORs the byte's 8 bits into the row, the collision flag rising when a lit pixel goes dark |
| Chip8.Chip8.ExecKey | src/main/java/com/taibaisoft/chip8/processor/Chip8.java:593-609 | SKP / SKNP index the board's key array with Vx, raising for Vx >= 16 |
| Chip8.Chip8.ExecF | src/main/java/com/taibaisoft/chip8/processor/Chip8.java:610-702 | the Fx group changes the state as `Chip8Machine.ExecF` says |
| Chip8.Chip8.ResetKbd | src/main/java/com/taibaisoft/chip8/processor/Chip8.java:315-320 | the key array in use (the board's after a key wait) becomes all zeros |
| Chip8.Chip8.KeyWait | src/main/java/com/taibaisoft/chip8/processor/Chip8.java:617-641 | Fx0A arms the wait, or scans for a key, as `Chip8Machine.KeyWait` says |
| Chip8.Chip8.FirstPressed | src/main/java/com/taibaisoft/chip8/processor/Chip8.java:626-631 | the scan loop returns `Chip8Machine.FirstPressed` of the key array in use |
| Chip8.Chip8.TakeKey | src/main/java/com/taibaisoft/chip8/processor/Chip8.java:634-638 | the pressed key goes to Vx, the wait is disarmed, the keys are cleared and `pc` steps (also Chip8.java:701) |
| Chip8.Chip8.ExecFMem | src/main/java/com/taibaisoft/chip8/processor/Chip8.java:657-685 | Fx33, Fx55, Fx65 change memory and registers as `Chip8Machine.ExecFMem` says |
| Chip8.Chip8.StoreBcd | src/main/java/com/taibaisoft/chip8/processor/Chip8.java:657-671 | Fx33 writes the three digits at I..I+2, raising and writing nothing when I+2 is past memory |
| Chip8.Chip8.StoreRegisters | src/main/java/com/taibaisoft/chip8/processor/Chip8.java:672-679 | Fx55 copies V0..Vx to memory from I, raising at the first address past memory |
| Chip8.Chip8.StoreLoop | src/main/java/com/taibaisoft/chip8/processor/Chip8.java:675-677 | the loop writes `StoreRegs` and stops early exactly when `I + x` is past memory |
| Chip8.Chip8.LoadRegisters | src/main/java/com/taibaisoft/chip8/processor/Chip8.java:680-685 | Fx65 reads V0..Vx from memory from I, raising at the first address past memory |
| Chip8.Chip8.LoadLoop | src/main/java/com/taibaisoft/chip8/processor/Chip8.java:681-683 | the loop reads `LoadRegs` and stops early exactly when `I + x` is past memory |
| Chip8.Chip8.ExecFRegs | src/main/java/com/taibaisoft/chip8/processor/Chip8.java:614-656 | timers, I and the RPL flags, and an unknown kk only stepping `pc` (also Chip8.java:686-697) |
| Chip8.Chip8.ExecFTimers | src/main/java/com/taibaisoft/chip8/processor/Chip8.java:614-616 | Fx07, Fx15, Fx18 move Vx from or to the timers (also Chip8.java:642-647) |
| Chip8.Chip8.ExecFIndex | src/main/java/com/taibaisoft/chip8/processor/Chip8.java:648-656 | Fx1E, Fx29, Fx30 set I as `Chip8Machine.ExecFTimers` says |
| Chip8.CopyPrefix | src/main/java/com/taibaisoft/chip8/processor/Chip8.java:686-697 | Fx75 / Fx85: the first x + 1 entries are copied, the rest kept |
| Chip8.Chip8.TimerCallback | src/main/java/com/taibaisoft/chip8/processor/Chip8.java:706-715 | the timers and the buzz answer are `Chip8Machine.TimerTick` of the old state |
| Chip8.Chip8.Reset | src/main/java/com/taibaisoft/chip8/processor/Chip8.java:219-225 | `reset` stops the processor and leaves `Chip8Machine.Reset` of the old state |
| Chip8.Chip8.ResetCore | src/main/java/com/taibaisoft/chip8/processor/Chip8.java:303-311 | stop, timers, call stack, `sp`, `pc`, I and the load address to zero (also Chip8.java:334-338, GenericCPU.java:128-131) |
| Chip8.Chip8.ClearBuffers | src/main/java/com/taibaisoft/chip8/processor/Chip8.java:321-333 | memory (when present), the pixel buffer and V0..VF to zero |
| Chip8.Chip8.Init | src/main/java/com/taibaisoft/chip8/processor/Chip8.java:288-302 | a fresh memory holding only the two fonts, the mode, the 64x32 screen outside extended mode |
| Chip8.Chip8.LoadProgram | src/main/java/com/taibaisoft/chip8/processor/Chip8.java:190-204 | no program answers false and changes nothing; otherwise `init`, the load address, the copy and `pc` as `Chip8Machine.LoadProgram` says, a program that does not fit raising after `init` |
| Chip8.ZeroBytes | src/main/java/com/taibaisoft/chip8/processor/Chip8.java:290 | a new byte array is all zeros |
| Chip8.FontMemory | src/main/java/com/taibaisoft/chip8/processor/Chip8.java:290-298 | the two font loops give `FontImage()` |
| Chip8.WriteAt | src/main/java/com/taibaisoft/chip8/processor/Chip8.java:196 | the copy loop leaves `Overwrite(old, src, at)` |
| Chip8Properties.FetchBounds | src/main/java/com/taibaisoft/chip8/processor/Chip8.java:272-284 | at `pc >= 4094` the cycle raises "Reached the end of program" and changes nothing; below it, away from the shim, it runs the big-endian word at `pc` |
| Chip8Properties.HiresShim | src/main/java/com/taibaisoft/chip8/processor/Chip8.java:275-279 | `0x1260` at the load address selects 64x64 and runs `JP #2C0` |
| Chip8Properties.CallThenReturn | src/main/java/com/taibaisoft/chip8/processor/Chip8.java:357-361 | CALL pushes `pc`, increments `sp` and jumps; RET right after restores `sp` and continues at the call + 2 (also Chip8.java:416-420) |
| Chip8Properties.StackLimits | src/main/java/com/taibaisoft/chip8/processor/Chip8.java:357-361 | a CALL with 32 entries in use and a RET on an empty stack raise an index error (also Chip8.java:416-420) |
| Chip8Properties.AluFlags | src/main/java/com/taibaisoft/chip8/processor/Chip8.java:469-543 | 8xy4 sets VF to the carry and Vx to the sum mod 256; 8xy5 / 8xy7 set VF to 1 iff no borrow and Vx to the difference mod 256; 8xy6 / 8xyE put the shifted-out bit in VF; only Vx and VF change; unknown N changes nothing |
| Chip8Properties.AddImmediateFlag | src/main/java/com/taibaisoft/chip8/processor/Chip8.java:458-466 | 7xkk wraps mod 256, sets VF to 1 on overflow and leaves it alone otherwise |
| Chip8Properties.RandomMasked | src/main/java/com/taibaisoft/chip8/processor/Chip8.java:564-568 | RND leaves no bit of Vx outside kk |
| Chip8Properties.Skips | src/main/java/com/taibaisoft/chip8/processor/Chip8.java:422-450 | the skips step `pc` by 4 when their condition holds and by 2 otherwise; Ex9E / ExA1 with Vx >= 16 raise (also Chip8.java:546-555, Chip8.java:593-609) |
| Chip8Properties.DrawFacts | src/main/java/com/taibaisoft/chip8/processor/Chip8.java:572-592 | a draw leaves VF at 0 or 1 and no other register changed; N = 0 outside extended mode only steps `pc` (the drawn pixels are `DrawXor`) |
| Chip8Properties.DotCellInjective | src/main/java/com/taibaisoft/chip8/processor/Chip8.java:246-250 | two different bits of a sprite of at most 16 rows of one or two bytes land on different cells, the column wrapping mod H and the row mod V |
| Chip8Properties.BlittingXor | src/main/java/com/taibaisoft/chip8/processor/Chip8.java:244-261 | by induction over the three loops of `blitSprite`: every sprite bit still to come flips its cell, cells no bit reaches are unchanged, and the collision flag becomes true exactly when a flipped lit cell goes dark |
| Chip8Properties.BlittingFaults | src/main/java/com/taibaisoft/chip8/processor/Chip8.java:244-261 | a sprite whose bytes run past memory makes the loops raise |
| Chip8Properties.DrawingXor | src/main/java/com/taibaisoft/chip8/processor/Chip8.java:235-262 | for a sprite inside memory: each sprite bit XORed into pixel ((x + 8q + k) mod H, (y + r) mod V), no other pixel changed, VF = 1 iff a lit pixel was cleared |
| Chip8Properties.DrawingFaults | src/main/java/com/taibaisoft/chip8/processor/Chip8.java:235-262 | a sprite past memory raises |
| Chip8Properties.BlitXor | src/main/java/com/taibaisoft/chip8/processor/Chip8.java:235-262 | `blitSprite` and the `pc` step: raises iff the sprite runs past memory, and otherwise XORs the sprite in with VF the collision flag and steps `pc` (also Chip8.java:583-591) |
| Chip8Properties.DrawXor | src/main/java/com/taibaisoft/chip8/processor/Chip8.java:572-592 | DRW: for N bytes (32 for N = 0 in extended mode) from I, each sprite bit is XORed into the pixel at the wrapped position, nothing else changes, VF = 1 iff a lit pixel goes dark, `pc` steps; past memory it raises (also Chip8.java:235-262) |
| Chip8Properties.BcdDigits | src/main/java/com/taibaisoft/chip8/processor/Chip8.java:657-671 | the three bytes are decimal digits whose value is Vx, and no other byte changes |
| Chip8Properties.StoreThenLoad | src/main/java/com/taibaisoft/chip8/processor/Chip8.java:672-685 | Fx55 then Fx65 with the same x and I leaves registers and I unchanged |
| Chip8Properties.IndexArithmetic | src/main/java/com/taibaisoft/chip8/processor/Chip8.java:648-653 | Fx1E keeps I to 12 bits; Fx29 sets I to 0x40 + 5 Vx |
| Chip8Properties.KeyWaitArmsAndWaits | src/main/java/com/taibaisoft/chip8/processor/Chip8.java:617-633 | the first Fx0A arms the wait and aliases the board's keys with `pc` held back; while no key reads 1 nothing changes |
| Chip8Properties.KeyWaitFound | src/main/java/com/taibaisoft/chip8/processor/Chip8.java:626-638 | with a key down, the lowest such key goes to Vx, the wait is disarmed, the keys are cleared and `pc` steps (also Chip8.java:701) |
| Chip8Properties.TimerTickFacts | src/main/java/com/taibaisoft/chip8/processor/Chip8.java:706-715 | each running timer counts down by one, never below zero, nothing else changes, and the buzzer sounds iff the sound timer was positive |
| Chip8Properties.ResetFacts | src/main/java/com/taibaisoft/chip8/processor/Chip8.java:206-225 | `reset` zeroes memory, V, I, `pc`, `sp`, the stack, graphics, timers and keys, and is idempotent (also Chip8.java:303-338) |
| Chip8Properties.FontImageLayout | src/main/java/com/taibaisoft/chip8/processor/Chip8.java:71-110 | after `init` memory holds the 4x5 font at 0x40, the 8x10 font at 0x100 and zeros below 0x40, between the fonts and above 0x1A0 (also Chip8.java:288-298) |
| Chip8Properties.LoadNothing | src/main/java/com/taibaisoft/chip8/processor/Chip8.java:190-204 | a null program answers false and changes nothing |
| Chip8Properties.LoadFits | src/main/java/com/taibaisoft/chip8/processor/Chip8.java:190-204 | a program that fits lies at `start`, `pc` and the load address are `start`, the screen is 64x32, and each font is intact when the program's bytes miss its range |
| Chip8Properties.LoadTooBig | src/main/java/com/taibaisoft/chip8/processor/Chip8.java:190-204 | a program that does not fit raises after `init` |
| Board.PosKeyMapIsPermutation | src/main/java/com/taibaisoft/chip8/chipmunk/Board.java:109-114 | `posKeyMap_` is a permutation of 0..15, with `KeyPosition` its inverse |
| Board.ScanCells | src/main/java/com/taibaisoft/chip8/chipmunk/Board.java:253-257 | after the table loop, a keypad slot holds `val` exactly when the key code of its table position is the event's code, and keeps its value otherwise |
| Board.ScanKeepsBits | src/main/java/com/taibaisoft/chip8/chipmunk/Board.java:255 | key states stay in {0, 1} (also Board.java:264) |
| Board.DefaultPressOneKey | src/main/java/com/taibaisoft/chip8/chipmunk/Board.java:103-114 | with the default table, the code of position i sets exactly keypad slot `posKeyMap_[i]` (also Board.java:251-258) |
| Board.PressThenRelease | src/main/java/com/taibaisoft/chip8/chipmunk/Board.java:251-267 | releasing after pressing the same code is the same as releasing alone |
| Board.ExitKeepsLoop | src/main/java/com/taibaisoft/chip8/chipmunk/Board.java:272-289 | `00FD` raises the EXIT request, the one exception for which `onException` keeps the loop going; running off the top of memory raises end-of-program, and `onException` stops the loop (also Chip8.java:372-378) |
| Board.Board.constructor | src/main/java/com/taibaisoft/chip8/chipmunk/Board.java:87 | the default key codes and sixteen released keys (also Board.java:103-108) |
| Board.Board.ScanTable | src/main/java/com/taibaisoft/chip8/chipmunk/Board.java:253-257 | the table loop leaves `Scan` of the old key states |
| Board.Board.KeyPressed | src/main/java/com/taibaisoft/chip8/chipmunk/Board.java:251-258 | every slot whose table code matches becomes 1, the others are unchanged, in the array `getKeyboardState` hands out, so the processor sees the change (also Board.java:241-243) |
| Board.Board.KeyReleased | src/main/java/com/taibaisoft/chip8/chipmunk/Board.java:260-267 | every slot whose table code matches becomes 0, the others are unchanged, in the array `getKeyboardState` hands out (also Board.java:241-243) |
| CmdArgs.FirstMatch | src/main/java/com/taibaisoft/chip8/platform/CmdArgs.java:42-60 | the index of the first definition whose long name (or alias) starts the text; no earlier one does, and `|defs|` means none |
| CmdArgs.DashCount | src/main/java/com/taibaisoft/chip8/platform/CmdArgs.java:73-77 | 2 for an argument starting `--`, 1 for a single `-`, 0 otherwise |
| CmdArgs.Matched | src/main/java/com/taibaisoft/chip8/platform/CmdArgs.java:42-60 | a match is a definition of the list whose key follows the dashes, the attached value starting right after it (also CmdArgs.java:73-77) |
| CmdArgs.CmdArgs.constructor | src/main/java/com/taibaisoft/chip8/platform/CmdArgs.java:29-39 | the definitions and arguments are stored, `len_` is the argument count (0 without arguments), no error |
| CmdArgs.CmdArgs.GetMatchedDef | src/main/java/com/taibaisoft/chip8/platform/CmdArgs.java:42-60 | the loop returns the first matching definition and sets `ArgValueStart` past its key, or returns null leaving `ArgValueStart` alone |
| CmdArgs.CmdArgs.MatchArg | src/main/java/com/taibaisoft/chip8/platform/CmdArgs.java:70-77 | the dash test and the call of `getMatchedDef` give `Matched` |
| CmdArgs.CmdArgs.GetNext | src/main/java/com/taibaisoft/chip8/platform/CmdArgs.java:64-105 | the result is `NextArg` of the arguments, and `lastError_` is set exactly in the missing-value case |
| CmdArgs.NoArgOutside | src/main/java/com/taibaisoft/chip8/platform/CmdArgs.java:65-67 | null comes back exactly when the arguments are null or the index is outside `[0, len)` |
| CmdArgs.PlainArgument | src/main/java/com/taibaisoft/chip8/platform/CmdArgs.java:94-98 | an argument without a leading dash gives name `""` and the trimmed argument as value |
| CmdArgs.AttachedValue | src/main/java/com/taibaisoft/chip8/platform/CmdArgs.java:80 | a value option with text attached gets the rest after the name as its value (also CmdArgs.java:90-92) |
| CmdArgs.DetachedValue | src/main/java/com/taibaisoft/chip8/platform/CmdArgs.java:81-86 | a value option with nothing attached takes the next trimmed argument and the index moves past it (also CmdArgs.java:99-103) |
| CmdArgs.NextIndexProgress | src/main/java/com/taibaisoft/chip8/platform/CmdArgs.java:99-103 | the next index is -1 at the end or lies strictly after the argument read |
| CmdArgs.MissingValueAtEnd | src/main/java/com/taibaisoft/chip8/platform/CmdArgs.java:86-89 | a value option as the last argument gives the missing-value failure instead of a result (also CmdArgs.java:99-100) |
| JavaString.Trim | src/main/java/com/taibaisoft/chip8/platform/CmdArgs.java:70 | `trim` leaves neither end a character up to the space (also CmdArgs.java:85) |
| JavaString.TrimStart | src/main/java/com/taibaisoft/chip8/platform/CmdArgs.java:70 | only characters up to the space are dropped from the front |
| JavaString.TrimEnd | src/main/java/com/taibaisoft/chip8/platform/CmdArgs.java:70 | only characters up to the space are dropped from the end |
| JavaString.TrimNothing | src/main/java/com/taibaisoft/chip8/platform/CmdArgs.java:70 | a string with nothing to trim is its own trim |
| JavaString.EqualsIgnoreCaseIsEquivalence | src/main/java/com/taibaisoft/framework/UICommand.java:109 | `equalsIgnoreCase` is reflexive, symmetric and transitive |
| UiCommand.SelectionIndexIsFirstMatch | src/main/java/com/taibaisoft/framework/UICommand.java:106-114 | the index is the first entry equal to the radio command ignoring case, every earlier one differs, and `length` means none |
| UiCommand.UiCommand.constructor | src/main/java/com/taibaisoft/framework/UICommand.java:36-37 | empty radio command and no id array |
| UiCommand.UiCommand.SetAllIds | src/main/java/com/taibaisoft/framework/UICommand.java:81-83 | the id array scanned by the index search is the one given |
| UiCommand.UiCommand.SetRadioSelectionActionCommand | src/main/java/com/taibaisoft/framework/UICommand.java:91-93 | the radio command becomes the given string, and `getRadioSelectionActionCommand` then returns that string (also UICommand.java:99-101) |
| UiCommand.UiCommand.GetRadioSelectionIndex | src/main/java/com/taibaisoft/framework/UICommand.java:106-114 | with ids set, the loop returns `SelectionIndex`, hence a value in `[0, length]`; without ids it fails (the null dereference) |
| UiCommandSite.PrefixLength | src/main/java/com/taibaisoft/framework/UICommandSite.java:65 | the prefix has 15 characters |
| UiCommandSite.TwoDigits | src/main/java/com/taibaisoft/framework/UICommandSite.java:289 | `%02d`: exactly two decimal digits below 100, three or more from 100 |
| UiCommandSite.TwoDigitsValue | src/main/java/com/taibaisoft/framework/UICommandSite.java:289 | the two digits read back as the counter |
| UiCommandSite.MasterAction | src/main/java/com/taibaisoft/framework/UICommandSite.java:288-290 | the master action starts with the prefix and has 18 characters below counter 100 |
| UiCommandSite.SubAction | src/main/java/com/taibaisoft/framework/UICommandSite.java:291-293 | the sub action is the master action, `_` and the sub id |
| UiCommandSite.Extract | src/main/java/com/taibaisoft/framework/UICommandSite.java:294-298 | a string of 19 or more characters splits into its first 18 and the rest after the 19th; a shorter one fails (`substring` raises) |
| UiCommandSite.ExtractSubAction | src/main/java/com/taibaisoft/framework/UICommandSite.java:65 | round trip: extracting the sub action of counter c < 100 gives the master action and the sub id (also UICommandSite.java:288-298) |
| UiCommandSite.ExtractBreaksFrom100 | src/main/java/com/taibaisoft/framework/UICommandSite.java:288-298 | from counter 100 on the round trip fails |
| UiCommandSite.MasterActionInjective | src/main/java/com/taibaisoft/framework/UICommandSite.java:288-290 | distinct counters below 100 give distinct master actions |
| UiCommandSite.DispatchOf | src/main/java/com/taibaisoft/framework/UICommandSite.java:312-321 | a command without the prefix is looked up directly; one with it is split by `Extract`, too short a one fails |
| UiCommandSite.SubActionDispatch | src/main/java/com/taibaisoft/framework/UICommandSite.java:312-321 | a generated sub action routes to its group's master with its sub id |
| UiCommandSite.RadioGroupRegistered | src/main/java/com/taibaisoft/framework/UICommandSite.java:178-184 | the command of an `r` line is registered under the master action of the counter value it raised |
| UiCommandSite.UiCommandSite.constructor | src/main/java/com/taibaisoft/framework/UICommandSite.java:64-66 | counter 0 and no commands |
| UiCommandSite.UiCommandSite.SetupMenu | src/main/java/com/taibaisoft/framework/UICommandSite.java:122-124 | the counter restarts at 0 and ends at the number of `r` lines; the command map is `Registered` over the lines (also UICommandSite.java:174-185) |
| UiCommandSite.UiCommandSite.ActionPerformed | src/main/java/com/taibaisoft/framework/UICommandSite.java:312-332 | null does nothing; a plain command runs the command registered under it and keeps its radio command; a prefixed one sets the sub id on its master's command first; a too-short prefixed one fails; no other command's state changes |
| Tokenizer.SplitOneLine | src/main/java/com/taibaisoft/chip8/assemblers/Tokenizer.java:65-94 | a line without breaks followed by CR LF, a lone CR or a lone LF ends exactly one line, and scanning restarts after the terminator |
| Tokenizer.SplitTerminated | src/main/java/com/taibaisoft/chip8/assemblers/Tokenizer.java:65-102 | any lines each ended by its own terminator, plus an unterminated tail, split back into exactly those lines and the tail when it is not empty |
| Tokenizer.NoBreakLine | src/main/java/com/taibaisoft/chip8/assemblers/Tokenizer.java:93-102 | a segment without a terminator becomes the last line, and nothing when empty |
| Tokenizer.FlushToken | src/main/java/com/taibaisoft/chip8/assemblers/Tokenizer.java:151-155 | the token being built joins the list when it is not empty, and the flags are kept (also Tokenizer.java:167-170, Tokenizer.java:208-210) |
| Tokenizer.Emit | src/main/java/com/taibaisoft/chip8/assemblers/Tokenizer.java:166-182 | `:` and `=` end the token being built and then add `":"` and `"EQU"` |
| Tokenizer.AtWhitespace | src/main/java/com/taibaisoft/chip8/assemblers/Tokenizer.java:143-159 | a later whitespace of a run changes nothing; the first one ends a non-empty token exactly when fewer than 1 token (3 after a label) has been collected, and is otherwise dropped |
| Tokenizer.Normalize | src/main/java/com/taibaisoft/chip8/assemblers/Tokenizer.java:190-196 | outside strings `.` reads as `0` and letters are upper-cased |
| Tokenizer.Outside | src/main/java/com/taibaisoft/chip8/assemblers/Tokenizer.java:160-165 | outside strings only a quote enters a string |
| Tokenizer.NumberedLines | src/main/java/com/taibaisoft/chip8/assemblers/Tokenizer.java:70-73 | the k-th line (from 0) carries number k + 1 and the tokens of its raw text (also Tokenizer.java:82-85, Tokenizer.java:97-99) |
| Tokenizer.Tokens | src/main/java/com/taibaisoft/chip8/assemblers/Tokenizer.java:52-56 | null or empty input gives null, and only then |
| Tokenizer.TokensNumbering | src/main/java/com/taibaisoft/chip8/assemblers/Tokenizer.java:52-104 | the result has one entry per line of `SplitLines`, numbered 1, 2, 3, ..., each the tokens of its line |
| Tokenizer.PlainLineTokens | src/main/java/com/taibaisoft/chip8/assemblers/Tokenizer.java:183-196 | without quotes no token contains `,`, `.`, whitespace or a lower-case letter, so `,` is never emitted |
| Tokenizer.CommentDiscardsRest | src/main/java/com/taibaisoft/chip8/assemblers/Tokenizer.java:142 | outside strings `;` discards the rest of the line |
| Tokenizer.CaseInsensitive | src/main/java/com/taibaisoft/chip8/assemblers/Tokenizer.java:193-195 | without quotes, upper-casing the line first changes no token |
| Tokenizer.WhitespaceSplitsOnce | src/main/java/com/taibaisoft/chip8/assemblers/Tokenizer.java:143-159 | without quotes, labels, `=` or commas, whitespace splits a line into at most two tokens, later whitespace being dropped |
| Tokenizer.LabelledSplitsOnce | src/main/java/com/taibaisoft/chip8/assemblers/Tokenizer.java:143-174 | after a label the threshold is 3: a line `name: rest` without strings, `=`, commas, comments or a second label has at most four tokens |
| Tokenizer.LabelledExample | src/main/java/com/taibaisoft/chip8/assemblers/Tokenizer.java:143-174 | `L: LD V1 V2` gives `L`, `:`, `LD` and `V1V2` |
| Tokenizer.DoubledQuote | src/main/java/com/taibaisoft/chip8/assemblers/Tokenizer.java:133-139 | a doubled quote inside a string stands for one quote character: `DA 'a''b'` gives `DA` and `a'b` |
| Tokenizer.StringVerbatim | src/main/java/com/taibaisoft/chip8/assemblers/Tokenizer.java:162-165 | a quoted string is kept verbatim as one token, lower case and `.` included (also Tokenizer.java:199-205) |
| Tokenizer.Tokenizer.constructor | src/main/java/com/taibaisoft/chip8/assemblers/Tokenizer.java:50 | no errors |
| Tokenizer.Tokenizer.TokenizeOneLine | src/main/java/com/taibaisoft/chip8/assemblers/Tokenizer.java:120-212 | the character loop returns `LineTokens` of the line |
| Tokenizer.Tokenizer.Tokenize | src/main/java/com/taibaisoft/chip8/assemblers/Tokenizer.java:52-104 | the error list is cleared, so `getLastErrors` after it is empty, and the result is `Tokens` of the input (also Tokenizer.java:105-107) |
| Tokenizer.Tokenizer.TokenizeText | src/main/java/com/taibaisoft/chip8/assemblers/Tokenizer.java:59-103 | the line loop splits the text at CR LF, a lone CR or a lone LF and returns `Numbered(SplitLines(s))`: the lines in order, numbered from 1, the unterminated last line kept when not empty |
| Tokenizer.Tokenizer.AddLine | src/main/java/com/taibaisoft/chip8/assemblers/Tokenizer.java:70-75 | a finished line is numbered one past the lines before it and added with its tokens (also Tokenizer.java:97-102) |
| ExpressionParser.LastIndex | src/main/java/com/taibaisoft/chip8/assemblers/ExpressionParser.java:255-262 | the index of the last occurrence of the character (the table scan keeps overwriting), or 0 when it is absent |
| ExpressionParser.OpPriority | src/main/java/com/taibaisoft/chip8/assemblers/ExpressionParser.java:251-270 | the comparison of two operators' rows of three in the operator table is 1, 0 or -1 |
| ExpressionParser.DigitOf | src/main/java/com/taibaisoft/chip8/assemblers/ExpressionParser.java:325-327 | a character's digit value in radix up to 36, or -1 |
| ExpressionParser.DigitsValue | src/main/java/com/taibaisoft/chip8/assemblers/ExpressionParser.java:325-327 | a digit string read in a radix succeeds only when every character is a digit of that radix |
| ExpressionParser.ParseInt | src/main/java/com/taibaisoft/chip8/assemblers/ExpressionParser.java:325-330 | `Integer.parseInt` either fails or gives a 32-bit value |
| ExpressionParser.ReadNumber | src/main/java/com/taibaisoft/chip8/assemblers/ExpressionParser.java:285-345 | `getNumber`: a success is a 32-bit value, a failure is exactly `(false, -1)` and marks nothing, and only a symbol in the table is marked used |
| ExpressionParser.Clamp32 | src/main/java/com/taibaisoft/chip8/assemblers/ExpressionParser.java:209 | the `(int)` cast of a double saturates to the 32-bit range and keeps values already inside it |
| ExpressionParser.JavaPow | src/main/java/com/taibaisoft/chip8/assemblers/ExpressionParser.java:209 | `(int)Math.pow` of two integers is a 32-bit value |
| ExpressionParser.NoSlots | src/main/java/com/taibaisoft/chip8/assemblers/ExpressionParser.java:349 | the token buffer holds 64 empty slots |
| ExpressionParser.TokStep | src/main/java/com/taibaisoft/chip8/assemblers/ExpressionParser.java:353-382 | one character keeps the buffer at 64 slots, or runs past its end |
| ExpressionParser.TokScan | src/main/java/com/taibaisoft/chip8/assemblers/ExpressionParser.java:353-382 | the whole scan keeps the buffer at 64 slots, or runs past its end |
| ExpressionParser.PopOps | src/main/java/com/taibaisoft/chip8/assemblers/ExpressionParser.java:147-149 | popping tighter-or-equal operators leaves the previous token as it was |
| ExpressionParser.PopParen | src/main/java/com/taibaisoft/chip8/assemblers/ExpressionParser.java:156-160 | popping to the matching parenthesis leaves the previous token as it was |
| ExpressionParser.ExpressionParser.constructor | src/main/java/com/taibaisoft/chip8/assemblers/ExpressionParser.java:64-68 | empty tokens, expression, postfix, symbol table and used set |
| ExpressionParser.ExpressionParser.Init | src/main/java/com/taibaisoft/chip8/assemblers/ExpressionParser.java:79-82 | `getUsedSymbolSet` afterwards is exactly `{"?"}` (also ExpressionParser.java:396-398) |
| ExpressionParser.ExpressionParser.PushSymbolAsUsed | src/main/java/com/taibaisoft/chip8/assemblers/ExpressionParser.java:393-395 | the symbol joins the used set, and nothing leaves it |
| ExpressionParser.ExpressionParser.Parse | src/main/java/com/taibaisoft/chip8/assemblers/ExpressionParser.java:91-119 | the expression and table are stored, and the outcome, tokens and postfix are those of `Parsed`: a whole-expression symbol is looked up directly, otherwise tokenize, convert, evaluate; the used set only grows, and only by names the symbol table holds |
| ExpressionParser.ParsedUsed | src/main/java/com/taibaisoft/chip8/assemblers/ExpressionParser.java:91-119 | `parse` only adds to the used set, and only names in the symbol table, whatever the expression (also ExpressionParser.java:196-205) |
| ExpressionParser.EvalRunsSame | src/main/java/com/taibaisoft/chip8/assemblers/ExpressionParser.java:176-243 | evaluating the postfix form gives the same value and the same exception whatever names were marked used before |
| ExpressionParser.ParsedSame | src/main/java/com/taibaisoft/chip8/assemblers/ExpressionParser.java:91-119 | an expression's value and exception do not depend on the used set `parse` starts with |
| ExpressionParser.ExpressionParser.Tokenize | src/main/java/com/taibaisoft/chip8/assemblers/ExpressionParser.java:347-392 | the character loop over the 64-slot buffer raises exactly when `ExprTokens` fails, and otherwise appends its tokens |
| ExpressionParser.ExpressionParser.PopTighter | src/main/java/com/taibaisoft/chip8/assemblers/ExpressionParser.java:147-149 | the pop loop does what `PopOps` says |
| ExpressionParser.ExpressionParser.PopToParen | src/main/java/com/taibaisoft/chip8/assemblers/ExpressionParser.java:156-160 | the pop loop does what `PopParen` says, raising on an empty stack |
| ExpressionParser.ExpressionParser.ConvertToRPN | src/main/java/com/taibaisoft/chip8/assemblers/ExpressionParser.java:124-170 | the shunting-yard loop appends what `ConvertTokens` says and raises exactly when it does; what that is for written trees and for chains of two operators is stated by `ConvertPrint` and `ConvertChain` |
| ExpressionParser.ExpressionParser.GetNumber | src/main/java/com/taibaisoft/chip8/assemblers/ExpressionParser.java:285-345 | a lone sign raises; otherwise the result and the used set are those of `ReadNumber` |
| ExpressionParser.ExpressionParser.ApplyOperator | src/main/java/com/taibaisoft/chip8/assemblers/ExpressionParser.java:188-235 | one operator step does what `Operate` says, including the used set |
| ExpressionParser.ExpressionParser.Evaluate | src/main/java/com/taibaisoft/chip8/assemblers/ExpressionParser.java:176-243 | the stack loop ends as `Evaluation` of the postfix says |
| ExpressionProperties.GroupIsLevel | src/main/java/com/taibaisoft/chip8/assemblers/ExpressionParser.java:35-58 | every documented operator sits in its documented priority row (also ExpressionParser.java:70-77) |
| ExpressionProperties.OpPriorityFollowsLevels | src/main/java/com/taibaisoft/chip8/assemblers/ExpressionParser.java:245-270 | `opPriority` is 1, 0 or -1 exactly when the first operator binds tighter, equally or looser, and it is antisymmetric |
| ExpressionProperties.DecimalDigits | src/main/java/com/taibaisoft/chip8/assemblers/ExpressionParser.java:325-327 | a decimal numeral reads back as its value |
| ExpressionProperties.ParseDecimal | src/main/java/com/taibaisoft/chip8/assemblers/ExpressionParser.java:325-330 | `parseInt` of a decimal numeral gives its value exactly when it fits in 32 bits |
| ExpressionProperties.ReadDigits | src/main/java/com/taibaisoft/chip8/assemblers/ExpressionParser.java:316-327 | a token starting with a digit is read in radix 10 |
| ExpressionProperties.ReadMinusDigits | src/main/java/com/taibaisoft/chip8/assemblers/ExpressionParser.java:297-300 | a leading `-` negates the digits after it (also ExpressionParser.java:325-327) |
| ExpressionProperties.ReadNonNegative | src/main/java/com/taibaisoft/chip8/assemblers/ExpressionParser.java:285-345 | a numeral reads as its value when it fits, and as `(false, -1)` otherwise |
| ExpressionProperties.ReadNegative | src/main/java/com/taibaisoft/chip8/assemblers/ExpressionParser.java:285-345 | `-` and a numeral read as the negated value when the numeral fits |
| ExpressionProperties.ReadFormatted | src/main/java/com/taibaisoft/chip8/assemblers/ExpressionParser.java:226 | a value printed with `%d` reads back as itself, except the minimum 32-bit value, which the digit parse rejects (also ExpressionParser.java:285-345) |
| ExpressionProperties.HexPrefix | src/main/java/com/taibaisoft/chip8/assemblers/ExpressionParser.java:309-311 | `#` selects radix 16, after a sign too, and rejects non-hex digits |
| ExpressionProperties.BinaryOctalPrefixes | src/main/java/com/taibaisoft/chip8/assemblers/ExpressionParser.java:306-314 | `$` selects radix 2 and `@` radix 8 |
| ExpressionProperties.ReadSymbol | src/main/java/com/taibaisoft/chip8/assemblers/ExpressionParser.java:319-339 | a name is looked up in the table, negated after `-`, marked used when found and a failure when not |
| ExpressionProperties.TokensRoundTrip | src/main/java/com/taibaisoft/chip8/assemblers/ExpressionParser.java:347-392 | text made by joining separated tokens (at most 32) tokenizes back into exactly those tokens |
| ExpressionProperties.TooManySingles | src/main/java/com/taibaisoft/chip8/assemblers/ExpressionParser.java:349 | a run of operator and parenthesis characters overflows the 64-slot buffer exactly when it has more than 32 of them (also ExpressionParser.java:363-372) |
| ExpressionProperties.EmptyExpression | src/main/java/com/taibaisoft/chip8/assemblers/ExpressionParser.java:176-243 | an empty expression that is not a symbol evaluates to `(true, -1)` |
| ExpressionProperties.ConvertPrint | src/main/java/com/taibaisoft/chip8/assemblers/ExpressionParser.java:124-165 | the shunting-yard loop turns a fully parenthesised tree's tokens into its postfix form (unparenthesised chains of two operators: `ParsesChain`) |
| ExpressionProperties.ConvertTopPrint | src/main/java/com/taibaisoft/chip8/assemblers/ExpressionParser.java:124-170 | conversion of the top-level tokens of a tree gives its postfix form without raising |
| ExpressionProperties.EvalPost | src/main/java/com/taibaisoft/chip8/assemblers/ExpressionParser.java:183-237 | the stack machine run on a tree's postfix pushes the tree's meaning |
| ExpressionProperties.EvaluatePost | src/main/java/com/taibaisoft/chip8/assemblers/ExpressionParser.java:176-243 | `evaluate` of a tree's postfix gives the tree's value, a failure or a throw as the tree's meaning says |
| ExpressionProperties.ParsesAsTree | src/main/java/com/taibaisoft/chip8/assemblers/ExpressionParser.java:91-119 | `parse` of a printed tree (at most 32 tokens) is the tree's meaning (unparenthesised chains of two operators: `ParsesChain`) |
| ExpressionProperties.TwoPlusThreeTimesFour | src/main/java/com/taibaisoft/chip8/assemblers/ExpressionParser.java:91-119 | `(2+3)*4` parses to 20 |
| ExpressionProperties.ConvertChain | src/main/java/com/taibaisoft/chip8/assemblers/ExpressionParser.java:147-150 | without parentheses, `x o1 y o2 z` (operands written out in full) converts to the postfix form of `(x o1 y) o2 z` when `o1` is on the same or a tighter documented level than `o2`, and of `x o1 (y o2 z)` when `o2` is tighter (also ExpressionParser.java:124-170) |
| ExpressionProperties.ParsesChain | src/main/java/com/taibaisoft/chip8/assemblers/ExpressionParser.java:91-119 | `parse` of `x o1 y o2 z` is the meaning of the grouping the documented levels give: the tighter operator first and, within a level, left to right |
| ExpressionProperties.TwoPlusThreeTimesFourIsFourteen | src/main/java/com/taibaisoft/chip8/assemblers/ExpressionParser.java:91-119 | `2+3*4` parses to 14 |
| ExpressionProperties.EightMinusFourMinusTwo | src/main/java/com/taibaisoft/chip8/assemblers/ExpressionParser.java:91-119 | `8-4-2` parses to 2, subtraction grouping to the left |
| ExpressionProperties.DivisionByZeroThrows | src/main/java/com/taibaisoft/chip8/assemblers/ExpressionParser.java:213 | dividing by zero throws |
| ExpressionProperties.BadUnaryOperator | src/main/java/com/taibaisoft/chip8/assemblers/ExpressionParser.java:141-143 | an expression opened by an operator other than `+`, `-`, `~` stops the conversion and evaluates to `(true, -1)` (also ExpressionParser.java:239-242) |
| Bits.BitAnd | src/main/java/com/taibaisoft/chip8/processor/Chip8.java:479-481 | a bitwise AND is no larger than either operand |
| Bits.BitOrXorBound | src/main/java/com/taibaisoft/chip8/processor/Chip8.java:476-484 | OR and XOR of two n-bit values stay n-bit values, so register results stay bytes |
| Bits.BitAndIdempotent | src/main/java/com/taibaisoft/chip8/processor/Chip8.java:567 | masking twice with the same mask is masking once |
| Bits.BitXorSelf | src/main/java/com/taibaisoft/chip8/processor/Chip8.java:482-484 | a value XOR itself is 0 |
| Bits.BitXorInvolutive | src/main/java/com/taibaisoft/chip8/processor/Chip8.java:482-484 | XOR with the same value twice gives the original back |
| Bits.Wrap32 | src/main/java/com/taibaisoft/chip8/assemblers/ExpressionParser.java:206-220 | Java `int` arithmetic: the result is the 32-bit value congruent to the exact one modulo 2^32, and values already in range are kept |
| Bits.Unsigned32 | src/main/java/com/taibaisoft/chip8/assemblers/ExpressionParser.java:214-218 | the 32-bit pattern an `int` stands for, from which it is recovered by wrapping |
| JavaString.UpperAscii | src/main/java/com/taibaisoft/chip8/assemblers/Tokenizer.java:193-195 | `Character.toUpperCase` on ASCII: lower-case letters move down by 32, everything else stays |
| JavaString.UpperCasedMatches | src/main/java/com/taibaisoft/framework/UICommand.java:109 | `equalsIgnoreCase` accepts a string against its upper-cased form |
| JavaString.Decimal | src/main/java/com/taibaisoft/chip8/assemblers/Disassembler.java:374-382 | a counter's decimal text is a non-empty run of digits |
| AssemblerSpec.IsVxVy | src/main/java/com/taibaisoft/chip8/assemblers/Assembler.java:291-307 | a register name is accepted exactly when it is `V` and one upper-case hex digit, giving that digit's value, and is otherwise `(false, -1)` |
| AssemblerSpec.Mingle | src/main/java/com/taibaisoft/chip8/assemblers/Assembler.java:560-562 | a conditional-assembly symbol is stored under `p::` and its name |
| AssemblerSpec.Padded | src/main/java/com/taibaisoft/chip8/assemblers/Assembler.java:1237-1240 | a data length is kept, or grows by one to a whole word when the line is aligned and the length is odd (also Assembler.java:1251-1255, Assembler.java:1290-1293) |
| AssemblerSpec.Ascii | src/main/java/com/taibaisoft/chip8/assemblers/Assembler.java:1236 | `getBytes` with the ASCII charset: one byte below 128 per character |
| AssemblerSpec.NewLine | src/main/java/com/taibaisoft/chip8/assemblers/Assembler.java:496-503 | a source line keeps its tokens and line number and starts untranslated with no offset |
| AssemblerSpec.Put | src/main/java/com/taibaisoft/chip8/assemblers/Assembler.java:1329 | `unresolved_.put`: the new pair is present, nothing else is added, and every other name keeps its entry |
| AssemblerSpec.CheckOperand | src/main/java/com/taibaisoft/chip8/assemblers/Assembler.java:377-392 | an accepted operand did not raise and is in the range `[0, 2^bits)`; the check changes only the used set and the errors |
| AssemblerSpec.Immediate | src/main/java/com/taibaisoft/chip8/assemblers/Assembler.java:683-685 | a produced word is the base plus the accepted operand, the mask keeping a value already in range, and the state is the operand check's (also Assembler.java:733, Assembler.java:782, Assembler.java:888) |
| AssemblerSpec.Instruction | src/main/java/com/taibaisoft/chip8/assemblers/Assembler.java:614-1040 | encoding an instruction changes only the used set and the errors, never the offset or the table |
| AssemblerSpec.DbFill | src/main/java/com/taibaisoft/chip8/assemblers/Assembler.java:1257-1262 | `DB`'s operand loop keeps the data length; the bytes it writes are stated by AssemblerLines.DbFillValues |
| AssemblerSpec.DwFill | src/main/java/com/taibaisoft/chip8/assemblers/Assembler.java:1273-1280 | `DW`'s operand loop keeps the data length; the words it writes are stated by AssemblerLines.DwFillValues |
| AssemblerSpec.Label | src/main/java/com/taibaisoft/chip8/assemblers/Assembler.java:1341-1358 | a label never raises, and going on means resuming two tokens later on the same line |
| AssemblerSpec.Head | src/main/java/com/taibaisoft/chip8/assemblers/Assembler.java:614-1365 | the `switch` of `assembleOneLine` goes on only after a label, two tokens later on the same line |
| AssemblerSpec.Finish | src/main/java/com/taibaisoft/chip8/assemblers/Assembler.java:1368-1371 | the end of a line keeps the line as the head left it |
| AssemblerSpec.PassFrom | src/main/java/com/taibaisoft/chip8/assemblers/Assembler.java:165-173 | a pass keeps the number of lines |
| AssemblerSpec.Lines | src/main/java/com/taibaisoft/chip8/assemblers/Assembler.java:493-505 | `preprocess` makes at most one line per tokenized line |
| AssemblerSpec.Write | src/main/java/com/taibaisoft/chip8/assemblers/Assembler.java:233-238 | a write into the 4096-byte buffer keeps its size |
| AssemblerLines.HeadDefault | src/main/java/com/taibaisoft/chip8/assemblers/Assembler.java:614 | a head that is no mnemonic and no directive goes to the label/variable case (also Assembler.java:1298-1362) |
| AssemblerLines.SkippedHead | src/main/java/com/taibaisoft/chip8/assemblers/Assembler.java:601-611 | inside a skipped conditional block every head except a conditional directive marks the line translated with no offset |
| AssemblerLines.ConditionalHead | src/main/java/com/taibaisoft/chip8/assemblers/Assembler.java:601-605 | a conditional directive is handled even in a skipped block |
| AssemblerLines.SkippedLine | src/main/java/com/taibaisoft/chip8/assemblers/Assembler.java:575-611 | a skipped line is translated, takes no space and records no error (also Assembler.java:1368-1371) |
| AssemblerLines.DefineStores | src/main/java/com/taibaisoft/chip8/assemblers/Assembler.java:1061-1093 | `DEFINE`/`UNDEF` of a valid name stores 1 or 0 under its mingled key and takes no space |
| AssemblerLines.ConditionalOpens | src/main/java/com/taibaisoft/chip8/assemblers/Assembler.java:1094-1133 | `IFDEF`/`IFUND` of a valid name opens a block and skips exactly when its condition fails |
| AssemblerLines.DefineThenTest | src/main/java/com/taibaisoft/chip8/assemblers/Assembler.java:1061-1133 | after `DEFINE` or `UNDEF` of a name, `IFDEF`/`IFUND` of it skips exactly as the definition says |
| AssemblerLines.ElseToggles | src/main/java/com/taibaisoft/chip8/assemblers/Assembler.java:1134-1143 | `ELSE` inside a block flips skipping and changes nothing else |
| AssemblerLines.EndIfCloses | src/main/java/com/taibaisoft/chip8/assemblers/Assembler.java:1144-1153 | `ENDIF` inside a block closes it and stops skipping (also Assembler.java:455-461) |
| AssemblerLines.UnopenedElseEnd | src/main/java/com/taibaisoft/chip8/assemblers/Assembler.java:439-476 | `ELSE` or `ENDIF` with no block open records an unbalanced-if error and leaves the line untranslated (also Assembler.java:1134-1153) |
| AssemblerLines.FixedInstructionLine | src/main/java/com/taibaisoft/chip8/assemblers/Assembler.java:575-580 | an operand-free instruction gets its fixed opcode, the current offset in the first pass, and moves the offset by 2 (also Assembler.java:689-721, Assembler.java:866-875, Assembler.java:906-915, Assembler.java:1368-1371) |
| AssemblerLines.Unskipped | src/main/java/com/taibaisoft/chip8/assemblers/Assembler.java:601-606 | outside a skipped block the line starts again untranslated |
| AssemblerLines.LabelBinds | src/main/java/com/taibaisoft/chip8/assemblers/Assembler.java:1341-1358 | a valid label binds the current address, records its line and, with auto-use on, is marked used |
| AssemblerLines.LabelStep | src/main/java/com/taibaisoft/chip8/assemblers/Assembler.java:1341-1358 | after `name :` scanning goes on two tokens later (also Assembler.java:588-590) |
| AssemblerLines.LabelLine | src/main/java/com/taibaisoft/chip8/assemblers/Assembler.java:588-597 | a line that is only a label binds the current address, takes no space and is translated (also Assembler.java:1341-1358) |
| AssemblerLines.LabelledInstruction | src/main/java/com/taibaisoft/chip8/assemblers/Assembler.java:575-580 | a label followed by an instruction binds the instruction's own address (also Assembler.java:1341-1358, Assembler.java:1368-1371) |
| AssemblerLines.LabelThenNameRaises | src/main/java/com/taibaisoft/chip8/assemblers/Assembler.java:1301-1307 | `L: X` with X neither mnemonic nor directive reads past the tokens and raises |
| AssemblerLines.NameAtEndRaises | src/main/java/com/taibaisoft/chip8/assemblers/Assembler.java:1301-1307 | a bare name as the last token after a label raises the same way |
| AssemblerLines.OrgRebases | src/main/java/com/taibaisoft/chip8/assemblers/Assembler.java:1218-1231 | `ORG n` makes the current address n without moving the offset, takes no space and records nothing |
| AssemblerLines.AssignDeferred | src/main/java/com/taibaisoft/chip8/assemblers/Assembler.java:1320-1331 | an assignment whose expression does not resolve yet (before the last pass) is queued in `unresolved_` and changes nothing else |
| AssemblerLines.DeferredAssignFinish | src/main/java/com/taibaisoft/chip8/assemblers/Assembler.java:571 | a deferred assignment in the first pass still moves the offset by the default increment (also Assembler.java:1320-1331, Assembler.java:1368-1371) |
| AssemblerLines.DeferredAssignTakesWord | src/main/java/com/taibaisoft/chip8/assemblers/Assembler.java:571 | a line `N = expr` whose expression is not yet known stays untranslated, gets an offset and takes two bytes (also Assembler.java:1320-1331, Assembler.java:1368-1371) |
| AssemblerLines.OperandErrors | src/main/java/com/taibaisoft/chip8/assemblers/Assembler.java:377-392 | checking an operand adds at most one error at the end |
| AssemblerLines.UndefinedOnlyInLastPass | src/main/java/com/taibaisoft/chip8/assemblers/Assembler.java:379-384 | an undefined-variable error is recorded exactly in the last pass when the expression does not resolve |
| AssemblerLines.CheckOperandValue | src/main/java/com/taibaisoft/chip8/assemblers/Assembler.java:377-392 | checking an operand answers the value of its expression in the symbol table, whatever names were used before, and changes only the used set and the errors |
| AssemblerLines.DbFillValues | src/main/java/com/taibaisoft/chip8/assemblers/Assembler.java:1258-1262 | the `DB` loop changes only the used set and the errors, keeps every byte it has not reached, and when every operand is accepted byte k is operand k's value, a byte in range |
| AssemblerLines.DwFillValues | src/main/java/com/taibaisoft/chip8/assemblers/Assembler.java:1274-1280 | the `DW` loop keeps the bytes before its operand, and when every operand is accepted bytes 2k and 2k+1 are the high and the low byte of word k, a value in 16 bits |
| AssemblerLines.DaTurn | src/main/java/com/taibaisoft/chip8/assemblers/Assembler.java:1232-1244 | `DA 'text'` takes the text's ASCII bytes, zero-padded to even length on an aligned line, as the line's data, marks the line translated and records nothing (also Assembler.java:1369-1371) |
| AssemblerLines.DbTurn | src/main/java/com/taibaisoft/chip8/assemblers/Assembler.java:1245-1265 | a completed `DB` line with n operands holds `Padded(n)` bytes, the operands' values then zeros when translated, and moves the offset by `Padded(n)` in the first pass (also Assembler.java:1369-1371) |
| AssemblerLines.DwTurn | src/main/java/com/taibaisoft/chip8/assemblers/Assembler.java:1266-1283 | a completed `DW` line with n operands holds 2n bytes, each word high byte first when translated, and moves the offset by 2n in the first pass (also Assembler.java:1369-1371) |
| AssemblerLines.DsTurn | src/main/java/com/taibaisoft/chip8/assemblers/Assembler.java:1284-1297 | a translated `DS v` line has an 8-bit v and holds `Padded(v)` zeros, moving the offset by that much; a refused count leaves it untranslated with the default increment of two (also Assembler.java:571, Assembler.java:1369-1371) |
| AssemblerLines.DaLayout | src/main/java/com/taibaisoft/chip8/assemblers/Assembler.java:1232-1244 | outside a skipped block a `DA` line is placed at the current offset in the first pass (its old offset later), the offset moves by the padded text length, and the data is the ASCII bytes then zeros (also Assembler.java:1369-1371) |
| AssemblerLines.DbLayout | src/main/java/com/taibaisoft/chip8/assemblers/Assembler.java:1245-1265 | a completed `DB` line is placed at the current offset, moves it by `Padded(n)` in the first pass, and when translated holds operand k's value (read with `?` bound to the line's address) at byte k and zeros after (also Assembler.java:1369-1371) |
| AssemblerLines.DwLayout | src/main/java/com/taibaisoft/chip8/assemblers/Assembler.java:1266-1283 | a completed `DW` line is placed at the current offset, moves it by 2n in the first pass, and when translated holds word k at bytes 2k (high) and 2k+1 (low) (also Assembler.java:1369-1371) |
| AssemblerLines.DsLayout | src/main/java/com/taibaisoft/chip8/assemblers/Assembler.java:1284-1297 | a completed `DS v` line, when translated, has an 8-bit v, is placed at the current offset, moves it by `Padded(v)` and holds that many zeros; untranslated, it still moves the offset by two (also Assembler.java:571, Assembler.java:1369-1371) |
| AssemblerLines.InstructionTurn | src/main/java/com/taibaisoft/chip8/assemblers/Assembler.java:614-1040 | the `switch` on a mnemonic raises exactly when the encoding does, and otherwise marks the line translated with the encoded word exactly when there is one (also Assembler.java:1369-1371) |
| AssemblerLines.InstructionScan | src/main/java/com/taibaisoft/chip8/assemblers/Assembler.java:575-614 | outside a skipped block a line headed by a mnemonic goes straight to the encoding, with the same outcome (also Assembler.java:601-606) |
| AssemblerLines.InstructionLine | src/main/java/com/taibaisoft/chip8/assemblers/Assembler.java:571-614 | a line headed by a mnemonic raises exactly when its encoding does; otherwise it is placed at the current offset, moves it by two in the first pass, records the encoding's errors, and is translated with the encoded word exactly when the encoding gives one (also Assembler.java:1369-1371) |
| AssemblerPasses.PassKeepsTranslated | src/main/java/com/taibaisoft/chip8/assemblers/Assembler.java:165-173 | a pass leaves translated lines alone and reports fulfilled exactly when no line was still untranslated |
| AssemblerPasses.PassCount | src/main/java/com/taibaisoft/chip8/assemblers/Assembler.java:157-190 | assembly takes one pass exactly when every line starts translated, and never more than two |
| AssemblerPasses.NewLinesTakeTwoPasses | src/main/java/com/taibaisoft/chip8/assemblers/Assembler.java:157-190 | with an untranslated line there are two passes |
| AssemblerPasses.LinesAreNew | src/main/java/com/taibaisoft/chip8/assemblers/Assembler.java:493-505 | every line `preprocess` makes starts untranslated with no offset |
| AssemblerPasses.AssemblyPasses | src/main/java/com/taibaisoft/chip8/assemblers/Assembler.java:136-190 | a non-empty program takes two passes and an empty one one |
| AssemblerPasses.ResolveOneKeeps | src/main/java/com/taibaisoft/chip8/assemblers/Assembler.java:421-437 | resolving one name only adds to the table, and a success leaves the name bound |
| AssemblerPasses.SweepKeeps | src/main/java/com/taibaisoft/chip8/assemblers/Assembler.java:399-405 | a sweep over the queue only adds to the table, keeps no entry that was not queued, and drops an entry only when its name is bound (the converse is SweepDropsResolved) |
| AssemblerPasses.ResolveAllKeeps | src/main/java/com/taibaisoft/chip8/assemblers/Assembler.java:396-420 | the two sweeps of `resolveAllIntermediateExpr` only add to the table, record no error and keep every unresolved name queued |
| AssemblerPasses.PutDistinct | src/main/java/com/taibaisoft/chip8/assemblers/Assembler.java:116 | `unresolved_` is a hash map: a put never queues a name twice (also Assembler.java:1329) |
| AssemblerPasses.SweepDropsResolved | src/main/java/com/taibaisoft/chip8/assemblers/Assembler.java:399-405 | with distinct names, every entry still queued after a sweep has a name the table does not bind, so together with SweepKeeps an entry is dropped exactly when its name resolves |
| AssemblerPasses.ResolveAllDropsResolved | src/main/java/com/taibaisoft/chip8/assemblers/Assembler.java:396-410 | after both sweeps no queued entry has a bound name, and the names stay distinct |
| AssemblerPasses.EncodeFails | src/main/java/com/taibaisoft/chip8/assemblers/Assembler.java:228-232 | `encodeBinary` raises exactly when some placed line's offset is outside 0..4094 or its bytes run past byte 4096, where the buffer's put overflows |
| AssemblerPasses.WriteParts | src/main/java/com/taibaisoft/chip8/assemblers/Assembler.java:233-238 | a put writes its bytes at the position and leaves every other byte |
| AssemblerPasses.EncodePlaces | src/main/java/com/taibaisoft/chip8/assemblers/Assembler.java:224-243 | with lines in address order, every placed line's bytes appear at its offset in the image |
| AssemblerPasses.EncodeFits | src/main/java/com/taibaisoft/chip8/assemblers/Assembler.java:225 | the image is at most 4096 bytes (also Assembler.java:241-242) |
| AssemblerPasses.EncodeGapsZero | src/main/java/com/taibaisoft/chip8/assemblers/Assembler.java:225 | a byte no line covers is 0 (also Assembler.java:241-242) |
| AssemblerPasses.WordBytes | src/main/java/com/taibaisoft/chip8/assemblers/Assembler.java:226 | an instruction word is written big-endian, high byte first (also Assembler.java:235) |
| AssemblerProperties.RegisterRoundTrip | src/main/java/com/taibaisoft/chip8/assemblers/Assembler.java:291-307 | every register's name reads back as its number |
| AssemblerProperties.RegisterNames | src/main/java/com/taibaisoft/chip8/assemblers/Assembler.java:291-307 | every accepted register name is the name of its number |
| AssemblerProperties.NotRegisters | src/main/java/com/taibaisoft/chip8/assemblers/Assembler.java:291-307 | `V10`, `v1`, `VG` and `V` are not registers |
| AssemblerProperties.PowerOfTwo | src/main/java/com/taibaisoft/chip8/assemblers/Assembler.java:278 | `Math.pow(2, n)` for a natural n is 2^n |
| AssemblerProperties.RangeIsPowerOfTwo | src/main/java/com/taibaisoft/chip8/assemblers/Assembler.java:277-280 | up to 30 bits the range check is `0 <= v < 2^n` |
| AssemblerProperties.SaturatedRange | src/main/java/com/taibaisoft/chip8/assemblers/Assembler.java:278 | for 31 bits the `(int)` cast saturates, so the top value 2^31 - 1 is refused |
| AssemblerProperties.OperandWidths | src/main/java/com/taibaisoft/chip8/assemblers/Assembler.java:277-280 | 4, 8, 12 and 16 bits accept exactly 0..15, 0..255, 0..4095 and 0..65535 |
| AssemblerProperties.ArgumentCount | src/main/java/com/taibaisoft/chip8/assemblers/Assembler.java:359-367 | the argument count check passes exactly when the operands after the head number between min and max, and otherwise records a wrong-number-of-arguments error |
| AssemblerProperties.MingledApart | src/main/java/com/taibaisoft/chip8/assemblers/Assembler.java:328-348 | a conditional key never equals a valid symbol name, so conditions and symbols cannot collide (also Assembler.java:560-562) |
| AssemblerProperties.MingleInjective | src/main/java/com/taibaisoft/chip8/assemblers/Assembler.java:560-562 | different condition names have different keys |
| AssemblerProperties.ParseLiteral | src/main/java/com/taibaisoft/chip8/assemblers/Assembler.java:378 | a decimal operand not in the table evaluates to its value |
| AssemblerProperties.LiteralOperand | src/main/java/com/taibaisoft/chip8/assemblers/Assembler.java:377-392 | a decimal operand is accepted when below 2^bits and otherwise records a number-out-of-range error with the number |
| AssemblerProperties.AddRegisters | src/main/java/com/taibaisoft/chip8/assemblers/Assembler.java:618-632 | `ADD Vx, Vy` is `8xy4` |
| AssemblerProperties.LoadByte | src/main/java/com/taibaisoft/chip8/assemblers/Assembler.java:749-783 | `LD Vx, n` with n below 256 is `6xnn` |
| AssemblerProperties.LoadByteOutOfRange | src/main/java/com/taibaisoft/chip8/assemblers/Assembler.java:778-781 | `LD Vx, n` with n of 256 or more records a number-out-of-range error and produces no word (also Assembler.java:386-388) |
| AssemblerProperties.LoadToRegister | src/main/java/com/taibaisoft/chip8/assemblers/Assembler.java:749-785 | `LD Vx, a` goes to the register-destination branch |
| AssemblerProperties.JumpAddress | src/main/java/com/taibaisoft/chip8/assemblers/Assembler.java:722-733 | `JP n` with n below 4096 is `1nnn` |
| AssemblerProperties.SampleAdd | src/main/java/com/taibaisoft/chip8/assemblers/Assembler.java:618-632 | `ADD V1, V2` is `8124` |
| AssemblerProperties.SampleLoad | src/main/java/com/taibaisoft/chip8/assemblers/Assembler.java:749-782 | `LD V3, 255` is `63FF` |
| AssemblerProperties.InsideBlock | src/main/java/com/taibaisoft/chip8/assemblers/Assembler.java:439-476 | inside an open block `ELSE` is accepted and keeps the block, `ENDIF` closes it |
| AssemblerProperties.ElseBalances | src/main/java/com/taibaisoft/chip8/assemblers/Assembler.java:439-476 | the else part of a block is accepted inside it |
| AssemblerProperties.BlockBalances | src/main/java/com/taibaisoft/chip8/assemblers/Assembler.java:439-476 | a properly nested conditional block passes the balance check and leaves the stacks as they were |
| AssemblerProperties.BlocksBalance | src/main/java/com/taibaisoft/chip8/assemblers/Assembler.java:439-476 | a sequence of nested blocks balances |
| AssemblerProperties.UnopenedElseOrEndIf | src/main/java/com/taibaisoft/chip8/assemblers/Assembler.java:442-453 | `ELSE` or `ENDIF` with no open block fails and records an unbalanced-if error (also Assembler.java:472-474) |
| AssemblerProperties.ExtraEndIf | src/main/java/com/taibaisoft/chip8/assemblers/Assembler.java:439-476 | one `ENDIF` too many after balanced blocks fails |
| AssemblerProperties.DefineThenTest | src/main/java/com/taibaisoft/chip8/assemblers/Assembler.java:1074 | after `DEFINE` a name's `IFDEF` holds and `IFUND` fails, after `UNDEF` the reverse, and a name never defined counts as undefined (also Assembler.java:1090, Assembler.java:1110, Assembler.java:1130) |
| Assembler.Assembler.constructor | src/main/java/com/taibaisoft/chip8/assemblers/Assembler.java:91-120 | the fields start as the declarations say: empty tables, start `0x200`, alignment and unused-symbol warnings on, auto-use off, binary output |
| Assembler.Assembler.Init | src/main/java/com/taibaisoft/chip8/assemblers/Assembler.java:121-135 | `init` resets the state as `Reset` says, keeping the error list and the `USED` flags |
| Assembler.Assembler.CheckNumOfArgs | src/main/java/com/taibaisoft/chip8/assemblers/Assembler.java:359-367 | the field updates and result of `CheckArgs` |
| Assembler.Assembler.CheckVarNameValid | src/main/java/com/taibaisoft/chip8/assemblers/Assembler.java:328-348 | the field updates and result of `CheckName` |
| Assembler.Assembler.CheckReservedWord | src/main/java/com/taibaisoft/chip8/assemblers/Assembler.java:309-322 | the field updates and result of `CheckReserved` |
| Assembler.Assembler.CheckOperandAndRange | src/main/java/com/taibaisoft/chip8/assemblers/Assembler.java:377-392 | the field updates and result of `CheckOperand` |
| Assembler.Assembler.CheckIfBalance | src/main/java/com/taibaisoft/chip8/assemblers/Assembler.java:439-476 | the stack updates, error and result of `CheckBalance` |
| Assembler.Assembler.OperandWord | src/main/java/com/taibaisoft/chip8/assemblers/Assembler.java:683-685 | a checked operand added to a base word, as `Immediate` says (also Assembler.java:733, Assembler.java:782) |
| Assembler.Assembler.EncodeRegisterPair | src/main/java/com/taibaisoft/chip8/assemblers/Assembler.java:651-678 | `AND`/`OR`/`XOR`/`SUB`/`SUBN` as `RegisterPair` says (also Assembler.java:1009-1030) |
| Assembler.Assembler.EncodeAdd | src/main/java/com/taibaisoft/chip8/assemblers/Assembler.java:618-650 | `ADD` as `Add` says |
| Assembler.Assembler.EncodeAddress | src/main/java/com/taibaisoft/chip8/assemblers/Assembler.java:679-688 | `CALL`/`SYS` as `Address` says (also Assembler.java:1031-1040) |
| Assembler.Assembler.EncodeDraw | src/main/java/com/taibaisoft/chip8/assemblers/Assembler.java:694-711 | `DRW` as `Draw` says |
| Assembler.Assembler.EncodeDrawOperands | src/main/java/com/taibaisoft/chip8/assemblers/Assembler.java:700-708 | `DRW`'s operands as `DrawOperands` says |
| Assembler.Assembler.EncodeJump | src/main/java/com/taibaisoft/chip8/assemblers/Assembler.java:722-748 | `JP` and `JP V0` as `Jump` says |
| Assembler.Assembler.EncodeLoadRegister | src/main/java/com/taibaisoft/chip8/assemblers/Assembler.java:762-785 | `LD Vx, ...` as `LoadRegister` says |
| Assembler.Assembler.EncodeFromRegister | src/main/java/com/taibaisoft/chip8/assemblers/Assembler.java:803-855 | `LD DT/ST/F/B/[I]/R/HF, Vx` as `FromRegister` says |
| Assembler.Assembler.EncodeLoadOther | src/main/java/com/taibaisoft/chip8/assemblers/Assembler.java:786-861 | `LD` with a non-register destination as `LoadOther` says |
| Assembler.Assembler.EncodeLoad | src/main/java/com/taibaisoft/chip8/assemblers/Assembler.java:749-865 | `LD` as `Load` says |
| Assembler.Assembler.EncodeRandom | src/main/java/com/taibaisoft/chip8/assemblers/Assembler.java:876-891 | `RND` as `Random` says |
| Assembler.Assembler.EncodeScrollDown | src/main/java/com/taibaisoft/chip8/assemblers/Assembler.java:892-905 | `SCD` as `ScrollDown` says |
| Assembler.Assembler.EncodeSkipIf | src/main/java/com/taibaisoft/chip8/assemblers/Assembler.java:916-956 | `SE`/`SNE` as `SkipIf` says |
| Assembler.Assembler.EncodeShift | src/main/java/com/taibaisoft/chip8/assemblers/Assembler.java:957-987 | `SHL`/`SHR` as `Shift` says |
| Assembler.Assembler.EncodeSkipKey | src/main/java/com/taibaisoft/chip8/assemblers/Assembler.java:988-1008 | `SKP`/`SKNP` as `SkipKey` says |
| Assembler.Assembler.EncodeInstruction | src/main/java/com/taibaisoft/chip8/assemblers/Assembler.java:614-1040 | every mnemonic case as `Instruction` says |
| Assembler.Assembler.DoAlign | src/main/java/com/taibaisoft/chip8/assemblers/Assembler.java:1046-1060 | `ALIGN` as `Align` says |
| Assembler.Assembler.DoDefine | src/main/java/com/taibaisoft/chip8/assemblers/Assembler.java:1061-1093 | `DEFINE`/`UNDEF` as `Define` says |
| Assembler.Assembler.DoConditional | src/main/java/com/taibaisoft/chip8/assemblers/Assembler.java:1094-1133 | `IFDEF`/`IFUND` as `Conditional` says |
| Assembler.Assembler.DoElseEnd | src/main/java/com/taibaisoft/chip8/assemblers/Assembler.java:1134-1153 | `ELSE`/`ENDIF` as `ElseEnd` says |
| Assembler.Assembler.DoXref | src/main/java/com/taibaisoft/chip8/assemblers/Assembler.java:1154-1162 | `XREF` as `Xref` says |
| Assembler.Assembler.DoOption | src/main/java/com/taibaisoft/chip8/assemblers/Assembler.java:1163-1197 | `OPTION` as `OptionDirective` says |
| Assembler.Assembler.DoUsed | src/main/java/com/taibaisoft/chip8/assemblers/Assembler.java:1198-1216 | `USED` as `Used` says |
| Assembler.Assembler.DoOrg | src/main/java/com/taibaisoft/chip8/assemblers/Assembler.java:1218-1231 | `ORG` as `Org` says |
| Assembler.Assembler.DoDa | src/main/java/com/taibaisoft/chip8/assemblers/Assembler.java:1232-1244 | `DA` as `Da` says: the ASCII bytes zero-padded to `Padded(len)`, moving the offset by that much in the first pass (AssemblerLines.DaTurn, AssemblerLines.DaLayout) |
| Assembler.Assembler.FillBytes | src/main/java/com/taibaisoft/chip8/assemblers/Assembler.java:1258-1262 | the `DB` loop fills the data array as `DbFill` says, so byte k is operand k's value when every operand is accepted (AssemblerLines.DbFillValues) |
| Assembler.Assembler.DoDb | src/main/java/com/taibaisoft/chip8/assemblers/Assembler.java:1245-1265 | `DB` as `Db` says: `Padded(n)` bytes holding the operands' values and the offset moved by `Padded(n)` in the first pass (AssemblerLines.DbTurn, AssemblerLines.DbLayout) |
| Assembler.Assembler.FillWords | src/main/java/com/taibaisoft/chip8/assemblers/Assembler.java:1274-1280 | the `DW` loop fills the data array as `DwFill` says, so bytes 2k and 2k+1 are word k's high and low byte when every operand is accepted (AssemblerLines.DwFillValues) |
| Assembler.Assembler.DoDw | src/main/java/com/taibaisoft/chip8/assemblers/Assembler.java:1266-1283 | `DW` as `Dw` says: 2n bytes, each word high byte first, and the offset moved by 2n in the first pass (AssemblerLines.DwTurn, AssemblerLines.DwLayout) |
| Assembler.Assembler.DoDs | src/main/java/com/taibaisoft/chip8/assemblers/Assembler.java:1284-1297 | `DS` as `Ds` says: an accepted count v gives `Padded(v)` zeros and moves the offset by that much in the first pass (AssemblerLines.DsTurn, AssemblerLines.DsLayout) |
| Assembler.Assembler.DoAssign | src/main/java/com/taibaisoft/chip8/assemblers/Assembler.java:1305-1340 | `name = expr` / `name EQU expr` as `Assign` says |
| Assembler.Assembler.DoLabel | src/main/java/com/taibaisoft/chip8/assemblers/Assembler.java:1341-1358 | `name :` as `Label` says |
| Assembler.Assembler.DoSymbol | src/main/java/com/taibaisoft/chip8/assemblers/Assembler.java:1298-1362 | the default case as `Symbol` says |
| Assembler.Assembler.HeadStep | src/main/java/com/taibaisoft/chip8/assemblers/Assembler.java:614-1365 | one head as `Head` says |
| Assembler.Assembler.ScanStep | src/main/java/com/taibaisoft/chip8/assemblers/Assembler.java:588-1366 | one turn of the line loop: going on, stopping and raising each agree with `Scan` |
| Assembler.Assembler.BeginLine | src/main/java/com/taibaisoft/chip8/assemblers/Assembler.java:571-580 | the first-pass set-up of a line as `Begin` says |
| Assembler.Assembler.ScanLine | src/main/java/com/taibaisoft/chip8/assemblers/Assembler.java:583-1366 | the line loop raises exactly when `Scan` does and otherwise ends as it says |
| Assembler.Assembler.AssembleOneLine | src/main/java/com/taibaisoft/chip8/assemblers/Assembler.java:569-1372 | `assembleOneLine` raises exactly when `OneLine` does and otherwise gives its state and line |
| Assembler.Assembler.AssemblePass | src/main/java/com/taibaisoft/chip8/assemblers/Assembler.java:165-173 | one pass over the lines as `PassFrom` says |
| Assembler.Assembler.ResolveIntermediateExpr | src/main/java/com/taibaisoft/chip8/assemblers/Assembler.java:421-437 | resolving one name as `ResolveOne` says |
| Assembler.Assembler.SweepStep | src/main/java/com/taibaisoft/chip8/assemblers/Assembler.java:400-404 | one entry of the queue sweep, keeping the untouched part of the queue |
| Assembler.Assembler.SweepUnresolved | src/main/java/com/taibaisoft/chip8/assemblers/Assembler.java:399-405 | one sweep over the queue as `SweepFrom` says |
| Assembler.Assembler.ResolveAllIntermediateExpr | src/main/java/com/taibaisoft/chip8/assemblers/Assembler.java:396-420 | both sweeps as `ResolveAll` says |
| Assembler.Assembler.RunPasses | src/main/java/com/taibaisoft/chip8/assemblers/Assembler.java:157-190 | the pass loop as `Passes` says |
| Assembler.Assembler.Preprocess | src/main/java/com/taibaisoft/chip8/assemblers/Assembler.java:483-558 | a null tokenization raises; otherwise one new line per tokenized line with tokens |
| Assembler.Assembler.WarnUnusedSymbols | src/main/java/com/taibaisoft/chip8/assemblers/Assembler.java:192-204 | the earlier errors are kept and what is added is one unused-symbol warning per table name not marked used |
| Assembler.Assembler.EncodeBinary | src/main/java/com/taibaisoft/chip8/assemblers/Assembler.java:224-243 | the image is `Encode` of the lines |
| Assembler.Assembler.PutBytes | src/main/java/com/taibaisoft/chip8/assemblers/Assembler.java:233-238 | the buffer after the put is `Write` of the buffer before |
| Assembler.Assembler.AssembleText | src/main/java/com/taibaisoft/chip8/assemblers/Assembler.java:146-190 | `init`, `preprocess` and the passes as `Assembly` says |
| Assembler.Assembler.Assemble | src/main/java/com/taibaisoft/chip8/assemblers/Assembler.java:136-222 | `assemble` returns `Image`, null for null input or a raise, and keeps the errors of the passes ahead of the warnings |
| DisassemblerSpec.Hex | src/main/java/com/taibaisoft/chip8/assemblers/Disassembler.java:244 | `%0wx` / `%0wX`: at least one digit and at least the width (also Disassembler.java:350, Disassembler.java:406-408) |
| DisassemblerSpec.Form | src/main/java/com/taibaisoft/chip8/assemblers/Disassembler.java:80-328 | the one shape every instruction text is normalised to prints the same text |
| DisassemblerSpec.Record | src/main/java/com/taibaisoft/chip8/assemblers/Disassembler.java:330-334 | a record carries the word, its address and the next, the text and the kind, with no labels and no comment yet |
| DisassemblerSpec.Word | src/main/java/com/taibaisoft/chip8/assemblers/Disassembler.java:72 | two bytes make a big-endian 16-bit word |
| DisassemblerSpec.EnhanceAll | src/main/java/com/taibaisoft/chip8/assemblers/Disassembler.java:388-437 | `enhance` treats each record on its own and keeps their number |
| DisassemblerProperties.HexRoundTrip | src/main/java/com/taibaisoft/chip8/assemblers/Disassembler.java:244 | hex text reads back as the value it was made from (also Disassembler.java:350) |
| DisassemblerProperties.HexLength | src/main/java/com/taibaisoft/chip8/assemblers/Disassembler.java:244 | the hex text is as wide as asked or as the value needs (also Disassembler.java:350) |
| DisassemblerProperties.DataBytesSpellWord | src/main/java/com/taibaisoft/chip8/assemblers/Disassembler.java:406-408 | the two `DB #hh` texts of a data record spell the record's word, high byte first (also Disassembler.java:423-425) |
| DisassemblerProperties.RegIsRegister | src/main/java/com/taibaisoft/chip8/assemblers/Disassembler.java:184-224 | the disassembler's register names are the ones the assembler accepts (also Assembler.java:291-307) |
| DisassemblerProperties.Nibbles | src/main/java/com/taibaisoft/chip8/assemblers/Disassembler.java:80-328 | the fields a word is cut into put the word back together |
| DisassemblerProperties.DecodeAdd | src/main/java/com/taibaisoft/chip8/assemblers/Disassembler.java:184-224 | `8xy4` disassembles to `ADD Vx, Vy` without touching the labels |
| DisassemblerProperties.AddRoundTrip | src/main/java/com/taibaisoft/chip8/assemblers/Assembler.java:618-632 | `ADD Vx, Vy` assembles to a word that disassembles back to `ADD Vx, Vy` (also Disassembler.java:184-224) |
| DisassemblerProperties.AddText | src/main/java/com/taibaisoft/chip8/assemblers/Disassembler.java:201-203 | the text of that record is `ADD Vx, Vy` (also Disassembler.java:222) |
| DisassemblerProperties.DecodeLoad | src/main/java/com/taibaisoft/chip8/assemblers/Disassembler.java:172-177 | `6xkk` disassembles to `LD Vx, #kk` |
| DisassemblerProperties.LoadRoundTrip | src/main/java/com/taibaisoft/chip8/assemblers/Assembler.java:749-783 | `LD Vx, n` assembles to a word that disassembles back to `LD Vx, n` (also Disassembler.java:172-177) |
| DisassemblerProperties.HexDigitsRead | src/main/java/com/taibaisoft/chip8/assemblers/ExpressionParser.java:319-330 | the digits of `%0wx` or `%0wX` read back as the number they were written from |
| DisassemblerProperties.LoadText | src/main/java/com/taibaisoft/chip8/assemblers/Disassembler.java:172-177 | the text of `LD Vx, n` is `LD`, the assembler's register name and `#` with two lower-case hexadecimal digits, and the expression reader reads that operand back as n (also ExpressionParser.java:285-330) |
| DisassemblerProperties.JumpRoundTrip | src/main/java/com/taibaisoft/chip8/assemblers/Assembler.java:722-733 | `JP n` assembles to `1nnn`, which disassembles to the text `JP` and the name of a label bound to n (also Disassembler.java:125-136) |
| DisassemblerProperties.NamesDistinct | src/main/java/com/taibaisoft/chip8/assemblers/Disassembler.java:374-382 | counters give distinct generated names |
| DisassemblerProperties.FreshWellNamed | src/main/java/com/taibaisoft/chip8/assemblers/Disassembler.java:60-66 | after the reset every counter is ahead of the names handed out (none) |
| DisassemblerProperties.DecodeWellNamed | src/main/java/com/taibaisoft/chip8/assemblers/Disassembler.java:80-335 | `dis` keeps every counter ahead of the names it has handed out |
| DisassemblerProperties.DisLoopWellNamed | src/main/java/com/taibaisoft/chip8/assemblers/Disassembler.java:69-74 | so does the whole first pass |
| DisassemblerProperties.DataNameNotReused | src/main/java/com/taibaisoft/chip8/assemblers/Disassembler.java:234-241 | `LD I, nnn` always takes a new `DATAn` name, even for an address that already has one, which it replaces |
| DisassemblerProperties.DecodeResolves | src/main/java/com/taibaisoft/chip8/assemblers/Disassembler.java:125-149 | `dis` never drops or renames a jump or subroutine name and never takes a data name away, and a jump, call or `LD I` record names the label its target has right after it (also Disassembler.java:234-241) |
| DisassemblerProperties.DisLoopKeeps | src/main/java/com/taibaisoft/chip8/assemblers/Disassembler.java:69-74 | the first pass only appends records, keeps every jump and subroutine name, and keeps every address with a data name labelled |
| DisassemblerProperties.TargetsResolved | src/main/java/com/taibaisoft/chip8/assemblers/Disassembler.java:69-74 | after the first pass every new `JP` and `CALL` record names the label its target ends with (`LD I` records need not: see `SecondLoadOrphansFirst`) |
| DisassemblerProperties.SecondLoadOrphansFirst | src/main/java/com/taibaisoft/chip8/assemblers/Disassembler.java:234-241 | two `LD I` of one address: the first record names `DATA0`, the address ends labelled `DATA1` and no address is labelled `DATA0` |
| DisassemblerProperties.DisLoopRecords | src/main/java/com/taibaisoft/chip8/assemblers/Disassembler.java:69-74 | the k-th new record is the record of the word at the start plus 2k |
| DisassemblerProperties.DisLoopRaises | src/main/java/com/taibaisoft/chip8/assemblers/Disassembler.java:69-74 | the first pass raises exactly when it starts before 0 inside the array or an odd number of bytes remains; otherwise it stops at the end with one record per word |
| DisassemblerProperties.DisLoopLastRet | src/main/java/com/taibaisoft/chip8/assemblers/Disassembler.java:92-98 | after the first pass `lastRet` is the address of the last `RET` recorded, or what it was |
| DisassemblerProperties.EnhanceKeeps | src/main/java/com/taibaisoft/chip8/assemblers/Disassembler.java:388-437 | `enhance` keeps each record's text, word and addresses |
| DisassemblerProperties.PastLastRetIsData | src/main/java/com/taibaisoft/chip8/assemblers/Disassembler.java:420-433 | a record after the last `RET` becomes data with `DB` texts and the comment `data?` |
| DisassemblerProperties.BeforeLastRet | src/main/java/com/taibaisoft/chip8/assemblers/Disassembler.java:402-419 | a record up to the last `RET` becomes data exactly when a `LD I` pointed at one of its bytes |
| DisassemblerProperties.LabelPrecedence | src/main/java/com/taibaisoft/chip8/assemblers/Disassembler.java:394-432 | the label of a record is its data label, else its subroutine name, else its jump label |
| DisassemblerProperties.NoReturnAllData | src/main/java/com/taibaisoft/chip8/assemblers/Disassembler.java:57-79 | a program without `RET` disassembles to data only (also Disassembler.java:402, Disassembler.java:420-433) |
| DisassemblerProperties.CodeLine | src/main/java/com/taibaisoft/chip8/assemblers/Disassembler.java:343-368 | a code record without a label prints as a tab, its text and a line break |
| DisassemblerProperties.DataLine | src/main/java/com/taibaisoft/chip8/assemblers/Disassembler.java:343-368 | a data record without labels prints as two `DB` lines, each after its address when asked |
| Disassembler.Disassembler.constructor | src/main/java/com/taibaisoft/chip8/assemblers/Disassembler.java:41-50 | counters 0, no memory, no records, empty maps, `lastRet` -1 |
| Disassembler.Disassembler.NextSubroutineName | src/main/java/com/taibaisoft/chip8/assemblers/Disassembler.java:374-376 | `SUBn` from the counter, which moves on, nothing else changing |
| Disassembler.Disassembler.NextLabelName | src/main/java/com/taibaisoft/chip8/assemblers/Disassembler.java:377-379 | `LABELn` likewise |
| Disassembler.Disassembler.NextDataName | src/main/java/com/taibaisoft/chip8/assemblers/Disassembler.java:380-382 | `DATAn` likewise |
| Disassembler.Disassembler.Dis | src/main/java/com/taibaisoft/chip8/assemblers/Disassembler.java:80-335 | the record and label updates of `Decode` |
| Disassembler.Disassembler.Disassemble | src/main/java/com/taibaisoft/chip8/assemblers/Disassembler.java:57-79 | reset, first pass and `enhance` as `Disassembly` says, raising for a missing array; `getDisassembleResult` afterwards returns `Disassembly`'s records (also Disassembler.java:336-338) |
| Disassembler.Disassembler.FirstPass | src/main/java/com/taibaisoft/chip8/assemblers/Disassembler.java:68-74 | the loop appends the records `DisLoop` says and raises where it does |
| Disassembler.Disassembler.Enhance | src/main/java/com/taibaisoft/chip8/assemblers/Disassembler.java:388-437 | the records become `EnhanceAll` of them |
| Disassembler.Disassembler.GetDisassembleResultAsString | src/main/java/com/taibaisoft/chip8/assemblers/Disassembler.java:343-371 | the listing is `Listing` of the records |
| Disassembler.Disassembler.GetDisassembleResultAsPlainString | src/main/java/com/taibaisoft/chip8/assemblers/Disassembler.java:339-341 | the listing without addresses or comments |

## Left out

- Threads and timing: `InternalClockSource`, the CPU's run thread and the wait in `stop` are not modelled; `run`, `stop`, `pause` and `resume` change only the flags, and `timerCallback` is a method the caller invokes.
- Randomness: `RND` (`Cxkk`) takes the random byte as the parameter `rnd` instead of calling `genInt`.
- Floating point: `Math.pow` in `isNumberInRange` is the exact power of two, and in the `!` operator it is `JavaPow`, the exact integer power clamped as Java's `(int)` cast of a double clamps it; the timer interval is kept as a `real` constant.
- Sound: `Tone` and `ToneGenerator` are not modelled; `timerCallback` returns whether it would buzz.
- Swing user interface: `GraphicsUnit`, `GraphicsUnit2`, `DevPane`, `KeyMappingDialog`, the `chipmunk/commands` classes, the key events' origin, and everything `setupMenu` does apart from counting its radio lines.
- Program entry points and files: `AsmMain`, the `main` methods, `Resources`, `ConfigAndPrefs`, `Platforms`, `printBinData` and `outputLastAssembledIntermediate` read or write files or the console and are not modelled.
- Character sets: the ASCII re-encoding of the tokenizer's input (Tokenizer.java:60) is not modelled; `toUpperCase` and `isAlphabetic` are modelled for ASCII letters only.
- Locale: the switch of the default locale around `assemble` has no effect on the modelled ASCII text and is left out.
- Console output: the warnings and errors `assemble` prints on `System.err` are not modelled; the error list they come from is.
- The platform line separator (`Util.NEW_LINE`) is a parameter `newline` of the members that produce text.
- Dead code: the `INCLUDE` branch of `preprocess` (Assembler.java:516-551), the printing behind `XREF`, and the output mode, which is stored but never read.
- Hash-map iteration order: the deferred assignments and the symbol sets are iterated in a fixed order (a sequence), where Java's `HashMap` order is unspecified.
- Aliasing: `AsmLine`, `DasmLine` and the token lists are values, so a later change through one Java reference to a shared record is not modelled; the one aliasing the Java code relies on, the CPU holding the board's key array after a key wait, is modelled by a flag.
- The disassembler's progress listener is not modelled.
- State after an exception inside `assemble`: the model returns no image, as the catch does, and makes no claim about the fields left behind.
- Round trip through text: the model proves the text the disassembler writes for `ADD Vx, Vy`, `LD Vx, n` and `JP label` (`AddText`, `LoadText`, `JumpRoundTrip`), that the expression reader reads the `#nn` operand back, and that the tokenizer and expression reader invert their printers; the texts of the other instructions and a whole "disassemble, then reassemble" round trip are not stated.
- DisassemblerProperties.TargetsResolved: states resolution for `JP` and `CALL` records only; an `LD I` record can name a data label that a later `LD I` of the same address replaced, so the listing never defines it (`SecondLoadOrphansFirst` exhibits this).
- ExpressionProperties.ParsesChain: precedence and left grouping are stated for chains of two binary operators between written-out operands; longer unparenthesised chains are not stated.
- Util.ShiftArray: requires a positive row width and, for a left shift, a length that is a whole number of rows; the Java code divides by the width and indexes past the end otherwise.
- AssemblerSpec.IsVxVy: the Java code's chain of character comparisons is stated as membership in the sixteen hexadecimal digits `0`..`9`, `A`..`F`.
- Chip8Machine: the machine is a value; the class `Chip8.Chip8` is proved equal to it step by step, so the in-place array updates are covered only through that equality.

Behaviours of the code that the model keeps as written:
- A deferred `EQU` line still takes a word of output space, as the offset advance at Assembler.java:1368-1371 applies to it.
- A label followed by a bare name on the same line (`L: X`) raises: after the label the default case takes `X` as the symbol and reads the token after it (Assembler.java:1307), one past the end of the line.
- A second `ELSE` in the same `IFDEF`/`IFUND` block is accepted and toggles the skip flag again.
- `disassemble` does not clear the records of an earlier call; it appends to them.
- An odd-length region in `disassemble` raises on the last byte.
- Every `LD I, nnn` allocates a new `DATAn` label, even for an address already labelled.
