# Verified models of the emulator's hard cores

The project models ten source files of an Amiga emulator in Dafny and proves what they
promise. Code that updates state in place is a class or a method over an array, proved
equal to functions on values; the theorems are lemmas about those functions over every
input, every run or every sequence of bus grants. `dafny verify dfyconfig.toml` checks
everything.

**Blitter** (`src/blitter.cpp`, `src/blitfunc.cpp`, `src/blittable.cpp`,
`src/include/blit.h`). `BlitSpec` is a reference machine that handles one destination word
after the other. `CycleEngine` is the bus-cycle engine with its two-deep pipeline of
computed words, driven by an arbitrary sequence of bus slots, each free, taken by another
channel, or with blitter DMA off. `FastLoop` is the immediate blitter: a generic double
loop, and the loops specialised for 22 minterms (ascending and descending) reached through
the dispatch tables. `CycleProof` keeps the engine in step with the reference machine slot
by slot, for all twenty cycle diagrams. To the immediate loops a pointer of zero is a channel
that is off; `FadingSpec` is the reference machine with that rule, and `FastProof` keeps the
loops in step with it, so `BlitTheorems.FadingOutcome` says what they leave for every blit,
wherever its pointers go. `BlitTheorems.EnginesAgree` is the result for pointers that are never
zero, overlapping operands included. Where the two engines part is proved as well:

- without any channel they agree exactly if all words are zero (`NoChannelsAgree`);
- a fill without a source into words of their own agrees exactly if in every row the carry
  has come back by itself or, filled inclusively, the row has only ones (`CarryShows`). The
  "if" half holds wherever the words fall; if they share places or miss memory, the exact
  condition is about the words that last and the zero flag (`CarryShowsAnywhere`).
  `OpenRowsPart` is a job on which the engines differ;
- a channel whose pointer starts at zero or reaches zero is off from there on in the immediate
  blitter only (`NullStartIsOff`, `LaterWordsPileUp`, with inputs in `CopyFromZero` and
  `ClearsToZeroPart`).

What a blit means for memory is said without any of these machines in `BlitMeaning`: which bit
of which source word goes where, which bits the masks let through, and where the result lies.
`LogicUnit` compares all 256 reduced formulas with their truth tables, `ShifterProof` says
what the barrel shifter does to bits, and `SpecialProof` compares each specialised loop with
the generic one. `FillProof`, `FillTheorems` and `FillOverlap` are about area fill, `LineSpec`
and `LineProof` about line mode, and `LineMemory` about the picture a line leaves.

**CD-ROM Mode 1 sectors** (`src/cdrom.cpp`). `Gf256` shows that the log and antilog tables
compute the field of polynomial 0x11D, `ReedSolomon` that the exponent tables solve the
parity equations of ECMA-130 Annex A, `ErrorDetection` that the 256-entry table is the
bitwise code of section 14.3, and `Sector` that the in-place encoder leaves nothing but
codewords.

**Calculator** (`src/calc.cpp`). A formula is compiled by an operator stack and run on a
value stack, both with 32 places. A lone operand, such as the formula `a`, evaluates to
zero, because only an operator ever sets the result: `LoneOperandIsLost` gives the input,
`CalculatesValue` the exact condition. Which operators bind tighter, and to which side they
group, is written down as three kinds of operators and compared with the table of precedences
(`TableSaysSo`). And a choice whose condition is a lone operand, such as
`a?b:c`, takes the second side, because the operand is never looked up: `LoneConditionIsLost`
gives the input, `ChoiceCalculates` the exact condition.

**SHA-1 and CRC** (`src/crc32.cpp`). `Sha1Spec` is FIPS 180-4. The code works on `unsigned
long`, modelled as 64 bits wide; the project shows that the upper half never reaches the
digest. `FrameCheck` is the 32-bit check of network frames.

**Paula audio** (`src/audio.cpp`). The channel state machine (`PaulaSpec`), what a channel fed
by DMA or by the processor plays, from its start on (`PaulaPlay`), the event loop that
advances time (`PaulaTime`), and a class that changes the channels in place (`PaulaSound`).
Time to the next sample is a real number.

**LANCE receive ring** (`src/a2065.cpp`). A frame is scattered over the descriptors the board
owns; both the delivered and the abandoned outcome are described byte for byte.

**Akiko** (`src/akiko.cpp`). The protocol with the CD drive over every run of register
accesses, what it keeps (`DriveProof`) and that it gets on (`DriveProgress`), and the
chunky-to-planar converter against the plain loop disabled in the source.

**Socket signals** (`src/bsdsocket.cpp`). An intrusive queue of sockets to signal, shared
under a lock, as the Amiberry branches have it. The host code has a shortcut around the queue;
`RequestLost` says exactly which requests it costs, and `LostRequest` gives a run.

Where a comment in the source and its code could be read differently, the model follows the
code.

## Model

| member | source | states |
|---|---|---|
| BlitTheorems.EnginesAgree | src/blitter.cpp:1184-1329 | under every sequence of bus slots that lets a blit with a channel finish, the bus-cycle engine leaves the memory, all four pointers and the zero flag of the immediate blitter |
| BlitMeaning.EnginesMean | src/blitter.cpp:1007-1144 | without fill both engines leave in bit i of destination word k what the minterm byte gives for three bits of memory at the start: those that the shift count moves there from A behind the masks of its column and from B, and that of C |
| BlitMeaning.MemoryMeans | src/blitter.cpp:543-609 | the same of the reference machine, for words of their own and sources not stored over before they are fetched |
| BlitMeaning.FilledMemoryMeans | src/blitter.cpp:581-588 | with fill, every row of memory holds the bit-serial fill of the words so made |
| BlitMeaning.OthersStay | src/blitter.cpp:1042-1079 | memory keeps what no destination word is stored over |
| BlitMeaning.RawMeans | src/blitter.cpp:1007-1040 | every word before fill, with or without the reset of the fill carry, bit by bit from the sources |
| BlitMeaning.MaskABits | src/blitter.cpp:1014-1017 | a column lets a bit of A through if the first mask has it, in the first column, and the last mask, in the last; all others let every bit through |
| BlitMeaning.CopyIsMasked | src/blitter.cpp:1014-1040 | a copy of A without shift leaves the source words: the first of a row under the first mask, the last under the last, a single one under both, others whole |
| CycleTheorems.RunKeepsStep | src/blitter.cpp:1184-1329 | after any slots the engine is at a definite word and channel of the reference machine, or over with its outcome |
| CycleTheorems.CycleExactOutcome | src/blitter.cpp:1007-1144 | a finished run's outcome is that of the reference machine, so it does not depend on which slots were granted |
| CycleTheorems.PipelineNeverOverflows | src/blitter.cpp:1042-1079 | in every run that writes, computed minus stored words is what the pipeline holds, at most two; the D slot always has a word; one word is unwritten in the final cycles |
| CycleTheorems.EnoughSlotsFinish | src/blitter.cpp:1184-1329 | a bound on free slots after which the blit is finished, however they are spread |
| CycleTheorems.ExactBusTime | src/blitter.cpp:116-166 | a finished blit with a destination took one diagram per word and four more slots, no matter what was granted |
| CycleTheorems.BusTimeByChannels | src/blitter.cpp:127-166 | that time by the channels: two slots a word, one more for B, for C with D, and for a fill that stores without C, and four at the end |
| CycleProof.TickKeepsStep | src/blitter.cpp:1184-1329 | one slot, whatever its grant, keeps the engine in step with the reference machine |
| CycleProof.DiagramsFit | src/blitter.cpp:127-166 | all twenty diagrams give each enabled channel exactly one slot a round, sources in order and D last |
| CycleProof.SlotsAreChannels | src/blitter.cpp:381-404 | looking a cycle up in the two-part diagrams never yields anything but idle or one of the four channels |
| CycleProof.SlotOfCycle | src/blitter.cpp:381-404 | the two-part lookup is a lookup by round and position |
| CycleProof.TurnRound | src/blitter.cpp:1081-1144 | the state after the last slot of a round is the state before the first of the next |
| BlitTheorems.FadingOutcome | src/blitter.cpp:517-712 | every immediate blit, wherever its pointers go, has the outcome of the reference machine in which a channel is off once its pointer has been zero |
| BlitTheorems.FastOutcome | src/blitter.cpp:517-712 | if no pointer is zero on the way, that is the outcome of the reference machine itself |
| FastProof.FastMemory | src/blitter.cpp:543-712 | delayed stores, local pointers and pointers of zero included, the loops store what that machine stores |
| FadingSpec.LaterWordsPileUp | src/blitter.cpp:578-607 | once the destination pointer is zero, all later words go to the place of the last word before, so only the last one computed stays there and nothing else changes |
| FadingSpec.FadingIsEffective | src/blitter.cpp:526-541 | if no pointer becomes zero on the way, only the channels that start at zero are off |
| SpecialProof.SpecialLoopIsGeneric | src/blitfunc.cpp:9-1516 | for every minterm in the tables, any channels and pointers, either direction, the specialised loop leaves the memory, pointers and zero flag of the generic loop |
| SpecialProof.ReadsAlike | src/blitfunc.cpp:49-82 | reading only the needed sources, C first, brings the same words as reading all of them, A first |
| BlitTheorems.FinalPointers | src/blitter.cpp:526-541 | the one-step pointer update is where pointers end up that follow the words |
| BlitTheorems.PointerOfWord | src/blitter.cpp:1081-1144 | stepping and modulos bring a pointer to the address given by row and column |
| BlitTheorems.NullStartIsOff | src/blitter.cpp:526-541 | if no other pointer becomes zero on the way, an immediate blit stores what the reference machine stores with the channels switched off that start at zero |
| BlitTheorems.CopyFromZero | src/blitter.cpp:526-541 | a one-word copy from address zero on which the engines differ: the word against the data register |
| BlitTheorems.ClearsToZeroPart | src/blitter.cpp:616-712 | two words cleared downwards to address zero: the bus-cycle engine clears both, the immediate blitter only the first |
| BlitTheorems.ResetDoesNotShow | src/blitter.cpp:1042-1079 | with a source, without fill, or if in every row the carry comes back by itself, the missing reset of the fill carry has no effect |
| BlitTheorems.CarryShows | src/blitter.cpp:1042-1079 | for any size and both fill modes: a fill without sources into words of their own leaves the same in both engines exactly if every row starts with the right carry by itself or, filled inclusively, has only ones |
| BlitTheorems.CarryShowsAnywhere | src/blitter.cpp:1042-1079 | for words that overlap or miss memory: the engines agree exactly if in every word that lasts the carry is right or the word is all ones filled inclusively, and the zero flag is the same by the registers |
| BlitTheorems.OpenRowsPart | src/blitter.cpp:1042-1079 | two open rows of one word: the area runs on into the second row in the bus-cycle engine and not in the immediate blitter |
| FillTheorems.ResetShows | src/blitter.cpp:1042-1079 | the same on the reference machine: memory, pointers and zero flag without the reset are those with it exactly under that condition on the start registers |
| FillOverlap.ResetShowsAnywhere | src/blitter.cpp:1042-1079 | the same without any condition on where the words fall, for memory and for the whole outcome |
| FillOverlap.LastingWordsShow | src/blitter.cpp:1042-1079 | with and without the reset memory is the same exactly if every word not overwritten later is |
| FillTheorems.EvenRows | src/blitter.cpp:1042-1079 | filling exclusively, the condition is that every row but the last has an even number of set bits before the fill |
| FillTheorems.WordFillsAlike | src/blitter.cpp:581-588 | the other carry changes a filled word, except that inclusive fill leaves a word of ones alone |
| FillTheorems.ZeroByRegisters | src/blitter.cpp:1007-1040 | without sources, with or without the reset, the zero flag is set exactly if no word has a bit, but for the one that ends the area of a row (without it, of the first row) begun inside it |
| FillTheorems.ZeroSoFar | src/blitter.cpp:1035-1036 | the zero flag says that every word so far was zero |
| BlitTheorems.NoChannelsAgree | src/blitter.cpp:1184-1329 | without channels nothing is stored by either engine, and the zero flags agree exactly if the registers give no word with a bit set |
| LogicUnit.BlitFormula | src/include/blit.h:1-518 | each of the 256 reduced formulas has its minterm byte as truth table |
| LogicUnit.BlitFormulaIsMinterm | src/include/blit.h:1-518 | on 32-bit operands the low half of every formula is the minterm of the low halves |
| LogicUnit.UnreadSourcesDoNotMatter | src/blittable.cpp:9-77 | a dispatched minterm does not depend on the sources its loop leaves out |
| LogicUnit.MintermBits | src/include/blit.h:1-518 | every destination bit is the entry of the minterm byte that the three source bits at its place select |
| ShifterProof.AscendingBit | src/blitter.cpp:1007-1144 | ascending, a shifted word holds bits of its own word moved down and the last bits of the word before at its high end |
| ShifterProof.DescendingBit | src/blitter.cpp:1007-1144 | descending, bits move up and those of the word before come in at the low end |
| FillProof.FillWordIsFillBits | src/blitter.cpp:581-588 | two table look-ups fill the sixteen bits of a word one by one |
| FillProof.FillRowIsFillBits | src/blitter.cpp:680-686 | filling a row of any length word by word is bit-serial fill of the whole row |
| FillTheorems.RowIsFilled | src/blitter.cpp:543-609 | every row of every fill blit, with any sources, is the bit-serial fill of its own words before filling, as the same run computes them, from the initial carry |
| FillProof.FillMeaning | src/blitter.cpp:268-294 | exclusive fill is the parity so far, inclusive fill the bit or-ed with the running carry |
| BlitterChip.Blitter.Start | src/blitter.cpp:1572-1593 | every field of the job by the bit numbers of the two control registers and by the other registers; the shifters emptied, the diagram chosen, the engine ready to begin |
| ControlRegisters.MintermIsLowHalf | src/blitter.cpp:1007-1040 | the three source bits number the bit of the first control register that decides |
| ControlRegisters.ShiftBits | src/blitter.cpp:1375-1388 | a shift count is the number in the highest four bits of its register |
| BlitterChip.Blitter.CountSlots | src/blitter.cpp:1503-1513 | counts of source slots and of a D slot in the later rounds of a diagram |
| BlitterChip.Blitter.BuildFillTable | src/blitter.cpp:268-294 | every entry of the table is the bit-serial fill of its byte, with the carry that leaves it |
| BlitterChip.Blitter.DoBlit | src/blitter.cpp:1007-1040 | one destination word: shifter, minterm, fill, zero flag; of A exactly the bits that the masks of its column let through |
| BlitterChip.Blitter.DoDdma | src/blitter.cpp:1042-1079 | the D slot stores the older waiting word, or computes one if nothing is read |
| BlitterChip.Blitter.DoDma | src/blitter.cpp:1081-1144 | a source slot fetches a word, and the last of a round computes and pushes |
| BlitterChip.Blitter.Slot | src/blitter.cpp:1184-1316 | one bus slot is the slot function of the engine, lost slots included |
| BlitterChip.Blitter.RoundsEnd | src/blitter.cpp:1317-1323 | the finish interrupt and the final diagram after the last round |
| BlitterChip.Blitter.DecideBlitter | src/blitter.cpp:1184-1329 | a stretch of slots on the chip is the run of the engine over them |
| BlitterChip.Blitter.DoFast | src/blitter.cpp:517-712 | the loops over chip memory have the outcome of the immediate blit and leave the mask table idle |
| BlitterChip.Blitter.FastRow | src/blitter.cpp:543-609 | one row in place, either loop |
| BlitterChip.Blitter.SetMasks | src/blitter.cpp:523-524 | the first mask for the first column, the last one for the last, both for a single one, all bits for any other |
| BlitterChip.Blitter.AdvancePointers | src/blitter.cpp:526-541 | the pointer registers move past the blit |
| LineProof.LineDrawersAgree | src/blitter.cpp:835-919 | under any bus grants a finished two-word-wide line is drawn exactly as at once, in four slots a pixel and four more |
| LineProof.OneDotPerRow | src/blitter.cpp:714-743 | in one-dot mode no two drawn pixels are on one raster row |
| LineProof.WithinHalfAPixel | src/blitter.cpp:784-820 | with the usual set-up every pixel of any line is within half a pixel of the ideal line, and the sign flag is the sign of the error |
| LineProof.PenPosition | src/blitter.cpp:745-771 | after k steps the pen address and shift are k always steps and the sometimes steps away from the start |
| LineProof.PenChangesOneBit | src/blitter.cpp:773-782 | with the two usual minterms and a one-bit pen, a step changes only the bit of its word under the pen, by the texture |
| LineMemory.StepStores | src/blitter.cpp:928-941 | a step stores one word, the first at the D pointer, all others at the C pointer under the pen, or none, and no other word changes; the zero flag says that all of them were zero |
| LineMemory.LineIsPainted | src/blitter.cpp:923-941 | after any number of steps every pixel of memory is what the steps made of it whose track, always steps plus sometimes steps from the start, ran over it; all others are unchanged |
| LineMemory.SolidLine | src/blitter.cpp:923-941 | a solid line sets exactly the pixels on its track |
| LineMemory.DrawersPaint | src/blitter.cpp:835-947 | both drawers leave that picture, whatever the bus grants, and the D pointer where the C pointer is |
| LineMemory.TextureOfStep | src/blitter.cpp:822-827 | the texture is read from its right end on, then from left to right, again and again |
| LineMemory.HitsUnderPen | src/blitter.cpp:773-820 | the track of a step is the word and bit under the pen, and in one-dot mode it draws first and on every new row |
| LineChip.LineDrawer.Start | src/blitter.cpp:1572-1593 | the line by the bit numbers of the control registers, its texture turned, its counters cleared |
| LineChip.LineDrawer.WriteControl0 | src/blitter.cpp:1532-1537 | a write to the first register sets the place of the pen in its word |
| LineChip.LineDrawer.WriteControl1 | src/blitter.cpp:1532-1537 | a write to the second sets the sign of the error |
| LineChip.TurnedBit | src/blitter.cpp:1588-1588 | the texture is turned to the right by the shift count |
| LineChip.LineDrawer.ProcessPixel | src/blitter.cpp:879-886 | one processing slot in place: the destination follows the C pointer from the second pixel on (with `LineMemory.StepStores`), one pixel is drawn, the pen moves, the texture turns |
| LineChip.LineDrawer.DrawNow | src/blitter.cpp:923-941 | the immediate drawer draws the whole line, or nothing unless the width is two |
| LineChip.LineDrawer.DecideBlitterLine | src/blitter.cpp:835-919 | the stepped drawer over any grants is the run of the line engine |
| Gf256.AlogIsPower | src/cdrom.cpp:100-101 | the antilog table holds the powers of x, none but the first of them one |
| Gf256.AlogOfLog | src/cdrom.cpp:102-103 | the two tables are inverse on nonzero bytes |
| Gf256.PowersDiffer | src/cdrom.cpp:100-103 | x is primitive |
| Gf256.TableProductIsTimes | src/cdrom.cpp:142-151 | adding logarithms modulo 255 multiplies by a power of x |
| Gf256.TableProductIsProduct | src/cdrom.cpp:142-151 | the table product is polynomial multiplication modulo 0x11D |
| ReedSolomon.PIsTailOfQ | src/cdrom.cpp:104-111 | the P tables are the end of the Q tables |
| ReedSolomon.ByteCancels | src/cdrom.cpp:104-111 | every column of the exponent tables solves both parity equations |
| ReedSolomon.CodewordIffParity | src/cdrom.cpp:130-211 | a word has both syndromes zero exactly if its last two bytes are the parity the tables give |
| ReedSolomon.DamagedSyndromes | src/cdrom.cpp:130-211 | the syndromes of a codeword with one damaged byte are the damage and its multiple by the position |
| ReedSolomon.SingleDamageLocated | src/cdrom.cpp:130-211 | a damaged byte shows, and equal syndromes mean equal position and damage |
| Sector.AddByte | src/cdrom.cpp:141-152 | one data byte, zero or not, adds its two products to its parity bytes and changes nothing else |
| Sector.EncodeWord | src/cdrom.cpp:138-166 | both lanes of one column or diagonal |
| Sector.Encode | src/cdrom.cpp:130-211 | the P or Q encoder: all its parity bytes are the parity of their data, nothing else changes |
| Sector.EncodedAreCodewords | src/cdrom.cpp:130-211 | parity bytes in place exactly if every column or diagonal is a codeword |
| Sector.QKeepsP | src/cdrom.cpp:234-235 | writing the Q parity leaves every P word a codeword |
| Sector.WriteHeader | src/cdrom.cpp:222-227 | sync bytes, address digits and mode |
| Sector.DigitsNameAddress | src/cdrom.cpp:213-226 | on a disc below 100 minutes the header digits read back as the address |
| Sector.WriteEdc | src/cdrom.cpp:228-232 | the code over bytes 0 to 2067 is zero afterwards |
| Sector.EncodeL2 | src/cdrom.cpp:218-236 | for any buffer and address: user data kept, frame set, code zero, all 43 P columns and 26 Q diagonals codewords in both lanes |
| Sector.DiagonalsPartition | src/cdrom.cpp:137-154 | each of the 1118 words lies on exactly one diagonal at exactly one place |
| Sector.ColumnsGoDown | src/cdrom.cpp:137-154 | a P word is a column of the 43 wide array, its parity in the two rows below |
| Sector.DiagonalsGoDown | src/cdrom.cpp:137-154 | a Q word goes one row down with every column, around the 26 rows |
| ErrorDetection.TableIsEightSteps | src/cdrom.cpp:29-93 | every table entry is eight steps of the bitwise code |
| ErrorDetection.TableStepIsByteStep | src/cdrom.cpp:126-126 | the table step is eight bitwise steps for every register and byte |
| ErrorDetection.BuildEdc | src/cdrom.cpp:121-128 | the loop computes the bitwise code of the slice |
| ErrorDetection.CodeCloses | src/cdrom.cpp:228-232 | a message followed by its own code has code zero |
| ErrorDetection.DamageShows | src/cdrom.cpp:121-128 | different bytes in up to four neighbouring places always give another code |
| CalculatorProof.YardIsPostorder | src/calc.cpp:112-244 | a parenthesised expression compiles to its postorder, and fails exactly when the operator stack fills with tokens left |
| CalculatorProof.PrintedIsParenthesised | src/calc.cpp:52-86 | any expression printed with the parentheses it needs by the three kinds of operators is covered by these theorems |
| CalculatorProof.TableSaysSo | src/calc.cpp:52-86 | precedences and associativity pop exactly the operators that bind tighter, or as tight and group to the left: those that multiply before those that add before those that compare |
| CalculatorProof.TwoOperators | src/calc.cpp:112-244 | of two operators without parentheses the second goes first exactly if it multiplies and the first adds, or the first compares |
| CalculatorProof.EvaluateIsValue | src/calc.cpp:486-608 | the value stack yields the value of the tree, or fails exactly when it fills with tokens left; without an operator it yields zero |
| CalculatorProof.CalculatesValue | src/calc.cpp:712-753 | both passes give the value exactly if neither stack fills and there is an operator or the value is zero anyway |
| CalculatorProof.LoneOperandIsLost | src/calc.cpp:583-594 | a formula of one nonzero operand yields zero |
| CalculatorChoice.ChoiceCompiles | src/calc.cpp:112-244 | c ? x : y compiles to its three parts and both signs, and fails exactly when the operator stack fills with tokens left |
| CalculatorChoice.ChoiceEvaluates | src/calc.cpp:554-569 | the value stack takes the side the test asks for, where a condition without an operator tests as zero |
| CalculatorChoice.ChoiceCalculates | src/calc.cpp:712-753 | both passes yield what the choice means exactly if neither stack fills and the condition has an operator, or tests like zero anyway, or both sides are worth the same |
| CalculatorChoice.LoneConditionIsLost | src/calc.cpp:554-569 | a lone nonzero operand as the condition: the second side is taken |
| CalculatorChoice.FunctionKeepsResult | src/calc.cpp:524-537 | a function drops its arguments and leaves the last result |
| CalculatorCalls.CallCompiles | src/calc.cpp:112-244 | a function call with any arguments compiles to the arguments in postorder and the function, and fails exactly on a full operator stack |
| Calculator.RunBounds | src/calc.cpp:112-244 | for any input, output and stack together never outgrow what has been read, nor the stack its array |
| Calculator.OutputFits | src/calc.cpp:112-244 | the compiled text is never longer than the formula |
| Calculator.ArgCount | src/calc.cpp:88-104 | no operator or function takes more than 25 arguments |
| CalculatorLoops.ShuntingYard | src/calc.cpp:112-244 | the loops over array stack and buffer succeed and produce exactly as the compiler function, with a terminating zero; what that produces is `TwoOperators` and `YardIsPostorder` |
| CalculatorLoops.PopOperatorsLoop | src/calc.cpp:163-180 | pops by precedence and associativity, in place |
| CalculatorLoops.ExecutionOrder | src/calc.cpp:486-608 | the loop over the array stack evaluates the text |
| Sha1Wide.LowOfSum5 | src/crc32.cpp:125-128 | sums of wide words have the low half of the sum of the low halves |
| Sha1Wide.LowOfShift30 | src/crc32.cpp:116-116 | rotations that mask before shifting rotate the low half |
| Sha1Spec.ConstantsAreRoots | src/crc32.cpp:125-128 | the four round constants are the square roots of 2, 3, 5 and 10 |
| Sha1Code.LowOfRenamed | src/crc32.cpp:125-128 | one step on wide words is a FIPS 180-4 round on the low halves |
| Sha1Code.NextWordIsNext | src/crc32.cpp:118-123 | the rolling window yields the next word of the 80-word schedule |
| Sha1Code.TakeWord | src/crc32.cpp:118-123 | the 16-word window after any word still holds the last sixteen of the schedule |
| Sha1Code.FiveSteps | src/crc32.cpp:125-241 | five steps with renamed registers are five rounds |
| Sha1Code.Process | src/crc32.cpp:95-249 | a block takes the state, in the low halves, to the compression of section 6.1.2 |
| Sha1Context.Context.Starts | src/crc32.cpp:83-93 | the context of the empty message |
| Sha1Context.Context.Update | src/crc32.cpp:254-293 | any bytes more: the context is that of the longer message, so how it was cut does not matter |
| Sha1Context.Context.CountBytes | src/crc32.cpp:265-269 | the two counters hold the length, carry included |
| Sha1Context.Context.Finish | src/crc32.cpp:306-330 | stores the FIPS 180-4 digest of the whole message |
| Sha1Context.HalvesAreLength | src/crc32.cpp:312-317 | for a message of any length the two stored words are its bit length as section 5.1.1 wants it |
| Sha1Context.PaddingInPieces | src/crc32.cpp:319-323 | padding by table and length bytes is the padding of section 5.1.1 |
| Sha1Context.GetSha1 | src/crc32.cpp:332-341 | the digest of any buffer, other output bytes untouched |
| FrameCheck.MakeTable | src/crc32.cpp:9-23 | every entry is eight shifts of its index |
| FrameCheck.TableStepIsTakeByte | src/crc32.cpp:33-42 | a step through the table is eight shifts of the reflected code |
| FrameCheck.GetCheck | src/crc32.cpp:33-42 | the check of a message of any length |
| FrameCheck.CarryOn | src/crc32.cpp:25-31 | a check carried on by a byte is the check of the longer message |
| FrameCheck.PolynomialIsReflected | src/crc32.cpp:9-23 | the polynomial is that of IEEE 802.3 with its bits in reverse order |
| PaulaSpec.AdvancedSteady | src/audio.cpp:1716-1991 | any call of a channel's state machine leaves it a countdown above zero or at rest, and the other countdowns alone |
| PaulaSpec.TickedSteady | src/audio.cpp:1993-2000 | after its countdown ran out a channel is armed again, never with zero |
| PaulaTime.PeriodMakesReady | src/audio.cpp:2676-2696 | a channel is ready from the first write of its period on; every write leaves a period of at least one cycle unit and at most 65536, and a countdown under way alone |
| PaulaPlay.HighThenLow | src/audio.cpp:1867-1918 | the high byte gives way to the low byte of the same word, for one period, at the volume set, without a request |
| PaulaPlay.LowThenHigh | src/audio.cpp:1927-1988 | the low byte gives way to the high byte of the word loaded meanwhile, for one period, at the volume set; exactly one word is asked for, and a waiting interrupt raised |
| PaulaPlay.PlaysWords | src/audio.cpp:1867-1988 | a channel fed by DMA plays every word it is given, high byte first, each byte for one period, in order and without a gap |
| PaulaPlay.DmaAwakens | src/audio.cpp:1778-1798 | DMA switched on at rest: the length is loaded, the first word and the start address asked for |
| PaulaPlay.FirstFetch | src/audio.cpp:1820-1841 | the first word only counts and raises the interrupt |
| PaulaPlay.StartPlays | src/audio.cpp:1778-1867 | from rest through states 1 and 5: the second word is heard at once, high byte first, at the volume set, with one more asked for |
| PaulaPlay.PlaysFromStart | src/audio.cpp:1778-1988 | from the moment DMA is switched on every word but the first is played, in order and without a gap |
| PaulaPlay.DmaOffRests | src/audio.cpp:1820-1848 | a channel that still waits for data rests when its DMA is switched off |
| PaulaPlay.WordWaits | src/audio.cpp:2498-2550 | a word that comes while the channel sounds waits and counts; behind the last one the length starts anew |
| PaulaPlay.InterruptPerLoop | src/audio.cpp:2498-2550 | a running sample of any length raises exactly one interrupt each time its last word begins |
| PaulaPlay.HandStarts | src/audio.cpp:1799-1819 | a word written without DMA is heard at once, unless an interrupt is pending |
| PaulaPlay.HandPlaysWord | src/audio.cpp:1867-1988 | without DMA each byte lasts one period; one cycle before the end the interrupt decides between the word written meanwhile and rest |
| PaulaPlay.HandHighThenShortLow | src/audio.cpp:1675-1698 | with a period of one cycle it is looked at immediately |
| PaulaPlay.SetsVolume | src/audio.cpp:1610-1662 | an attached channel sets the volume of the next, at most 64 |
| PaulaPlay.SetsPeriod | src/audio.cpp:1610-1662 | or its period, where zero means 65536 |
| PaulaPlay.PeriodCounts | src/audio.cpp:2676-2696 | the period register counts cycle units, zero as 65536; below 60 a channel with DMA is slowed down unless the processor is cycle-exact |
| PaulaTime.BestReaches | src/audio.cpp:2369-2400 | the step chosen is positive, no longer than asked, passes no event, and is the longest such |
| PaulaTime.StepCountdown | src/audio.cpp:2402-2470 | in a step no countdown passes below zero: it runs on, or is due exactly at the end and set again |
| PaulaTime.RunTakesAll | src/audio.cpp:2355-2471 | the steps add up to the elapsed cycles |
| PaulaTime.AdvancedWhenDue | src/audio.cpp:2369-2468 | a channel is first advanced at exactly its due cycle, or not at all if that is later |
| PaulaTime.SamplesOnTime | src/audio.cpp:2384-2454 | samples come at the rounded multiples of the interval, none missing, whatever the channels do |
| PaulaTime.NoDrift | src/audio.cpp:2384-2454 | every sample is within half a cycle of its multiple of the interval |
| PaulaTime.CutAnywhere | src/audio.cpp:2355-2471 | splitting elapsed time over calls changes neither channels nor samples nor state machine calls |
| PaulaSound.Sound.LoadDat | src/audio.cpp:1610-1662 | the data word goes to the channel or, attached, to the next one's period or volume |
| PaulaSound.Sound.StateChannel | src/audio.cpp:1716-1991 | one call, with its nested calls, changes the channels as the state function says, whose starts and words are `StartPlays`, `PlaysWords` and `HandPlaysWord` |
| PaulaSound.Sound.PassTime | src/audio.cpp:2369-2468 | one pass of the event loop is one step of the engine, with its samples |
| PaulaSound.Sound.UpdateAudio | src/audio.cpp:2355-2471 | the loop catches up with the clock exactly, and terminates |
| PaulaSound.Sound.WritePeriod | src/audio.cpp:2676-2711 | a period write first catches up with the clock, then changes one channel and keeps the engine valid |
| PaulaSound.Sound.WriteData | src/audio.cpp:2498-2550 | a write to the data register: a sounding channel keeps the word, another catches up with the clock and takes it |
| PaulaSound.Sound.StateMachine | src/audio.cpp:2013-2023 | all four channels look at their lines again after catching up |
| LanceReceiver.Lance.ReadDescriptor | src/a2065.cpp:400-407 | address and size of a buffer from its descriptor words |
| LanceReceiver.Lance.FillBuffer | src/a2065.cpp:430-434 | the next bytes of the frame, through the bus lanes, into the buffer and nowhere else |
| LanceReceiver.Lance.ReturnDescriptor | src/a2065.cpp:422-441 | ownership cleared, start, end and length set as due, other bytes kept |
| LanceReceiver.Lance.Turn | src/a2065.cpp:399-445 | one turn uses exactly the next descriptor in ring order, or stops at one not owned |
| LanceReceiver.Lance.Receive | src/a2065.cpp:394-448 | for every ring and frame: delivered over consecutive owned descriptors, or abandoned at the first not owned, and nothing else changed |
| LanceReceiver.Lance.GotFrame | src/a2065.cpp:284-448 | filtered frames leave no trace; others arrive as rewritten, followed by the four bytes of their check, high byte first, unless these are stripped |
| LanceReceiver.WhoGetsIn | src/a2065.cpp:307-340 | none under twenty bytes; those to the station or to everybody unless the station sent them; groups if let in; others if the board listens to all |
| LanceReceiver.Lance.AppendCheck | src/a2065.cpp:385-392 | the check of a frame of any length, through the table, behind the frame |
| LanceRing.OneMoreDescriptor | src/a2065.cpp:399-445 | using one descriptor more keeps everything said about those used and those not |
| LanceRing.DescriptorReadsBack | src/a2065.cpp:400-407 | address and negated size as a driver writes them are read back |
| LanceRing.FlagsOfUsed | src/a2065.cpp:422-441 | a used descriptor is not the board's any more, has start and end marked where they are, and keeps its other flags |
| LanceReceiver.OwnershipNow | src/a2065.cpp:409-420 | the loop sees the ownership the frame found, and after a whole turn its own handed-back descriptors |
| LanceReceiver.NothingChanged | src/a2065.cpp:409-420 | if no descriptor was used no byte of memory differs |
| LanceReceiver.DeliveredReadsBack | src/a2065.cpp:430-441 | a delivered frame reads back byte for byte, in order, from the buffers used |
| DriveProof.RunDelivers | src/akiko.cpp:832-904 | in every run, delivered bytes followed by the outstanding ones are all accepted responses in order; each response passes the sum test |
| DriveProof.StepKeeps | src/akiko.cpp:1443-1454 | one access and the work after it keep the protocol's order and balance |
| DriveProof.StepOrderly | src/akiko.cpp:1237-1293 | the result buffer changes, and a response is accepted, only when all bytes before it are delivered, although every command clears and fills the buffer without looking |
| DriveProof.FetchCalm | src/akiko.cpp:1204-1235 | a byte of a command is taken, and a command becomes active, only while no response is under way |
| DriveProof.WorkCalm | src/akiko.cpp:1443-1454 | so a command is carried out, and the buffer cleared, only with nothing under way |
| DriveProof.TransferDelivers | src/akiko.cpp:885-898 | a transfer delivers as many bytes as are left and fit, to consecutive places, and reports the end position exactly when it is reached |
| DriveProgress.ReturnDataDelivers | src/akiko.cpp:866-904 | the DMA channel delivers exactly if DMA is on, the end not reached and the delay over: the lesser of the bytes left and the room; with the last one the response is gone and the guest may send, else the end is reached |
| DriveProgress.NextAccessDelivers | src/akiko.cpp:1443-1454 | any access that leaves DMA on, no delay and room for the rest delivers the whole response |
| DriveProgress.DmaEmpties | src/akiko.cpp:866-904 | with DMA on, room and three display lines are enough for everything accepted to arrive, whatever else happens |
| DriveProgress.SwitchDelivers | src/akiko.cpp:866-904 | switching DMA on, with room and no delay, delivers the rest at once; switching it off moves nothing |
| DriveProgress.ReadTakes | src/akiko.cpp:1797-1809 | a register read takes the next byte exactly if DMA is off |
| DriveProgress.ReadsEmpty | src/akiko.cpp:1797-1809 | with DMA off, as many reads as bytes are left are enough |
| DriveProgress.FetchTakes | src/akiko.cpp:1204-1235 | a command byte is fetched exactly if transmit DMA is on, sector DMA off, the end not reached, the delay over and the drive free, and the end is reported |
| DriveProgress.TransmitWaits | src/akiko.cpp:1215-1235 | after the transmit end is set three lines go by before a byte is fetched |
| DriveProgress.CommandLengths | src/akiko.cpp:1137-1137 | the table of command lengths |
| DriveProgress.CommandAnswered | src/akiko.cpp:1139-1293 | every command of the table offered to a free drive, by DMA or by register, is answered: a good one by the drive, a bad one by an error, and the answer with its check byte is the response |
| DriveProgress.UnknownAnswered | src/akiko.cpp:1139-1293 | a byte that begins no command is answered by an error at once |
| DriveProof.CommandCollected | src/akiko.cpp:1139-1194 | a command becomes active with its last byte and is found bad exactly if it fails the sum test |
| DriveSpec.ChecksumSeals | src/akiko.cpp:838-843 | the byte appended to a response makes it sum to 0xFF |
| DriveController.ReceiveChannel.StartReturnData | src/akiko.cpp:832-855 | seals and starts the bytes in the buffer, if none is under way |
| DriveController.ReceiveChannel.Answer | src/akiko.cpp:1244-1292 | clears the buffer, writes the answer over it and starts it |
| DriveController.ReceiveChannel.TransferLoop | src/akiko.cpp:885-898 | the DMA loop in place is the transfer |
| DriveController.ReceiveChannel.ReturnDataByDma | src/akiko.cpp:866-904 | guards, transfer and what a finished response resets, in place; what they deliver is `DriveProgress.ReturnDataDelivers` |
| DriveController.ReceiveChannel.ReadRegister | src/akiko.cpp:1797-1809 | a byte by register instead of DMA |
| DriveController.CommandChannel.AddCommandByte | src/akiko.cpp:1139-1194 | one byte into the command buffer, complete or not, unknown or bad |
| ChunkyPlanar.PlanarBit | src/akiko.cpp:317-328 | bit k of plane p is bit p of pixel k |
| ChunkyPlanar.ChunkyOfPlanar | src/akiko.cpp:317-328 | the conversion loses nothing |
| ChunkyPlanar.PlanarOfChunky | src/akiko.cpp:317-328 | and reaches every set of planes |
| ChunkyPlanar.Converter.ConvertPlainly | src/akiko.cpp:317-328 | the disabled loop computes the planes |
| ChunkyPlanar.Converter.Convert | src/akiko.cpp:333-382 | the form with precomputed tables computes the same planes for all inputs |
| ChunkyPlanar.Gathered | src/akiko.cpp:333-342 | the table puts each pixel bit where the plain loop puts it, and no two in one place |
| ChunkyPlanar.Converter.WriteLong | src/akiko.cpp:385-395 | four byte writes replace one buffer word and move on |
| ChunkyPlanar.Converter.ReadLong | src/akiko.cpp:397-408 | a long read returns the next plane, converting once after a write |
| ChunkyPlanar.Converter.ConvertThroughPort | src/akiko.cpp:1825-1876 | eight long writes and eight long reads return the planes of the words written |
| SignalSpec.TakenValid | src/bsdsocket.cpp:318-368 | every step keeps the queue free of repeats, of closed sockets and of sockets without a flag |
| SignalSpec.FlagsFollowHistory | src/bsdsocket.cpp:318-393 | after any run, the host shortcut included, its steps tell which sockets are queued, with which flag, and which bits are collected |
| SignalSpec.InterruptSignals | src/bsdsocket.cpp:347-368 | after any run the next interrupt signals exactly the live sockets that are queued and not cancelled, each with every collected bit, and empties the queue |
| SignalSpec.RequestLost | src/osdep/bsdsocket_host.cpp:241-245 | after any run, and steps later that hold no interrupt and do not touch the socket, a request leads to a signal at the next interrupt exactly if the socket was queued, had no flag, or the queue was empty |
| SignalSpec.FlaggedIsQueued | src/bsdsocket.cpp:318-393 | without the shortcut the queue holds exactly the live sockets with a flag |
| SignalSpec.NoRequestLost | src/bsdsocket.cpp:318-368 | without the shortcut every request is signalled by the next interrupt, with all bits, whatever comes between but a cancel or close of its socket |
| SignalSpec.LostRequest | src/osdep/bsdsocket_host.cpp:241-245 | a run of five steps in which a request is lost |
| SignalQueue.Queue.Shortcut | src/osdep/bsdsocket_host.cpp:241-245 | the shortcut on the linked list sets the flag alone |
| SignalQueue.Queue.Add | src/bsdsocket.cpp:318-344 | a request on the linked list is the request step |
| SignalQueue.Queue.Cancel | src/bsdsocket.cpp:388-393 | cancelling keeps the socket linked |
| SignalQueue.Queue.Interrupt | src/bsdsocket.cpp:347-368 | the walk along the list serves every queued socket once and ends |
| SignalQueue.Queue.Close | src/bsdsocket.cpp:487-523 | a closing socket leaves the list, wherever it was, and the list stays whole |
| SignalQueue.Queue.UnlinkFirst | src/bsdsocket.cpp:501-503 | taking out the first element leaves the chain of all others |
| SignalQueue.Queue.UnlinkBehind | src/bsdsocket.cpp:507-520 | taking out any other element leaves the chain of all others in their order |
| SignalQueue.Queue.Open | src/bsdsocket.cpp:401-450 | a new socket starts idle and outside the list |

## Left out

Blitter:

- BlitTheorems.EnginesAgree: does not cover pointers that are zero when an immediate loop looks at them. What each engine leaves then is proved (`CycleExactOutcome`, `FadingOutcome`); an exact condition on the registers for the two to be equal is not.
- BlitMeaning.MemoryMeans: is about destination words with places of their own and sources that are not stored over before they are fetched; overlapping operands are compared between the engines only (`EnginesAgree`).
- LineMemory.LineIsPainted: is about a one-bit pen, the two usual minterms and even addresses; other lines are covered step by step (`StepStores`).
- CycleTheorems.ExactBusTime: is about blits with a destination; without one the last round ends early.
- LineProof.LineDrawersAgree: is about a width of two words, the only one the immediate drawer draws.
- Leftover B and C data registers after an immediate blit: the loops leave different values and the project does not compare them.
- Register writes during a blit, freezing and faulty modes, slow-down, DMA recording, logging and saved states: the control registers are decoded once, at the start.
- The choice between the two engines and the event that ends an immediate blit (`src/blitter.cpp:1595-1740`).
- Chip memory is an array of words at even addresses; address bits above its span are cut off as chip memory is mirrored.

CD-ROM:

- Decoding and error correction: the repository only encodes.

Calculator:

- CalculatorProof.CalculatesValue: is about two-argument operators; one choice around such expressions is `CalculatorChoice.ChoiceCalculates`; choices inside choices, calls inside expressions and `!` are in the machine but in no theorem about values.
- Operand arithmetic is an abstract function, not double precision; string values, operators with bit 7 set and the text handling of `parse_values` are not modelled.

SHA-1 and CRC:

- The 16-bit check and the text form of the digest.

Audio:

- Extra streams, sound volume counting, muted channels, filters, mixing and host buffers; sample bytes are kept as they come.
- The chip lines and the interval do not change during one call; register writes happen between calls.
- The settings for too fast processors: the DMA-off and pointer hacks, the minimal loop length, and the delayed data request event.
- Single-precision rounding of the time to the next sample: it is a real number here.

Network board:

- LanceReceiver.Lance.Receive: assumes descriptors and buffers inside board memory and apart from each other, as the theorem about a ring needs; a driver that overlaps them is outside.
- LanceReceiver.Lance.GotFrame: takes the frame as `mungepacket` has rewritten it after the filter as a second argument of the same length; the rewriting itself is not modelled.
- Transmitting, initialisation blocks, register access and the host network.

Akiko:

- DriveProof.RunDelivers: has no reset in its runs; the bytes of a response come from the drive, which is not modelled.
- Sector DMA, NVRAM, the host drive and its thread.
- Converter words are sequences of their 32 bits.

Sockets:

- SignalSpec.RequestLost: the signal the shortcut sends at once is the host's and not recorded; only the flag it leaves is.
- Each step is atomic, as the lock makes it; host calls, traps into Amiga code and descriptor callbacks are left out.
