# Cyberpunk slot engine: a Dafny model

This project models the game engine of a browser slot machine, the `CyberpunkSlot` class in `js/game.js`. The model covers:

- **The symbol catalogue.** Ten fixed entries, each with a type, a pay value and the Wild and Scatter flags. Wild and Scatter pay 0.
- **The reels.** There are five reels of fifteen slots each. They are held as an in-memory `array2<Symbol>` instead of DOM elements. When a reel stops, its middle three visible slots (2, 3 and 4) get fresh symbols and no other slot changes.
- **The win evaluator.** It reads the middle row (slot 3 of every reel) and takes the first cell's type as the reference. It counts from the left the cells that have that type or are Wild, and stops at the first cell that is neither. A count of 3 or more pays `value(first) * count * bet / 10` and records one winning line.
- **The session state machine.** The fields are `balance`, `currentBet`, `lastWin`, `isSpinning` and `autoSpin`. A spin is split at its timer boundaries into three steps:
  1. `StartSpin`: guard, debit the stake, set the spinning flag.
  2. `SetFinalSymbols`: once per reel.
  3. `SettleSpin`: evaluate, credit the win, clear the flag, decide whether auto-spin chains another spin.

  `Spin` runs the three steps in order. The bet controls are `ChangeBet`, `SetMaxBet` and `ToggleAutoSpin`.

Modules:

- `Symbols` (`symbols.dfy`): the catalogue.
- `Evaluator` (`evaluator.dfy`): the line evaluation, written as pure functions. `RunLength` gives the count and `Evaluate` gives the result record. Lemmas characterise both.
- `Slot` (`slot.dfy`): the `CyberpunkSlot` class. Its invariant `Valid()` says:
  - the grid is 5 × 15 and holds catalogue symbols only;
  - the stake is in [50, 1000] and is a multiple of 50;
  - the balance and the last win are never negative;
  - the last win is 0 while a spin is in flight.

The method `CalculateWin` keeps the source's loop, with its early `break`. It is proved equal to the pure `Evaluate` on the middle row.

Behaviour kept as the code has it:

- The evaluator never looks past a leading Wild to find the reference type. A line led by Wild or Scatter therefore matches only Wilds (or its own type), and it pays 0 because both symbols have value 0 (`SpecialLedLinePaysNothing`, `WildLedRunIsAllWild`). When such a run reaches three cells, a winning line paying 0 is still recorded.
- The bet buttons are not locked while a spin is in flight. Settling uses the stake current at settle time, both for the pay and for the auto-spin test. The debit happened at start, with the stake current then. `Spin` runs the steps with nothing in between, so there the two stakes are the same. It ensures `balance == old(balance) - currentBet + totalWin`.
- Settling overwrites `lastWin` only when the win is positive. Starting a spin had already set it to 0, so after settling it equals the total win.

Unlike many slot games, the engine has none of the following, so the model has none of them either:

- weighted symbol selection: draws are uniform over the ten entries;
- a random window with wrap-around: the visible slots are fixed at 2, 3 and 4;
- a length multiplier: the pay is `value * count * bet / 10`;
- scatter or bonus payouts, free spins, win multipliers and a jackpot;
- evaluation of more than the middle line: the three paylines are built but never used.

## Model

| member | source | states |
|---|---|---|
| `Symbols.Draw` | js/game.js:143 | a draw `d` in [0, 10) gives a catalogue entry with a non-negative value that is a multiple of 5; the draw is Wild exactly when `d` is 8 and Scatter exactly when `d` is 9 |
| `Symbols.CatalogueWellFormed` | js/game.js:10-21 | ten entries; every entry is well formed (Wild flag exactly on the Wild type, Scatter flag exactly on the Scatter type, value in [0, 250] and a multiple of 5); the types are pairwise distinct |
| `Symbols.SpecialSymbolsPayNothing` | js/game.js:19-20 | the Wild and Scatter entries have value 0 |
| `Evaluator.RunFrom` | js/game.js:171-177 | the scan that starts at cell `i` stops at or after `i` and never past the end of the line |
| `Evaluator.RunLength` | js/game.js:167-177 | the count is between 1 and the line length (five on the middle row) |
| `Evaluator.RunFromIsRun` | js/game.js:171-177 | if cells 1 .. i-1 already match, the scan ends exactly at the longest matching prefix |
| `Evaluator.RunLengthIsLongestMatch` | js/game.js:167-177 | in both directions, `n` is the count exactly when `n` is the longest prefix in which every cell after the first has the first cell's type or is Wild, ending at the line's end or at the first cell that is neither |
| `Evaluator.Extends` | js/game.js:172 | on a catalogue symbol, carrying the Wild flag is the same as having the Wild type, so a cell extends a run exactly when it has the reference type or is Wild |
| `Evaluator.LineWin` | js/game.js:179-181 | a run shorter than 3 pays 0; with a stake that is a multiple of 10, ten times the pay is exactly value × count × stake, so the integer division equals the source's arithmetic |
| `Evaluator.Evaluate` | js/game.js:153-189 | at most one winning line is recorded; the total win is that line's pay, or 0 when none is recorded; a recorded line is a prefix of the input of length at least 3. `EvaluateShape`, `EvaluateBounds` and `RunLengthIsLongestMatch` characterise it further |
| `Evaluator.LineWinBounds` | js/game.js:179-181 | the pay of a run is between 0 and `250 * count * bet / 10` |
| `Evaluator.EvaluateShape` | js/game.js:179-189 | at most one winning line is recorded; one is recorded exactly when the count is 3 or more; it holds the first `count` cells and pays `value(first) * count * bet / 10`, which is the total win; a count below 3 pays 0 |
| `Evaluator.EvaluateBounds` | js/game.js:179-182 | on catalogue symbols with a non-negative stake, the total win is at least 0 and at most `250 * 5 * bet / 10` on a five-cell line |
| `Evaluator.SpecialLedLinePaysNothing` | js/game.js:167-181 | a line led by Wild or Scatter pays 0, whatever follows |
| `Evaluator.WildLedRunIsAllWild` | js/game.js:167-177 | on a Wild-led line of catalogue symbols, every cell of the run is Wild (the reference type stays Wild) |
| `Evaluator.WildExtendsRunExample` | js/game.js:171-181 | the middle row [Cyber, Cyber, Cyber, Wild, Seven] at stake 100 has count 4 and pays 4000 |
| `Slot.GeneratePaylines` | js/game.js:263-270 | three paylines, one per visible row; each picks a row in [0, 3) on each of the five reels. `PaylinesAreVisibleRows` pins them down |
| `Slot.PaylinesAreVisibleRows` | js/game.js:263-270 | three paylines, one per visible row; payline `p` is row `p` on every reel; the middle payline runs through slot 3, the slot the evaluator reads |
| `Slot.FinalMiddleRow` | js/game.js:138-143 | the definition that `Spin`'s contract uses: the row of catalogue symbols made of each reel's second final draw, the draw that `setFinalSymbols` writes to slot 3 |
| `Slot.CyberpunkSlot.MiddleRow` | js/game.js:160-164 | the middle row has one cell per reel, namely slot 3 of that reel, and each cell is a catalogue symbol |
| `Slot.CyberpunkSlot.constructor` | js/game.js:3-23 | balance 10000, stake 100, last win 0, not spinning, auto-spin off, paylines built; each of the 5 × 15 slots holds the symbol of its draw; the invariant holds |
| `Slot.CyberpunkSlot.CreateReels` | js/game.js:36-65 | a fresh 5 × 15 grid in which slot `s` of reel `r` holds the symbol of draw `draws[r][s]`, always a catalogue symbol |
| `Slot.CyberpunkSlot.StartSpin` | js/game.js:67-72 | refused exactly when a spin is in flight or the balance is below the stake, and then every field is unchanged; otherwise sets the spinning flag, debits exactly the stake and clears the last win; stake and auto-spin never change; the balance stays non-negative |
| `Slot.CyberpunkSlot.SetFinalSymbols` | js/game.js:136-150 | visible slots 2, 3 and 4 of the given reel get the symbols of the three draws; every other slot of every reel keeps its symbol; the grid stays 5 × 15 |
| `Slot.CyberpunkSlot.CalculateWin` | js/game.js:153-190 | the loop over the middle row, with its early exit, returns exactly the pure evaluation of the middle row at the current stake |
| `Slot.CyberpunkSlot.SettleSpin` | js/game.js:85-99 | the result is the evaluation of the middle row at the current stake, both before and after the step (grid and stake are untouched); the balance grows by exactly the total win; the last win equals the total win; the spinning flag is cleared; another spin is chained exactly when auto-spin is on and the balance covers the stake, and a chained spin would be accepted |
| `Slot.CyberpunkSlot.Spin` | js/game.js:67-99 | a refused spin changes no field and no slot; after an accepted spin, slot `VisibleSlots[k]` of reel `r` holds the symbol of `finalDraws[r][k]` and every slot outside 2, 3 and 4 keeps its symbol; the balance is balance before − stake + total win, the win being the evaluation of the middle row made of each reel's second final draw; the last win equals the total win; the flag is cleared; chaining is as in `SettleSpin` |
| `Slot.CyberpunkSlot.ChangeBet` | js/game.js:233-239 | the stake moves by the given step only when the result lies in [50, 1000] and is otherwise unchanged; balance, last win and both flags are untouched |
| `Slot.CyberpunkSlot.SetMaxBet` | js/game.js:241-244 | the stake becomes 1000; nothing else changes |
| `Slot.CyberpunkSlot.ToggleAutoSpin` | js/game.js:246-254 | auto-spin is negated and its new value is returned; balance, stake, last win and the spinning flag are untouched |

## Left out

- Rendering is not modelled: building the reel DOM, the spin animation, win highlighting, the win overlay, particle effects, display updates and the loading screen. They draw the state but do not decide it.
- During the animation, every 100 ms the engine redraws all fifteen slots of each spinning reel with random symbols. The model omits this. The only slot the evaluator reads is slot 3, and `setFinalSymbols` overwrites it after the last redraw. So slots other than 2, 3 and 4 keep their previous symbols in the model.
- Timers are not modelled. The 3.5 s delay before settling, the per-reel stop delays and the 1 s delay before a chained auto-spin become the step boundaries between `StartSpin`, `SetFinalSymbols` and `SettleSpin`. `SettleSpin` returns a flag for the chained spin and does not schedule it.
- `Math.random` is replaced by caller-supplied draw indices in [0, 10).
- Each catalogue entry's emoji is not modelled. It is display only.
- A winning line records the matched symbols, not the DOM nodes that show them.
- `SettleSpin` requires a spin in flight. The settle callback only exists after a start that succeeded.
- `ChangeBet`: it requires the step to be a multiple of 50. Every caller in `js/ui.js` passes +50 or −50. With another step the stake could leave the multiples of 10, the pay would become fractional, and the integer model does not represent that.
- Floating-point arithmetic is not modelled. The pay is computed on integers. `LineWin` shows that this matches the exact value whenever the stake is a multiple of 10, which `Valid()` guarantees.
- Audio, mobile shims, particles, the loading sequence and the UI wiring in `js/main.js` and `js/ui.js` are not part of this model. `js/ui.js` forwards clicks and keys to the methods above. `js/main.js` also calls `init()` on the engine a second time (js/main.js:46-48) when the engine already exists.
- The model assumes `init()` runs exactly once. A second call re-runs `createReels`, which empties the reel container but does not reset the reel list (js/game.js:9, 38, 63), so the engine then holds ten reels. The evaluator would read a ten-cell middle row whose first five cells come from detached reels, and it would settle before the last reels get their final symbols (js/game.js:80, 85, 133). The five-reel bound in `Valid()`, and the bound of five on the count in `RunLength`'s row, depend on this assumption.
