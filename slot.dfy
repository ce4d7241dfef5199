/**
 * The slot engine's session: balance, stake, last win, the spinning and
 * auto-spin flags, and five reels of fifteen symbol slots held as an
 * in-memory grid. A spin is split at its timer boundaries into a start step,
 * one final-symbol step per reel and a settle step.
 */
module Slot {
  import opened Symbols
  import opened Evaluator

  const ReelCount := 5
  const SlotsPerReel := 15
  /** The slots of a reel that end a spin with fresh symbols: the three visible rows. */
  const VisibleSlots: seq<int> := [2, 3, 4]
  /** The slot of every reel that the evaluator reads: the middle visible row. */
  const MiddleSlot := 3

  const StartingBalance := 10000
  const StartingBet := 100
  const MinBet := 50
  const MaxBet := 1000
  /** The step of the bet buttons; every stake is a multiple of it. */
  const BetStep := 50

  /** A table of draws, one index in [0, 10) per cell of a rows x cols table. */
  predicate ValidDraws(draws: seq<seq<int>>, rows: nat, cols: nat) {
    && |draws| == rows
    && forall r :: 0 <= r < rows ==>
         |draws[r]| == cols && forall c :: 0 <= c < cols ==> 0 <= draws[r][c] < |Catalogue|
  }

  /**
   * The three horizontal paylines over the visible rows; the engine builds
   * them but evaluates only the middle row.
   */
  function GeneratePaylines(): (lines: seq<seq<int>>)
    ensures |lines| == |VisibleSlots|
    ensures forall p :: 0 <= p < |lines| ==>
      |lines[p]| == ReelCount && forall c :: 0 <= c < ReelCount ==> 0 <= lines[p][c] < |VisibleSlots|
  {
    [[0, 0, 0, 0, 0], [1, 1, 1, 1, 1], [2, 2, 2, 2, 2]]
  }

  /**
   * Every payline picks one visible row per reel, payline `p` is row `p` on
   * every reel, and the middle payline runs through the slot the evaluator reads.
   */
  lemma PaylinesAreVisibleRows()
    ensures var lines := GeneratePaylines();
      && |lines| == |VisibleSlots|
      && (forall p, c :: 0 <= p < |lines| && 0 <= c < ReelCount ==>
            |lines[p]| == ReelCount && lines[p][c] == p)
      && (forall c :: 0 <= c < ReelCount ==> VisibleSlots[lines[1][c]] == MiddleSlot)
  {
  }

  /**
   * The middle row made of each reel's final draws: the second of the three
   * draws of a reel is the one that lands in the middle slot. `Spin` states
   * its result in terms of this row.
   */
  function FinalMiddleRow(finalDraws: seq<seq<int>>): (line: seq<Symbol>)
    requires ValidDraws(finalDraws, ReelCount, |VisibleSlots|)
    ensures |line| == ReelCount
    ensures forall r :: 0 <= r < ReelCount ==> line[r] in Catalogue
    ensures forall r :: 0 <= r < ReelCount ==> line[r] == Draw(finalDraws[r][MiddleSlot - VisibleSlots[0]])
  {
    seq(ReelCount, r requires 0 <= r < ReelCount => Draw(finalDraws[r][1]))
  }

  class CyberpunkSlot {
    var balance: int
    var currentBet: int
    var lastWin: int
    var isSpinning: bool
    var autoSpin: bool
    /** Reel `r`, slot `s` is `reels[r, s]`. */
    var reels: array2<Symbol>
    const paylines: seq<seq<int>>

    /**
     * The session invariant: a 5 x 15 grid of catalogue symbols, a stake in
     * [50, 1000] on the 50 grid, a non-negative balance and last win, and a
     * last win cleared for as long as a spin is in flight.
     */
    ghost predicate Valid()
      reads this, reels
    {
      && reels.Length0 == ReelCount
      && reels.Length1 == SlotsPerReel
      && (forall r, s :: 0 <= r < ReelCount && 0 <= s < SlotsPerReel ==> reels[r, s] in Catalogue)
      && MinBet <= currentBet <= MaxBet
      && currentBet % BetStep == 0
      && balance >= 0
      && lastWin >= 0
      && (isSpinning ==> lastWin == 0)
    }

    /** A spin request is honoured: no spin in flight and the balance covers the stake. */
    predicate CanStart()
      reads this
    {
      !isSpinning && balance >= currentBet
    }

    /** The middle row of the grid, one cell per reel. */
    ghost function MiddleRow(): (line: seq<Symbol>)
      reads this, reels
      requires Valid()
      ensures |line| == ReelCount
      ensures forall r :: 0 <= r < ReelCount ==> line[r] == reels[r, MiddleSlot] && line[r] in Catalogue
    {
      var grid := reels;
      seq(ReelCount, r requires 0 <= r < grid.Length0 && MiddleSlot < grid.Length1 reads grid => grid[r, MiddleSlot])
    }

    /** A fresh session; `draws` holds the uniform draw for every slot of every reel. */
    constructor(draws: seq<seq<int>>)
      requires ValidDraws(draws, ReelCount, SlotsPerReel)
      ensures Valid() && fresh(reels)
      ensures balance == StartingBalance && currentBet == StartingBet && lastWin == 0
      ensures !isSpinning && !autoSpin
      ensures paylines == GeneratePaylines()
      ensures forall r, s :: 0 <= r < ReelCount && 0 <= s < SlotsPerReel ==> reels[r, s] == Draw(draws[r][s])
    {
      balance := StartingBalance;
      currentBet := StartingBet;
      lastWin := 0;
      isSpinning := false;
      autoSpin := false;
      paylines := GeneratePaylines();
      var grid := CreateReels(draws);
      reels := grid;
    }

    /**
     * Builds the reels: five reels of fifteen slots, slot `s` of reel `r`
     * holding the symbol of draw `draws[r][s]`.
     */
    static method CreateReels(draws: seq<seq<int>>) returns (grid: array2<Symbol>)
      requires ValidDraws(draws, ReelCount, SlotsPerReel)
      ensures fresh(grid)
      ensures grid.Length0 == ReelCount && grid.Length1 == SlotsPerReel
      ensures forall r, s :: 0 <= r < ReelCount && 0 <= s < SlotsPerReel ==> grid[r, s] == Draw(draws[r][s])
      ensures forall r, s :: 0 <= r < ReelCount && 0 <= s < SlotsPerReel ==> grid[r, s] in Catalogue
    {
      grid := new Symbol[ReelCount, SlotsPerReel];
      for i := 0 to ReelCount
        invariant forall r, s :: 0 <= r < i && 0 <= s < SlotsPerReel ==> grid[r, s] == Draw(draws[r][s])
      {
        for j := 0 to SlotsPerReel
          invariant forall r, s :: 0 <= r < i && 0 <= s < SlotsPerReel ==> grid[r, s] == Draw(draws[r][s])
          invariant forall s :: 0 <= s < j ==> grid[i, s] == Draw(draws[i][s])
        {
          grid[i, j] := Draw(draws[i][j]);
        }
      }
    }

    /**
     * The start step of a spin. It does nothing when a spin is in flight or
     * the balance does not cover the stake; otherwise it marks a spin in
     * flight, debits the stake and clears the last win.
     */
    method StartSpin() returns (started: bool)
      requires Valid()
      modifies this
      ensures Valid() && reels == old(reels)
      ensures started == old(CanStart())
      ensures started ==> isSpinning && balance == old(balance) - old(currentBet) && lastWin == 0
      ensures !started ==> isSpinning == old(isSpinning) && balance == old(balance) && lastWin == old(lastWin)
      ensures currentBet == old(currentBet) && autoSpin == old(autoSpin)
    {
      if isSpinning || balance < currentBet {
        return false;
      }
      isSpinning := true;
      balance := balance - currentBet;
      lastWin := 0;
      started := true;
    }

    /**
     * Stops reel `reel` on fresh symbols: visible slot `VisibleSlots[k]` gets
     * the symbol of draw `draws[k]`; every other slot of every reel keeps its symbol.
     */
    method SetFinalSymbols(reel: int, draws: seq<int>)
      requires Valid()
      requires 0 <= reel < ReelCount
      requires |draws| == |VisibleSlots| && forall k :: 0 <= k < |draws| ==> 0 <= draws[k] < |Catalogue|
      modifies reels
      ensures Valid()
      ensures forall k :: 0 <= k < |VisibleSlots| ==> reels[reel, VisibleSlots[k]] == Draw(draws[k])
      ensures forall r, s :: 0 <= r < ReelCount && 0 <= s < SlotsPerReel && !(r == reel && s in VisibleSlots) ==>
                reels[r, s] == old(reels[r, s])
    {
      var visibleSymbols := VisibleSlots;
      for index := 0 to |visibleSymbols|
        invariant Valid()
        invariant forall k :: 0 <= k < index ==> reels[reel, visibleSymbols[k]] == Draw(draws[k])
        invariant forall r, s :: 0 <= r < ReelCount && 0 <= s < SlotsPerReel && !(r == reel && s in visibleSymbols[..index]) ==>
                    reels[r, s] == old(reels[r, s])
      {
        var pos := visibleSymbols[index];
        reels[reel, pos] := Draw(draws[index]);
      }
    }

    /**
     * Reads the middle row and counts, from the left, the cells that have the
     * first cell's type or are Wild, stopping at the first that does neither;
     * a count of three or more pays the first cell's value times the count
     * times the stake, over 10.
     */
    method CalculateWin() returns (winResult: WinResult)
      requires Valid()
      ensures winResult == Evaluate(MiddleRow(), currentBet)
    {
      winResult := WinResult(0, []);
      var middleLine: seq<Symbol> := [];
      for r := 0 to ReelCount
        invariant |middleLine| == r
        invariant forall k :: 0 <= k < r ==> middleLine[k] == reels[k, MiddleSlot]
      {
        middleLine := middleLine + [reels[r, MiddleSlot]];
      }
      assert middleLine == MiddleRow();

      var currentSymbol := middleLine[0].kind;
      var count := 1;
      var lineWin := 0;
      var i := 1;
      while i < |middleLine|
        invariant 1 <= i <= |middleLine|
        invariant count == i
        invariant RunFrom(middleLine, i) == RunLength(middleLine)
      {
        if middleLine[i].kind == currentSymbol || middleLine[i].isWild {
          count := count + 1;
        } else {
          break;
        }
        i := i + 1;
      }

      if count >= MinRun {
        var symbolValue := middleLine[0].value;
        lineWin := symbolValue * count * currentBet / 10;
        winResult := WinResult(winResult.totalWin + lineWin,
                               winResult.winningLines + [WinningLine(middleLine[..count], lineWin)]);
      }
    }

    /**
     * The settle step, once the reels have stopped: evaluates the middle row
     * at the current stake, credits a positive win to the balance and to the
     * last win, clears the spinning flag, and reports whether auto-spin
     * chains another spin: exactly when auto-spin is on and the balance
     * still covers the stake.
     */
    method SettleSpin() returns (winResult: WinResult, chain: bool)
      requires Valid() && isSpinning
      modifies this
      ensures Valid() && reels == old(reels)
      ensures winResult == Evaluate(old(MiddleRow()), old(currentBet))
      ensures winResult == Evaluate(MiddleRow(), currentBet)
      ensures balance == old(balance) + winResult.totalWin
      ensures lastWin == winResult.totalWin
      ensures !isSpinning
      ensures currentBet == old(currentBet) && autoSpin == old(autoSpin)
      ensures chain == (autoSpin && balance >= currentBet)
      ensures chain ==> CanStart()
    {
      ghost var row := MiddleRow();
      winResult := CalculateWin();
      EvaluateBounds(row, currentBet);
      if winResult.totalWin > 0 {
        lastWin := winResult.totalWin;
        balance := balance + winResult.totalWin;
      }
      isSpinning := false;
      chain := autoSpin && balance >= currentBet;
      assert MiddleRow() == row;
    }

    /**
     * One whole spin with its delays collapsed: the start step, the final
     * symbols of each reel in turn (`finalDraws[r]` for reel `r`) and the
     * settle step. A refused start changes nothing.
     */
    method Spin(finalDraws: seq<seq<int>>) returns (started: bool, winResult: WinResult, chain: bool)
      requires Valid()
      requires ValidDraws(finalDraws, ReelCount, |VisibleSlots|)
      modifies this, reels
      ensures Valid() && reels == old(reels)
      ensures started == old(CanStart())
      ensures currentBet == old(currentBet) && autoSpin == old(autoSpin)
      ensures !started ==>
        && balance == old(balance) && lastWin == old(lastWin) && isSpinning == old(isSpinning)
        && winResult == WinResult(0, []) && !chain
        && forall r, s :: 0 <= r < ReelCount && 0 <= s < SlotsPerReel ==> reels[r, s] == old(reels[r, s])
      ensures started ==>
        && winResult == Evaluate(FinalMiddleRow(finalDraws), currentBet)
        && balance == old(balance) - currentBet + winResult.totalWin
        && lastWin == winResult.totalWin
        && !isSpinning
        && chain == (autoSpin && balance >= currentBet)
        && (forall r, k :: 0 <= r < ReelCount && 0 <= k < |VisibleSlots| ==>
              reels[r, VisibleSlots[k]] == Draw(finalDraws[r][k]))
        && (forall r, s :: 0 <= r < ReelCount && 0 <= s < SlotsPerReel && s !in VisibleSlots ==>
              reels[r, s] == old(reels[r, s]))
    {
      winResult, chain := WinResult(0, []), false;
      started := StartSpin();
      if !started {
        return;
      }
      for reel := 0 to ReelCount
        invariant Valid() && reels == old(reels) && isSpinning
        invariant balance == old(balance) - currentBet && lastWin == 0
        invariant currentBet == old(currentBet) && autoSpin == old(autoSpin)
        invariant forall r, k :: 0 <= r < reel && 0 <= k < |VisibleSlots| ==>
                    reels[r, VisibleSlots[k]] == Draw(finalDraws[r][k])
        invariant forall r, s :: 0 <= r < ReelCount && 0 <= s < SlotsPerReel && !(r < reel && s in VisibleSlots) ==>
                    reels[r, s] == old(reels[r, s])
      {
        SetFinalSymbols(reel, finalDraws[reel]);
      }
      forall r | 0 <= r < ReelCount
        ensures reels[r, MiddleSlot] == Draw(finalDraws[r][1])
      {
        assert VisibleSlots[1] == MiddleSlot;
      }
      assert MiddleRow() == FinalMiddleRow(finalDraws);
      winResult, chain := SettleSpin();
    }

    /**
     * Moves the stake by `amount` when the result stays within [50, 1000],
     * and otherwise leaves it; nothing else changes.
     */
    method ChangeBet(amount: int)
      requires Valid()
      requires amount % BetStep == 0
      modifies this
      ensures Valid() && reels == old(reels)
      ensures currentBet == if MinBet <= old(currentBet) + amount <= MaxBet then old(currentBet) + amount else old(currentBet)
      ensures balance == old(balance) && lastWin == old(lastWin)
      ensures isSpinning == old(isSpinning) && autoSpin == old(autoSpin)
    {
      var newBet := currentBet + amount;
      if newBet >= MinBet && newBet <= MaxBet {
        currentBet := newBet;
      }
    }

    /** Sets the stake to the maximum; nothing else changes. */
    method SetMaxBet()
      requires Valid()
      modifies this
      ensures Valid() && reels == old(reels)
      ensures currentBet == MaxBet
      ensures balance == old(balance) && lastWin == old(lastWin)
      ensures isSpinning == old(isSpinning) && autoSpin == old(autoSpin)
    {
      currentBet := MaxBet;
    }

    /** Flips auto-spin and returns its new setting; nothing else changes. */
    method ToggleAutoSpin() returns (enabled: bool)
      requires Valid()
      modifies this
      ensures Valid() && reels == old(reels)
      ensures autoSpin == !old(autoSpin) && enabled == autoSpin
      ensures balance == old(balance) && currentBet == old(currentBet) && lastWin == old(lastWin)
      ensures isSpinning == old(isSpinning)
    {
      autoSpin := !autoSpin;
      enabled := autoSpin;
    }
  }
}
