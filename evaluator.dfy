/**
 * The win evaluator of the slot engine, as pure functions over a line of
 * symbols: the run of matching cells from the left, the pay of that run and
 * the result record the engine hands back.
 */
module Evaluator {
  import opened Symbols

  /** One paying line: the matched cells and the amount they pay. */
  datatype WinningLine = WinningLine(symbols: seq<Symbol>, win: int)

  /** The outcome of one evaluation. */
  datatype WinResult = WinResult(totalWin: int, winningLines: seq<WinningLine>)

  /** The shortest run that pays. */
  const MinRun := 3

  /**
   * A cell continues a run whose reference type is `reference` when it has
   * that type or carries the Wild flag.
   */
  predicate Extends(cell: Symbol, reference: SymbolType)
    ensures cell in Catalogue ==> (Extends(cell, reference) <==> cell.kind == reference || cell.kind == Wild)
  {
    cell.kind == reference || cell.isWild
  }

  /** The run is the longest prefix in which every cell after the first extends the first's type. */
  ghost predicate IsRun(line: seq<Symbol>, n: int) {
    && 1 <= n <= |line|
    && (forall j :: 1 <= j < n ==> Extends(line[j], line[0].kind))
    && (n == |line| || !Extends(line[n], line[0].kind))
  }

  /** The end of the run when cells 1 .. i-1 already extend it. */
  function RunFrom(line: seq<Symbol>, i: nat): (n: nat)
    requires 1 <= i <= |line|
    ensures i <= n <= |line|
    decreases |line| - i
  {
    if i == |line| || !Extends(line[i], line[0].kind) then i else RunFrom(line, i + 1)
  }

  /** The evaluator's `count`: the length of the run that starts at the first cell. */
  function RunLength(line: seq<Symbol>): (n: nat)
    requires |line| >= 1
    ensures 1 <= n <= |line|
  {
    RunFrom(line, 1)
  }

  /**
   * The pay of a run of `count` cells led by a symbol of value `value`, at
   * stake `bet`: nothing below three cells, and with a stake that is a
   * multiple of 10 exactly a tenth of value times count times stake, so the
   * integer division loses nothing.
   */
  function LineWin(value: int, count: int, bet: int): (w: int)
    ensures count < MinRun ==> w == 0
    ensures bet % 10 == 0 ==> w * 10 == (if count >= MinRun then value * count * bet else 0)
  {
    if count >= MinRun then
      TenthIsExact(value * count, bet);
      value * count * bet / 10
    else
      0
  }

  lemma TenthIsExact(x: int, bet: int)
    ensures bet % 10 == 0 ==> x * bet / 10 * 10 == x * bet
  {
    if bet % 10 == 0 {
      var k := bet / 10;
      assert x * bet == (x * k) * 10;
    }
  }

  /**
   * Evaluation of one line: a run of at least three cells records one
   * winning line holding the matched cells; otherwise nothing is recorded.
   */
  function Evaluate(line: seq<Symbol>, bet: int): (r: WinResult)
    requires |line| >= 1
    ensures |r.winningLines| <= 1
    ensures r.totalWin == if |r.winningLines| == 1 then r.winningLines[0].win else 0
    ensures forall k :: 0 <= k < |r.winningLines| ==>
      MinRun <= |r.winningLines[k].symbols| <= |line| && r.winningLines[k].symbols == line[..|r.winningLines[k].symbols|]
  {
    var count := RunLength(line);
    if count >= MinRun then
      var lineWin := LineWin(line[0].value, count, bet);
      WinResult(lineWin, [WinningLine(line[..count], lineWin)])
    else
      WinResult(0, [])
  }

  lemma {:induction false} RunFromIsRun(line: seq<Symbol>, i: nat)
    requires 1 <= i <= |line|
    requires forall j :: 1 <= j < i ==> Extends(line[j], line[0].kind)
    ensures IsRun(line, RunFrom(line, i))
    decreases |line| - i
  {
    if i < |line| && Extends(line[i], line[0].kind) {
      RunFromIsRun(line, i + 1);
    }
  }

  /** `RunLength` is exactly the longest matching prefix: it is a run, and every run is it. */
  lemma {:induction false} RunLengthIsLongestMatch(line: seq<Symbol>, n: int)
    requires |line| >= 1
    ensures IsRun(line, n) <==> n == RunLength(line)
  {
    RunFromIsRun(line, 1);
  }

  /** The pay of a catalogue-led run is between 0 and `MaxValue * count * bet / 10`. */
  lemma {:induction false} LineWinBounds(value: int, count: int, bet: int)
    requires 0 <= value <= MaxValue
    requires 0 <= count
    requires 0 <= bet
    ensures 0 <= LineWin(value, count, bet) <= MaxValue * count * bet / 10
  {
    var cb := count * bet;
    assert 0 <= cb;
    assert value * count * bet == value * cb;
    assert MaxValue * count * bet == MaxValue * cb;
    assert 0 <= value * cb <= MaxValue * cb;
  }

  /**
   * What one evaluation records: at most one winning line, present exactly
   * when the run reaches three cells; it holds the first `count` cells and
   * its pay is the total.
   */
  lemma EvaluateShape(line: seq<Symbol>, bet: int)
    requires |line| >= 1
    ensures var r := Evaluate(line, bet);
      && |r.winningLines| <= 1
      && (|r.winningLines| == 1 <==> RunLength(line) >= MinRun)
      && (RunLength(line) < MinRun ==> r.totalWin == 0)
      && (|r.winningLines| == 1 ==>
            && r.winningLines[0].symbols == line[..RunLength(line)]
            && r.winningLines[0].win == r.totalWin
            && r.totalWin == line[0].value * RunLength(line) * bet / 10)
  {
  }

  /**
   * On a line of catalogue symbols and a non-negative stake the total win is
   * never negative and never above 125 stakes per five cells.
   */
  lemma {:induction false} EvaluateBounds(line: seq<Symbol>, bet: int)
    requires |line| >= 1 && line[0] in Catalogue
    requires bet >= 0
    ensures 0 <= Evaluate(line, bet).totalWin <= MaxValue * |line| * bet / 10
  {
    var count, n := RunLength(line), |line|;
    assert WellFormed(line[0]) by { CatalogueWellFormed(); }
    LineWinBounds(line[0].value, count, bet);
    assert MaxValue * count * bet <= MaxValue * n * bet by {
      var d := n - count;
      assert MaxValue * n * bet == MaxValue * count * bet + MaxValue * d * bet;
      assert 0 <= MaxValue * d * bet;
    }
  }

  /**
   * A line led by Wild or Scatter pays nothing, whatever follows: the
   * reference type is never resolved past a leading Wild, and both pay 0.
   */
  lemma {:induction false} SpecialLedLinePaysNothing(line: seq<Symbol>, bet: int)
    requires |line| >= 1 && line[0] in Catalogue
    requires line[0].kind == Wild || line[0].kind == Scatter
    ensures Evaluate(line, bet).totalWin == 0
  {
    SpecialSymbolsPayNothing(line[0]);
  }

  /** On a Wild-led line of catalogue symbols the run covers only Wild cells. */
  lemma {:induction false} WildLedRunIsAllWild(line: seq<Symbol>)
    requires |line| >= 1
    requires forall j :: 0 <= j < |line| ==> line[j] in Catalogue
    requires line[0].kind == Wild
    ensures forall j :: 0 <= j < RunLength(line) ==> line[j].kind == Wild
  {
    CatalogueWellFormed();
    RunLengthIsLongestMatch(line, RunLength(line));
    forall j | 0 <= j < RunLength(line)
      ensures line[j].kind == Wild
    {
      if j > 0 {
        assert Extends(line[j], Wild);
        assert WellFormed(line[j]);
      }
    }
  }

  /**
   * A middle line [Cyber, Cyber, Cyber, Wild, Seven] at stake 100: the Wild
   * extends the run to four cells and the line pays 100 * 4 * 100 / 10.
   */
  lemma WildExtendsRunExample()
    ensures var line := [Draw(5), Draw(5), Draw(5), Draw(8), Draw(0)];
      RunLength(line) == 4 && Evaluate(line, 100).totalWin == 4000
  {
    var line := [Draw(5), Draw(5), Draw(5), Draw(8), Draw(0)];
    assert RunFrom(line, 4) == 4;
    assert RunFrom(line, 3) == 4;
  }
}
