/**
 * The fixed symbol table of the slot engine: ten entries, each with a type,
 * a pay value and the Wild and Scatter flags. The emoji shown for each entry
 * is presentation only and is not modelled.
 */
module Symbols {

  /** The `type` tag of a catalogue entry; the evaluator compares these. */
  datatype SymbolType =
    | Seven | Bar | Diamond | Lightning | Star | Cyber | Target | Fire | Wild | Scatter

  datatype Symbol = Symbol(kind: SymbolType, value: int, isWild: bool, isScatter: bool)

  /** The catalogue, in the engine's order; a draw `d` in [0, 10) selects `Catalogue[d]`. */
  const Catalogue: seq<Symbol> := [
    Symbol(Seven, 10, false, false),
    Symbol(Bar, 15, false, false),
    Symbol(Diamond, 25, false, false),
    Symbol(Lightning, 40, false, false),
    Symbol(Star, 60, false, false),
    Symbol(Cyber, 100, false, false),
    Symbol(Target, 150, false, false),
    Symbol(Fire, 250, false, false),
    Symbol(Wild, 0, true, false),
    Symbol(Scatter, 0, false, true)
  ]

  /** The largest pay value in the catalogue. */
  const MaxValue := 250

  /**
   * What every entry satisfies: a non-negative value that is a multiple of 5,
   * the Wild flag set exactly on the Wild type, the Scatter flag exactly on
   * the Scatter type, and no pay value for either of them.
   */
  predicate WellFormed(s: Symbol) {
    && 0 <= s.value <= MaxValue
    && s.value % 5 == 0
    && (s.isWild <==> s.kind == Wild)
    && (s.isScatter <==> s.kind == Scatter)
    && (s.isWild || s.isScatter ==> s.value == 0)
  }

  /** The symbol a uniform draw `d` produces. */
  function Draw(d: int): (s: Symbol)
    requires 0 <= d < |Catalogue|
    ensures s in Catalogue && WellFormed(s)
    ensures s.kind == Wild <==> d == 8
    ensures s.kind == Scatter <==> d == 9
  {
    Catalogue[d]
  }

  /**
   * The catalogue has ten well-formed entries whose types are pairwise
   * distinct, so comparing types is comparing entries.
   */
  lemma CatalogueWellFormed()
    ensures |Catalogue| == 10
    ensures forall s :: s in Catalogue ==> WellFormed(s)
    ensures forall i, j :: 0 <= i < j < |Catalogue| ==> Catalogue[i].kind != Catalogue[j].kind
  {
  }

  /** Wild and Scatter entries pay nothing when they lead a line. */
  lemma SpecialSymbolsPayNothing(s: Symbol)
    requires s in Catalogue
    requires s.kind == Wild || s.kind == Scatter
    ensures s.value == 0
  {
    CatalogueWellFormed();
  }
}
