/** The library panel (src/components/SymbolLibrary/SymbolPanel.tsx): the
    category selector over the search results, and what the list area shows. */
module SymbolPanel {
  import opened CanvasTypes
  import opened Lists
  import opened SymbolStore

  datatype CategoryOption = CategoryOption(caption: string, value: string)

  /** The selector's options: "All" (the empty value) and five categories. */
  const CATEGORIES: seq<CategoryOption> := [
    CategoryOption("All", ""),
    CategoryOption("Switches", "switches"),
    CategoryOption("Lights", "lights"),
    CategoryOption("Outlets", "outlets"),
    CategoryOption("Protection", "protection"),
    CategoryOption("Distribution", "distribution")]

  /** The category filter: the empty category keeps everything, any other keeps
      the symbols of that category, in order. */
  function CategoryFilter(symbols: seq<ElectricalSymbol>, category: string): (r: seq<ElectricalSymbol>)
    ensures category == "" ==> r == symbols
    ensures Sublist(r, symbols)
    ensures category != "" ==> forall i :: 0 <= i < |r| ==> r[i] in symbols && r[i].category == category
    ensures category != "" ==> forall i :: 0 <= i < |symbols| && symbols[i].category == category ==> symbols[i] in r
  {
    if category == "" then
      SublistRefl(symbols);
      symbols
    else
      FilterIsSublist(symbols, (s: ElectricalSymbol) => s.category == category);
      Filter(symbols, (s: ElectricalSymbol) => s.category == category)
  }

  /** The list the panel displays. */
  function Displayed(library: seq<ElectricalSymbol>, query: string, category: string, lower: string -> string): seq<ElectricalSymbol>
  {
    CategoryFilter(FilteredSymbols(library, query, lower), category)
  }

  /** The displayed list is always a sub-list of the library. */
  lemma DisplayedIsSublist(library: seq<ElectricalSymbol>, query: string, category: string, lower: string -> string)
    ensures Sublist(Displayed(library, query, category, lower), library)
  {
    SublistTransitive(Displayed(library, query, category, lower), FilteredSymbols(library, query, lower), library);
  }

  /** The declared category "motors" is not offered, so a motor symbol is
      displayed only under "All". */
  lemma MotorsOnlyUnderAll(symbols: seq<ElectricalSymbol>, i: nat)
    requires i < |CATEGORIES| && CATEGORIES[i].value != ""
    ensures "motors" in SymbolCategories
    ensures forall k :: 0 <= k < |CategoryFilter(symbols, CATEGORIES[i].value)| ==>
      CategoryFilter(symbols, CATEGORIES[i].value)[k].category != "motors"
  {
  }

  /** What the list area shows: skeletons while loading, the error when there
      is one, else the cards, with the "No symbols found" note when none is left. */
  datatype ListArea = Loading | ErrorNote(message: string) | Cards(symbols: seq<ElectricalSymbol>, noSymbolsNote: bool)

  function ListView(loading: bool, error: Option<string>, filtered: seq<ElectricalSymbol>): (r: ListArea)
    ensures loading ==> r.Loading?
    ensures !loading && error.Some? && error.value != "" ==> r == ErrorNote(error.value)
    ensures r.Cards? ==> r.symbols == filtered && (r.noSymbolsNote <==> |filtered| == 0)
    ensures !loading && (error.None? || error.value == "") ==> r.Cards?
  {
    if loading then Loading
    else if error.Some? && error.value != "" then ErrorNote(error.value)
    else Cards(filtered, |filtered| == 0)
  }
}
