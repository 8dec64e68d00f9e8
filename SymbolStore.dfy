/** The symbol library atoms and the search filter derived from them
    (src/stores/symbolStore.ts). */
module SymbolStore {
  import opened CanvasTypes
  import opened Text
  import opened Lists

  /** The initial library and search query. */
  const InitialLibrary: seq<ElectricalSymbol> := []
  const InitialQuery: string := ""

  /** A symbol matches a lower-cased query when its name or category, lower-cased
      by `lower`, contains it. */
  predicate Matches(s: ElectricalSymbol, lowered: string, lower: string -> string)
  {
    Contains(lower(s.name), lowered) || Contains(lower(s.category), lowered)
  }

  /** `filteredSymbolsAtom`: the query is lower-cased; an empty result keeps the
      whole library, otherwise the matching symbols are kept in order. `lower`
      stands for the runtime's `String.prototype.toLowerCase`. */
  function FilteredSymbols(library: seq<ElectricalSymbol>, query: string, lower: string -> string): (r: seq<ElectricalSymbol>)
    ensures lower(query) == "" ==> r == library
    ensures Sublist(r, library)
    ensures forall i :: 0 <= i < |r| ==> r[i] in library && Matches(r[i], lower(query), lower)
    ensures forall i :: 0 <= i < |library| && Matches(library[i], lower(query), lower) ==> library[i] in r
  {
    var q := lower(query);
    if q == "" then
      SublistRefl(library);
      EveryoneMatchesEmptyQuery(library, lower);
      library
    else
      FilterIsSublist(library, s => Matches(s, q, lower));
      Filter(library, s => Matches(s, q, lower))
  }

  /** Every symbol matches the empty query, so the two branches agree. */
  lemma EmptyQueryMatchesAll(s: ElectricalSymbol, lower: string -> string)
    ensures Matches(s, "", lower)
  {
    ContainsTrivial(lower(s.name));
  }

  lemma EveryoneMatchesEmptyQuery(library: seq<ElectricalSymbol>, lower: string -> string)
    ensures forall i :: 0 <= i < |library| ==> Matches(library[i], "", lower)
  {
    forall i | 0 <= i < |library|
      ensures Matches(library[i], "", lower)
    {
      EmptyQueryMatchesAll(library[i], lower);
    }
  }

  /** The filter sees only the lower-cased query: queries that differ in letter
      case only give the same list. */
  lemma CaseInsensitive(library: seq<ElectricalSymbol>, q1: string, q2: string, lower: string -> string)
    requires lower(q1) == lower(q2)
    ensures FilteredSymbols(library, q1, lower) == FilteredSymbols(library, q2, lower)
  {
  }

  /** Refining a query (typing more) never brings back symbols: the longer
      query's results are a sub-list of the shorter one's. */
  lemma LongerQueryNarrows(library: seq<ElectricalSymbol>, shorter: string, longer: string, lower: string -> string)
    requires Contains(lower(longer), lower(shorter))
    ensures Sublist(FilteredSymbols(library, longer, lower), FilteredSymbols(library, shorter, lower))
  {
    var qs := lower(shorter);
    var ql := lower(longer);
    if qs == "" {
      // the shorter query keeps the whole library
    } else if ql == "" {
      assert false;
    } else {
      forall i | 0 <= i < |library| && Matches(library[i], ql, lower)
        ensures Matches(library[i], qs, lower)
      {
        if Contains(lower(library[i].name), ql) {
          ContainsTransitive(lower(library[i].name), ql, qs);
        } else {
          ContainsTransitive(lower(library[i].category), ql, qs);
        }
      }
      FilterMonotone(library, s => Matches(s, ql, lower), s => Matches(s, qs, lower));
    }
  }
}
