/**
  The search slice (lib/features/search/searchSlice.ts): the global search
  term the header box writes and the list views read, the results and
  searching flag, and a history of at most ten distinct recent terms, newest
  first. `R` stands for the untyped search results.
*/
module SearchSlice {
  import opened Common

  /** The history keeps the ten most recent terms. */
  const MaxHistory := 10

  /** No term occurs twice. */
  predicate NoDuplicates(h: seq<string>) {
    forall i, j :: 0 <= i < j < |h| ==> h[i] != h[j]
  }

  /** The history after `addToSearchHistory(raw)`: the trimmed term, if
      non-empty and not already present (exact match), is put first, and the
      list is cut back to ten entries. */
  function AfterAdd(h: seq<string>, raw: string): seq<string> {
    var t := Trim(raw);
    if t == [] || t in h then h
    else if |h| + 1 > MaxHistory then ([t] + h)[..MaxHistory]
    else [t] + h
  }

  /** An empty trimmed term or one already in the history changes nothing;
      any other term becomes the first entry, followed by the previous
      entries in order, of which only the oldest is dropped when the list
      was full. */
  lemma AfterAddShape(h: seq<string>, raw: string)
    ensures var t := Trim(raw); var r := AfterAdd(h, raw);
      && (t == [] || t in h ==> r == h)
      && (t != [] && t !in h ==>
            && r[0] == t
            && (|h| < MaxHistory ==> r[1..] == h)
            && (|h| >= MaxHistory ==> r[1..] == h[..MaxHistory - 1]))
  {
    var t := Trim(raw);
    if t != [] && t !in h && |h| >= MaxHistory {
      assert ([t] + h)[..MaxHistory][1..] == h[..MaxHistory - 1];
    }
  }

  /** The history never grows past ten entries. */
  lemma AfterAddBounded(h: seq<string>, raw: string)
    requires |h| <= MaxHistory
    ensures |AfterAdd(h, raw)| <= MaxHistory
    ensures |AfterAdd(h, raw)| >= |h|
  {
  }

  /** A history without repeated terms stays without them. */
  lemma AfterAddNoDuplicates(h: seq<string>, raw: string)
    requires NoDuplicates(h)
    ensures NoDuplicates(AfterAdd(h, raw))
  {
    var t := Trim(raw);
    if t != [] && t !in h {
      var full := [t] + h;
      forall i, j | 0 <= i < j < |full| ensures full[i] != full[j] {
        assert full[j] == h[j - 1];
        if i > 0 {
          assert full[i] == h[i - 1];
        }
      }
      var r := AfterAdd(h, raw);
      forall i, j | 0 <= i < j < |r| ensures r[i] != r[j] {
        assert r[i] == full[i] && r[j] == full[j];
      }
    }
  }

  /** Adding the same term twice is adding it once. */
  lemma AfterAddTwice(h: seq<string>, raw: string)
    ensures AfterAdd(AfterAdd(h, raw), raw) == AfterAdd(h, raw)
  {
    var t := Trim(raw);
    var r := AfterAdd(h, raw);
    if t != [] && t !in h {
      assert r[0] == t;
      assert t in r;
    }
  }

  /** The stored term is always trimmed and non-empty. */
  lemma AfterAddTrimmed(h: seq<string>, raw: string)
    requires forall i :: 0 <= i < |h| ==> h[i] != [] && Trim(h[i]) == h[i]
    ensures var r := AfterAdd(h, raw);
      forall i :: 0 <= i < |r| ==> r[i] != [] && Trim(r[i]) == r[i]
  {
    var t := Trim(raw);
    TrimIdempotent(raw);
    var r := AfterAdd(h, raw);
    if t != [] && t !in h {
      forall i | 0 <= i < |r| ensures r[i] != [] && Trim(r[i]) == r[i] {
        if i > 0 {
          assert r[i] == h[i - 1];
        }
      }
    }
  }

  class State<R> {
    var globalSearchTerm: string
    var searchResults: seq<R>
    var isSearching: bool
    var searchHistory: seq<string>

    /** What every reachable history satisfies: at most ten entries, no
        repeats. */
    predicate HistoryValid()
      reads this`searchHistory
    {
      |searchHistory| <= MaxHistory && NoDuplicates(searchHistory)
    }

    constructor()
      ensures globalSearchTerm == [] && searchResults == [] && !isSearching && searchHistory == []
      ensures HistoryValid()
    {
      globalSearchTerm := [];
      searchResults := [];
      isSearching := false;
      searchHistory := [];
    }

    /** `setGlobalSearchTerm`: the term is stored as typed, without trimming. */
    method SetGlobalSearchTerm(term: string)
      modifies this`globalSearchTerm
      ensures globalSearchTerm == term
    {
      globalSearchTerm := term;
    }

    method SetSearchResults(results: seq<R>)
      modifies this`searchResults
      ensures searchResults == results
    {
      searchResults := results;
    }

    method SetIsSearching(searching: bool)
      modifies this`isSearching
      ensures isSearching == searching
    {
      isSearching := searching;
    }

    /** `addToSearchHistory`: trim, then `unshift` and cut back to ten. */
    method AddToSearchHistory(raw: string)
      modifies this`searchHistory
      ensures searchHistory == AfterAdd(old(searchHistory), raw)
      ensures old(HistoryValid()) ==> HistoryValid()
    {
      var term := Trim(raw);
      if term != [] && term !in searchHistory {
        searchHistory := [term] + searchHistory;
        if |searchHistory| > MaxHistory {
          searchHistory := searchHistory[..MaxHistory];
        }
      }
      if old(HistoryValid()) {
        AfterAddBounded(old(searchHistory), raw);
        AfterAddNoDuplicates(old(searchHistory), raw);
      }
    }

    /** `clearSearchHistory`: only the history is emptied. */
    method ClearSearchHistory()
      modifies this`searchHistory
      ensures searchHistory == []
      ensures HistoryValid()
    {
      searchHistory := [];
    }

    /** `clearSearch`: term, results and flag are reset; the history stays. */
    method ClearSearch()
      modifies this`globalSearchTerm, this`searchResults, this`isSearching
      ensures globalSearchTerm == [] && searchResults == [] && !isSearching
    {
      globalSearchTerm := [];
      searchResults := [];
      isSearching := false;
    }
  }
}
