/** The dictionary screen's view model (DictionaryViewModel.kt): merging the
    exact and related search results, normalising a Japanese query, the
    search history kept in the shared preferences, the selection of history
    items, and the kanji extracted from a text.

    The DAO queries, the romaji converter and the tokenizer are parameters
    (`SearchBackend`); the shared preferences are the `storedHistory` field,
    holding the JSON array as a list. Every coroutine is taken to run to
    completion before the next call. */
module DictionaryVM {
  import opened Common
  import opened Kana
  import W = Writer

  type Entry = W.DictionaryEntryRow

  /** What the search calls but does not define: the DAO's queries by entry
      id, `String.romajiToHiragana` and `tokenizeJapaneseText`. */
  datatype SearchBackend = SearchBackend(
    searchExactJapaneseFts: string -> seq<Entry>,
    searchRelatedJapaneseFts: string -> seq<Entry>,
    kanjiOf: string -> seq<string>,
    readingsOf: string -> seq<string>,
    searchExactEnglishFts: string -> seq<Entry>,
    searchRelatedEnglish: string -> seq<Entry>,
    glossesOf: string -> seq<seq<string>>,
    romajiToHiragana: string -> string,
    tokenize: string -> string)

  // ---------------------------------------------------------------------------
  // Merging exact and related results
  // ---------------------------------------------------------------------------

  /** `(exactResults + relatedResults).distinct() - exactMatches.toSet()` */
  function RelatedMatches<T(==,!new)>(exactResults: seq<T>, relatedResults: seq<T>, exactMatches: seq<T>): seq<T>
  {
    RemoveAll(Distinct(exactResults + relatedResults), set x | x in exactMatches)
  }

  /** `exactMatches + relatedMatches`, the exact matches being the exact
      results that pass the mode's exactness test. */
  function MergeResults<T(==,!new)>(exactResults: seq<T>, relatedResults: seq<T>, isExact: T -> bool): seq<T>
  {
    var exactMatches := Filter(exactResults, isExact);
    exactMatches + RelatedMatches(exactResults, relatedResults, exactMatches)
  }

  /** The related part is the first occurrence of every result that is not an
      exact match, in the order the two queries returned them. */
  lemma RelatedAreFirstOccurrences<T(!new)>(exactResults: seq<T>, relatedResults: seq<T>, exactMatches: seq<T>)
    ensures RelatedMatches(exactResults, relatedResults, exactMatches) ==
      DistinctFrom(exactResults + relatedResults, set x | x in exactMatches)
  {
    RemoveAllDistinctFrom(exactResults + relatedResults, {}, set x | x in exactMatches);
    assert {} + (set x | x in exactMatches) == set x | x in exactMatches;
  }

  /** Exact matches come first, in the order of the exact query; after them
      come results that are not exact matches, each once. */
  lemma MergeOrder<T(!new)>(exactResults: seq<T>, relatedResults: seq<T>, isExact: T -> bool)
    ensures var r := MergeResults(exactResults, relatedResults, isExact);
      var n := |Filter(exactResults, isExact)|;
      n <= |r| && r[..n] == Filter(exactResults, isExact) &&
      (forall x :: x in r[..n] <==> x in exactResults && isExact(x)) &&
      (forall i :: n <= i < |r| ==> !(r[i] in exactResults && isExact(r[i]))) &&
      NoDuplicates(r[n..])
  {
    var ex := Filter(exactResults, isExact);
    var rel := RelatedMatches(exactResults, relatedResults, ex);
    var r := MergeResults(exactResults, relatedResults, isExact);
    assert r[..|ex|] == ex && r[|ex|..] == rel;
    RemoveAllNoDuplicates(Distinct(exactResults + relatedResults), set x | x in ex);
    forall i | |ex| <= i < |r| ensures !(r[i] in exactResults && isExact(r[i])) {
      var x := rel[i - |ex|];
      assert r[i] == x && x in rel;
      assert x !in (set y | y in ex);
    }
  }

  /** Nothing is lost and nothing is invented: the merged list holds exactly
      the elements the two queries returned. */
  lemma MergeMembers<T(!new)>(exactResults: seq<T>, relatedResults: seq<T>, isExact: T -> bool)
    ensures forall x :: x in MergeResults(exactResults, relatedResults, isExact) <==>
      x in exactResults + relatedResults
  {
  }

  /** The merged list is free of duplicates exactly when the exact matches are. */
  lemma MergeNoDuplicates<T(!new)>(exactResults: seq<T>, relatedResults: seq<T>, isExact: T -> bool)
    ensures NoDuplicates(MergeResults(exactResults, relatedResults, isExact)) <==>
      NoDuplicates(Filter(exactResults, isExact))
  {
    var ex := Filter(exactResults, isExact);
    var rel := RelatedMatches(exactResults, relatedResults, ex);
    RemoveAllNoDuplicates(Distinct(exactResults + relatedResults), set x | x in ex);
    NoDuplicatesConcat(ex, rel);
  }

  // ---------------------------------------------------------------------------
  // Query normalisation and the two search modes
  // ---------------------------------------------------------------------------

  predicate IsAsciiLetter(c: char)
  {
    'a' <= c <= 'z' || 'A' <= c <= 'Z'
  }

  /** `query.all { it in 'a'..'z' || it in 'A'..'Z' }`, true of "". */
  predicate AllAsciiLetters(s: string)
  {
    forall k :: 0 <= k < |s| ==> IsAsciiLetter(s[k])
  }

  /** The `processedQuery` of the Japanese mode. */
  function NormalizeQuery(query: string, romajiToHiragana: string -> string): string
  {
    if AllAsciiLetters(query) then romajiToHiragana(query)
    else if HasKatakana(query) then ConvertKatakanaToHiragana(query)
    else query
  }

  /** The three cases, stated without their order of testing: a katakana
      character already rules out romaji, so any query holding one is
      converted to hiragana, and after conversion nothing convertible is left. */
  lemma NormalizeQueryCases(query: string, romajiToHiragana: string -> string)
    ensures AllAsciiLetters(query) ==> NormalizeQuery(query, romajiToHiragana) == romajiToHiragana(query)
    ensures HasKatakana(query) ==>
      NormalizeQuery(query, romajiToHiragana) == ConvertKatakanaToHiragana(query) &&
      forall k :: 0 <= k < |NormalizeQuery(query, romajiToHiragana)| ==>
        !IsConvertibleKatakana(NormalizeQuery(query, romajiToHiragana)[k])
    ensures !AllAsciiLetters(query) && !HasKatakana(query) ==> NormalizeQuery(query, romajiToHiragana) == query
  {
    if HasKatakana(query) {
      var k :| 0 <= k < |query| && IsKatakana(query[k]);
      assert !IsAsciiLetter(query[k]);
      ConvertedHasNoConvertibleKatakana(query);
    }
  }

  /** Normalising a query that is not pure romaji a second time changes
      nothing: the conversion keeps a non-letter a non-letter, and is
      idempotent itself. */
  lemma NormalizeQueryIdempotent(query: string, romajiToHiragana: string -> string)
    requires !AllAsciiLetters(query)
    ensures NormalizeQuery(NormalizeQuery(query, romajiToHiragana), romajiToHiragana) ==
      NormalizeQuery(query, romajiToHiragana)
  {
    if HasKatakana(query) {
      var r := ConvertKatakanaToHiragana(query);
      var k :| 0 <= k < |query| && !IsAsciiLetter(query[k]);
      ConvertPointwise(query);
      assert !IsAsciiLetter(r[k]);
      ConvertIdempotent(query);
    }
  }

  /** The Japanese mode's exactness test: the normalised query is one of the
      entry's kanji or readings. */
  function JapaneseExact(b: SearchBackend, processedQuery: string): Entry -> bool
  {
    (e: Entry) => processedQuery in b.kanjiOf(e.id) || processedQuery in b.readingsOf(e.id)
  }

  /** The English mode's exactness test: some sense lists the query among its glosses. */
  function EnglishExact(b: SearchBackend, query: string): Entry -> bool
  {
    (e: Entry) => exists g :: g in b.glossesOf(e.id) && query in g
  }

  function SearchJapanese(b: SearchBackend, query: string): seq<Entry>
  {
    var processedQuery := NormalizeQuery(query, b.romajiToHiragana);
    var tokenizedQuery := b.tokenize(processedQuery);
    MergeResults(b.searchExactJapaneseFts(tokenizedQuery), b.searchRelatedJapaneseFts(tokenizedQuery),
                 JapaneseExact(b, processedQuery))
  }

  function SearchEnglish(b: SearchBackend, query: string): seq<Entry>
  {
    MergeResults(b.searchExactEnglishFts(query), b.searchRelatedEnglish(query), EnglishExact(b, query))
  }

  /** The results `searchWord` leaves behind: none for an empty query, the
      mode's merge for "ja" and "en", and the previous results for any other
      mode. */
  function SearchOutcome(b: SearchBackend, query: string, mode: string, current: seq<Entry>): seq<Entry>
  {
    if query == "" then []
    else if mode == "ja" then SearchJapanese(b, query)
    else if mode == "en" then SearchEnglish(b, query)
    else current
  }

  /** In either mode the results are exactly what the mode's two queries
      returned, led by the mode's exact matches. */
  lemma SearchOutcomeFacts(b: SearchBackend, query: string, mode: string, current: seq<Entry>)
    ensures query == "" ==> SearchOutcome(b, query, mode, current) == []
    ensures query != "" && mode == "ja" ==>
      var t := b.tokenize(NormalizeQuery(query, b.romajiToHiragana));
      var exact := Filter(b.searchExactJapaneseFts(t), JapaneseExact(b, NormalizeQuery(query, b.romajiToHiragana)));
      (forall x :: x in SearchOutcome(b, query, mode, current) <==>
         x in b.searchExactJapaneseFts(t) + b.searchRelatedJapaneseFts(t)) &&
      SearchOutcome(b, query, mode, current)[..|exact|] == exact
    ensures query != "" && mode == "en" ==>
      var exact := Filter(b.searchExactEnglishFts(query), EnglishExact(b, query));
      (forall x :: x in SearchOutcome(b, query, mode, current) <==>
         x in b.searchExactEnglishFts(query) + b.searchRelatedEnglish(query)) &&
      SearchOutcome(b, query, mode, current)[..|exact|] == exact
    ensures query != "" && mode != "ja" && mode != "en" ==> SearchOutcome(b, query, mode, current) == current
  {
    var p := NormalizeQuery(query, b.romajiToHiragana);
    var t := b.tokenize(p);
    MergeMembers(b.searchExactJapaneseFts(t), b.searchRelatedJapaneseFts(t), JapaneseExact(b, p));
    MergeOrder(b.searchExactJapaneseFts(t), b.searchRelatedJapaneseFts(t), JapaneseExact(b, p));
    MergeMembers(b.searchExactEnglishFts(query), b.searchRelatedEnglish(query), EnglishExact(b, query));
    MergeOrder(b.searchExactEnglishFts(query), b.searchRelatedEnglish(query), EnglishExact(b, query));
  }

  // ---------------------------------------------------------------------------
  // History and selection helpers
  // ---------------------------------------------------------------------------

  /** The cap applied both when the history is read and when it is written. */
  const HISTORY_LIMIT: nat := 50

  /** The stored history after `addSearchHistory(query)` has gone through:
      the stored list read back (capped), the query put in front, capped again. */
  function HistoryWith(stored: seq<string>, query: string): seq<string>
  {
    Take([query] + Take(stored, HISTORY_LIMIT), HISTORY_LIMIT)
  }

  /** The new query leads, followed by the first 49 stored items in their
      order; nothing else enters and the cap holds. */
  lemma HistoryWithFacts(stored: seq<string>, query: string)
    ensures var h := HistoryWith(stored, query);
      1 <= |h| <= HISTORY_LIMIT && h[0] == query &&
      h[1..] == Take(stored, HISTORY_LIMIT - 1) &&
      forall x :: x in h ==> x == query || x in stored
  {
    var h := HistoryWith(stored, query);
    var t := Take(stored, HISTORY_LIMIT);
    assert h == ([query] + t)[..|h|];
    assert h[1..] == t[..|h| - 1];
  }

  /** Kotlin `MutableList.remove(element)`: drops the first occurrence only. */
  function RemoveFirst<T(==)>(s: seq<T>, x: T): (r: seq<T>)
  {
    if x in s then s[..IndexOf(s, x)] + s[IndexOf(s, x) + 1..] else s
  }

  /** Exactly one copy of a present element goes, and the order of the rest stays. */
  lemma RemoveFirstFacts<T>(s: seq<T>, x: T)
    ensures x in s ==> multiset(RemoveFirst(s, x)) + multiset{x} == multiset(s)
    ensures x !in s ==> RemoveFirst(s, x) == s
    ensures NoDuplicates(s) ==> x !in RemoveFirst(s, x) && NoDuplicates(RemoveFirst(s, x))
  {
    if x in s {
      var i := IndexOf(s, x);
      assert s == s[..i] + [x] + s[i + 1..];
      if NoDuplicates(s) {
        NoDuplicatesConcat(s[..i] + [x], s[i + 1..]);
        NoDuplicatesConcat(s[..i], [x]);
        NoDuplicatesConcat(s[..i], s[i + 1..]);
      }
    }
  }

  /** The selected items after `toggleSelection(query)`. */
  function Toggled(selected: seq<string>, query: string): seq<string>
  {
    if query in selected then RemoveFirst(selected, query) else selected + [query]
  }

  /** On a duplicate-free selection (which toggling alone keeps), toggling
      flips the membership of `query` and of nothing else, and toggling an
      unselected item twice restores the selection. */
  lemma ToggledFacts(selected: seq<string>, query: string)
    requires NoDuplicates(selected)
    ensures NoDuplicates(Toggled(selected, query))
    ensures forall x :: x in Toggled(selected, query) <==> if x == query then query !in selected else x in selected
    ensures query !in selected ==> Toggled(Toggled(selected, query), query) == selected
  {
    RemoveFirstFacts(selected, query);
    NoDuplicatesAppend(selected, query);
    if query in selected {
      var r := RemoveFirst(selected, query);
      forall x | x != query ensures x in r <==> x in selected {
        assert x in multiset(r) <==> x in multiset(selected);
      }
    } else {
      var t := selected + [query];
      assert IndexOf(t, query) == |selected|;
      assert t[..|selected|] == selected;
    }
  }

  /** The set `text.filter { it.isKanji() }.toSet()`. */
  function KanjiIn(text: string): (r: set<char>)
    ensures forall c :: c in r <==> c in text && IsKanji(c)
  {
    set c | c in Filter(text, IsKanji)
  }

  // ---------------------------------------------------------------------------
  // The view model
  // ---------------------------------------------------------------------------

  class DictionaryViewModel {
    var query: string
    var searchMode: string
    var searchResults: seq<Entry>
    var searchHistory: seq<string>
    /** The "history" entry of the shared preferences, as the list its JSON array holds. */
    var storedHistory: seq<string>
    var selectedItems: seq<string>
    var isSelectionMode: bool
    var kanjiSet: set<char>

    /** The initial states, then `loadSearchHistory()` from the init block. */
    constructor (stored: seq<string>)
      ensures query == "" && searchMode == "ja" && searchResults == []
      ensures storedHistory == stored && searchHistory == Take(stored, HISTORY_LIMIT)
      ensures selectedItems == [] && !isSelectionMode && kanjiSet == {}
    {
      query := "";
      searchMode := "ja";
      searchResults := [];
      storedHistory := stored;
      selectedItems := [];
      isSelectionMode := false;
      kanjiSet := {};
      searchHistory := Take(stored, HISTORY_LIMIT);
    }

    /** `searchWord(query)` */
    method SearchWord(b: SearchBackend, q: string)
      modifies this`query, this`searchResults
      ensures query == q
      ensures searchResults == SearchOutcome(b, q, searchMode, old(searchResults))
    {
      query := q;
      if q == "" {
        searchResults := [];
        return;
      }
      if searchMode == "ja" {
        searchResults := SearchJapanese(b, q);
      } else if searchMode == "en" {
        searchResults := SearchEnglish(b, q);
      }
    }

    /** `saveSearchMode(mode)` */
    method SaveSearchMode(mode: string)
      modifies this`searchMode
      ensures searchMode == mode
    {
      searchMode := mode;
    }

    /** `getSearchHistoryFromStorage()`: copies the stored array item by item,
        then keeps the first 50. */
    method HistoryFromStorage() returns (history: seq<string>)
      ensures history == Take(storedHistory, HISTORY_LIMIT)
    {
      var historyList: seq<string> := [];
      var i := 0;
      while i < |storedHistory|
        invariant 0 <= i <= |storedHistory|
        invariant historyList == storedHistory[..i]
      {
        historyList := historyList + [storedHistory[i]];
        i := i + 1;
      }
      assert historyList == storedHistory;
      history := Take(historyList, HISTORY_LIMIT);
    }

    /** `saveSearchHistoryToStorage(history)` */
    method SaveHistoryToStorage(history: seq<string>)
      modifies this`storedHistory
      ensures storedHistory == Take(history, HISTORY_LIMIT)
    {
      storedHistory := Take(history, HISTORY_LIMIT);
    }

    /** `loadSearchHistory()` */
    method LoadSearchHistory()
      modifies this`searchHistory
      ensures searchHistory == Take(storedHistory, HISTORY_LIMIT)
    {
      searchHistory := HistoryFromStorage();
    }

    /** `addSearchHistory(query)`: nothing for an empty query or one already
        shown; otherwise the query goes in front of the stored history and
        the shown history is reloaded from it. */
    method AddSearchHistory(q: string)
      modifies this`storedHistory, this`searchHistory
      ensures q == "" || q in old(searchHistory) ==>
        storedHistory == old(storedHistory) && searchHistory == old(searchHistory)
      ensures q != "" && q !in old(searchHistory) ==>
        storedHistory == HistoryWith(old(storedHistory), q) && searchHistory == storedHistory
    {
      if q != "" && q !in searchHistory {
        var history := HistoryFromStorage();
        history := [q] + history;
        SaveHistoryToStorage(history);
        LoadSearchHistory();
      }
    }

    /** `clearSearchHistory()` */
    method ClearSearchHistory()
      modifies this`storedHistory, this`searchHistory
      ensures storedHistory == [] && searchHistory == []
    {
      SaveHistoryToStorage([]);
      LoadSearchHistory();
    }

    /** `extractKanjiCharacters(text)` */
    method ExtractKanjiCharacters(text: string)
      modifies this`kanjiSet
      ensures forall c :: c in kanjiSet <==> c in text && IsKanji(c)
    {
      kanjiSet := KanjiIn(text);
    }

    /** `toggleSelection(query)`: removing an item leaves the mode alone,
        adding one turns it on. */
    method ToggleSelection(q: string)
      modifies this`selectedItems, this`isSelectionMode
      ensures selectedItems == Toggled(old(selectedItems), q)
      ensures isSelectionMode == (old(isSelectionMode) || q !in old(selectedItems))
    {
      if q in selectedItems {
        selectedItems := RemoveFirst(selectedItems, q);
      } else {
        selectedItems := selectedItems + [q];
        isSelectionMode := true;
      }
    }

    /** `selectAll()` */
    method SelectAll()
      modifies this`selectedItems, this`isSelectionMode
      ensures selectedItems == searchHistory && isSelectionMode
    {
      selectedItems := searchHistory;
      isSelectionMode := true;
    }

    /** `deselectAll()`: the mode stays as it was. */
    method DeselectAll()
      modifies this`selectedItems
      ensures selectedItems == []
    {
      selectedItems := [];
    }

    /** `clearSelection()` */
    method ClearSelection()
      modifies this`selectedItems, this`isSelectionMode
      ensures selectedItems == [] && !isSelectionMode
    {
      selectedItems := [];
      isSelectionMode := false;
    }

    /** `deleteSelectedItems()`: every occurrence of every selected item
        leaves the stored history, the rest keeps its order; then the
        selection is cleared, the mode left and the history reloaded. */
    method DeleteSelectedItems()
      modifies this`storedHistory, this`searchHistory, this`selectedItems, this`isSelectionMode
      ensures storedHistory == RemoveAll(Take(old(storedHistory), HISTORY_LIMIT), set x | x in old(selectedItems))
      ensures forall x :: x in storedHistory <==> x in Take(old(storedHistory), HISTORY_LIMIT) && x !in old(selectedItems)
      ensures searchHistory == storedHistory
      ensures selectedItems == [] && !isSelectionMode
    {
      var history := HistoryFromStorage();
      history := RemoveAll(history, set x | x in selectedItems);
      SaveHistoryToStorage(history);
      selectedItems := [];
      isSelectionMode := false;
      LoadSearchHistory();
    }
  }

  /** The deletion keeps the survivors in their order: cut the capped history
      anywhere and each part loses its selected items on its own. */
  lemma DeleteKeepsOrder(stored: seq<string>, selected: set<string>, a: seq<string>, b: seq<string>)
    requires Take(stored, HISTORY_LIMIT) == a + b
    ensures RemoveAll(Take(stored, HISTORY_LIMIT), selected) == RemoveAll(a, selected) + RemoveAll(b, selected)
  {
    RemoveAllConcat(a, b, selected);
  }
}
