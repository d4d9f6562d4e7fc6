/** The vocabulary hook: the list shown for the current view, search and
    letter, the number of pages it needs and the slice for the current page. */
module VocabularyView {
  import opened Optional
  import opened Sequences
  import opened Text

  datatype Vocabulary = Vocabulary(id: int, word: string, translation: string)

  datatype View = VocabularyList | Favorites

  /** JavaScript truthiness of the search text and of the selected letter. */
  predicate HasSearch(search: string) { search != "" }

  predicate HasLetter(letter: Option<string>) { letter.Some? && letter.value != "" }

  /** The search test: the lowercased word or translation contains the
      lowercased search text. */
  predicate MatchesSearch(item: Vocabulary, search: string) {
    Includes(Lower(item.word), Lower(search)) || Includes(Lower(item.translation), Lower(search))
  }

  /** The letter test: the uppercased word starts with the letter. */
  predicate MatchesLetter(item: Vocabulary, letter: string) {
    StartsWith(Upper(item.word), letter)
  }

  /** The whole selection as one test on a single item: a favorite when the
      favorites view is shown, and then the search test when there is a
      search, otherwise the letter test when a letter is selected. */
  predicate Selected(item: Vocabulary, favorites: seq<int>, view: View, search: string, letter: Option<string>) {
    && (view == Favorites ==> item.id in favorites)
    && (if HasSearch(search) then MatchesSearch(item, search)
        else if HasLetter(letter) then MatchesLetter(item, letter.value)
        else true)
  }

  /** `filteredVocab`: the chain of filters over the vocabulary list. It keeps
      exactly the items the single-item test selects, in their original
      order and with their multiplicities. */
  function FilteredVocab(list: seq<Vocabulary>, favorites: seq<int>, view: View,
                         search: string, letter: Option<string>): (r: seq<Vocabulary>)
    ensures IsSubsequence(r, list)
    ensures forall item :: multiset(r)[item] ==
                           if Selected(item, favorites, view, search, letter) then multiset(list)[item] else 0
  {
    var inView := if view == Favorites then Filter(list, (item: Vocabulary) => item.id in favorites) else list;
    SubsequenceReflexive(list);
    if HasSearch(search) then
      var r := Filter(inView, (item: Vocabulary) => MatchesSearch(item, search));
      SubsequenceTransitive(r, inView, list);
      r
    else if HasLetter(letter) then
      var r := Filter(inView, (item: Vocabulary) => MatchesLetter(item, letter.value));
      SubsequenceTransitive(r, inView, list);
      r
    else
      inView
  }

  /** In the favorites view only favorites are listed. */
  lemma FavoritesViewListsFavorites(list: seq<Vocabulary>, favorites: seq<int>, search: string,
                                    letter: Option<string>, item: Vocabulary)
    requires item in FilteredVocab(list, favorites, Favorites, search, letter)
    ensures item.id in favorites && item in list
  {
    var r := FilteredVocab(list, favorites, Favorites, search, letter);
    assert multiset(r)[item] > 0;
  }

  /** The vocabulary view with no search and no letter lists everything. */
  lemma UnfilteredListsEverything(list: seq<Vocabulary>, favorites: seq<int>, letter: Option<string>)
    requires !HasLetter(letter)
    ensures FilteredVocab(list, favorites, VocabularyList, "", letter) == list
  {
  }

  /** A search decides alone: the selected letter is ignored, and an item of
      the view is kept iff its word or translation contains the search text. */
  lemma SearchOverridesLetter(list: seq<Vocabulary>, favorites: seq<int>, view: View, search: string,
                              letter1: Option<string>, letter2: Option<string>, item: Vocabulary)
    requires HasSearch(search)
    ensures FilteredVocab(list, favorites, view, search, letter1) == FilteredVocab(list, favorites, view, search, letter2)
    ensures item in FilteredVocab(list, favorites, view, search, letter1) <==>
      && item in list && (view == Favorites ==> item.id in favorites)
      && ((exists i :: OccursAt(Lower(item.word), Lower(search), i))
          || (exists i :: OccursAt(Lower(item.translation), Lower(search), i)))
  {
    var r := FilteredVocab(list, favorites, view, search, letter1);
    assert item in r <==> multiset(r)[item] > 0;
    assert item in list <==> multiset(list)[item] > 0;
    IncludesIffOccurs(Lower(item.word), Lower(search));
    IncludesIffOccurs(Lower(item.translation), Lower(search));
  }

  /** Without a search, a selected letter keeps exactly the items of the view
      whose uppercased word starts with it. */
  lemma LetterSelects(list: seq<Vocabulary>, favorites: seq<int>, view: View, letter: string, item: Vocabulary)
    requires letter != ""
    ensures item in FilteredVocab(list, favorites, view, "", Some(letter)) <==>
      && item in list && (view == Favorites ==> item.id in favorites)
      && |letter| <= |item.word| && Upper(item.word)[..|letter|] == letter
  {
    var r := FilteredVocab(list, favorites, view, "", Some(letter));
    assert item in r <==> multiset(r)[item] > 0;
    assert item in list <==> multiset(list)[item] > 0;
  }

  /** `Math.ceil(n / itemsPerPage)`: the fewest pages of `itemsPerPage` items
      that hold `n` items. */
  function TotalPages(n: nat, itemsPerPage: int): (pages: nat)
    requires itemsPerPage > 0
    ensures n <= pages * itemsPerPage
    ensures pages == 0 || (pages - 1) * itemsPerPage < n
  {
    var q := (n + itemsPerPage - 1) / itemsPerPage;
    assert q * itemsPerPage <= n + itemsPerPage - 1 < q * itemsPerPage + itemsPerPage;
    assert (q - 1) * itemsPerPage == q * itemsPerPage - itemsPerPage;
    q
  }

  /** An index argument of `Array.prototype.slice` resolved against the length:
      a negative one counts from the end, and both are clamped to `[0, len]`. */
  function SliceIndex(i: int, len: nat): (k: nat)
    ensures k <= len
  {
    if i < 0 then (if len + i < 0 then 0 else len + i)
    else if i > len then len
    else i
  }

  /** `xs.slice(start, end)`. */
  function Slice<T>(xs: seq<T>, start: int, end: int): seq<T> {
    var s := SliceIndex(start, |xs|);
    var e := SliceIndex(end, |xs|);
    if s < e then xs[s..e] else []
  }

  function Min(a: int, b: int): int { if a <= b then a else b }

  /** `currentVocab` for page `page`. */
  function PageSlice<T>(xs: seq<T>, page: int, itemsPerPage: int): seq<T> {
    Slice(xs, (page - 1) * itemsPerPage, page * itemsPerPage)
  }

  /** A page from 1 on is the run of at most `itemsPerPage` items that starts
      after the earlier pages, cut at the end of the list. */
  lemma PageSliceIsRun<T>(xs: seq<T>, page: int, itemsPerPage: int)
    requires page >= 1 && itemsPerPage > 0
    ensures PageSlice(xs, page, itemsPerPage) ==
      xs[Min((page - 1) * itemsPerPage, |xs|)..Min(page * itemsPerPage, |xs|)]
    ensures |PageSlice(xs, page, itemsPerPage)| <= itemsPerPage
  {
    assert page * itemsPerPage == (page - 1) * itemsPerPage + itemsPerPage;
    assert (page - 1) * itemsPerPage >= 0;
  }

  /** Pages 1 to `k` one after the other. */
  function Pages<T>(xs: seq<T>, itemsPerPage: int, k: nat): seq<T> {
    if k == 0 then [] else Pages(xs, itemsPerPage, k - 1) + PageSlice(xs, k, itemsPerPage)
  }

  lemma {:induction false} PagesArePrefix<T>(xs: seq<T>, itemsPerPage: int, k: nat)
    requires itemsPerPage > 0
    ensures Pages(xs, itemsPerPage, k) == xs[..Min(k * itemsPerPage, |xs|)]
  {
    if k > 0 {
      PagesArePrefix(xs, itemsPerPage, k - 1);
      PageSliceIsRun(xs, k, itemsPerPage);
      assert (k - 1) * itemsPerPage <= k * itemsPerPage;
      var a := Min((k - 1) * itemsPerPage, |xs|);
      var b := Min(k * itemsPerPage, |xs|);
      assert xs[..a] + xs[a..b] == xs[..b];
    }
  }

  /** The pages 1 to `TotalPages` put back together give the whole list,
      each item once and in order. */
  lemma PagesReassemble<T>(xs: seq<T>, itemsPerPage: int)
    requires itemsPerPage > 0
    ensures Pages(xs, itemsPerPage, TotalPages(|xs|, itemsPerPage)) == xs
  {
    PagesArePrefix(xs, itemsPerPage, TotalPages(|xs|, itemsPerPage));
    assert xs[..|xs|] == xs;
  }

  /** A page beyond the last one is empty. */
  lemma PageBeyondLastIsEmpty<T>(xs: seq<T>, page: int, itemsPerPage: int)
    requires itemsPerPage > 0 && page > TotalPages(|xs|, itemsPerPage)
    ensures PageSlice(xs, page, itemsPerPage) == []
  {
    var t := TotalPages(|xs|, itemsPerPage);
    assert (page - 1) * itemsPerPage >= t * itemsPerPage;
    PageSliceIsRun(xs, page, itemsPerPage);
  }

  /** What the hook returns. */
  datatype Result = Result(filteredVocab: seq<Vocabulary>, currentVocab: seq<Vocabulary>, totalPages: nat)

  /** `useVocabulary`: the filtered list, the number of pages and the slice
      for the current page. */
  function UseVocabulary(list: seq<Vocabulary>, favorites: seq<int>, view: View, itemsPerPage: int,
                         search: string, letter: Option<string>, currentPage: int): (r: Result)
    requires itemsPerPage > 0
    ensures IsSubsequence(r.filteredVocab, list)
    ensures |r.filteredVocab| <= r.totalPages * itemsPerPage
    ensures currentPage >= 1 ==> |r.currentVocab| <= itemsPerPage
    ensures currentPage >= 1 ==> IsSubsequence(r.currentVocab, r.filteredVocab)
  {
    var filtered := FilteredVocab(list, favorites, view, search, letter);
    var current := PageSlice(filtered, currentPage, itemsPerPage);
    assert currentPage >= 1 ==> |current| <= itemsPerPage && IsSubsequence(current, filtered) by {
      if currentPage >= 1 {
        PageWithinList(filtered, currentPage, itemsPerPage);
      }
    }
    Result(filtered, current, TotalPages(|filtered|, itemsPerPage))
  }

  /** A page holds at most `itemsPerPage` items of the list, in order. */
  lemma PageWithinList<T>(xs: seq<T>, page: int, itemsPerPage: int)
    requires page >= 1 && itemsPerPage > 0
    ensures |PageSlice(xs, page, itemsPerPage)| <= itemsPerPage
    ensures IsSubsequence(PageSlice(xs, page, itemsPerPage), xs)
  {
    PageSliceIsRun(xs, page, itemsPerPage);
    SliceIsSubsequence(xs, Min((page - 1) * itemsPerPage, |xs|), Min(page * itemsPerPage, |xs|));
  }

  /** A contiguous run is a subsequence. */
  lemma {:induction false} SliceIsSubsequence<T>(xs: seq<T>, i: nat, j: nat)
    requires i <= j <= |xs|
    ensures IsSubsequence(xs[i..j], xs)
    decreases |xs|
  {
    if i == j {
    } else if i == 0 {
      assert xs[0..j][1..] == xs[1..][0..j - 1];
      SliceIsSubsequence(xs[1..], 0, j - 1);
    } else {
      assert xs[i..j] == xs[1..][i - 1..j - 1];
      SliceIsSubsequence(xs[1..], i - 1, j - 1);
      SubsequenceSkip(xs[i..j], xs[1..], xs[0]);
      assert xs == [xs[0]] + xs[1..];
    }
  }
}
