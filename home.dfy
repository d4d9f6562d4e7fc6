/** The home page's own state and its event handlers: search text, selected
    letter, current page, page size, view and the four display flags. */
module HomePage {
  import opened Optional
  import opened VocabularyView
  import FavoritesSync

  /** A choice in the page-size select: "all" or one of the numeric options. */
  datatype PageSizeChoice = All | Count(n: nat)

  /** What the page-size select displays. */
  datatype SelectShows = ShowsAll | ShowsCount(n: int)

  /** The letter selection after clicking `letter`. */
  function NextLetter(selected: Option<string>, letter: string): (r: Option<string>)
    ensures r.None? <==> selected == Some(letter)
    ensures r.Some? ==> r.value == letter
  {
    if selected == Some(letter) then None else Some(letter)
  }

  /** The page size a choice sets: the whole list for "all". */
  function PageSizeFor(choice: PageSizeChoice, vocabularyLength: nat): nat {
    match choice
    case All => vocabularyLength
    case Count(n) => n
  }

  /** The select shows "all" exactly when the page size is the list length. */
  function SelectValue(itemsPerPage: int, vocabularyLength: nat): SelectShows {
    if itemsPerPage == vocabularyLength then ShowsAll else ShowsCount(itemsPerPage)
  }

  /** After a choice the select shows that choice, except that a number equal
      to the list length shows as "all". */
  lemma SelectShowsChoice(choice: PageSizeChoice, vocabularyLength: nat)
    ensures SelectValue(PageSizeFor(choice, vocabularyLength), vocabularyLength) ==
      if choice.All? || choice.n == vocabularyLength then ShowsAll else ShowsCount(choice.n)
  {
  }

  /** A card's heart is filled exactly when its id is among the favorites. */
  function IsFavorite(favorites: seq<int>, id: int): bool {
    id in favorites
  }

  /** Toggling an id flips its own card's heart and no other card's. */
  lemma ToggleFlipsOnlyItsCard(favorites: seq<int>, id: int, other: int)
    ensures IsFavorite(FavoritesSync.Toggled(favorites, id), id) == !IsFavorite(favorites, id)
    ensures other != id ==>
      IsFavorite(FavoritesSync.Toggled(favorites, id), other) == IsFavorite(favorites, other)
  {
    var r := FavoritesSync.Toggled(favorites, id);
    if other != id {
      assert multiset(r)[id := 0][other] == multiset(favorites)[id := 0][other];
    }
  }

  class Home {
    const vocabularyLength: nat
    var search: string
    var selectedLetter: Option<string>
    var currentPage: int
    var itemsPerPage: int
    var view: View
    var showExamples: bool
    var showSpeaker: bool
    var showTranslation: bool
    var autoScroll: bool

    ghost predicate Valid()
      reads this
    {
      currentPage >= 1 && itemsPerPage > 0 && vocabularyLength > 0
    }

    /** The initial page state; the four flags come from local storage. */
    constructor (vocabularyLength: nat, showExamples: bool, showSpeaker: bool,
                 showTranslation: bool, autoScroll: bool)
      requires vocabularyLength > 0
      ensures Valid()
      ensures this.vocabularyLength == vocabularyLength
      ensures search == "" && selectedLetter == None && currentPage == 1 && itemsPerPage == 30
      ensures view == VocabularyList
      ensures this.showExamples == showExamples && this.showSpeaker == showSpeaker
      ensures this.showTranslation == showTranslation && this.autoScroll == autoScroll
    {
      this.vocabularyLength := vocabularyLength;
      search := "";
      selectedLetter := None;
      currentPage := 1;
      itemsPerPage := 30;
      view := VocabularyList;
      this.showExamples := showExamples;
      this.showSpeaker := showSpeaker;
      this.showTranslation := showTranslation;
      this.autoScroll := autoScroll;
    }

    /** A page button was pressed. */
    method HandlePageChange(page: int)
      requires Valid() && page >= 1
      modifies this`currentPage
      ensures Valid() && currentPage == page
    {
      currentPage := page;
    }

    method HandleSearchChange(value: string)
      requires Valid()
      modifies this`search, this`currentPage
      ensures Valid() && search == value && currentPage == 1
    {
      search := value;
      currentPage := 1;
    }

    method HandleLetterClick(letter: string)
      requires Valid()
      modifies this`selectedLetter, this`currentPage
      ensures Valid() && currentPage == 1
      ensures selectedLetter == NextLetter(old(selectedLetter), letter)
    {
      if selectedLetter == Some(letter) {
        selectedLetter := None;
      } else {
        selectedLetter := Some(letter);
      }
      currentPage := 1;
    }

    method HandleItemsPerPageChange(choice: PageSizeChoice)
      requires Valid() && (choice.Count? ==> choice.n > 0)
      modifies this`itemsPerPage, this`currentPage
      ensures Valid() && currentPage == 1
      ensures itemsPerPage == PageSizeFor(choice, vocabularyLength)
      ensures SelectShown() ==
        if choice.All? || choice.n == vocabularyLength then ShowsAll else ShowsCount(choice.n)
    {
      SelectShowsChoice(choice, vocabularyLength);
      if choice.All? {
        itemsPerPage := vocabularyLength;
      } else {
        itemsPerPage := choice.n;
      }
      currentPage := 1;
    }

    /** "Clear all filters": the page is left where it is. */
    method HandleClearFilters()
      requires Valid()
      modifies this`search, this`selectedLetter
      ensures Valid() && search == "" && selectedLetter == None
    {
      search := "";
      selectedLetter := None;
    }

    /** The clear button in the search box. */
    method ClearSearch()
      requires Valid()
      modifies this`search, this`currentPage
      ensures Valid() && search == "" && currentPage == 1
    {
      search := "";
      currentPage := 1;
    }

    /** The view switch in the header. */
    method SelectView(v: View)
      requires Valid()
      modifies this`view, this`currentPage
      ensures Valid() && view == v && currentPage == 1
    {
      view := v;
      currentPage := 1;
    }

    method ToggleSpeaker()
      modifies this`showSpeaker
      ensures showSpeaker == !old(showSpeaker)
    {
      showSpeaker := !showSpeaker;
    }

    method ToggleTranslation()
      modifies this`showTranslation
      ensures showTranslation == !old(showTranslation)
    {
      showTranslation := !showTranslation;
    }

    method ToggleExamples()
      modifies this`showExamples
      ensures showExamples == !old(showExamples)
    {
      showExamples := !showExamples;
    }

    method ToggleAutoScroll()
      modifies this`autoScroll
      ensures autoScroll == !old(autoScroll)
    {
      autoScroll := !autoScroll;
    }

    /** What the select shows for the current page size. */
    function SelectShown(): SelectShows
      reads this
    {
      SelectValue(itemsPerPage, vocabularyLength)
    }

    /** The vocabulary hook called with this page's state: the current page
        never holds more than the page size and is drawn from the filtered
        list. */
    function Vocabulary(list: seq<Vocabulary>, favorites: seq<int>): (r: Result)
      reads this
      requires Valid()
      ensures |r.currentVocab| <= itemsPerPage
      ensures Sequences.IsSubsequence(r.currentVocab, r.filteredVocab)
      ensures Sequences.IsSubsequence(r.filteredVocab, list)
    {
      UseVocabulary(list, favorites, view, itemsPerPage, search, selectedLetter, currentPage)
    }
  }

  /** The handlers that change what is listed all start over at page 1, so
      the list then shows its first `itemsPerPage` items. */
  lemma FirstPageAfterReset(list: seq<Vocabulary>, favorites: seq<int>, view: View, itemsPerPage: int,
                            search: string, letter: Option<string>)
    requires itemsPerPage > 0
    ensures var r := UseVocabulary(list, favorites, view, itemsPerPage, search, letter, 1);
            r.currentVocab == r.filteredVocab[..Min(itemsPerPage, |r.filteredVocab|)]
  {
    var r := UseVocabulary(list, favorites, view, itemsPerPage, search, letter, 1);
    PageSliceIsRun(r.filteredVocab, 1, itemsPerPage);
  }
}
