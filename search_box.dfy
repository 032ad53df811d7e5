/**
 * The header search box: the suggestion fetch after the debounce, the
 * suggestion filter, the keyboard state machine over `selectedIndex`, the
 * search and suggestion navigation, and the split of a title around the
 * matched term.
 *
 * `toLowerCase`, the Vietnamese accent stripping and `encodeURIComponent`
 * are parameters (`lower`, `strip`, `encode`); navigation is returned as the
 * path the page would go to.
 */
module SearchBox {
  import opened Common

  /** A suggested product: its title and the slug of its detail page. */
  datatype Suggestion = Suggestion(title: string, slug: string)

  /** What `getSearchSuggestions` answered: an object whose `products` may be missing, or a throw. */
  datatype SuggestReply = Answered(products: Option<seq<Suggestion>>) | SuggestThrew

  /** The keyword sent for suggestions: the trimmed term, when it has at least two characters. */
  function Keyword(term: string): Option<string> {
    var t := Trim(term);
    if |t| >= 2 then Some(t) else None
  }

  /** A term of whitespace alone, or of one character around whitespace, is never sent. */
  lemma KeywordNeedsTwoCharacters(term: string)
    ensures Keyword(term).Some? <==> |Trim(term)| >= 2
    ensures Keyword(term).Some? ==> Keyword(term).value == Trim(term)
    ensures Blank(term) ==> Keyword(term).None?
    ensures |term| < 2 ==> Keyword(term).None?
  {
    TrimProperties(term);
  }

  /** The callback of `response.products.filter`: the title contains the keyword, with or without accents. */
  function MatchesKeyword(keyword: string, lower: string -> string, strip: string -> string): Suggestion -> bool {
    (p: Suggestion) =>
      Includes(lower(p.title), lower(keyword)) || Includes(strip(lower(p.title)), strip(lower(keyword)))
  }

  /** The suggestions kept from the answer, in the order answered; never more than were answered. */
  function FilterSuggestions(ps: seq<Suggestion>, keyword: string, lower: string -> string, strip: string -> string)
    : (r: seq<Suggestion>)
    ensures |r| <= |ps|
  {
    Filter(ps, MatchesKeyword(keyword, lower, strip))
  }

  /** A suggestion is kept exactly when its title contains the keyword, either as typed or without accents. */
  lemma FilterSuggestionsMembers(ps: seq<Suggestion>, keyword: string, lower: string -> string, strip: string -> string)
    ensures forall p :: p in FilterSuggestions(ps, keyword, lower, strip) <==>
      p in ps && (Includes(lower(p.title), lower(keyword)) || Includes(strip(lower(p.title)), strip(lower(keyword))))
  {
  }

  // ---------------------------------------------------------------------------
  // The arrow keys
  // ---------------------------------------------------------------------------

  /** ArrowDown: one down, or back to the first suggestion from the last one. */
  function ArrowDownIndex(prev: int, len: int): (r: int)
    ensures prev < len - 1 ==> r == prev + 1
    ensures prev >= len - 1 ==> r == 0
  {
    if prev < len - 1 then prev + 1 else 0
  }

  /** ArrowUp: one up, or to the last suggestion from the first one or from no selection. */
  function ArrowUpIndex(prev: int, len: int): (r: int)
    ensures prev > 0 ==> r == prev - 1
    ensures prev <= 0 ==> r == len - 1
  {
    if prev > 0 then prev - 1 else len - 1
  }

  /** From no selection or a valid one, either arrow key lands on a valid suggestion. */
  lemma ArrowsStayInRange(prev: int, len: int)
    requires len >= 1 && -1 <= prev <= len - 1
    ensures 0 <= ArrowDownIndex(prev, len) <= len - 1
    ensures 0 <= ArrowUpIndex(prev, len) <= len - 1
  {
  }

  /** On a selected suggestion, ArrowUp undoes ArrowDown and ArrowDown undoes ArrowUp, wrapping included. */
  lemma ArrowsAreInverse(i: int, len: int)
    requires len >= 1 && 0 <= i <= len - 1
    ensures ArrowUpIndex(ArrowDownIndex(i, len), len) == i
    ensures ArrowDownIndex(ArrowUpIndex(i, len), len) == i
  {
  }

  /** `len` presses of ArrowDown from a selected suggestion come back to it. */
  function ArrowDownTimes(i: int, len: int, n: nat): int {
    if n == 0 then i else ArrowDownIndex(ArrowDownTimes(i, len, n - 1), len)
  }

  /** Pressing `a` times and then `b` times is pressing `a + b` times. */
  lemma {:induction false} ArrowDownTimesAdd(i: int, len: int, a: nat, b: nat)
    ensures ArrowDownTimes(i, len, a + b) == ArrowDownTimes(ArrowDownTimes(i, len, a), len, b)
  {
    if b > 0 {
      ArrowDownTimesAdd(i, len, a, b - 1);
    }
  }

  /** Before the last suggestion is passed, each press moves one down. */
  lemma {:induction false} ArrowDownTimesNoWrap(i: int, len: int, n: nat)
    requires 0 <= i && i + n <= len - 1
    ensures ArrowDownTimes(i, len, n) == i + n
  {
    if n > 0 {
      ArrowDownTimesNoWrap(i, len, n - 1);
    }
  }

  /** Going round the whole list with ArrowDown returns to the starting suggestion. */
  lemma FullCircle(i: int, len: int)
    requires len >= 1 && 0 <= i <= len - 1
    ensures ArrowDownTimes(i, len, len) == i
  {
    var a := len - 1 - i;
    ArrowDownTimesNoWrap(i, len, a);
    ArrowDownTimesAdd(i, len, a, 1);
    assert ArrowDownTimes(i, len, a + 1) == 0;
    ArrowDownTimesAdd(i, len, a + 1, i);
    ArrowDownTimesNoWrap(0, len, i);
    assert a + 1 + i == len;
  }

  // ---------------------------------------------------------------------------
  // Highlighting
  // ---------------------------------------------------------------------------

  /** The text as shown in a suggestion: unchanged, or split around a bold middle part. */
  datatype Highlight = Plain(text: string) | Marked(before: string, bold: string, after: string)

  /** The concatenation of the pieces shown. */
  function Shown(h: Highlight): string {
    match h
    case Plain(t) => t
    case Marked(b, m, a) => b + m + a
  }

  /** Where the lowered term occurs in the lowered text, else where the stripped forms do, else -1. */
  function MatchIndex(text: string, term: string, lower: string -> string, strip: string -> string): (r: int)
    ensures r == -1 ==> !Includes(lower(text), lower(term)) && !Includes(strip(lower(text)), strip(lower(term)))
    ensures r != -1 ==> r >= 0
    ensures Includes(lower(text), lower(term)) ==> r == IndexOf(lower(text), lower(term))
    ensures Includes(lower(text), lower(term)) ==> OccursAt(lower(text), lower(term), r)
    ensures r != -1 && !Includes(lower(text), lower(term)) ==> OccursAt(strip(lower(text)), strip(lower(term)), r)
  {
    var i := IndexOf(lower(text), lower(term));
    if i != -1 then i else IndexOf(strip(lower(text)), strip(lower(term)))
  }

  /**
   * `highlightMatch`: the text unchanged for an empty term or no match;
   * otherwise the text before the match position, the term's length of text
   * from there, and the rest. Positions come from the lowered (or stripped)
   * text and `substring` clamps them to the original.
   */
  function HighlightMatch(text: string, term: string, lower: string -> string, strip: string -> string)
    : (h: Highlight)
    ensures term == "" ==> h == Plain(text)
    ensures term != "" && MatchIndex(text, term, lower, strip) == -1 ==> h == Plain(text)
    ensures term != "" && MatchIndex(text, term, lower, strip) != -1 ==> h.Marked?
    ensures Shown(h) == text
  {
    if term == "" then Plain(text)
    else
      var i := MatchIndex(text, term, lower, strip);
      if i == -1 then Plain(text)
      else
        var m := |term|;
        var lo, mid := Min(i, |text|), Min(i + m, |text|);
        assert Substring(text, 0, i) == text[..lo];
        assert Substring(text, i, i + m) == text[lo..mid];
        assert SubstringFrom(text, i + m) == text[mid..];
        SplitThree(text, lo, mid);
        Marked(Substring(text, 0, i), Substring(text, i, i + m), SubstringFrom(text, i + m))
  }

  /**
   * When lower-casing changes neither the text nor the term and the term
   * occurs, the bold part is exactly the term, at its first occurrence.
   */
  lemma HighlightMarksTerm(text: string, term: string, lower: string -> string, strip: string -> string)
    requires term != "" && lower(text) == text && lower(term) == term && Includes(text, term)
    ensures var h := HighlightMatch(text, term, lower, strip);
      h.Marked? && h.bold == term && |h.before| == IndexOf(text, term)
  {
  }

  // ---------------------------------------------------------------------------
  // The component state
  // ---------------------------------------------------------------------------

  class SearchBoxState {
    var searchTerm: string
    var suggestions: seq<Suggestion>
    var showSuggestions: bool
    var loading: bool
    var selectedIndex: int

    /** No suggestion is selected, or the selected index names one of the suggestions. */
    predicate Valid()
      reads this
    {
      -1 <= selectedIndex < |suggestions|
    }

    constructor ()
      ensures Valid()
      ensures searchTerm == "" && suggestions == [] && !showSuggestions && !loading && selectedIndex == -1
    {
      searchTerm := "";
      suggestions := [];
      showSuggestions := false;
      loading := false;
      selectedIndex := -1;
    }

    /** `handleInputChange`: the term changes and the selection is cleared. */
    method InputChange(value: string)
      modifies this
      ensures searchTerm == value && selectedIndex == -1
      ensures suggestions == old(suggestions) && showSuggestions == old(showSuggestions) && loading == old(loading)
      ensures Valid()
    {
      searchTerm := value;
      selectedIndex := -1;
    }

    /**
     * The debounce timer firing. A trimmed term shorter than two characters
     * clears and hides the list without asking. Otherwise the trimmed term is
     * sent: an answer with products replaces the list by the matching ones
     * and shows it when it is not empty; an answer without products changes
     * nothing; a throw clears and hides the list. The returned keyword is the
     * one sent, if any.
     */
    method DebounceFired(reply: SuggestReply, lower: string -> string, strip: string -> string)
      returns (sent: Option<string>)
      modifies this
      ensures sent == Keyword(old(searchTerm))
      ensures sent.None? ==> suggestions == [] && !showSuggestions
      ensures sent.Some? && reply.Answered? && reply.products.Some? ==>
        suggestions == FilterSuggestions(reply.products.value, sent.value, lower, strip)
        && showSuggestions == (|suggestions| > 0)
      ensures sent.Some? && reply.Answered? && reply.products.None? ==>
        suggestions == old(suggestions) && showSuggestions == old(showSuggestions)
      ensures sent.Some? && reply.SuggestThrew? ==> suggestions == [] && !showSuggestions
      ensures searchTerm == old(searchTerm) && selectedIndex == old(selectedIndex) && !loading
      ensures old(selectedIndex) == -1 ==> Valid()
    {
      sent := Keyword(searchTerm);
      ApplySuggestReply(sent, reply, lower, strip);
    }

    /**
     * What follows the keyword check: without a keyword the list is cleared
     * and hidden; with one, an answer with products replaces the list by the
     * matching ones and shows it when it is not empty, an answer without
     * products changes nothing, and a throw clears and hides the list.
     */
    method ApplySuggestReply(sent: Option<string>, reply: SuggestReply, lower: string -> string, strip: string -> string)
      modifies this
      ensures sent.None? ==> suggestions == [] && !showSuggestions
      ensures sent.Some? && reply.Answered? && reply.products.Some? ==>
        suggestions == FilterSuggestions(reply.products.value, sent.value, lower, strip)
        && showSuggestions == (|suggestions| > 0)
      ensures sent.Some? && reply.Answered? && reply.products.None? ==>
        suggestions == old(suggestions) && showSuggestions == old(showSuggestions)
      ensures sent.Some? && reply.SuggestThrew? ==> suggestions == [] && !showSuggestions
      ensures searchTerm == old(searchTerm) && selectedIndex == old(selectedIndex) && !loading
    {
      if sent.None? {
        suggestions := [];
        showSuggestions := false;
        loading := false;
        return;
      }
      loading := true;
      if reply.SuggestThrew? {
        suggestions := [];
        showSuggestions := false;
      } else if reply.products.Some? {
        var kept := FilterSuggestions(reply.products.value, sent.value, lower, strip);
        suggestions := kept;
        showSuggestions := |kept| > 0;
      }
      loading := false;
    }

    /** Focusing the input shows the list again when there are suggestions to show. */
    method Focus()
      requires Valid()
      modifies this
      ensures showSuggestions == (old(showSuggestions) || |suggestions| > 0)
      ensures searchTerm == old(searchTerm) && suggestions == old(suggestions)
      ensures selectedIndex == old(selectedIndex) && loading == old(loading)
      ensures Valid()
    {
      if |suggestions| > 0 {
        showSuggestions := true;
      }
    }

    /** A mouse press outside the box hides the list and clears the selection. */
    method ClickOutside()
      modifies this
      ensures !showSuggestions && selectedIndex == -1
      ensures searchTerm == old(searchTerm) && suggestions == old(suggestions) && loading == old(loading)
      ensures Valid()
    {
      showSuggestions := false;
      selectedIndex := -1;
    }

    /**
     * `handleSearch`: with a non-blank term, go to the search page for the
     * trimmed term and hide the list; with a blank one, do nothing.
     */
    method Search(encode: string -> string) returns (nav: Option<string>)
      requires Valid()
      modifies this
      ensures Trim(old(searchTerm)) != "" ==>
        nav == Some("/search?keyword=" + encode(Trim(old(searchTerm))))
        && !showSuggestions && selectedIndex == -1
      ensures Trim(old(searchTerm)) == "" ==>
        nav.None? && showSuggestions == old(showSuggestions) && selectedIndex == old(selectedIndex)
      ensures searchTerm == old(searchTerm) && suggestions == old(suggestions) && loading == old(loading)
      ensures Valid()
    {
      var term := Trim(searchTerm);
      if term != "" {
        nav := Some("/search?keyword=" + encode(term));
        showSuggestions := false;
        selectedIndex := -1;
      } else {
        nav := None;
      }
    }

    /** `handleSuggestionClick`: go to the product's page, empty the term, hide the list, clear the selection. */
    method SuggestionClick(p: Suggestion) returns (nav: Option<string>)
      modifies this
      ensures nav == Some("/products/detail/" + p.slug)
      ensures searchTerm == "" && !showSuggestions && selectedIndex == -1
      ensures suggestions == old(suggestions) && loading == old(loading)
      ensures Valid()
    {
      nav := Some("/products/detail/" + p.slug);
      searchTerm := "";
      showSuggestions := false;
      selectedIndex := -1;
    }

    /**
     * `handleKeyDown`. With the list hidden or empty only Enter acts, as a
     * search. Otherwise the arrows move the selection with wrap-around, Enter
     * opens the selected suggestion or searches when none is selected, and
     * Escape hides the list and clears the selection; other keys do nothing.
     */
    method KeyDown(key: string, encode: string -> string) returns (nav: Option<string>)
      requires Valid()
      modifies this
      ensures Valid()
      ensures suggestions == old(suggestions) && loading == old(loading)
      ensures (!old(showSuggestions) || |old(suggestions)| == 0) && key != "Enter" ==>
        nav.None? && searchTerm == old(searchTerm) && showSuggestions == old(showSuggestions)
        && selectedIndex == old(selectedIndex)
      ensures old(showSuggestions) && |old(suggestions)| > 0 && key == "ArrowDown" ==>
        nav.None? && selectedIndex == ArrowDownIndex(old(selectedIndex), |suggestions|)
        && searchTerm == old(searchTerm) && showSuggestions
      ensures old(showSuggestions) && |old(suggestions)| > 0 && key == "ArrowUp" ==>
        nav.None? && selectedIndex == ArrowUpIndex(old(selectedIndex), |suggestions|)
        && searchTerm == old(searchTerm) && showSuggestions
      ensures old(showSuggestions) && |old(suggestions)| > 0 && key == "Escape" ==>
        nav.None? && !showSuggestions && selectedIndex == -1 && searchTerm == old(searchTerm)
      ensures (old(showSuggestions) && |old(suggestions)| > 0
               && key != "ArrowDown" && key != "ArrowUp" && key != "Enter" && key != "Escape") ==>
        nav.None? && searchTerm == old(searchTerm) && showSuggestions == old(showSuggestions)
        && selectedIndex == old(selectedIndex)
      ensures old(showSuggestions) && |old(suggestions)| > 0 && key == "Enter" && old(selectedIndex) >= 0 ==>
        nav == Some("/products/detail/" + suggestions[old(selectedIndex)].slug) && searchTerm == ""
      ensures (key == "Enter" && (old(selectedIndex) < 0 || !old(showSuggestions) || |old(suggestions)| == 0)) ==>
        searchTerm == old(searchTerm)
        && (Trim(old(searchTerm)) != "" ==> nav == Some("/search?keyword=" + encode(Trim(old(searchTerm)))))
        && (Trim(old(searchTerm)) == "" ==> nav.None?)
      ensures nav.Some? ==> !showSuggestions && selectedIndex == -1
    {
      nav := None;
      if !showSuggestions || |suggestions| == 0 {
        if key == "Enter" {
          nav := Search(encode);
        }
        return;
      }
      if key == "ArrowDown" {
        selectedIndex := ArrowDownIndex(selectedIndex, |suggestions|);
      } else if key == "ArrowUp" {
        selectedIndex := ArrowUpIndex(selectedIndex, |suggestions|);
      } else if key == "Enter" {
        if selectedIndex >= 0 {
          nav := SuggestionClick(suggestions[selectedIndex]);
        } else {
          nav := Search(encode);
        }
      } else if key == "Escape" {
        showSuggestions := false;
        selectedIndex := -1;
      }
    }
  }
}
