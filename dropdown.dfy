/**
 * The keyboard and mouse state machine of the searchable select box (`SearchableSelect.tsx`):
 * whether the list is open, the search text, and the highlighted row.  The selected `value`
 * and the `options` are properties owned by the parent; the calls the widget makes to the
 * parent's `onChange` are recorded in `changes`, oldest first.
 */
module Dropdown {
  import opened Wrappers
  import opened OptionRanker

  datatype Key = Enter | Space | ArrowDown | ArrowUp | Escape | Other

  /** ArrowDown: one row further, unless the highlight is already on (or past) the last row. */
  function ArrowDownIndex(prev: int, n: nat): (r: int)
    ensures prev <= r <= prev + 1
    ensures r == prev + 1 <==> prev < n - 1
    ensures 0 <= prev < n ==> 0 <= r < n
  {
    if prev < n - 1 then prev + 1 else prev
  }

  /** ArrowUp: one row back, never above the first row. */
  function ArrowUpIndex(prev: int): (r: int)
    ensures r >= 0
    ensures prev > 0 ==> r == prev - 1
    ensures prev <= 0 ==> r == 0
  {
    if prev > 0 then prev - 1 else 0
  }

  /** Enter picks the highlighted row only if there is a row at that index. */
  function EnterTarget(shown: seq<SelectOption>, index: int): (r: Option<string>)
    ensures r.Some? <==> 0 <= index < |shown|
    ensures r.Some? ==> r.value == shown[index].value
  {
    if 0 <= index < |shown| then Some(shown[index].value) else None
  }

  predicate OpensList(key: Key)
  {
    key == Enter || key == Space || key == ArrowDown
  }

  class SearchableSelect {
    const options: seq<SelectOption>
    const value: string
    var isOpen: bool
    var searchQuery: string
    var highlightedIndex: int
    var changes: seq<string>

    /** The highlight never goes above the first row. */
    predicate Valid()
      reads this
    {
      highlightedIndex >= 0
    }

    /** The rows on show: `filteredOptions` for the current search text. */
    function Shown(): seq<SelectOption>
      reads this
    {
      FilteredOptions(searchQuery, options)
    }

    /** The text on the closed box: `selectedLabel`. */
    function Label(): string
      reads this
    {
      SelectedLabel(options, value)
    }

    constructor (options: seq<SelectOption>, value: string)
      ensures this.options == options && this.value == value
      ensures !isOpen && searchQuery == "" && highlightedIndex == 0 && changes == []
      ensures Valid()
    {
      this.options := options;
      this.value := value;
      isOpen := false;
      searchQuery := "";
      highlightedIndex := 0;
      changes := [];
    }

    /** `handleSelect`: report the value, close the list and clear the search text. */
    method HandleSelect(selected: string)
      modifies this
      requires Valid()
      ensures Valid()
      ensures changes == old(changes) + [selected]
      ensures !isOpen && searchQuery == ""
      ensures highlightedIndex == old(highlightedIndex)
    {
      changes := changes + [selected];
      isOpen := false;
      searchQuery := "";
    }

    /** `handleKeyDown`, run once for one key press. */
    method HandleKeyDown(key: Key)
      modifies this
      requires Valid()
      ensures Valid()
      ensures !old(isOpen) ==>
        isOpen == OpensList(key) && searchQuery == old(searchQuery) &&
        highlightedIndex == old(highlightedIndex) && changes == old(changes)
      ensures old(isOpen) && key == ArrowDown ==>
        isOpen && searchQuery == old(searchQuery) && changes == old(changes) &&
        highlightedIndex == ArrowDownIndex(old(highlightedIndex), |old(Shown())|)
      ensures old(isOpen) && key == ArrowUp ==>
        isOpen && searchQuery == old(searchQuery) && changes == old(changes) &&
        highlightedIndex == ArrowUpIndex(old(highlightedIndex))
      ensures old(isOpen) && key == Enter ==>
        highlightedIndex == old(highlightedIndex) &&
        match EnterTarget(old(Shown()), old(highlightedIndex))
        case None => isOpen && searchQuery == old(searchQuery) && changes == old(changes)
        case Some(v) => !isOpen && searchQuery == "" && changes == old(changes) + [v]
      ensures old(isOpen) && key == Escape ==>
        !isOpen && searchQuery == "" && highlightedIndex == old(highlightedIndex) && changes == old(changes)
      ensures old(isOpen) && (key == Space || key == Other) ==>
        isOpen && searchQuery == old(searchQuery) && highlightedIndex == old(highlightedIndex) && changes == old(changes)
    {
      if !isOpen {
        if OpensList(key) {
          isOpen := true;
        }
        return;
      }
      var shown := Shown();
      match key {
        case ArrowDown =>
          highlightedIndex := ArrowDownIndex(highlightedIndex, |shown|);
        case ArrowUp =>
          highlightedIndex := ArrowUpIndex(highlightedIndex);
        case Enter =>
          var target := EnterTarget(shown, highlightedIndex);
          if target.Some? {
            HandleSelect(target.value);
          }
        case Escape =>
          isOpen := false;
          searchQuery := "";
        case _ =>
      }
    }

    /**
     * A key pressed in the search input, as the page wires it: the input's own `onKeyDown`
     * runs `handleKeyDown`, and the event then bubbles to the surrounding box, whose
     * `onKeyDown` runs the same handler again from the same render.  The highlight updaters
     * compose, and Enter reports the value twice.
     */
    method InputKeyDown(key: Key)
      modifies this
      requires Valid() && isOpen
      ensures Valid()
      ensures key == ArrowDown ==>
        isOpen && searchQuery == old(searchQuery) && changes == old(changes) &&
        highlightedIndex == ArrowDownIndex(ArrowDownIndex(old(highlightedIndex), |old(Shown())|), |old(Shown())|)
      ensures key == ArrowUp ==>
        isOpen && searchQuery == old(searchQuery) && changes == old(changes) &&
        highlightedIndex == ArrowUpIndex(ArrowUpIndex(old(highlightedIndex)))
      ensures key == Enter ==>
        highlightedIndex == old(highlightedIndex) &&
        match EnterTarget(old(Shown()), old(highlightedIndex))
        case None => isOpen && searchQuery == old(searchQuery) && changes == old(changes)
        case Some(v) => !isOpen && searchQuery == "" && changes == old(changes) + [v, v]
      ensures key == Escape ==>
        !isOpen && searchQuery == "" && highlightedIndex == old(highlightedIndex) && changes == old(changes)
      ensures key == Space || key == Other ==>
        isOpen && searchQuery == old(searchQuery) && highlightedIndex == old(highlightedIndex) && changes == old(changes)
    {
      // Both handlers see the state of the render in which the key was pressed.
      var shown := Shown();
      var index := highlightedIndex;
      match key {
        case ArrowDown =>
          highlightedIndex := ArrowDownIndex(highlightedIndex, |shown|);
          highlightedIndex := ArrowDownIndex(highlightedIndex, |shown|);
        case ArrowUp =>
          highlightedIndex := ArrowUpIndex(highlightedIndex);
          highlightedIndex := ArrowUpIndex(highlightedIndex);
        case Enter =>
          var target := EnterTarget(shown, index);
          if target.Some? {
            HandleSelect(target.value);
            HandleSelect(target.value);
          }
        case Escape =>
          isOpen := false;
          searchQuery := "";
        case _ =>
      }
    }

    /** A click on the box flips the list open or closed. */
    method Toggle()
      modifies this
      requires Valid()
      ensures Valid()
      ensures isOpen == !old(isOpen)
      ensures searchQuery == old(searchQuery) && highlightedIndex == old(highlightedIndex) && changes == old(changes)
    {
      isOpen := !isOpen;
    }

    /** Typing in the search input replaces the search text; the highlight is not reset. */
    method TypeQuery(text: string)
      modifies this
      requires Valid()
      ensures Valid()
      ensures searchQuery == text
      ensures isOpen == old(isOpen) && highlightedIndex == old(highlightedIndex) && changes == old(changes)
    {
      searchQuery := text;
    }

    /** The pointer entering row `index` highlights it. */
    method Hover(index: nat)
      modifies this
      requires Valid() && isOpen && index < |Shown()|
      ensures Valid()
      ensures highlightedIndex == index
      ensures isOpen == old(isOpen) && searchQuery == old(searchQuery) && changes == old(changes)
    {
      highlightedIndex := index;
    }

    /** A mouse press outside the widget closes the list and clears the search text. */
    method ClickOutside()
      modifies this
      requires Valid()
      ensures Valid()
      ensures !isOpen && searchQuery == ""
      ensures highlightedIndex == old(highlightedIndex) && changes == old(changes)
    {
      isOpen := false;
      searchQuery := "";
    }
  }

  /** From a highlight inside the list, repeated ArrowDown and ArrowUp presses never leave it. */
  lemma {:induction false} ArrowKeysStayInList(prev: int, n: nat, downs: nat)
    requires 0 <= prev < n
    ensures 0 <= ArrowUpIndex(prev) < n
    ensures 0 <= Repeat(prev, n, downs) < n
  {
    if downs > 0 {
      ArrowKeysStayInList(prev, n, downs - 1);
    }
  }

  /** `downs` ArrowDown presses in a list of `n` rows. */
  function Repeat(prev: int, n: nat, downs: nat): int
  {
    if downs == 0 then prev else ArrowDownIndex(Repeat(prev, n, downs - 1), n)
  }

  /**
   * The highlight is only reset when the widget is created, so after the list shrinks it can
   * point past the last row; Enter then finds no row and selects nothing.
   */
  lemma StaleHighlightSelectsNothing(shown: seq<SelectOption>, index: int)
    requires index >= |shown|
    ensures EnterTarget(shown, index) == None
    ensures ArrowDownIndex(index, |shown|) == index
  {
  }

  /**
   * With three rows and the first highlighted, one ArrowDown in the search input skips the
   * second row: the two handlers each move the highlight.
   */
  lemma InputArrowDownSkipsRow()
    ensures ArrowDownIndex(ArrowDownIndex(0, 3), 3) == 2
    ensures ArrowDownIndex(0, 3) == 1
  {
  }
}
