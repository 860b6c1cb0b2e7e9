/**
 * The Autocomplete text input: a search term, an open/closed option list
 * filtered by the term, and a keyboard highlight over the shown options.
 * `onChange` and `onSelect` calls are recorded, in order, as notices.
 */
module Autocomplete {
  import opened Wrappers
  import opened Types
  import opened Strings

  /** One option: its value, its label, and the equipment the caller attached, if any. */
  datatype AutoOption = AutoOption(value: string, caption: string, equipment: Option<Equipment>)

  /** The keys `handleKeyDown` distinguishes; every other key is `OtherKey`. */
  datatype Key = ArrowDown | ArrowUp | Enter | Escape | OtherKey

  /**
   * What one key press comes to when the highlight is not kept in range:
   * nothing selected, an option selected, or Enter reading a highlighted
   * position past the end of the shown list, where `handleSelect` receives
   * `undefined` and throws on `option.label` before changing anything.
   */
  datatype KeyResult = NoSelection | Picked(option: AutoOption) | ReadPastEnd

  /** A call the widget makes to its owner. */
  datatype Notice = Changed(value: string) | Selected(option: AutoOption)

  /** `defaultFilter`: the label contains the term, ignoring case. */
  predicate DefaultFilter(option: AutoOption, term: string) {
    Contains(ToLower(option.caption), ToLower(term))
  }

  /** `options.filter((option) => filter(option, term))`. */
  function FilterOptions(options: seq<AutoOption>, term: string): (r: seq<AutoOption>)
    ensures |r| <= |options|
    ensures forall i :: 0 <= i < |r| ==> r[i] in options && DefaultFilter(r[i], term)
    ensures forall o :: o in options && DefaultFilter(o, term) ==> o in r
  {
    if options == [] then []
    else if DefaultFilter(options[0], term) then [options[0]] + FilterOptions(options[1..], term)
    else FilterOptions(options[1..], term)
  }

  /** Filtering keeps the order: filtering two lists one after the other is filtering their concatenation. */
  lemma {:induction false} FilterOptionsAppend(a: seq<AutoOption>, b: seq<AutoOption>, term: string)
    ensures FilterOptions(a + b, term) == FilterOptions(a, term) + FilterOptions(b, term)
    decreases |a|
  {
    if a == [] {
      assert a + b == b;
    } else {
      assert (a + b)[0] == a[0];
      assert (a + b)[1..] == a[1..] + b;
      FilterOptionsAppend(a[1..], b, term);
    }
  }

  /** `filteredOptions`: every option for an empty term, the filtered ones otherwise. */
  function ShownOptions(options: seq<AutoOption>, searchTerm: string): (r: seq<AutoOption>)
    ensures searchTerm == "" ==> r == options
    ensures searchTerm != "" ==> r == FilterOptions(options, searchTerm)
  {
    if searchTerm != "" then FilterOptions(options, searchTerm) else options
  }

  /** The default filter with an empty term accepts every option, so the two branches agree. */
  lemma EmptyTermFiltersNothing(options: seq<AutoOption>)
    ensures FilterOptions(options, "") == options
  {
    if options != [] {
      ContainsEmpty(ToLower(options[0].caption));
      EmptyTermFiltersNothing(options[1..]);
    }
  }

  class AutocompleteWidget {
    const options: seq<AutoOption>
    const hasOnSelect: bool
    var isOpen: bool
    var searchTerm: string
    var highlighted: int
    var notices: seq<Notice>

    /** The options currently listed under the input. */
    function Shown(): seq<AutoOption>
      reads this
    {
      ShownOptions(options, searchTerm)
    }

    /** The highlight never leaves `-1 .. |Shown()| - 1`. */
    ghost predicate Valid()
      reads this
    {
      -1 <= highlighted < |Shown()|
    }

    constructor (options: seq<AutoOption>, value: string, hasOnSelect: bool)
      ensures Valid()
      ensures this.options == options && this.hasOnSelect == hasOnSelect
      ensures !isOpen && searchTerm == value && highlighted == -1 && notices == []
    {
      this.options := options;
      this.hasOnSelect := hasOnSelect;
      isOpen := false;
      searchTerm := value;
      highlighted := -1;
      notices := [];
    }

    /** `handleInputChange`: typing sets the term, reports it, opens the list and clears the highlight. */
    method InputChange(newValue: string)
      modifies this
      ensures Valid()
      ensures searchTerm == newValue && isOpen && highlighted == -1
      ensures notices == old(notices) + [Changed(newValue)]
    {
      searchTerm := newValue;
      notices := notices + [Changed(newValue)];
      isOpen := true;
      highlighted := -1;
    }

    /**
     * `handleSelect`: the term becomes the option's label, which is reported,
     * the list closes and `onSelect` is called when the owner gave one. The
     * highlight is cleared, since the shown list changes with the term.
     */
    method Select(option: AutoOption)
      modifies this
      ensures Valid()
      ensures searchTerm == option.caption && !isOpen && highlighted == -1
      ensures notices == old(notices) + [Changed(option.caption)]
        + (if hasOnSelect then [Selected(option)] else [])
    {
      searchTerm := option.caption;
      notices := notices + [Changed(option.caption)];
      isOpen := false;
      highlighted := -1;
      if hasOnSelect {
        notices := notices + [Selected(option)];
      }
    }

    /** `handleSelect` as the source writes it: the highlight is left where it was. */
    method SelectAsWritten(option: AutoOption)
      modifies this
      ensures searchTerm == option.caption && !isOpen && highlighted == old(highlighted)
      ensures notices == old(notices) + [Changed(option.caption)]
        + (if hasOnSelect then [Selected(option)] else [])
    {
      searchTerm := option.caption;
      notices := notices + [Changed(option.caption)];
      isOpen := false;
      if hasOnSelect {
        notices := notices + [Selected(option)];
      }
    }

    /**
     * `handleKeyDown`. While closed, an arrow only opens the list. Otherwise
     * ArrowDown moves the highlight down but not past the last option, ArrowUp
     * moves it up and from the first option to none, Enter selects the
     * highlighted option when there is one, and Escape closes the list.
     */
    method KeyDown(key: Key) returns (selected: Option<AutoOption>)
      requires Valid()
      modifies this
      ensures Valid()
      ensures selected.Some? <==> (old(isOpen) || (key != ArrowDown && key != ArrowUp))
                                  && key == Enter && old(highlighted) >= 0
      ensures selected.Some? ==>
                selected.value == old(Shown())[old(highlighted)]
                && searchTerm == selected.value.caption && !isOpen && highlighted == -1
                && notices == old(notices) + [Changed(selected.value.caption)]
                   + (if hasOnSelect then [Selected(selected.value)] else [])
      ensures selected.None? ==> searchTerm == old(searchTerm) && notices == old(notices)
      ensures !old(isOpen) && (key == ArrowDown || key == ArrowUp) ==> isOpen && highlighted == old(highlighted)
      ensures old(isOpen) && key == ArrowDown ==>
                isOpen && highlighted == (if old(highlighted) < |Shown()| - 1 then old(highlighted) + 1 else old(highlighted))
      ensures old(isOpen) && key == ArrowUp ==>
                isOpen && highlighted == (if old(highlighted) > 0 then old(highlighted) - 1 else -1)
      ensures key == Escape ==> !isOpen && highlighted == old(highlighted)
      ensures key == OtherKey || (key == Enter && old(highlighted) < 0)
        ==> isOpen == old(isOpen) && highlighted == old(highlighted)
    {
      selected := None;
      if !isOpen && (key == ArrowDown || key == ArrowUp) {
        isOpen := true;
        return;
      }
      if key == ArrowDown {
        highlighted := if highlighted < |Shown()| - 1 then highlighted + 1 else highlighted;
      } else if key == ArrowUp {
        highlighted := if highlighted > 0 then highlighted - 1 else -1;
      } else if key == Enter && highlighted >= 0 {
        var option := Shown()[highlighted];
        Select(option);
        selected := Some(option);
      } else if key == Escape {
        isOpen := false;
      }
    }

    /**
     * `handleKeyDown` as the source writes it, over any highlight, including
     * one that a selection or a new value left past the end of the list. The
     * arrows and Escape behave as in `KeyDown`; Enter hands the highlighted
     * position to `SelectAsWritten` when it is shown, and reads past the end
     * of the list otherwise.
     */
    method KeyDownAsWritten(key: Key) returns (result: KeyResult)
      modifies this
      ensures result.Picked? <==> key == Enter && 0 <= old(highlighted) < |old(Shown())|
      ensures result.ReadPastEnd? <==> key == Enter && old(highlighted) >= |old(Shown())|
      ensures result.Picked? ==>
                result.option == old(Shown())[old(highlighted)]
                && searchTerm == result.option.caption && !isOpen && highlighted == old(highlighted)
                && notices == old(notices) + [Changed(result.option.caption)]
                   + (if hasOnSelect then [Selected(result.option)] else [])
      ensures !result.Picked? ==> searchTerm == old(searchTerm) && notices == old(notices)
      ensures !old(isOpen) && (key == ArrowDown || key == ArrowUp) ==> isOpen && highlighted == old(highlighted)
      ensures old(isOpen) && key == ArrowDown ==>
                isOpen && highlighted == (if old(highlighted) < |Shown()| - 1 then old(highlighted) + 1 else old(highlighted))
      ensures old(isOpen) && key == ArrowUp ==>
                isOpen && highlighted == (if old(highlighted) > 0 then old(highlighted) - 1 else -1)
      ensures key == Escape ==> !isOpen && highlighted == old(highlighted)
      ensures key == OtherKey || (key == Enter && !result.Picked?)
        ==> isOpen == old(isOpen) && highlighted == old(highlighted)
    {
      result := NoSelection;
      if !isOpen && (key == ArrowDown || key == ArrowUp) {
        isOpen := true;
        return;
      }
      if key == ArrowDown {
        highlighted := if highlighted < |Shown()| - 1 then highlighted + 1 else highlighted;
      } else if key == ArrowUp {
        highlighted := if highlighted > 0 then highlighted - 1 else -1;
      } else if key == Enter && highlighted >= 0 {
        if highlighted < |Shown()| {
          var option := Shown()[highlighted];
          SelectAsWritten(option);
          result := Picked(option);
        } else {
          result := ReadPastEnd;
        }
      } else if key == Escape {
        isOpen := false;
      }
    }

    /** `handleFocus`: focusing opens the list. */
    method Focus()
      modifies this
      ensures old(Valid()) ==> Valid()
      ensures isOpen && searchTerm == old(searchTerm) && highlighted == old(highlighted) && notices == old(notices)
    {
      isOpen := true;
    }

    /** The document `mousedown` listener: a click outside the input and the list closes it. */
    method ClickOutside()
      modifies this
      ensures old(Valid()) ==> Valid()
      ensures !isOpen && searchTerm == old(searchTerm) && highlighted == old(highlighted) && notices == old(notices)
    {
      isOpen := false;
    }

    /** Hovering a listed option highlights it; only listed options can be hovered. */
    method MouseEnter(index: int)
      requires isOpen && 0 <= index < |Shown()|
      modifies this
      ensures Valid()
      ensures highlighted == index && isOpen && searchTerm == old(searchTerm) && notices == old(notices)
    {
      highlighted := index;
    }

    /**
     * The effect that copies a new `value` from the owner into the term. The
     * highlight is cleared, since the shown list changes with the term.
     */
    method ValueChanged(value: string)
      modifies this
      ensures Valid()
      ensures searchTerm == value && highlighted == -1 && isOpen == old(isOpen) && notices == old(notices)
    {
      searchTerm := value;
      highlighted := -1;
    }

    /** The same effect as the source writes it: the highlight is left where it was. */
    method ValueChangedAsWritten(value: string)
      modifies this
      ensures searchTerm == value && highlighted == old(highlighted)
      ensures isOpen == old(isOpen) && notices == old(notices)
    {
      searchTerm := value;
    }
  }

  /** Three options labelled `A`, `B`, `C`, none of whose labels contains another. */
  function Letters(): seq<AutoOption> {
    [AutoOption("a", "A", None), AutoOption("b", "B", None), AutoOption("c", "C", None)]
  }

  lemma LettersFilter()
    ensures FilterOptions(Letters(), "C") == [Letters()[2]]
    ensures FilterOptions(Letters(), "A") == [Letters()[0]]
  {
    var o := Letters();
    assert ToLower("A") == "a" && ToLower("B") == "b" && ToLower("C") == "c";
    assert !Contains("b", "a") && !Contains("c", "a") && Contains("a", "a");
    assert !Contains("a", "c") && !Contains("b", "c") && Contains("c", "c");
    assert o[1..][1..] == [o[2]];
  }

  /**
   * With the options A, B, C: focus, ArrowDown three times (highlight 2),
   * then select C as Enter does. The list now shows only C, yet the highlight
   * is still 2: a second Enter passes the `>= 0` guard and reads past the end.
   */
  method SelectAsWrittenLeavesStaleHighlight() returns (highlight: int, shown: int)
    ensures 0 <= highlight && shown <= highlight
  {
    var w := new AutocompleteWidget(Letters(), "", true);
    w.Focus();
    var s1 := w.KeyDown(ArrowDown);
    var s2 := w.KeyDown(ArrowDown);
    var s3 := w.KeyDown(ArrowDown);
    assert w.highlighted == 2;
    w.SelectAsWritten(Letters()[2]);
    LettersFilter();
    highlight, shown := w.highlighted, |w.Shown()|;
  }

  /**
   * With the options A, B, C: focus, ArrowDown three times (highlight 2),
   * then the owner passes the value `A`. The list shows only A while the
   * highlight is still 2.
   */
  method ValueChangedAsWrittenLeavesStaleHighlight() returns (highlight: int, shown: int)
    ensures 0 <= highlight && shown <= highlight
  {
    var w := new AutocompleteWidget(Letters(), "", true);
    w.Focus();
    var s1 := w.KeyDown(ArrowDown);
    var s2 := w.KeyDown(ArrowDown);
    var s3 := w.KeyDown(ArrowDown);
    assert w.highlighted == 2;
    w.ValueChangedAsWritten("A");
    LettersFilter();
    highlight, shown := w.highlighted, |w.Shown()|;
  }

  /**
   * The input of the first finding, key by key, on the widget as the source
   * writes it: focus, ArrowDown three times, Enter picks C, then focus and
   * Enter again. The second Enter reads past the end of the one-option list.
   */
  method SecondEnterAsWrittenReadsPastEnd() returns (first: KeyResult, second: KeyResult)
    ensures first == Picked(Letters()[2])
    ensures second == ReadPastEnd
  {
    var w := new AutocompleteWidget(Letters(), "", true);
    w.Focus();
    var r1 := w.KeyDownAsWritten(ArrowDown);
    var r2 := w.KeyDownAsWritten(ArrowDown);
    var r3 := w.KeyDownAsWritten(ArrowDown);
    assert w.highlighted == 2;
    first := w.KeyDownAsWritten(Enter);
    LettersFilter();
    w.Focus();
    second := w.KeyDownAsWritten(Enter);
  }

  /**
   * The same keys on the corrected widget: Enter picks C and clears the
   * highlight, so the second Enter selects nothing.
   */
  method SecondEnterSelectsNothing() returns (first: Option<AutoOption>, second: Option<AutoOption>)
    ensures first == Some(Letters()[2])
    ensures second == None
  {
    var w := new AutocompleteWidget(Letters(), "", true);
    w.Focus();
    var r1 := w.KeyDown(ArrowDown);
    var r2 := w.KeyDown(ArrowDown);
    var r3 := w.KeyDown(ArrowDown);
    assert w.highlighted == 2;
    first := w.KeyDown(Enter);
    w.Focus();
    second := w.KeyDown(Enter);
  }
}
