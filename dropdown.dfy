/**
 * The searchable dropdown: a text field whose typed text filters the option
 * list case-insensitively, and a list that opens on typing or focus and
 * closes on a selection or a tap outside.
 */
module Dropdown {
  import opened Wrappers
  import opened Text

  /** `option.toLowerCase().includes(inputValue.toLowerCase())` */
  predicate Matches(option: string, query: string): (r: bool)
    ensures query == [] ==> r
    ensures r ==> |query| <= |option|
  {
    var found := Includes(Lower(option), Lower(query));
    IncludesSelfAndEmpty(Lower(option));
    found
  }

  /** `options.filter(option => Matches(option, inputValue))` */
  function Filter(options: seq<string>, query: string): (r: seq<string>)
    ensures |r| <= |options|
    ensures forall x :: x in r <==> x in options && Matches(x, query)
  {
    if options == [] then []
    else FilterHead(options[0], query) + Filter(options[1..], query)
  }

  /** The first option is kept exactly when it matches, ahead of the rest's filter. */
  lemma FilterCons(options: seq<string>, query: string)
    requires options != []
    ensures Filter(options, query) == FilterHead(options[0], query) + Filter(options[1..], query)
  {
  }

  /** The part of the filter that one option contributes. */
  function FilterHead(x: string, query: string): (r: seq<string>)
    ensures r == [x] <==> Matches(x, query)
    ensures r == [] <==> !Matches(x, query)
  {
    if Matches(x, query) then [x] else []
  }

  /** Filtering a concatenation filters each part and keeps their order. */
  lemma {:induction false} FilterAppend(a: seq<string>, b: seq<string>, query: string)
    ensures Filter(a + b, query) == Filter(a, query) + Filter(b, query)
  {
    if a == [] {
      assert a + b == b;
    } else {
      var head := FilterHead(a[0], query);
      ConsOfAppend(a, b);
      FilterCons(a + b, query);
      FilterCons(a, query);
      FilterAppend(a[1..], b, query);
      AppendAssoc(head, Filter(a[1..], query), Filter(b, query));
    }
  }

  /** Splitting the head off a concatenation whose first part is non-empty. */
  lemma ConsOfAppend<T>(a: seq<T>, b: seq<T>)
    requires a != []
    ensures a + b != [] && (a + b)[0] == a[0] && (a + b)[1..] == a[1..] + b
  {
    assert (a + b)[1..] == a[1..] + b;
  }

  lemma AppendAssoc<T>(x: seq<T>, y: seq<T>, z: seq<T>)
    ensures x + (y + z) == (x + y) + z
  {
  }

  /** A one-element list is kept exactly when its element matches. */
  lemma FilterSingle(x: string, query: string)
    ensures Filter([x], query) == if Matches(x, query) then [x] else []
  {
    assert [x][1..] == [];
  }

  /** With nothing typed, every option is listed, in order. */
  lemma {:induction false} FilterEmptyQuery(options: seq<string>)
    ensures Filter(options, "") == options
  {
    if options != [] {
      IncludesSelfAndEmpty(Lower(options[0]));
      FilterEmptyQuery(options[1..]);
    }
  }

  /** Queries that differ only in letter case list the same options. */
  lemma {:induction false} FilterIgnoresCase(options: seq<string>, q1: string, q2: string)
    requires Lower(q1) == Lower(q2)
    ensures Filter(options, q1) == Filter(options, q2)
  {
    if options != [] {
      FilterIgnoresCase(options[1..], q1, q2);
    }
  }

  /** An option always matches a query equal to itself. */
  lemma MatchesItself(item: string)
    ensures Matches(item, item)
  {
    IncludesSelfAndEmpty(Lower(item));
  }

  class DropdownField {
    const options: seq<string>
    const hasOnSelect: bool
    var inputValue: string
    var isDropdownVisible: bool
    /** The values passed to `onSelect`, oldest first. */
    var selections: seq<string>

    /** The list shown under the field while it is open. */
    function FilteredOptions(): (r: seq<string>)
      reads this
      ensures |r| <= |options|
      ensures forall x :: x in r ==> x in options
    {
      Filter(options, inputValue)
    }

    constructor (options: seq<string>, hasOnSelect: bool)
      ensures this.options == options && this.hasOnSelect == hasOnSelect
      ensures inputValue == "" && !isDropdownVisible && selections == []
      ensures FilteredOptions() == options
    {
      this.options, this.hasOnSelect := options, hasOnSelect;
      inputValue, isDropdownVisible, selections := "", false, [];
      new;
      FilterEmptyQuery(options);
    }

    /** `onChangeText`: the typed text becomes the query and the list opens. */
    method ChangeText(text: string)
      modifies this
      ensures inputValue == text && isDropdownVisible
      ensures selections == old(selections)
    {
      inputValue := text;
      isDropdownVisible := true;
    }

    /** `onFocus`: the list opens; the query stays. */
    method Focus()
      modifies this
      ensures isDropdownVisible
      ensures inputValue == old(inputValue) && selections == old(selections)
    {
      isDropdownVisible := true;
    }

    /** Pressing a listed item: it becomes the text, the list closes, `onSelect` hears of it. */
    method Select(item: string)
      requires isDropdownVisible && item in FilteredOptions()
      modifies this
      ensures inputValue == item && !isDropdownVisible
      ensures selections == old(selections) + (if hasOnSelect then [item] else [])
      ensures item in FilteredOptions()
    {
      inputValue := item;
      isDropdownVisible := false;
      if hasOnSelect {
        selections := selections + [item];
      }
      MatchesItself(item);
    }

    /** A tap outside the list closes it and keeps the text. */
    method TapOutside()
      modifies this
      ensures !isDropdownVisible
      ensures inputValue == old(inputValue) && selections == old(selections)
    {
      isDropdownVisible := false;
    }
  }
}
