/**
 * The job-type picker: a field showing the chosen type (or a placeholder)
 * that opens a modal with a search box and the filtered option list. The
 * `value` prop, when defined, overrides the field's text.
 */
module JobTypeDropdown {
  import opened Wrappers
  import opened Text
  import opened Dropdown

  const DefaultPlaceholder := "Select job type"
  const NoOptionsFound := "No options found"

  /** The placeholder prop, with its default for when it is not passed. */
  function PlaceholderOf(placeholder: Option<string>): (r: string)
    ensures placeholder.None? ==> r == DefaultPlaceholder
    ensures placeholder.Some? ==> r == placeholder.value
  {
    placeholder.GetOr(DefaultPlaceholder)
  }

  /** `{inputValue || placeholder}`: the field's text. */
  function FieldText(inputValue: string, placeholder: string): (r: string)
    ensures inputValue != "" ==> r == inputValue
    ensures inputValue == "" ==> r == placeholder
  {
    if inputValue != "" then inputValue else placeholder
  }

  /** The note under the modal's list: shown exactly when no option matches. */
  function EmptyListNote(options: seq<string>, query: string): (r: Option<string>)
    ensures r.Some? <==> forall x :: x in options ==> !Matches(x, query)
    ensures r.Some? ==> r.value == NoOptionsFound
  {
    var shown := Filter(options, query);
    if shown == [] then Some(NoOptionsFound)
    else
      assert shown[0] in options && Matches(shown[0], query);
      None
  }

  class JobTypePicker {
    const options: seq<string>
    const placeholder: string
    const hasOnSelect: bool
    var inputValue: string
    var isDropdownVisible: bool
    /** The values passed to `onSelect`, oldest first. */
    var selections: seq<string>

    function FilteredOptions(): (r: seq<string>)
      reads this
      ensures |r| <= |options|
      ensures forall x :: x in r ==> x in options
    {
      Filter(options, inputValue)
    }

    /** Mounting: the text starts as `value || ''`, and the modal is closed. */
    constructor (options: seq<string>, placeholder: Option<string>, value: Option<string>, hasOnSelect: bool)
      ensures this.options == options && this.hasOnSelect == hasOnSelect
      ensures this.placeholder == PlaceholderOf(placeholder)
      ensures inputValue == value.GetOr("") && !isDropdownVisible && selections == []
    {
      this.options, this.hasOnSelect := options, hasOnSelect;
      this.placeholder := PlaceholderOf(placeholder);
      inputValue, isDropdownVisible, selections := value.GetOr(""), false, [];
      new;
      ValueChanged(value);
    }

    /** The `value` effect: a defined value replaces the text; `undefined` leaves it. */
    method ValueChanged(value: Option<string>)
      modifies this
      ensures inputValue == if value.Some? then value.value else old(inputValue)
      ensures isDropdownVisible == old(isDropdownVisible) && selections == old(selections)
    {
      if value.Some? {
        inputValue := value.value;
      }
    }

    /** Pressing the field opens the modal. */
    method Open()
      modifies this
      ensures isDropdownVisible
      ensures inputValue == old(inputValue) && selections == old(selections)
    {
      isDropdownVisible := true;
    }

    /** `onRequestClose` or a press on the backdrop closes the modal and keeps the text. */
    method Close()
      modifies this
      ensures !isDropdownVisible
      ensures inputValue == old(inputValue) && selections == old(selections)
    {
      isDropdownVisible := false;
    }

    /** Typing in the search box changes the text only; `onSelect` is not called. */
    method ChangeText(text: string)
      modifies this
      ensures inputValue == text
      ensures isDropdownVisible == old(isDropdownVisible) && selections == old(selections)
    {
      inputValue := text;
    }

    /** Pressing a listed item: it becomes the text, the modal closes, `onSelect` hears of it. */
    method Select(item: string)
      requires isDropdownVisible && item in FilteredOptions()
      modifies this
      ensures inputValue == item && !isDropdownVisible
      ensures selections == old(selections) + (if hasOnSelect then [item] else [])
      ensures FieldText(inputValue, placeholder) == item || item == ""
      ensures item in FilteredOptions()
    {
      inputValue := item;
      isDropdownVisible := false;
      if hasOnSelect {
        selections := selections + [item];
      }
      MatchesItself(item);
    }
  }
}
