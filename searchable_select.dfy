/**
 * The searchable select of the appointment forms: a text box over a list
 * of options.  Its signals are whether the dropdown is open, the typed
 * search term and the highlighted option (-1 for none); its props are the
 * options, the selected value and a disabled flag.  Scrolling the
 * highlighted option into view and the document listener bookkeeping are
 * left out; a click outside arrives as `HandleClickOutside(false)`.
 */
module SearchableSelect {
  import opened Wrappers
  import opened JsText
  import Lists

  datatype SelectOption = SelectOption(value: string, labelText: string)

  datatype Props = Props(options: seq<SelectOption>, value: string, disabled: bool)

  datatype SelectState = SelectState(isOpen: bool, searchTerm: string, highlighted: int)

  const Initial := SelectState(false, "", -1)

  // -------------------------------------------------------------- memos

  /** `selectedLabel`: the label of the first option carrying the selected value, or "". */
  function SelectedLabel(p: Props): (r: string)
    ensures (exists i :: 0 <= i < |p.options| && p.options[i].value == p.value) ==>
      exists i :: 0 <= i < |p.options| && p.options[i].value == p.value && r == p.options[i].labelText
        && forall j :: 0 <= j < i ==> p.options[j].value != p.value
    ensures (forall i :: 0 <= i < |p.options| ==> p.options[i].value != p.value) ==> r == ""
  {
    var i := Lists.FindIndex(p.options, (o: SelectOption) => o.value == p.value);
    if i < 0 then "" else p.options[i].labelText
  }

  /** The option's lower-cased label contains the lower-cased term. */
  predicate LabelMatches(o: SelectOption, term: string) {
    Includes(ToLower(o.labelText), ToLower(term))
  }

  /**
   * `filteredOptions`: all options while the term is empty or is the
   * selected label, otherwise those whose label contains the term, ignoring
   * case, in their original order.
   */
  function FilteredOptions(p: Props, term: string): (r: seq<SelectOption>)
    ensures term == "" || term == SelectedLabel(p) ==> r == p.options
    ensures term != "" && term != SelectedLabel(p) ==>
      r == Lists.Filter(p.options, (o: SelectOption) => LabelMatches(o, term))
    ensures forall o :: o in r <==> o in p.options && (term == "" || term == SelectedLabel(p) || LabelMatches(o, term))
  {
    var lower := ToLower(term);
    Lists.FilterMembers(p.options, (o: SelectOption) => LabelMatches(o, term));
    if lower == "" || term == SelectedLabel(p) then p.options
    else Lists.Filter(p.options, (o: SelectOption) => LabelMatches(o, term))
  }

  /** The text box shows the term, or the selected label when the term is empty. */
  function DisplayedText(p: Props, s: SelectState): string {
    if s.searchTerm != "" then s.searchTerm else SelectedLabel(p)
  }

  // ----------------------------------------------------------- handlers

  /** The next highlight on ArrowDown among `n` options: wraps to 0 past the end. */
  function Down(prev: int, n: nat): int {
    if prev >= n - 1 then 0 else prev + 1
  }

  /** The next highlight on ArrowUp among `n` options: wraps to the last from the top (or from none). */
  function Up(prev: int, n: nat): int {
    if prev <= 0 then n - 1 else prev - 1
  }

  /** With options present, both arrows keep the highlight on an option, starting from none. */
  lemma ArrowsStayInRange(prev: int, n: nat)
    requires n > 0 && -1 <= prev < n
    ensures 0 <= Down(prev, n) < n && 0 <= Up(prev, n) < n
    ensures Down(-1, n) == 0 && Up(-1, n) == n - 1
  {
  }

  /** ArrowUp undoes ArrowDown, and ArrowDown undoes ArrowUp, on a highlighted option. */
  lemma ArrowsInverse(h: int, n: nat)
    requires 0 <= h < n
    ensures Up(Down(h, n), n) == h && Down(Up(h, n), n) == h
  {
  }

  /** With no option to show ArrowDown still highlights index 0, which no option has. */
  lemma ArrowDownOnEmpty(prev: int)
    requires prev >= -1
    ensures Down(prev, 0) == 0 && Up(0, 0) == -1
  {
  }

  /** The state after closing: closed, nothing highlighted, the term back to the selected label. */
  function Closed(p: Props): (s: SelectState)
    ensures !s.isOpen && s.highlighted == -1 && s.searchTerm == SelectedLabel(p)
  {
    SelectState(false, SelectedLabel(p), -1)
  }

  /** Closing shows the selection again, over the full option list. */
  lemma ClosedShowsSelection(p: Props)
    ensures DisplayedText(p, Closed(p)) == SelectedLabel(p)
    ensures FilteredOptions(p, Closed(p).searchTerm) == p.options
  {
  }

  /** `handleSelect`: unless disabled, emit the option's value, clear the term, close, highlight nothing. */
  function Select(p: Props, s: SelectState, o: SelectOption): (r: (SelectState, Option<string>))
    ensures p.disabled ==> r == (s, None)
    ensures !p.disabled ==> r.0 == SelectState(false, "", -1) && r.1 == Some(o.value)
  {
    if p.disabled then (s, None) else (SelectState(false, "", -1), Some(o.value))
  }

  /** `handleInput`: unless disabled, the typed text becomes the term, the highlight resets and the list opens. */
  function Input(p: Props, s: SelectState, text: string): (r: SelectState)
    ensures p.disabled ==> r == s
    ensures !p.disabled ==> r.isOpen && r.searchTerm == text && r.highlighted == -1
  {
    if p.disabled then s else SelectState(true, text, -1)
  }

  /** `handleFocus`: opens unless disabled. */
  function Focus(p: Props, s: SelectState): (r: SelectState)
    ensures r == (if p.disabled then s else s.(isOpen := true))
  {
    if !p.disabled then s.(isOpen := true) else s
  }

  /** What a key press does: the new state, the value emitted and whether the default action is prevented. */
  datatype KeyResult = KeyResult(state: SelectState, emitted: Option<string>, prevented: bool)

  /**
   * `handleKeyDown`.  The arrows open the list and move the highlight
   * cyclically over the filtered options; Enter selects the highlighted
   * option when the list is open and the highlight is on one; Escape, and
   * Tab while open, close the list.  A disabled select ignores every key.
   */
  function KeyDown(p: Props, s: SelectState, key: string): (r: KeyResult)
    ensures p.disabled ==> r == KeyResult(s, None, false)
    ensures !p.disabled && key == "ArrowDown" ==>
      r == KeyResult(SelectState(true, s.searchTerm, Down(s.highlighted, |FilteredOptions(p, s.searchTerm)|)), None, true)
    ensures !p.disabled && key == "ArrowUp" ==>
      r == KeyResult(SelectState(true, s.searchTerm, Up(s.highlighted, |FilteredOptions(p, s.searchTerm)|)), None, true)
    ensures !p.disabled && key == "Enter" ==> (r.prevented &&
      var opts := FilteredOptions(p, s.searchTerm);
      if s.isOpen && 0 <= s.highlighted < |opts|
      then r.state == SelectState(false, "", -1) && r.emitted == Some(opts[s.highlighted].value)
      else r.state == s && r.emitted == None)
    ensures !p.disabled && key == "Escape" ==> r == KeyResult(Closed(p), None, true)
    ensures !p.disabled && key == "Tab" ==> r == KeyResult(if s.isOpen then Closed(p) else s, None, false)
    ensures key !in {"ArrowDown", "ArrowUp", "Enter", "Escape", "Tab"} ==> r == KeyResult(s, None, false)
  {
    var opts := FilteredOptions(p, s.searchTerm);
    var n := |opts|;
    if p.disabled then KeyResult(s, None, false)
    else if key == "ArrowDown" then KeyResult(SelectState(true, s.searchTerm, Down(s.highlighted, n)), None, true)
    else if key == "ArrowUp" then KeyResult(SelectState(true, s.searchTerm, Up(s.highlighted, n)), None, true)
    else if key == "Enter" then
      if s.isOpen && 0 <= s.highlighted < n then
        var (next, emitted) := Select(p, s, opts[s.highlighted]);
        KeyResult(next, emitted, true)
      else KeyResult(s, None, true)
    else if key == "Escape" then KeyResult(Closed(p), None, true)
    else if key == "Tab" then KeyResult(if s.isOpen then Closed(p) else s, None, false)
    else KeyResult(s, None, false)
  }

  /** Enter emits a value only when it is the value of an option on the list. */
  lemma EnterEmitsListedValue(p: Props, s: SelectState)
    requires KeyDown(p, s, "Enter").emitted.Some?
    ensures exists o :: o in p.options && KeyDown(p, s, "Enter").emitted == Some(o.value)
  {
    var opts := FilteredOptions(p, s.searchTerm);
    assert opts[s.highlighted] in opts;
  }

  /** `handleClickOutside`: a click outside an open select closes it. */
  function ClickOutside(p: Props, s: SelectState, inside: bool): (r: SelectState)
    ensures r == (if !inside && s.isOpen then Closed(p) else s)
  {
    if !inside && s.isOpen then Closed(p) else s
  }

  /** The effect on `filteredOptions`: a new list of options clears the highlight. */
  function FilterChanged(s: SelectState): (r: SelectState)
    ensures r == s.(highlighted := -1)
  {
    s.(highlighted := -1)
  }

  /** Every handler that changes the term also leaves nothing highlighted, so the effect agrees with it. */
  lemma TermChangesClearHighlight(p: Props, s: SelectState, key: string, text: string, o: SelectOption, inside: bool)
    ensures Input(p, s, text).searchTerm != s.searchTerm ==> Input(p, s, text).highlighted == -1
    ensures Select(p, s, o).0.searchTerm != s.searchTerm ==> Select(p, s, o).0.highlighted == -1
    ensures KeyDown(p, s, key).state.searchTerm != s.searchTerm ==> KeyDown(p, s, key).state.highlighted == -1
    ensures ClickOutside(p, s, inside).searchTerm != s.searchTerm ==> ClickOutside(p, s, inside).highlighted == -1
  {
  }

  /** The component: its three signals under fixed props. */
  class SelectComponent {
    var state: SelectState
    var props: Props

    constructor(p: Props)
      ensures state == Initial && props == p
    {
      state := Initial;
      props := p;
    }

    method HandleSelect(o: SelectOption) returns (emitted: Option<string>)
      modifies this`state
      ensures (state, emitted) == Select(props, old(state), o)
    {
      emitted := None;
      if props.disabled {
        return;
      }
      emitted := Some(o.value);
      state := state.(searchTerm := "");
      state := state.(isOpen := false);
      state := state.(highlighted := -1);
    }

    method HandleInput(text: string)
      modifies this`state
      ensures state == Input(props, old(state), text)
    {
      if props.disabled {
        return;
      }
      state := state.(searchTerm := text);
      state := state.(highlighted := -1);
      state := state.(isOpen := true);
    }

    method HandleFocus()
      modifies this`state
      ensures state == Focus(props, old(state))
    {
      if !props.disabled {
        state := state.(isOpen := true);
      }
    }

    method HandleKeyDown(key: string) returns (emitted: Option<string>, prevented: bool)
      modifies this`state
      ensures KeyResult(state, emitted, prevented) == KeyDown(props, old(state), key)
    {
      emitted, prevented := None, false;
      if props.disabled {
        return;
      }
      var optionsCount := |FilteredOptions(props, state.searchTerm)|;
      if key == "ArrowDown" {
        prevented := true;
        if !state.isOpen {
          state := state.(isOpen := true);
        }
        var prev := state.highlighted;
        state := state.(highlighted := if prev >= optionsCount - 1 then 0 else prev + 1);
      } else if key == "ArrowUp" {
        prevented := true;
        if !state.isOpen {
          state := state.(isOpen := true);
        }
        var prev := state.highlighted;
        state := state.(highlighted := if prev <= 0 then optionsCount - 1 else prev - 1);
      } else if key == "Enter" {
        prevented := true;
        if state.isOpen && state.highlighted >= 0 && state.highlighted < optionsCount {
          emitted := HandleSelect(FilteredOptions(props, state.searchTerm)[state.highlighted]);
        }
      } else if key == "Escape" {
        prevented := true;
        state := state.(isOpen := false);
        state := state.(highlighted := -1);
        state := state.(searchTerm := SelectedLabel(props));
      } else if key == "Tab" {
        if state.isOpen {
          state := state.(isOpen := false);
          state := state.(highlighted := -1);
          state := state.(searchTerm := SelectedLabel(props));
        }
      }
    }

    method HandleClickOutside(inside: bool)
      modifies this`state
      ensures state == ClickOutside(props, old(state), inside)
    {
      if !inside {
        if state.isOpen {
          state := state.(isOpen := false);
          state := state.(highlighted := -1);
          state := state.(searchTerm := SelectedLabel(props));
        }
      }
    }
  }
}
