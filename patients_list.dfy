/**
 * The patients list page's own search overlay.  It keeps the same signals
 * as `usePatientSearch` (`PatientSearch.SearchState`, with the debounce
 * timer as `pending`) but its handlers differ: the timer only publishes
 * the term, the input's key handler ignores every key while there are no
 * results, Escape in the input closes the overlay, Ctrl/Cmd+K always
 * opens it, and closing resets unconditionally.
 */
module PatientsList {
  import opened Wrappers
  import opened JsText
  import PS = PatientSearch

  /** The search query runs only for a debounced term that is not blank. */
  predicate SearchEnabled(s: PS.SearchState) {
    Trim(s.debounced) != ""
  }

  /** `handleSearchInput`; unlike the hook's it reaches the same state by one reset of the highlight. */
  function Input(s: PS.SearchState, value: string): (r: PS.SearchState)
    ensures r.term == value && r.index == -1 && r.isOpen == s.isOpen
    ensures AllWhitespace(value) ==> r.debounced == "" && r.pending == None && !SearchEnabled(r)
    ensures !AllWhitespace(value) ==> r.debounced == s.debounced && r.pending == Some(value)
  {
    if Trim(value) == "" then s.(term := value, index := -1, debounced := "", pending := None)
    else s.(term := value, index := -1, pending := Some(value))
  }

  /** The debounce timer goes off: it publishes the term and leaves the highlight where it is. */
  function Fire(s: PS.SearchState): (r: PS.SearchState)
    ensures s.pending.None? ==> r == s
    ensures s.pending.Some? ==> r == s.(debounced := s.pending.value, pending := None)
    ensures s.pending.Some? && !AllWhitespace(s.pending.value) ==> SearchEnabled(r)
  {
    if s.pending.Some? then s.(debounced := s.pending.value, pending := None) else s
  }

  /** A non-blank input, once its timer goes off, enables the search with exactly that term. */
  lemma InputThenFireEnables(s: PS.SearchState, value: string)
    requires !AllWhitespace(value)
    ensures Fire(Input(s, value)).debounced == value && SearchEnabled(Fire(Input(s, value)))
  {
  }

  /** The input the page sees is the hook's: both handle typing alike. */
  lemma InputAgreesWithHook(s: PS.SearchState, value: string)
    ensures Input(s, value) == PS.Input(s, value)
  {
  }

  /** `closeSearch`: back to the initial state, whether or not the overlay was open. */
  function Close(s: PS.SearchState): (r: PS.SearchState)
    ensures r == PS.Initial && !SearchEnabled(r)
  {
    PS.SearchState(false, "", "", -1, None)
  }

  /** Closing twice is closing once, and no timer survives a close. */
  lemma CloseIdempotent(s: PS.SearchState)
    ensures Close(Close(s)) == Close(s)
    ensures Fire(Close(s)) == Close(s)
  {
  }

  /**
   * The input's `handleKeyDown`: nothing without results or while closed;
   * otherwise the arrows cycle over the results, Enter opens the highlighted
   * patient when the highlight is on a result, and Escape closes.
   */
  function KeyDown(s: PS.SearchState, key: string, results: seq<string>): (r: PS.KeyResult)
    ensures |results| == 0 || !s.isOpen ==> r == PS.KeyResult(s, None, false)
    ensures s.isOpen && |results| > 0 && key == "ArrowDown" ==>
      r == PS.KeyResult(s.(index := PS.JsRem(s.index + 1, |results|)), None, true)
    ensures s.isOpen && |results| > 0 && key == "ArrowUp" ==>
      r == PS.KeyResult(s.(index := if s.index <= 0 then |results| - 1 else s.index - 1), None, true)
    ensures s.isOpen && |results| > 0 && key == "Enter" ==> (r.prevented &&
      (r.navigate.Some? <==> 0 <= s.index < |results|))
    ensures r.navigate.Some? ==> (0 <= s.index < |results| &&
      r.navigate == Some(PS.PatientPath(results[s.index])) && r.state == Close(s))
    ensures s.isOpen && |results| > 0 && key == "Escape" ==> r == PS.KeyResult(Close(s), None, true)
    ensures !(key in {"ArrowDown", "ArrowUp", "Enter", "Escape"}) ==> r == PS.KeyResult(s, None, false)
  {
    var n := |results|;
    if n == 0 || !s.isOpen then PS.KeyResult(s, None, false)
    else if key == "ArrowDown" then PS.KeyResult(s.(index := PS.JsRem(s.index + 1, n)), None, true)
    else if key == "ArrowUp" then PS.KeyResult(s.(index := if s.index <= 0 then n - 1 else s.index - 1), None, true)
    else if key == "Enter" then
      if 0 <= s.index < n then PS.KeyResult(Close(s), Some(PS.PatientPath(results[s.index])), true)
      else PS.KeyResult(s, None, true)
    else if key == "Escape" then PS.KeyResult(Close(s), None, true)
    else PS.KeyResult(s, None, false)
  }

  /** One ArrowDown on a highlighted result moves to the next one, and from the last back to the first. */
  lemma ArrowDownStep(s: PS.SearchState, results: seq<string>)
    requires s.isOpen && 0 <= s.index < |results|
    ensures KeyDown(s, "ArrowDown", results).state.index == if s.index == |results| - 1 then 0 else s.index + 1
  {
    assert KeyDown(s, "ArrowDown", results).state.index == PS.JsRem(s.index + 1, |results|);
    PS.JsRemUpToDivisor(s.index + 1, |results|);
  }

  /** `k` presses of one key. */
  function Presses(s: PS.SearchState, key: string, results: seq<string>, k: nat): (r: PS.SearchState)
    ensures key in {"ArrowDown", "ArrowUp"} ==> r.isOpen == s.isOpen
    decreases k
  {
    if k == 0 then s else KeyDown(Presses(s, key, results, k - 1), key, results).state
  }

  /** Up to a full round, `k` presses of ArrowDown move the highlight `k` results on, wrapping once. */
  lemma {:induction false} ArrowDownPresses(s: PS.SearchState, results: seq<string>, k: nat)
    requires s.isOpen && 0 <= s.index < |results| && k <= |results|
    ensures Presses(s, "ArrowDown", results, k).index ==
      if s.index + k < |results| then s.index + k else s.index + k - |results|
    decreases k
  {
    if k > 0 {
      ArrowDownPresses(s, results, k - 1);
      ArrowDownStep(Presses(s, "ArrowDown", results, k - 1), results);
    }
  }

  /** Pressing ArrowDown as many times as there are results comes back to the same result. */
  lemma ArrowDownFullCircle(s: PS.SearchState, results: seq<string>)
    requires s.isOpen && 0 <= s.index < |results|
    ensures Presses(s, "ArrowDown", results, |results|).index == s.index
  {
    ArrowDownPresses(s, results, |results|);
  }

  /** The window's key handler: Ctrl/Cmd+K opens; Escape outside the input closes an open overlay. */
  function GlobalKeyDown(s: PS.SearchState, ctrlOrMeta: bool, key: string, inputFocused: bool): (r: (PS.SearchState, bool))
    ensures ctrlOrMeta && key == "k" ==> r == (s.(isOpen := true), true)
    ensures !(ctrlOrMeta && key == "k") && key == "Escape" && s.isOpen && !inputFocused ==> r == (Close(s), true)
    ensures !(ctrlOrMeta && key == "k") && !(key == "Escape" && s.isOpen && !inputFocused) ==> r == (s, false)
  {
    if ctrlOrMeta && key == "k" then (s.(isOpen := true), true)
    else if s.isOpen && key == "Escape" && !inputFocused then (Close(s), true)
    else (s, false)
  }

  /** Escape closes an open overlay whether the input has the focus (its own handler) or not (the window's). */
  lemma EscapeAlwaysCloses(s: PS.SearchState, results: seq<string>, inputFocused: bool)
    requires s.isOpen
    ensures inputFocused && |results| > 0 ==> KeyDown(s, "Escape", results).state == PS.Initial
    ensures !inputFocused ==> GlobalKeyDown(s, false, "Escape", inputFocused).0 == PS.Initial
  {
  }

  /** The page's search signals and timer. */
  class SearchOverlay {
    var state: PS.SearchState

    constructor()
      ensures state == PS.Initial
    {
      state := PS.Initial;
    }

    method HandleSearchInput(value: string)
      modifies this
      ensures state == Input(old(state), value)
    {
      state := state.(term := value);
      state := state.(index := -1);
      if state.pending.Some? {
        state := state.(pending := None);
      }
      if Trim(value) == "" {
        state := state.(debounced := "");
        return;
      }
      state := state.(pending := Some(value));
    }

    method TimerFires()
      modifies this
      ensures state == Fire(old(state))
    {
      if state.pending.Some? {
        var value := state.pending.value;
        state := state.(pending := None);
        state := state.(debounced := value);
      }
    }

    method CloseSearch()
      modifies this
      ensures state == Close(old(state))
    {
      state := state.(isOpen := false);
      state := state.(term := "");
      state := state.(debounced := "");
      state := state.(index := -1);
      if state.pending.Some? {
        state := state.(pending := None);
      }
    }

    method HandleKeyDown(key: string, results: seq<string>) returns (navigate: Option<string>, prevented: bool)
      modifies this
      ensures PS.KeyResult(state, navigate, prevented) == KeyDown(old(state), key, results)
    {
      navigate, prevented := None, false;
      var n := |results|;
      if n == 0 || !state.isOpen {
        return;
      }
      if key == "ArrowDown" {
        prevented := true;
        state := state.(index := PS.JsRem(state.index + 1, n));
      } else if key == "ArrowUp" {
        prevented := true;
        state := state.(index := if state.index <= 0 then n - 1 else state.index - 1);
      } else if key == "Enter" {
        prevented := true;
        var selected := state.index;
        if selected >= 0 && selected < n {
          var patientId := results[selected];
          CloseSearch();
          navigate := Some(PS.PatientPath(patientId));
        }
      } else if key == "Escape" {
        prevented := true;
        CloseSearch();
      }
    }

    method HandleGlobalKeyDown(ctrlOrMeta: bool, key: string, inputFocused: bool) returns (prevented: bool)
      modifies this
      ensures (state, prevented) == GlobalKeyDown(old(state), ctrlOrMeta, key, inputFocused)
    {
      prevented := false;
      if ctrlOrMeta && key == "k" {
        prevented := true;
        state := state.(isOpen := true);
      } else if state.isOpen && key == "Escape" && !inputFocused {
        prevented := true;
        CloseSearch();
      }
    }
  }
}
