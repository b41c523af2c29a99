/**
 * `usePatientSearch`: the patient search overlay's signals (open, the typed
 * term, the debounced term sent to the search, the highlighted result) and
 * its handlers.  The 300 ms debounce timer is the `pending` field: the
 * value a scheduled timer will publish, `None` when no timer is scheduled;
 * the timer going off is `Fire`.  Navigation is returned as the path it
 * goes to.
 */
module PatientSearch {
  import opened Wrappers
  import opened JsText

  datatype SearchState = SearchState(isOpen: bool, term: string, debounced: string, index: int, pending: Option<string>)

  const Initial := SearchState(false, "", "", -1, None)

  /** JavaScript's `%`: the remainder takes the sign of the dividend. */
  function JsRem(a: int, n: int): (r: int)
    requires n > 0
    ensures a >= 0 ==> r == a % n
    ensures -n < r < n
  {
    if a >= 0 then a % n else -((-a) % n)
  }

  /** Stepping one past the last index wraps to 0; every smaller step stays where it is. */
  lemma JsRemUpToDivisor(a: int, n: int)
    requires 0 <= a <= n && n > 0
    ensures JsRem(a, n) == if a == n then 0 else a
  {
    if a == n {
      assert a % n == 0 by { assert a == 1 * n + 0; }
    } else {
      assert a % n == a by { assert a == 0 * n + a; }
    }
  }

  /** The result path of `navigateToPatient`. */
  function PatientPath(id: string): string {
    "/patients/" + id
  }

  /** `handleSearchInput`: the term follows the input at once; a blank input clears the debounced term at once, any other schedules it. */
  function Input(s: SearchState, value: string): (r: SearchState)
    ensures r.term == value && r.index == -1 && r.isOpen == s.isOpen
    ensures AllWhitespace(value) ==> r.debounced == "" && r.pending == None
    ensures !AllWhitespace(value) ==> r.debounced == s.debounced && r.pending == Some(value)
  {
    if Trim(value) == "" then s.(term := value, index := -1, debounced := "", pending := None)
    else s.(term := value, index := -1, pending := Some(value))
  }

  /** The debounce timer goes off: the scheduled value becomes the debounced term. */
  function Fire(s: SearchState): (r: SearchState)
    ensures s.pending.None? ==> r == s
    ensures s.pending.Some? ==> r == s.(debounced := s.pending.value, index := -1, pending := None)
  {
    if s.pending.Some? then s.(debounced := s.pending.value, index := -1, pending := None) else s
  }

  /** Typing a non-blank value and waiting publishes exactly that value. */
  lemma InputThenFire(s: SearchState, value: string)
    ensures !AllWhitespace(value) ==> Fire(Input(s, value)).debounced == value
    ensures AllWhitespace(value) ==> Fire(Input(s, value)) == Input(s, value)
  {
  }

  /** Only the last of two inputs is published: typing again cancels the earlier timer. */
  lemma LastInputWins(s: SearchState, first: string, second: string)
    ensures Fire(Input(Input(s, first), second)) == Fire(Input(s, second)).(debounced :=
      if AllWhitespace(second) then "" else second)
  {
  }

  /** `closeSearch`: nothing when already closed; otherwise everything back to the initial state. */
  function Close(s: SearchState): (r: SearchState)
    ensures !s.isOpen ==> r == s
    ensures s.isOpen ==> r == Initial
  {
    if !s.isOpen then s else SearchState(false, "", "", -1, None)
  }

  /** What a key press does: the new state, where it navigates, and whether the default action is prevented. */
  datatype KeyResult = KeyResult(state: SearchState, navigate: Option<string>, prevented: bool)

  /**
   * The input's `handleKeyDown` over the current result ids: nothing while
   * closed; the arrows cycle over the results when there are any; Enter
   * opens the highlighted patient when the highlight is on a result with an id.
   */
  function KeyDown(s: SearchState, key: string, results: seq<string>): (r: KeyResult)
    ensures !s.isOpen ==> r == KeyResult(s, None, false)
    ensures s.isOpen && key == "ArrowDown" && |results| > 0 ==>
      r == KeyResult(s.(index := JsRem(s.index + 1, |results|)), None, true)
    ensures s.isOpen && key == "ArrowUp" && |results| > 0 ==>
      r == KeyResult(s.(index := if s.index <= 0 then |results| - 1 else s.index - 1), None, true)
    ensures s.isOpen && key == "Enter" ==> (r.prevented &&
      (r.navigate.Some? <==> 0 <= s.index < |results| && results[s.index] != ""))
    ensures r.navigate.Some? ==> (0 <= s.index < |results| &&
      r.navigate == Some(PatientPath(results[s.index])) && r.state == Close(s))
    ensures r.navigate.None? && !(s.isOpen && key in {"ArrowDown", "ArrowUp"} && |results| > 0) ==> r.state == s
  {
    var n := |results|;
    if !s.isOpen then KeyResult(s, None, false)
    else if key == "ArrowDown" then
      if n > 0 then KeyResult(s.(index := JsRem(s.index + 1, n)), None, true) else KeyResult(s, None, false)
    else if key == "ArrowUp" then
      if n > 0 then KeyResult(s.(index := if s.index <= 0 then n - 1 else s.index - 1), None, true) else KeyResult(s, None, false)
    else if key == "Enter" then
      if 0 <= s.index < n && results[s.index] != "" then KeyResult(Close(s), Some(PatientPath(results[s.index])), true)
      else KeyResult(s, None, true)
    else KeyResult(s, None, false)
  }

  /** From no highlight, ArrowDown lands on the first result; from the last it wraps to the first. */
  lemma ArrowDownCycles(s: SearchState, results: seq<string>)
    requires s.isOpen && |results| > 0 && -1 <= s.index < |results|
    ensures var i := KeyDown(s, "ArrowDown", results).state.index;
      0 <= i < |results| && (s.index == -1 ==> i == 0) && (s.index == |results| - 1 ==> i == 0)
  {
    JsRemUpToDivisor(s.index + 1, |results|);
  }

  /** ArrowUp undoes ArrowDown on a highlighted result. */
  lemma ArrowsInverse(s: SearchState, results: seq<string>)
    requires s.isOpen && 0 <= s.index < |results|
    ensures KeyDown(KeyDown(s, "ArrowDown", results).state, "ArrowUp", results).state == s
  {
    var n := |results|;
    JsRemUpToDivisor(s.index + 1, n);
    var d := KeyDown(s, "ArrowDown", results).state;
    assert d == s.(index := if s.index == n - 1 then 0 else s.index + 1);
  }

  /** The window's key handler: Ctrl/Cmd+K opens a closed search; Escape closes an open one. */
  function GlobalKeyDown(s: SearchState, ctrlOrMeta: bool, key: string): (r: (SearchState, bool))
    ensures ctrlOrMeta && key == "k" ==> r == (s.(isOpen := true), true)
    ensures !(ctrlOrMeta && key == "k") && key == "Escape" ==> r == (Close(s), s.isOpen)
    ensures !(ctrlOrMeta && key == "k") && key != "Escape" ==> r == (s, false)
  {
    if ctrlOrMeta && key == "k" then (if !s.isOpen then s.(isOpen := true) else s, true)
    else if key == "Escape" && s.isOpen then (Close(s), true)
    else (s, false)
  }

  /**
   * Closing while already closed keeps a scheduled timer, which can then
   * still publish a term into the closed overlay.
   */
  lemma CloseWhenClosedKeepsTimer(s: SearchState)
    requires !s.isOpen && s.pending.Some?
    ensures Fire(Close(s)).debounced == s.pending.value
  {
  }

  /** Every change of the debounced term leaves nothing highlighted, as the effect on it requires. */
  lemma DebouncedChangeResetsIndex(s: SearchState, value: string, key: string, results: seq<string>, ctrlOrMeta: bool)
    ensures Input(s, value).debounced != s.debounced ==> Input(s, value).index == -1
    ensures Fire(s).debounced != s.debounced ==> Fire(s).index == -1
    ensures Close(s).debounced != s.debounced ==> Close(s).index == -1
    ensures KeyDown(s, key, results).state.debounced != s.debounced ==> KeyDown(s, key, results).state.index == -1
    ensures GlobalKeyDown(s, ctrlOrMeta, key).0.debounced != s.debounced ==> GlobalKeyDown(s, ctrlOrMeta, key).0.index == -1
  {
  }

  /** The hook's signals and timer. */
  class SearchHook {
    var state: SearchState

    constructor()
      ensures state == Initial
    {
      state := Initial;
    }

    method HandleSearchInput(value: string)
      modifies this
      ensures state == Input(old(state), value)
    {
      state := state.(term := value);
      state := state.(index := -1);
      if state.pending.Some? {
        state := state.(pending := None);
      }
      if Trim(value) == "" {
        state := state.(debounced := "");
        state := state.(index := -1);
        return;
      }
      state := state.(pending := Some(value));
    }

    method TimerFires()
      modifies this
      ensures state == Fire(old(state))
    {
      if state.pending.Some? {
        var value := state.pending.value;
        state := state.(pending := None);
        state := state.(debounced := value);
        state := state.(index := -1);
      }
    }

    method CloseSearch()
      modifies this
      ensures state == Close(old(state))
    {
      if !state.isOpen {
        return;
      }
      state := state.(isOpen := false);
      state := state.(term := "");
      state := state.(debounced := "");
      state := state.(index := -1);
      if state.pending.Some? {
        state := state.(pending := None);
      }
    }

    method HandleKeyDown(key: string, results: seq<string>) returns (navigate: Option<string>, prevented: bool)
      modifies this
      ensures KeyResult(state, navigate, prevented) == KeyDown(old(state), key, results)
    {
      navigate, prevented := None, false;
      if !state.isOpen {
        return;
      }
      var n := |results|;
      if key == "ArrowDown" {
        if n > 0 {
          prevented := true;
          state := state.(index := JsRem(state.index + 1, n));
        }
      } else if key == "ArrowUp" {
        if n > 0 {
          prevented := true;
          state := state.(index := if state.index <= 0 then n - 1 else state.index - 1);
        }
      } else if key == "Enter" {
        prevented := true;
        var selected := state.index;
        if selected >= 0 && selected < n {
          var patientId := results[selected];
          if patientId != "" {
            CloseSearch();
            navigate := Some(PatientPath(patientId));
          }
        }
      }
    }

    method HandleGlobalKeyDown(ctrlOrMeta: bool, key: string) returns (prevented: bool)
      modifies this
      ensures (state, prevented) == GlobalKeyDown(old(state), ctrlOrMeta, key)
    {
      prevented := false;
      if ctrlOrMeta && key == "k" {
        prevented := true;
        if !state.isOpen {
          state := state.(isOpen := true);
        }
      } else if key == "Escape" && state.isOpen {
        prevented := true;
        CloseSearch();
      }
    }
  }
}
