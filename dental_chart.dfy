/**
 * The dental chart editor: the list of teeth for the chosen dentition, and
 * the two edits a click makes — toggling a tooth's presence and applying
 * the selected condition to the selected surface.  Every edit works on a
 * copy of the chart and hands the copy to `onChange`; the chart given in
 * is a value here, so it is never changed.
 */
module DentalChart {
  import opened Wrappers
  import JsText

  datatype Surface = Occlusal | Mesial | Distal | Buccal | Lingual

  datatype Condition = Sound | Caries | Filled | Missing | Impacted | RootCanal | Crown | Bridge | Implant | Fracture | FissureSeal

  datatype Tooth = Tooth(present: bool, conditions: map<Surface, Condition>, notes: Option<string>)

  /** The chart's `teeth` record, keyed by tooth id. */
  datatype ChartState = ChartState(teeth: map<string, Tooth>)

  /** The entry an edit creates for a tooth the chart does not list yet. */
  const NewTooth := Tooth(true, map[], None)

  const PrimaryLetters: seq<string> :=
    ["A", "B", "C", "D", "E", "F", "G", "H", "I", "J", "K", "L", "M", "N", "O", "P", "Q", "R", "S", "T"]

  /** `getPermanentUniversalNumbers`: "1" to "32". */
  function PermanentNumbers(): (r: seq<string>)
    ensures |r| == 32 && forall k :: 0 <= k < 32 ==> r[k] == JsText.NatToString(k + 1)
  {
    seq(32, i requires 0 <= i < 32 => JsText.NatToString(i + 1))
  }

  predicate DistinctIds(ids: seq<string>) {
    forall i, j :: 0 <= i < j < |ids| ==> ids[i] != ids[j]
  }

  /** The permanent tooth numbers are 32 different ids. */
  lemma PermanentNumbersDistinct()
    ensures DistinctIds(PermanentNumbers())
  {
    var r := PermanentNumbers();
    forall i, j | 0 <= i < j < |r| ensures r[i] != r[j] {
      if r[i] == r[j] {
        JsText.NatToStringInjective(i + 1, j + 1);
      }
    }
  }

  /** The primary letters are the twenty letters from A to T, each once. */
  lemma PrimaryLettersSpelled()
    ensures |PrimaryLetters| == 20
    ensures forall k :: 0 <= k < 20 ==> PrimaryLetters[k] == [('A' as int + k) as char]
    ensures DistinctIds(PrimaryLetters)
  {
  }

  /** `teethList`: the letters for primary dentition, the numbers for any other. */
  function TeethList(dentition: Option<string>): (r: seq<string>)
    ensures dentition == Some("primary") ==> r == PrimaryLetters
    ensures dentition != Some("primary") ==> |r| == 32 && forall k :: 0 <= k < 32 ==> r[k] == JsText.NatToString(k + 1)
    ensures DistinctIds(r)
  {
    PermanentNumbersDistinct();
    PrimaryLettersSpelled();
    if dentition == Some("primary") then PrimaryLetters else PermanentNumbers()
  }

  /** A tooth with no entry is shown as present. */
  predicate ShownPresent(chart: ChartState, id: string) {
    id !in chart.teeth || chart.teeth[id].present
  }

  /** Every tooth other than `id` has the same entry, or the same absence of one. */
  predicate OthersUnchanged(before: ChartState, after: ChartState, id: string) {
    (forall t :: t in after.teeth && t != id ==> t in before.teeth)
    && (forall t :: t in before.teeth && t != id ==> t in after.teeth && after.teeth[t] == before.teeth[t])
  }

  /**
   * `togglePresence` on the copy: a missing entry is first created present,
   * then the flag is flipped, so the first toggle of such a tooth marks it
   * missing.
   */
  function TogglePresence(chart: ChartState, id: string): (r: ChartState)
    ensures id in r.teeth && r.teeth[id].present == !ShownPresent(chart, id)
    ensures id in chart.teeth ==> r.teeth[id] == chart.teeth[id].(present := !chart.teeth[id].present)
    ensures id !in chart.teeth ==> r.teeth[id] == NewTooth.(present := false)
    ensures OthersUnchanged(chart, r, id)
  {
    var tooth := if id in chart.teeth then chart.teeth[id] else NewTooth;
    ChartState(chart.teeth[id := tooth.(present := !tooth.present)])
  }

  /** Two toggles restore what is shown, and restore the chart itself when the tooth had an entry. */
  lemma ToggleTwice(chart: ChartState, id: string)
    ensures ShownPresent(TogglePresence(TogglePresence(chart, id), id), id) == ShownPresent(chart, id)
    ensures id in chart.teeth ==> TogglePresence(TogglePresence(chart, id), id) == chart
    ensures id !in chart.teeth ==> TogglePresence(TogglePresence(chart, id), id) == ChartState(chart.teeth[id := NewTooth])
  {
    var once := TogglePresence(chart, id);
    var twice := TogglePresence(once, id);
    if id in chart.teeth {
      assert twice.teeth == chart.teeth;
    }
  }

  /** `ensureTooth`'s copy: the chart with a fresh present entry, or nothing to emit when the tooth is listed. */
  function EnsureTooth(chart: ChartState, id: string): (r: Option<ChartState>)
    ensures id in chart.teeth <==> r.None?
    ensures r.Some? ==> r.value.teeth == chart.teeth[id := NewTooth]
  {
    if id in chart.teeth then None else Some(ChartState(chart.teeth[id := NewTooth]))
  }

  /** The assignment `next.teeth[id].conditions[surf] = cond` on a listed tooth. */
  function SetCondition(chart: ChartState, id: string, surf: Surface, cond: Condition): (r: ChartState)
    requires id in chart.teeth
    ensures id in r.teeth && r.teeth[id].conditions == chart.teeth[id].conditions[surf := cond]
    ensures r.teeth[id].present == chart.teeth[id].present && r.teeth[id].notes == chart.teeth[id].notes
    ensures forall s :: s != surf ==> (s in r.teeth[id].conditions <==> s in chart.teeth[id].conditions)
    ensures OthersUnchanged(chart, r, id)
  {
    var tooth := chart.teeth[id];
    ChartState(chart.teeth[id := tooth.(conditions := tooth.conditions[surf := cond])])
  }

  /** What a click handler does: the charts handed to `onChange`, in order, and whether it threw. */
  datatype Outcome = Outcome(emitted: seq<ChartState>, threw: bool)

  /** The presence button: nothing when read-only, else one toggled copy (if anyone listens). */
  function ToggleClick(value: ChartState, id: string, readOnly: bool, hasOnChange: bool): (o: Outcome)
    ensures !o.threw
    ensures readOnly || !hasOnChange ==> o.emitted == []
    ensures !readOnly && hasOnChange ==> o.emitted == [TogglePresence(value, id)]
  {
    if readOnly || !hasOnChange then Outcome([], false) else Outcome([TogglePresence(value, id)], false)
  }

  /**
   * The Apply button as written.  `ensureTooth` emits a copy with the tooth
   * added, then the handler copies `value` again and assigns into the
   * tooth's conditions.  It finds the tooth only if the parent has already
   * written the emitted chart back as `value` (`writesBack`); otherwise the
   * assignment goes through `undefined` and throws.
   */
  function ApplyClickAsWritten(value: ChartState, id: string, surf: Surface, cond: Condition,
                               readOnly: bool, hasOnChange: bool, writesBack: bool): (o: Outcome)
    ensures readOnly ==> o == Outcome([], false)
    ensures !readOnly && id in value.teeth
      ==> (!o.threw && o.emitted == (if hasOnChange then [SetCondition(value, id, surf, cond)] else []))
    ensures !readOnly && id !in value.teeth ==> (o.threw <==> !(hasOnChange && writesBack))
  {
    if readOnly then Outcome([], false)
    else
      var ensured := EnsureTooth(value, id);
      var first := if ensured.Some? && hasOnChange then [ensured.value] else [];
      var current := if ensured.Some? && hasOnChange && writesBack then ensured.value else value;
      if id !in current.teeth then Outcome(first, true)
      else Outcome(first + (if hasOnChange then [SetCondition(current, id, surf, cond)] else []), false)
  }

  /** A tooth with no entry, in a chart whose edits are not written back before the handler goes on, makes Apply throw. */
  lemma ApplyToUnlistedToothThrows(value: ChartState, id: string, surf: Surface, cond: Condition, hasOnChange: bool)
    requires id !in value.teeth
    ensures ApplyClickAsWritten(value, id, surf, cond, false, hasOnChange, false).threw
  {
  }

  /**
   * `applyCondition` as evidently intended: the condition lands on the
   * tooth, which is created present when it has no entry yet, and nothing
   * else changes.
   */
  function ApplyCondition(chart: ChartState, id: string, surf: Surface, cond: Condition): (r: ChartState)
    ensures id in r.teeth && surf in r.teeth[id].conditions && r.teeth[id].conditions[surf] == cond
    ensures id in chart.teeth ==> r == SetCondition(chart, id, surf, cond)
    ensures id !in chart.teeth ==> r.teeth[id] == NewTooth.(conditions := map[surf := cond])
    ensures OthersUnchanged(chart, r, id)
  {
    var tooth := if id in chart.teeth then chart.teeth[id] else NewTooth;
    ChartState(chart.teeth[id := tooth.(conditions := tooth.conditions[surf := cond])])
  }

  /** The Apply button with the tooth created on the copy: it never throws and its last emitted chart is `ApplyCondition`. */
  function ApplyClick(value: ChartState, id: string, surf: Surface, cond: Condition, readOnly: bool, hasOnChange: bool): (o: Outcome)
    ensures !o.threw
    ensures readOnly || !hasOnChange ==> o.emitted == []
    ensures !readOnly && hasOnChange ==> o.emitted == [ApplyCondition(value, id, surf, cond)]
  {
    if readOnly || !hasOnChange then Outcome([], false) else Outcome([ApplyCondition(value, id, surf, cond)], false)
  }

  /**
   * Where the written handler does not throw, its last emitted chart is the
   * intended one: with the tooth listed, or with the parent writing the
   * first copy back.
   */
  lemma AsWrittenAgreesWhenItWorks(value: ChartState, id: string, surf: Surface, cond: Condition, writesBack: bool)
    requires id in value.teeth || writesBack
    ensures var o := ApplyClickAsWritten(value, id, surf, cond, false, true, writesBack);
      !o.threw && |o.emitted| > 0 && o.emitted[|o.emitted| - 1] == ApplyCondition(value, id, surf, cond)
  {
    if id !in value.teeth {
      var ensured := ChartState(value.teeth[id := NewTooth]);
      assert SetCondition(ensured, id, surf, cond).teeth == ApplyCondition(value, id, surf, cond).teeth;
    }
  }
}
