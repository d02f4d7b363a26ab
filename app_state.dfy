/**
 * The invariant of the state of the scouting form (`App`, src/App.tsx:443-549)
 * and the state of its first render (src/App.tsx:446-453).
 */
module AppState {
  import opened Wrappers
  import opened Schema
  import opened JsObjects
  import opened FormState
  import opened Timers
  import opened Catalog

  /**
   * The form starts with one entry per field, in catalog order, holding the
   * field's default, and no field is named like the two properties the export
   * adds.
   */
  lemma InitialFormOfCatalog()
    ensures InitialForm(AllFields()).order == Codes(AllFields())
    ensures forall i :: 0 <= i < |AllFields()| ==>
              InitialForm(AllFields()).Get(AllFields()[i].code) == Some(AllFields()[i].defaultValue)
    ensures "timers" !in InitialForm(AllFields()).entries
    ensures "totalRankingPoints" !in InitialForm(AllFields()).entries
  {
    AllCodesDistinct();
    InitialFormDefaults(AllFields());
    ExportNamesAreNotCodes();
  }

  /**
   * The invariant of the engine: both tables are well-formed objects, the
   * timer table has an entry exactly for the toggled codes, and no form key
   * is one of the two names the export adds.
   */
  ghost predicate EngineInvariant(formData: Form, timers: TimerTable, toggled: set<string>)
  {
    && formData.Valid()
    && timers.Valid()
    && timers.entries.Keys == toggled
    && "timers" !in formData.entries && "totalRankingPoints" !in formData.entries
  }

  /** The first render's state keeps the invariant. */
  lemma InitialStateValid(formData: Form, timers: TimerTable, toggled: set<string>)
    requires formData == InitialForm(AllFields()) && timers == Empty() && toggled == {}
    ensures EngineInvariant(formData, timers, toggled)
  {
    InitialFormOfCatalog();
  }
}
