/**
 * The state of the scouting form (`App`, src/App.tsx:443-549): the form
 * values and the timers, changed only by the four handlers and the periodic
 * tick, and read by the export and by the inline timer text of a timer field
 * (src/App.tsx:623-642). The clock `Date.now()` is the parameter `now`.
 */
module Engine {
  import opened Wrappers
  import opened Schema
  import opened JsObjects
  import opened FormState
  import opened Timers
  import opened Ranking
  import opened Export
  import opened Catalog
  import opened AppState
  import Json
  import Decimal
  import TimerDisplay

  class FormEngine {
    /** `formData`: field code to current value. */
    var formData: Form
    /** `timers`: timer code to its stopwatch state. */
    var timers: TimerTable
    /** The codes whose timer has been toggled at least once. */
    ghost var toggled: set<string>

    ghost predicate Valid()
      reads this
    {
      EngineInvariant(formData, timers, toggled)
    }

    /** The first render: every field of the six catalogs at its default, no timer yet (src/App.tsx:446-453). */
    constructor()
      ensures Valid()
      ensures formData == InitialForm(AllFields())
      ensures timers == Empty() && toggled == {}
    {
      formData := InitialForm(AllFields());
      timers := Empty();
      toggled := {};
      new;
      InitialStateValid(formData, timers, toggled);
    }

    /**
     * `handleInputChange(code, value)`: stores `value` under `code`, with no
     * check against the field's bounds. Every control passes its own field's code.
     */
    method HandleInputChange(code: string, value: Value)
      requires Valid()
      requires code in Codes(AllFields())
      modifies this
      ensures Valid()
      ensures formData == old(formData).Put(code, value)
      ensures formData.Get(code) == Some(value)
      ensures forall k :: k != code ==> formData.Get(k) == old(formData).Get(k)
      ensures timers == old(timers) && toggled == old(toggled)
    {
      ExportNamesAreNotCodes();
      formData := formData.Put(code, value);
    }

    /** `handleCounter(code, increment)`, looking `code` up among the autonomous, teleop and endgame fields. */
    method HandleCounter(code: string, increment: bool)
      requires Valid()
      modifies this
      ensures Valid()
      ensures formData == AdjustCounter(CounterFields(), old(formData), code, increment)
      ensures forall k :: k != code ==> formData.Get(k) == old(formData).Get(k)
      ensures timers == old(timers) && toggled == old(toggled)
    {
      CounterCodesAreNotExportNames();
      formData := AdjustCounter(CounterFields(), formData, code, increment);
    }

    /** `toggleTimer(code)` at `now`; the form values are untouched. */
    method ToggleTimer(code: string, now: int)
      requires Valid()
      requires code in Codes(AllFields())
      modifies this
      ensures Valid()
      ensures timers == Toggle(old(timers), code, now)
      ensures toggled == old(toggled) + {code}
      ensures formData == old(formData)
    {
      timers := Toggle(timers, code, now);
      toggled := toggled + {code};
    }

    /** One firing of the 100 ms interval at `now`: the updater's result replaces the timers. */
    method Tick(now: int)
      requires Valid()
      modifies this
      ensures Valid()
      ensures timers == Ticked(old(timers), now)
      ensures !AnyRunning(old(timers)) ==> timers == old(timers)
      ensures formData == old(formData) && toggled == old(toggled)
    {
      var next, updated := TickTimers(timers, now);
      timers := next;
    }

    /** `getFormDataString()`, with the ranking-point total as the memoised computation makes it. */
    method GetFormDataString() returns (s: string)
      requires Valid()
      ensures s == FormDataString(formData, timers)
    {
      var total := TotalRankingPoints(formData);
      s := Json.Serialize(Json.JObject(Members(ExportRecord(formData, timers, total))));
    }

    /**
     * The exported record has the form keys in their order followed by
     * `timers` and `totalRankingPoints`; the form values are unchanged and the
     * total is the ranking-point total of the form.
     */
    lemma ExportedKeys()
      requires Valid()
      ensures var record := ExportRecord(formData, timers, RankingPoints(formData));
              && record.order == formData.order + ["timers", "totalRankingPoints"]
              && (forall k :: k in record.entries <==> k in formData.entries || k == "timers" || k == "totalRankingPoints")
              && (forall k :: k in formData.entries ==> record.Get(k) == Some(ToJson(formData.entries[k])))
              && record.Get("totalRankingPoints") == Some(Json.JNumber(RankingPoints(formData)))
    {
      ExportRecordShape(formData, timers, RankingPoints(formData));
    }

    /** The `timers` property of the export lists exactly the codes toggled at least once. */
    lemma ExportedTimersAreToggled()
      requires Valid()
      ensures forall k :: k in Elapsed(timers).entries <==> k in toggled
    {
      ElapsedContents(timers);
    }
  }

  /**
   * The time the timer field shows at `now`, as `renderField` computes it: a
   * missing timer counts as stopped with nothing elapsed, a running one adds
   * the interval since its start.
   */
  function TotalElapsed(timers: TimerTable, code: string, now: int): (e: int)
    ensures e == Shown(timers.Get(code).GetOr(Unstarted), now)
  {
    var running := timers.Get(code).Some? && timers.Get(code).value.isRunning;
    var elapsed := if timers.Get(code).Some? then timers.Get(code).value.elapsed else 0;
    if running then elapsed + (now - timers.Get(code).value.startTime) else elapsed
  }

  /** The text the timer field shows at `now`: whole seconds, a dot, two-digit hundredths. */
  function TimerText(timers: TimerTable, code: string, now: int): (r: string)
    ensures r == TimerDisplay.Display(TotalElapsed(timers, code, now))
  {
    var totalElapsed := TotalElapsed(timers, code, now);
    var seconds := totalElapsed / 1000;
    var hundredths := TimerDisplay.JsRemainder(totalElapsed, 1000) / 10;
    assert seconds == TimerDisplay.Seconds(totalElapsed) && hundredths == TimerDisplay.Hundredths(totalElapsed);
    Decimal.IntToString(seconds) + "." + TimerDisplay.PadStart(Decimal.IntToString(hundredths), 2, '0')
  }

  /**
   * The inline timer text is the `Timer` component's display of the time the
   * timer shows at `now`; for a stopped or missing timer it is the same text
   * at every instant.
   */
  lemma TimerTextIsDisplay(timers: TimerTable, code: string, now: int, later: int)
    ensures TimerText(timers, code, now) == TimerDisplay.Display(Shown(timers.Get(code).GetOr(Unstarted), now))
    ensures !timers.Get(code).GetOr(Unstarted).isRunning ==> TimerText(timers, code, now) == TimerText(timers, code, later)
  {
  }

  /** All five ranking-point flags start unset, so the total starts at 0. */
  lemma InitialRankingPointsZero()
    ensures RankingPoints(InitialForm(AllFields())) == 0
  {
    InitialFormOfCatalog();
    RankingFlagsStartUnset();
    NoFlagSetIsZero(InitialForm(AllFields()));
  }

  /** Pre-match, post-match and ranking-point codes are not counters: the counter handler leaves the form as it is. */
  lemma CounterIgnoresOtherSections(form: Form, code: string, increment: bool)
    requires form.Valid()
    requires code in Codes(PrematchFields()) || code in Codes(PostmatchFields()) || code in Codes(RankingPointsFields())
    ensures AdjustCounter(CounterFields(), form, code, increment) == form
  {
    PrematchFieldsPositioned();
    PostmatchFieldsPositioned();
    RankingPointsFieldsPositioned();
    CounterCodePositions();
    assert CodePosition(code) < 7 || CodePosition(code) >= 31;
    forall j | 0 <= j < |CounterFields()| ensures CounterFields()[j].code != code {
    }
    assert code !in Codes(CounterFields());
  }

  /** The autonomous level 1 coral counter is found by the counter handler and counts in steps of 1. */
  lemma CoralLevelOneCounter()
    ensures FindField(CounterFields(), "CLOA").Some?
    ensures StepOf(FindField(CounterFields(), "CLOA").value) == 1
  {
    assert CounterFields()[2] == AutonomousFields()[2];
    assert CounterFields()[2].code == "CLOA" && CounterFields()[2].step == Some(1);
    assert "CLOA" in Codes(CounterFields());
  }

  /** From 0, that counter goes 0, 1, 0 under decrement, increment, decrement. */
  lemma CoralLevelOneScenario(form: Form)
    requires form.Valid() && form.Get("CLOA") == Some(NumValue(0))
    ensures var f1 := AdjustCounter(CounterFields(), form, "CLOA", false);
            var f2 := AdjustCounter(CounterFields(), f1, "CLOA", true);
            var f3 := AdjustCounter(CounterFields(), f2, "CLOA", false);
            && f1.Get("CLOA") == Some(NumValue(0))
            && f2.Get("CLOA") == Some(NumValue(1))
            && f3.Get("CLOA") == Some(NumValue(0))
  {
    CoralLevelOneCounter();
    UnitCounterScenario(CounterFields(), form, "CLOA");
  }
}
