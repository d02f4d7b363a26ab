/**
 * The export record of `getFormDataString` (src/App.tsx:519-529): the form
 * values, then the property `timers` holding each timer's stored `elapsed`,
 * then `totalRankingPoints`; and the JSON text `JSON.stringify` makes of it.
 */
module Export {
  import opened Wrappers
  import opened Schema
  import opened JsObjects
  import opened Timers
  import opened Ranking
  import opened Json
  import opened FormState

  /** A record whose property values are JSON values. */
  type Record = JsObject<Json>

  /** A form value as the JSON value it is written as: never an object, and read back by `FromJson`. */
  function ToJson(v: Value): (r: Json)
    ensures !r.JObject? && FromJson(r) == Some(v)
  {
    match v
    case StrValue(s) => JString(s)
    case NumValue(n) => JNumber(n)
    case BoolValue(b) => JBool(b)
  }

  /** The form value a JSON string, number or boolean stands for; None for an object. */
  function FromJson(j: Json): Option<Value> {
    match j
    case JString(s) => Some(StrValue(s))
    case JNumber(n) => Some(NumValue(n))
    case JBool(b) => Some(BoolValue(b))
    case JObject(_) => None
  }

  /** `{ ...formData }`: the form values, in the form's key order. */
  function Spread(form: Form): (r: Record)
    requires form.Valid()
    ensures r.Valid() && r.order == form.order && r.entries.Keys == form.entries.Keys
    ensures forall k :: k in form.entries ==> r.Get(k) == Some(ToJson(form.entries[k]))
  {
    JsObject(form.order, map k | k in form.entries :: ToJson(form.entries[k]))
  }

  /** The stored `elapsed` of every timer, in the timers' key order. */
  function ElapsedValues(timers: TimerTable): (r: seq<Json>)
    ensures |r| == |timers.order|
    ensures timers.Valid() ==>
              forall i :: 0 <= i < |r| ==> r[i] == JNumber(timers.entries[timers.order[i]].elapsed)
  {
    seq(|timers.order|, i requires 0 <= i < |timers.order| =>
      JNumber(timers.Get(timers.order[i]).GetOr(Unstarted).elapsed))
  }

  /** The `reduce` over `Object.entries(timers)` writing `acc[code] = timer.elapsed`. */
  function Elapsed(timers: TimerTable): (r: Record)
    requires timers.Valid()
    ensures r.Valid()
  {
    Assign(Empty(), timers.order, ElapsedValues(timers))
  }

  /**
   * The `timers` property holds exactly the codes of the timer table, in its
   * order, each with the stored `elapsed` (not the interval running since the
   * last tick).
   */
  lemma ElapsedContents(timers: TimerTable)
    requires timers.Valid()
    ensures Elapsed(timers).order == timers.order
    ensures forall k :: k in Elapsed(timers).entries <==> k in timers.entries
    ensures forall k :: k in timers.entries ==> Elapsed(timers).Get(k) == Some(JNumber(timers.entries[k].elapsed))
  {
    var values := ElapsedValues(timers);
    var r := Elapsed(timers);
    AssignKeys(timers.order, values);
    forall k | k in timers.entries ensures r.Get(k) == Some(JNumber(timers.entries[k].elapsed)) {
      var i :| 0 <= i < |timers.order| && timers.order[i] == k;
      AssignAt(Empty(), timers.order, values, i);
    }
  }

  /** The members of a record, as `JSON.stringify` walks them: in key order. */
  function Members(o: Record): (ms: seq<Member>)
    ensures |ms| == |o.order|
    ensures forall i :: 0 <= i < |ms| ==> ms[i].key == o.order[i]
  {
    seq(|o.order|, i requires 0 <= i < |o.order| => Member(o.order[i], o.Get(o.order[i]).GetOr(JNumber(0))))
  }

  /** The record built in `getFormDataString` for a given ranking-point total. */
  function ExportRecord(form: Form, timers: TimerTable, total: int): (r: Record)
    requires form.Valid() && timers.Valid()
    ensures r.Valid()
  {
    Spread(form).Put("timers", JObject(Members(Elapsed(timers)))).Put("totalRankingPoints", JNumber(total))
  }

  /**
   * When no form key is named `timers` or `totalRankingPoints`, the record has
   * the form keys in their order followed by those two, the form values
   * unchanged, the timer table under `timers` and the total under
   * `totalRankingPoints`.
   */
  lemma ExportRecordShape(form: Form, timers: TimerTable, total: int)
    requires form.Valid() && timers.Valid()
    requires "timers" !in form.entries && "totalRankingPoints" !in form.entries
    ensures ExportRecord(form, timers, total).order == form.order + ["timers", "totalRankingPoints"]
    ensures forall k :: k in ExportRecord(form, timers, total).entries <==>
              k in form.entries || k == "timers" || k == "totalRankingPoints"
    ensures forall k :: k in form.entries ==> ExportRecord(form, timers, total).Get(k) == Some(ToJson(form.entries[k]))
    ensures ExportRecord(form, timers, total).Get("timers") == Some(JObject(Members(Elapsed(timers))))
    ensures ExportRecord(form, timers, total).Get("totalRankingPoints") == Some(JNumber(total))
  {
    var withTimers := Spread(form).Put("timers", JObject(Members(Elapsed(timers))));
    assert withTimers.order == form.order + ["timers"];
    assert form.order + ["timers"] + ["totalRankingPoints"] == form.order + ["timers", "totalRankingPoints"];
  }

  /** `getFormDataString()`: the record, with the ranking-point total of the form, as JSON text. */
  function FormDataString(form: Form, timers: TimerTable): (r: string)
    requires form.Valid() && timers.Valid()
    ensures |r| >= 2 && r[0] == '{' && r[|r| - 1] == '}'
  {
    Serialize(JObject(Members(ExportRecord(form, timers, RankingPoints(form)))))
  }

  // ---------------------------------------------------------------- reading back

  function MemberKeys(ms: seq<Member>): (r: seq<string>)
    ensures |r| == |ms| && forall i :: 0 <= i < |ms| ==> r[i] == ms[i].key
  {
    seq(|ms|, i requires 0 <= i < |ms| => ms[i].key)
  }

  function MemberValues(ms: seq<Member>): (r: seq<Json>)
    ensures |r| == |ms| && forall i :: 0 <= i < |ms| ==> r[i] == ms[i].value
  {
    seq(|ms|, i requires 0 <= i < |ms| => ms[i].value)
  }

  /** The object `JSON.parse` builds from the members of an object text, in order. */
  function ObjectOf(ms: seq<Member>): (r: Record)
    ensures r.Valid()
  {
    Assign(Empty(), MemberKeys(ms), MemberValues(ms))
  }

  /** `JSON.parse` of a text holding an object; None for any other text. */
  function Decode(text: string): Option<Record> {
    match Parse(text)
    case Some(JObject(ms)) => Some(ObjectOf(ms))
    case _ => None
  }

  /** Listing a record's members and building an object from them gives the record back. */
  lemma MembersRebuild(o: Record)
    requires o.Valid()
    ensures ObjectOf(Members(o)) == o
  {
    var ms := Members(o);
    var r := ObjectOf(ms);
    assert MemberKeys(ms) == o.order;
    AssignKeys(o.order, MemberValues(ms));
    forall k | k in o.entries ensures r.entries[k] == o.entries[k] {
      var i :| 0 <= i < |o.order| && o.order[i] == k;
      AssignAt(Empty(), o.order, MemberValues(ms), i);
    }
    assert r.entries == o.entries;
  }

  /**
   * Reading the exported text back gives the export record, with the
   * ranking-point total of the form, and its `timers` property reads back as
   * the table of stored elapsed times.
   */
  lemma ExportRoundTrip(form: Form, timers: TimerTable)
    requires form.Valid() && timers.Valid()
    ensures Decode(FormDataString(form, timers)) == Some(ExportRecord(form, timers, RankingPoints(form)))
    ensures ObjectOf(Members(Elapsed(timers))) == Elapsed(timers)
  {
    var record := ExportRecord(form, timers, RankingPoints(form));
    RoundTrip(JObject(Members(record)));
    MembersRebuild(record);
    MembersRebuild(Elapsed(timers));
  }
}
