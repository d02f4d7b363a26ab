/**
 * The six ordered field catalogs of the scouting form (src/App.tsx:17-442),
 * their concatenation used to initialise the form, and the catalog facts the
 * engine relies on: field codes are unique, no code collides with the two keys
 * the export record adds, and every default agrees with its own constraints.
 */
module Catalog {
  import opened Wrappers
  import opened Schema
  import opened JsObjects

  /** Field `i` of the pre-match section (src/App.tsx:17-100), in form order. */
  function PrematchField(i: int): FieldDescriptor
    requires 0 <= i < 7
  {
    match i
    case 0 =>
      FieldDescriptor(
        kind := Text,
        required := true,
        code := "scouter",
        formResetBehavior := Preserve,
        defaultValue := StrValue(""),
        choices := None,
        min := None,
        max := None,
        step := None,
        outputType := None)
    case 1 =>
      FieldDescriptor(
        kind := Number,
        required := true,
        code := "matchNumber",
        formResetBehavior := Increment,
        defaultValue := NumValue(1),
        choices := None,
        min := None,
        max := None,
        step := None,
        outputType := None)
    case 2 =>
      FieldDescriptor(
        kind := Select,
        required := true,
        code := "robot",
        formResetBehavior := Preserve,
        defaultValue := StrValue("R1"),
        choices := Some([Choice("R1", "Red 1"), Choice("R2", "Red 2"), Choice("R3", "Red 3"), Choice("B1", "Blue 1"), Choice("B2", "Blue 2"), Choice("B3", "Blue 3")]),
        min := None,
        max := None,
        step := None,
        outputType := None)
    case 3 =>
      FieldDescriptor(
        kind := Number,
        required := true,
        code := "teamNumber",
        formResetBehavior := Reset,
        defaultValue := NumValue(0),
        choices := None,
        min := Some(0),
        max := Some(19999),
        step := None,
        outputType := None)
    case 4 =>
      FieldDescriptor(
        kind := Select,
        required := true,
        code := "Prsp",
        formResetBehavior := Reset,
        defaultValue := StrValue(""),
        choices := Some([Choice("R1", "Processor Side"), Choice("R2", "Middle"), Choice("R3", "Non-Processor Side")]),
        min := None,
        max := None,
        step := None,
        outputType := None)
    case 5 =>
      FieldDescriptor(
        kind := Boolean,
        required := false,
        code := "noShow",
        formResetBehavior := Reset,
        defaultValue := BoolValue(false),
        choices := None,
        min := None,
        max := None,
        step := None,
        outputType := None)
    case _ =>
      FieldDescriptor(
        kind := Select,
        required := true,
        code := "CPos",
        formResetBehavior := Reset,
        defaultValue := StrValue(""),
        choices := Some([Choice("SP1", "High"), Choice("SP2", "Low")]),
        min := None,
        max := None,
        step := None,
        outputType := None)
  }

  /** The pre-match section: its fields in form order. */
  function PrematchFields(): (r: seq<FieldDescriptor>)
    ensures |r| == 7
  {
    seq(7, i requires 0 <= i < 7 => PrematchField(i))
  }

  /** Field `i` of the autonomous section (src/App.tsx:102-206), in form order. */
  function AutonomousField(i: int): FieldDescriptor
    requires 0 <= i < 10
  {
    match i
    case 0 =>
      FieldDescriptor(
        kind := Boolean,
        required := false,
        code := "Mved",
        formResetBehavior := Reset,
        defaultValue := BoolValue(false),
        choices := None,
        min := None,
        max := None,
        step := None,
        outputType := None)
    case 1 =>
      FieldDescriptor(
        kind := Timer,
        required := false,
        code := "timer",
        formResetBehavior := Reset,
        defaultValue := NumValue(0),
        choices := None,
        min := None,
        max := None,
        step := None,
        outputType := Some("average"))
    case 2 =>
      FieldDescriptor(
        kind := Counter,
        required := false,
        code := "CLOA",
        formResetBehavior := Reset,
        defaultValue := NumValue(0),
        choices := None,
        min := Some(0),
        max := None,
        step := Some(1),
        outputType := None)
    case 3 =>
      FieldDescriptor(
        kind := Counter,
        required := false,
        code := "CLTA",
        formResetBehavior := Reset,
        defaultValue := NumValue(0),
        choices := None,
        min := Some(0),
        max := None,
        step := Some(1),
        outputType := None)
    case 4 =>
      FieldDescriptor(
        kind := Counter,
        required := false,
        code := "CLThA",
        formResetBehavior := Reset,
        defaultValue := NumValue(0),
        choices := None,
        min := Some(0),
        max := None,
        step := Some(1),
        outputType := None)
    case 5 =>
      FieldDescriptor(
        kind := Counter,
        required := false,
        code := "CLFA",
        formResetBehavior := Reset,
        defaultValue := NumValue(0),
        choices := None,
        min := Some(0),
        max := None,
        step := Some(1),
        outputType := None)
    case 6 =>
      FieldDescriptor(
        kind := Counter,
        required := false,
        code := "BASA",
        formResetBehavior := Reset,
        defaultValue := NumValue(0),
        choices := None,
        min := Some(0),
        max := None,
        step := Some(1),
        outputType := None)
    case 7 =>
      FieldDescriptor(
        kind := Counter,
        required := false,
        code := "PASA",
        formResetBehavior := Reset,
        defaultValue := NumValue(0),
        choices := None,
        min := Some(0),
        max := None,
        step := Some(1),
        outputType := None)
    case 8 =>
      FieldDescriptor(
        kind := Boolean,
        required := false,
        code := "dto",
        formResetBehavior := Reset,
        defaultValue := BoolValue(false),
        choices := None,
        min := None,
        max := None,
        step := None,
        outputType := None)
    case _ =>
      FieldDescriptor(
        kind := Counter,
        required := false,
        code := "auf",
        formResetBehavior := Reset,
        defaultValue := NumValue(0),
        choices := None,
        min := Some(0),
        max := None,
        step := Some(1),
        outputType := None)
  }

  /** The autonomous section: its fields in form order. */
  function AutonomousFields(): (r: seq<FieldDescriptor>)
    ensures |r| == 10
  {
    seq(10, i requires 0 <= i < 10 => AutonomousField(i))
  }

  /** Field `i` of the tele-op section (src/App.tsx:208-322), in form order. */
  function TeleopField(i: int): FieldDescriptor
    requires 0 <= i < 11
  {
    match i
    case 0 =>
      FieldDescriptor(
        kind := Boolean,
        required := false,
        code := "daT",
        formResetBehavior := Reset,
        defaultValue := BoolValue(false),
        choices := None,
        min := None,
        max := None,
        step := None,
        outputType := None)
    case 1 =>
      FieldDescriptor(
        kind := Select,
        required := false,
        code := "TGPL",
        formResetBehavior := Reset,
        defaultValue := StrValue(""),
        choices := Some([Choice("1", "None"), Choice("2", "Ground"), Choice("3", "Human Player"), Choice("4", "Both")]),
        min := None,
        max := None,
        step := None,
        outputType := None)
    case 2 =>
      FieldDescriptor(
        kind := Counter,
        required := false,
        code := "CLOT",
        formResetBehavior := Reset,
        defaultValue := NumValue(0),
        choices := None,
        min := Some(0),
        max := None,
        step := Some(1),
        outputType := None)
    case 3 =>
      FieldDescriptor(
        kind := Counter,
        required := false,
        code := "CLTT",
        formResetBehavior := Reset,
        defaultValue := NumValue(0),
        choices := None,
        min := Some(0),
        max := None,
        step := Some(1),
        outputType := None)
    case 4 =>
      FieldDescriptor(
        kind := Counter,
        required := false,
        code := "CLThT",
        formResetBehavior := Reset,
        defaultValue := NumValue(0),
        choices := None,
        min := Some(0),
        max := None,
        step := Some(1),
        outputType := None)
    case 5 =>
      FieldDescriptor(
        kind := Counter,
        required := false,
        code := "CLFT",
        formResetBehavior := Reset,
        defaultValue := NumValue(0),
        choices := None,
        min := Some(0),
        max := None,
        step := Some(1),
        outputType := None)
    case 6 =>
      FieldDescriptor(
        kind := Counter,
        required := false,
        code := "BAST",
        formResetBehavior := Reset,
        defaultValue := NumValue(0),
        choices := None,
        min := Some(0),
        max := None,
        step := Some(1),
        outputType := None)
    case 7 =>
      FieldDescriptor(
        kind := Counter,
        required := false,
        code := "PAST",
        formResetBehavior := Reset,
        defaultValue := NumValue(0),
        choices := None,
        min := Some(0),
        max := None,
        step := Some(1),
        outputType := None)
    case 8 =>
      FieldDescriptor(
        kind := Boolean,
        required := false,
        code := "CFPDT",
        formResetBehavior := Reset,
        defaultValue := BoolValue(false),
        choices := None,
        min := None,
        max := None,
        step := None,
        outputType := None)
    case 9 =>
      FieldDescriptor(
        kind := Boolean,
        required := false,
        code := "DEFEg",
        formResetBehavior := Reset,
        defaultValue := BoolValue(false),
        choices := None,
        min := None,
        max := None,
        step := None,
        outputType := None)
    case _ =>
      FieldDescriptor(
        kind := Counter,
        required := false,
        code := "Fou/Tech",
        formResetBehavior := Reset,
        defaultValue := NumValue(0),
        choices := None,
        min := None,
        max := None,
        step := Some(1),
        outputType := None)
  }

  /** The tele-op section: its fields in form order. */
  function TeleopFields(): (r: seq<FieldDescriptor>)
    ensures |r| == 11
  {
    seq(11, i requires 0 <= i < 11 => TeleopField(i))
  }

  /** Field `i` of the endgame section (src/App.tsx:324-356), in form order. */
  function EndgameField(i: int): FieldDescriptor
    requires 0 <= i < 3
  {
    match i
    case 0 =>
      FieldDescriptor(
        kind := Select,
        required := true,
        code := "epo",
        formResetBehavior := Reset,
        defaultValue := StrValue("No"),
        choices := Some([Choice("No", "Not Parked"), Choice("P", "Parked"), Choice("Sc", "High Hang"), Choice("Dc", "Low Hang"), Choice("Fc", "Failed Hang")]),
        min := None,
        max := None,
        step := None,
        outputType := None)
    case 1 =>
      FieldDescriptor(
        kind := Boolean,
        required := false,
        code := "DEg",
        formResetBehavior := Reset,
        defaultValue := BoolValue(false),
        choices := None,
        min := None,
        max := None,
        step := None,
        outputType := None)
    case _ =>
      FieldDescriptor(
        kind := Boolean,
        required := false,
        code := "TFOT",
        formResetBehavior := Reset,
        defaultValue := BoolValue(false),
        choices := None,
        min := None,
        max := None,
        step := None,
        outputType := None)
  }

  /** The endgame section: its fields in form order. */
  function EndgameFields(): (r: seq<FieldDescriptor>)
    ensures |r| == 3
  {
    seq(3, i requires 0 <= i < 3 => EndgameField(i))
  }

  /** Field `i` of the post-match section (src/App.tsx:358-394), in form order. */
  function PostmatchField(i: int): FieldDescriptor
    requires 0 <= i < 3
  {
    match i
    case 0 =>
      FieldDescriptor(
        kind := Range,
        required := false,
        code := "or",
        formResetBehavior := Reset,
        defaultValue := NumValue(3),
        choices := None,
        min := Some(1),
        max := Some(5),
        step := Some(1),
        outputType := None)
    case 1 =>
      FieldDescriptor(
        kind := Range,
        required := false,
        code := "dr",
        formResetBehavior := Reset,
        defaultValue := NumValue(0),
        choices := None,
        min := Some(0),
        max := Some(5),
        step := Some(1),
        outputType := None)
    case _ =>
      FieldDescriptor(
        kind := Select,
        required := true,
        code := "yc",
        formResetBehavior := Reset,
        defaultValue := StrValue("No Card"),
        choices := Some([Choice("No Card", "No Card"), Choice("Yellow", "Yellow Card"), Choice("Red", "Red Card")]),
        min := None,
        max := None,
        step := None,
        outputType := None)
  }

  /** The post-match section: its fields in form order. */
  function PostmatchFields(): (r: seq<FieldDescriptor>)
    ensures |r| == 3
  {
    seq(3, i requires 0 <= i < 3 => PostmatchField(i))
  }

  /** Field `i` of the ranking-points section (src/App.tsx:396-442), in form order. */
  function RankingPointsField(i: int): FieldDescriptor
    requires 0 <= i < 5
  {
    match i
    case 0 =>
      FieldDescriptor(
        kind := Boolean,
        required := false,
        code := "autoRP",
        formResetBehavior := Reset,
        defaultValue := BoolValue(false),
        choices := None,
        min := None,
        max := None,
        step := None,
        outputType := None)
    case 1 =>
      FieldDescriptor(
        kind := Boolean,
        required := false,
        code := "coralRP",
        formResetBehavior := Reset,
        defaultValue := BoolValue(false),
        choices := None,
        min := None,
        max := None,
        step := None,
        outputType := None)
    case 2 =>
      FieldDescriptor(
        kind := Boolean,
        required := false,
        code := "bargeRP",
        formResetBehavior := Reset,
        defaultValue := BoolValue(false),
        choices := None,
        min := None,
        max := None,
        step := None,
        outputType := None)
    case 3 =>
      FieldDescriptor(
        kind := Boolean,
        required := false,
        code := "winRP",
        formResetBehavior := Reset,
        defaultValue := BoolValue(false),
        choices := None,
        min := None,
        max := None,
        step := None,
        outputType := None)
    case _ =>
      FieldDescriptor(
        kind := Boolean,
        required := false,
        code := "tieRP",
        formResetBehavior := Reset,
        defaultValue := BoolValue(false),
        choices := None,
        min := None,
        max := None,
        step := None,
        outputType := None)
  }

  /** The ranking-points section: its fields in form order. */
  function RankingPointsFields(): (r: seq<FieldDescriptor>)
    ensures |r| == 5
  {
    seq(5, i requires 0 <= i < 5 => RankingPointsField(i))
  }

  /** All fields in the order the form state is built from them (src/App.tsx:447). */
  function AllFields(): (r: seq<FieldDescriptor>)
    ensures |r| == 39
  {
    PrematchFields() + AutonomousFields() + TeleopFields() + EndgameFields() + PostmatchFields() + RankingPointsFields()
  }

  /** The fields a counter adjustment looks its code up in (src/App.tsx:475). */
  function CounterFields(): (r: seq<FieldDescriptor>)
    ensures |r| == 24
  {
    AutonomousFields() + TeleopFields() + EndgameFields()
  }

  /** The position of each field code in `AllFields()`, and -1 for every other string. */
  function CodePosition(code: string): int {
    // grouped by length, so that a code is only ever compared with codes of its own length
    match |code|
    case 2 =>
      (match code
       case "or" => 31
       case "dr" => 32
       case "yc" => 33
       case _ => -1)
    case 3 =>
      (match code
       case "dto" => 15
       case "auf" => 16
       case "daT" => 17
       case "epo" => 28
       case "DEg" => 29
       case _ => -1)
    case 4 =>
      (match code
       case "Prsp" => 4
       case "CPos" => 6
       case "Mved" => 7
       case "CLOA" => 9
       case "CLTA" => 10
       case "CLFA" => 12
       case "BASA" => 13
       case "PASA" => 14
       case "TGPL" => 18
       case "CLOT" => 19
       case "CLTT" => 20
       case "CLFT" => 22
       case "BAST" => 23
       case "PAST" => 24
       case "TFOT" => 30
       case _ => -1)
    case 5 =>
      (match code
       case "robot" => 2
       case "timer" => 8
       case "CLThA" => 11
       case "CLThT" => 21
       case "CFPDT" => 25
       case "DEFEg" => 26
       case "winRP" => 37
       case "tieRP" => 38
       case _ => -1)
    case 6 =>
      (match code
       case "noShow" => 5
       case "autoRP" => 34
       case _ => -1)
    case 7 =>
      (match code
       case "scouter" => 0
       case "coralRP" => 35
       case "bargeRP" => 36
       case _ => -1)
    case 8 =>
      (match code
       case "Fou/Tech" => 27
       case _ => -1)
    case 10 =>
      (match code
       case "teamNumber" => 3
       case _ => -1)
    case 11 =>
      (match code
       case "matchNumber" => 1
       case _ => -1)
    case _ => -1
  }

  /** A list in which every entry sits at its own code position has no repeated entry. */
  lemma DistinctByPosition(s: seq<string>)
    requires forall i :: 0 <= i < |s| ==> CodePosition(s[i]) == i
    ensures Distinct(s)
  {
    forall i, j | 0 <= i < j < |s| ensures s[i] != s[j] {
      assert CodePosition(s[i]) != CodePosition(s[j]);
    }
  }

  // Each catalog occupies its own block of code positions.
  lemma PrematchFieldsPositioned()
    ensures forall i :: 0 <= i < |PrematchFields()| ==> CodePosition(PrematchFields()[i].code) == 0 + i
  {
  }

  lemma AutonomousFieldsPositioned()
    ensures forall i :: 0 <= i < |AutonomousFields()| ==> CodePosition(AutonomousFields()[i].code) == 7 + i
  {
    assert forall i :: 0 <= i < 5 ==> CodePosition(AutonomousFields()[i].code) == 7 + i;
  }

  lemma TeleopFieldsPositioned()
    ensures forall i :: 0 <= i < |TeleopFields()| ==> CodePosition(TeleopFields()[i].code) == 17 + i
  {
    assert forall i :: 0 <= i < 6 ==> CodePosition(TeleopFields()[i].code) == 17 + i;
  }

  lemma EndgameFieldsPositioned()
    ensures forall i :: 0 <= i < |EndgameFields()| ==> CodePosition(EndgameFields()[i].code) == 28 + i
  {
  }

  lemma PostmatchFieldsPositioned()
    ensures forall i :: 0 <= i < |PostmatchFields()| ==> CodePosition(PostmatchFields()[i].code) == 31 + i
  {
  }

  lemma RankingPointsFieldsPositioned()
    ensures forall i :: 0 <= i < |RankingPointsFields()| ==> CodePosition(RankingPointsFields()[i].code) == 34 + i
  {
  }

  /** Every code of the whole form sits at its own position. */
  lemma AllCodesPositioned()
    ensures |Codes(AllFields())| == 39
    ensures forall i :: 0 <= i < 39 ==> CodePosition(Codes(AllFields())[i]) == i
  {
    var all := AllFields();
    assert |all| == 39;
    PrematchFieldsPositioned();
    AutonomousFieldsPositioned();
    TeleopFieldsPositioned();
    EndgameFieldsPositioned();
    PostmatchFieldsPositioned();
    RankingPointsFieldsPositioned();
  }

  /** The field codes of the whole form are pairwise distinct. */
  lemma AllCodesDistinct()
    ensures Distinct(Codes(AllFields()))
  {
    AllCodesPositioned();
    DistinctByPosition(Codes(AllFields()));
  }

  /**
   * No field is coded `timers` or `totalRankingPoints`, the two properties the
   * export record adds after the form values (src/App.tsx:521-525).
   */
  lemma ExportNamesAreNotCodes()
    ensures "timers" !in Codes(AllFields()) && "totalRankingPoints" !in Codes(AllFields())
  {
    AllCodesPositioned();
    assert CodePosition("timers") == -1 && CodePosition("totalRankingPoints") == -1;
  }

  /** Every default agrees with its field's kind, choices and bounds. */
  lemma DefaultsConform()
    ensures forall i :: 0 <= i < |AllFields()| ==> DefaultConforms(AllFields()[i])
  {
    PrematchDefaultsConform();
    MatchDefaultsConform();
    EndgamePostmatchDefaultsConform();
    assert forall i :: 0 <= i < |RankingPointsFields()| ==> DefaultConforms(RankingPointsFields()[i]);
  }

  lemma MatchDefaultsConform()
    ensures forall i :: 0 <= i < |AutonomousFields()| ==> DefaultConforms(AutonomousFields()[i])
    ensures forall i :: 0 <= i < |TeleopFields()| ==> DefaultConforms(TeleopFields()[i])
  {
  }

  lemma PrematchDefaultsConform()
    ensures forall i :: 0 <= i < |PrematchFields()| ==> DefaultConforms(PrematchFields()[i])
  {
    // the robot selector starts on its first choice, "R1"
    assert ChoiceKeys(PrematchFields()[2].choices.value)[0] == "R1";
  }

  lemma EndgamePostmatchDefaultsConform()
    ensures forall i :: 0 <= i < |EndgameFields()| ==> DefaultConforms(EndgameFields()[i])
    ensures forall i :: 0 <= i < |PostmatchFields()| ==> DefaultConforms(PostmatchFields()[i])
  {
    // the end position starts on "No" and the card on "No Card", each its selector's first choice
    assert ChoiceKeys(EndgameFields()[0].choices.value)[0] == "No";
    assert ChoiceKeys(PostmatchFields()[2].choices.value)[0] == "No Card";
  }

  /** Every counter field of the form counts in steps of 1. */
  lemma CounterStepsAreOne()
    ensures forall i :: 0 <= i < |AllFields()| && AllFields()[i].kind == Counter ==> AllFields()[i].step == Some(1)
  {
    assert forall i :: 0 <= i < |AutonomousFields()| && AutonomousFields()[i].kind == Counter ==> AutonomousFields()[i].step == Some(1);
    assert forall i :: 0 <= i < |TeleopFields()| && TeleopFields()[i].kind == Counter ==> TeleopFields()[i].step == Some(1);
  }

  /** The codes a counter adjustment finds sit at positions 7 to 30, after the pre-match codes and before the rest. */
  lemma CounterCodePositions()
    ensures forall j :: 0 <= j < |CounterFields()| ==> 7 <= CodePosition(CounterFields()[j].code) < 31
  {
    AutonomousFieldsPositioned();
    TeleopFieldsPositioned();
    EndgameFieldsPositioned();
    var counters := CounterFields();
    forall j | 0 <= j < |counters| ensures 7 <= CodePosition(counters[j].code) < 31 {
      if j < 10 {
        assert counters[j] == AutonomousFields()[j];
      } else if j < 21 {
        assert counters[j] == TeleopFields()[j - 10];
      } else {
        assert counters[j] == EndgameFields()[j - 21];
      }
    }
  }

  /** The five ranking-point flags close the field list, each a boolean that starts unset. */
  lemma RankingFlagsStartUnset()
    ensures AllFields()[34].code == "autoRP" && AllFields()[35].code == "coralRP"
    ensures AllFields()[36].code == "bargeRP" && AllFields()[37].code == "winRP" && AllFields()[38].code == "tieRP"
    ensures forall i :: 34 <= i < 39 ==> AllFields()[i].defaultValue == BoolValue(false)
  {
    assert forall i :: 0 <= i < 5 ==> AllFields()[34 + i] == RankingPointsFields()[i];
  }

  /** The counter lookup is the slice of the form from position 7 to 30: the autonomous, teleop and endgame fields. */
  lemma CounterFieldsInForm()
    ensures forall j :: 0 <= j < |CounterFields()| ==> CounterFields()[j] == AllFields()[7 + j]
  {
    var rest := PostmatchFields() + RankingPointsFields();
    assert AllFields() == PrematchFields() + CounterFields() + rest;
  }

  /** No counter the handler finds is coded `timers` or `totalRankingPoints`. */
  lemma CounterCodesAreNotExportNames()
    ensures "timers" !in Codes(CounterFields()) && "totalRankingPoints" !in Codes(CounterFields())
  {
    CounterCodePositions();
    assert CodePosition("timers") == -1 && CodePosition("totalRankingPoints") == -1;
    forall j | 0 <= j < |CounterFields()|
      ensures CounterFields()[j].code != "timers" && CounterFields()[j].code != "totalRankingPoints"
    {
    }
  }
}
