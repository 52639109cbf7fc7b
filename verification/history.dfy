/** The history page's display decisions: the badge and label for a
    medication's remaining stock, the icon and badge for a log's status, the
    timestamp a log shows, and the flattening of the nested log query rows. */
module History {
  import opened Wrappers
  import Decimal

  /** Badge variants of the component library. */
  datatype Variant = Default | Secondary | Destructive

  datatype Icon = CheckCircle | XCircle

  /** The remaining-stock badge: untracked stock is neutral, under 5 is urgent,
      under 10 is a warning, and 10 or more is neutral again. */
  function RemainingVariant(remaining: Option<int>): (v: Variant)
    ensures v == Destructive <==> remaining.Some? && remaining.value < 5
    ensures v == Default <==> remaining.Some? && 5 <= remaining.value < 10
    ensures v == Secondary <==> remaining.None? || remaining.value >= 10
  {
    if remaining.None? then Secondary
    else if remaining.value < 5 then Destructive
    else if remaining.value < 10 then Default
    else Secondary
  }

  const NotTracked := "Not tracked"

  /** Index of the first space in `s`, if any. */
  function FirstSpace(s: string): (r: Option<nat>)
    ensures r.Some? ==> r.value < |s| && s[r.value] == ' '
    ensures r.Some? ==> forall i :: 0 <= i < r.value ==> s[i] != ' '
    ensures r.None? ==> forall i :: 0 <= i < |s| ==> s[i] != ' '
    decreases |s|
  {
    if |s| == 0 then None
    else if s[0] == ' ' then Some(0)
    else match FirstSpace(s[1..])
      case Some(k) => Some(k + 1)
      case None => None
  }

  /** Reads an amount label back into its number and unit. */
  function ParseRemainingLabel(text: string): Option<(int, string)> {
    match FirstSpace(text)
    case None => None
    case Some(k) =>
      match Decimal.ParseInt(text[..k])
      case Some(n) => Some((n, text[k + 1..]))
      case None => None
  }

  lemma {:induction false} FirstSpaceAfterWord(word: string, rest: string)
    requires forall i :: 0 <= i < |word| ==> word[i] != ' '
    ensures FirstSpace(word + " " + rest) == Some(|word|)
    decreases |word|
  {
    if |word| > 0 {
      assert (word + " " + rest)[1..] == word[1..] + " " + rest;
      FirstSpaceAfterWord(word[1..], rest);
    }
  }

  /** An amount label never reads "Not tracked", and it gives back the amount
      and the unit it was made from. */
  lemma AmountLabelRoundTrip(n: int, quantityUnit: string)
    ensures Decimal.ShowInt(n) + " " + quantityUnit != NotTracked
    ensures ParseRemainingLabel(Decimal.ShowInt(n) + " " + quantityUnit) == Some((n, quantityUnit))
  {
    var digits := Decimal.ShowInt(n);
    var shown := digits + " " + quantityUnit;
    FirstSpaceAfterWord(digits, quantityUnit);
    assert shown[..|digits|] == digits;
    assert shown[|digits| + 1..] == quantityUnit;
    Decimal.ParseShowInt(n);
    assert ParseRemainingLabel(NotTracked) == None by {
      assert FirstSpace(NotTracked) == Some(3) by {
        FirstSpaceAfterWord("Not", "tracked");
        assert NotTracked == "Not" + " " + "tracked";
      }
      assert NotTracked[..3] == "Not";
    }
  }

  /** The badge text: "Not tracked" exactly for untracked stock; otherwise the
      amount and its unit, both recoverable from the text. */
  function RemainingLabel(remaining: Option<int>, quantityUnit: string): (text: string)
    ensures text == NotTracked <==> remaining.None?
    ensures remaining.Some? ==> ParseRemainingLabel(text) == Some((remaining.value, quantityUnit))
  {
    match remaining
    case None => NotTracked
    case Some(n) =>
      AmountLabelRoundTrip(n, quantityUnit);
      Decimal.ShowInt(n) + " " + quantityUnit
  }

  /** A log counts as taken only when its status is exactly "taken"; the icon
      and the badge always agree. */
  function StatusIcon(status: string): (icon: Icon)
    ensures icon == CheckCircle <==> status == "taken"
  {
    if status == "taken" then CheckCircle else XCircle
  }

  function StatusVariant(status: string): (v: Variant)
    ensures v == Default <==> StatusIcon(status) == CheckCircle
    ensures v != Default ==> v == Destructive
  {
    if status == "taken" then Default else Destructive
  }

  /** The shown time: `takenat` when it is a non-empty string, else `createdat`. */
  function DisplayTime(takenat: Option<string>, createdat: string): (t: string)
    ensures t == createdat || (takenat.Some? && t == takenat.value)
    ensures takenat.Some? && takenat.value != "" ==> t == takenat.value
    ensures t != createdat ==> takenat.Some? && takenat.value != ""
  {
    match takenat
    case Some(s) => if s != "" then s else createdat
    case None => createdat
  }

  /** The nested rows the log query returns (`reminders.schedules.medications`). */
  datatype MedicationRef = MedicationRef(
    name: string, dosage: real, unit: string,
    remainingQuantity: Option<int>, quantityUnit: string)

  datatype ScheduleRef = ScheduleRef(medications: MedicationRef)

  datatype ReminderRef = ReminderRef(schedules: ScheduleRef)

  datatype LogRow = LogRow(
    logid: string, status: string, takenat: Option<string>, createdat: string,
    reminders: ReminderRef)

  /** The flat log the page renders. */
  datatype MedicationLog = MedicationLog(
    logid: string, status: string, takenat: Option<string>, createdat: string,
    medicationName: string, medicationDosage: real, medicationUnit: string,
    remainingQuantity: Option<int>, quantityUnit: string)

  /** One row flattened: the log's own fields, and the medication's fields read
      through the reminder and the schedule. */
  function Flatten(row: LogRow): (log: MedicationLog)
    ensures log.logid == row.logid && log.status == row.status
    ensures log.takenat == row.takenat && log.createdat == row.createdat
    ensures var m := row.reminders.schedules.medications;
      && log.medicationName == m.name
      && log.medicationDosage == m.dosage
      && log.medicationUnit == m.unit
      && log.remainingQuantity == m.remainingQuantity
      && log.quantityUnit == m.quantityUnit
  {
    var m := row.reminders.schedules.medications;
    MedicationLog(row.logid, row.status, row.takenat, row.createdat,
                  m.name, m.dosage, m.unit, m.remainingQuantity, m.quantityUnit)
  }

  /** `logsData?.map(...) || []`: no data gives no logs; otherwise one flat log
      per row, in the query's order. */
  function TransformLogs(data: Option<seq<LogRow>>): (logs: seq<MedicationLog>)
    ensures data.None? ==> logs == []
    ensures data.Some? ==> |logs| == |data.value|
    ensures data.Some? ==> forall i :: 0 <= i < |logs| ==> logs[i] == Flatten(data.value[i])
  {
    match data
    case None => []
    case Some(rows) => seq(|rows|, i requires 0 <= i < |rows| => Flatten(rows[i]))
  }
}
