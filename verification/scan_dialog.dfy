/** The medication scan dialog as a state machine over `formData`,
    `extractedData` and `open`. Events are the extraction call's result, a
    field edit, an open/close request and a save attempt with the outcome the
    database gave the insert. The loading flag, toasts and the image encoding
    are not part of the state. */
module ScanDialog {
  import opened Wrappers
  import opened Json

  /** `formData` (and `extractedData`): the six properties the dialog reads and
      writes, each as the object holds it. After a scan this is literally the
      object the server returned, so a property may hold any JSON value or be
      absent (`None`). */
  datatype Form = Form(
    name: Option<Json>,
    dosage: Option<Json>,
    unit: Option<Json>,
    instructions: Option<Json>,
    initialQuantity: Option<Json>,
    quantityUnit: Option<Json>)

  datatype Field = Name | Dosage | Unit | Instructions | InitialQuantity | QuantityUnit

  function Project(form: Form, field: Field): Option<Json> {
    match field
    case Name => form.name
    case Dosage => form.dosage
    case Unit => form.unit
    case Instructions => form.instructions
    case InitialQuantity => form.initialQuantity
    case QuantityUnit => form.quantityUnit
  }

  /** The form's starting value, and the value a successful save restores. */
  function DefaultForm(): (f: Form)
    ensures !Truthy(f.name) && !Truthy(f.dosage) && !Truthy(f.instructions) && !Truthy(f.initialQuantity)
    ensures f.unit == Some(JStr("mg")) && f.quantityUnit == Some(JStr("pills"))
  {
    Form(Some(JStr("")), Some(JNull), Some(JStr("mg")), Some(JStr("")), Some(JNull), Some(JStr("pills")))
  }

  datatype State = State(form: Form, extracted: Option<Form>, open: bool)

  function Initial(): State {
    State(DefaultForm(), None, false)
  }

  /** What `supabase.functions.invoke` hands back: an error, or the response data. */
  datatype InvokeResult = InvokeError | InvokeData(data: Json)

  /** One input handler. The numeric ones carry what `parseFloat` / `parseInt`
      made of the text (`None` for NaN). */
  datatype Edit =
    | EditName(text: string)
    | EditDosage(amount: Option<real>)
    | EditUnit(choice: string)
    | EditInstructions(text: string)
    | EditInitialQuantity(count: Option<int>)
    | EditQuantityUnit(choice: string)

  datatype User = User(id: string)

  /** The object handed to the `medications` insert. */
  datatype Row = Row(
    userid: string,
    name: Option<Json>,
    dosage: Option<Json>,
    unit: Option<Json>,
    instructions: Option<Json>,
    initialQuantity: Option<Json>,
    remainingQuantity: Option<Json>,
    quantityUnit: Option<Json>)

  datatype Event =
    | Extracted(result: InvokeResult)
    | Edited(edit: Edit)
    | OpenChanged(open: bool)
    | SaveClicked(user: Option<User>, insertOk: bool)

  /** The state after an event, and the row sent to the database, if any. */
  datatype Step = Step(state: State, insert: Option<Row>)

  /** `if (error) throw error; if (data.success && data.medication) ...`: the
      medication the dialog takes in, or `None` when the catch branch runs. */
  function Accepted(result: InvokeResult): (m: Option<Json>)
    ensures m.Some? ==> Truthy(m)
    ensures m.Some? <==>
      && result.InvokeData?
      && result.data != JNull
      && Truthy(Get(Some(result.data), "success").value)
      && Truthy(Get(Some(result.data), "medication").value)
    ensures m.Some? ==> m == Get(Some(result.data), "medication").value
  {
    match result
    case InvokeError => None
    case InvokeData(data) =>
      match Get(Some(data), "success")
      case ReadFails(_) => None
      case Found(success) =>
        if !Truthy(success) then None
        else
          var medication := Get(Some(data), "medication").value;
          if Truthy(medication) then medication else None
  }

  /** The dialog's view of an object used as `formData`. */
  function FormOf(medication: Json): (f: Form)
    requires medication != JNull
    ensures medication.JObj? ==> forall field :: Project(f, field) == Get(Some(medication), KeyOf(field)).value
  {
    Form(
      Get(Some(medication), "name").value,
      Get(Some(medication), "dosage").value,
      Get(Some(medication), "unit").value,
      Get(Some(medication), "instructions").value,
      Get(Some(medication), "initial_quantity").value,
      Get(Some(medication), "quantity_unit").value)
  }

  /** The object key behind each form field. */
  function KeyOf(field: Field): string {
    match field
    case Name => "name"
    case Dosage => "dosage"
    case Unit => "unit"
    case Instructions => "instructions"
    case InitialQuantity => "initial_quantity"
    case QuantityUnit => "quantity_unit"
  }

  /** `parseFloat(v) || null` and `parseInt(v) || null`: NaN and 0 become null. */
  function NumberOrNull(parsed: Option<real>): (j: Json)
    ensures j == JNull || (j.JNum? && j.n != 0.0)
    ensures parsed.Some? && parsed.value != 0.0 <==> j != JNull
    ensures j != JNull ==> j == JNum(parsed.value)
  {
    match parsed
    case Some(x) => if x != 0.0 then JNum(x) else JNull
    case None => JNull
  }

  function FieldOf(edit: Edit): Field {
    match edit
    case EditName(_) => Name
    case EditDosage(_) => Dosage
    case EditUnit(_) => Unit
    case EditInstructions(_) => Instructions
    case EditInitialQuantity(_) => InitialQuantity
    case EditQuantityUnit(_) => QuantityUnit
  }

  /** The value an edit stores in its field. */
  function EditValue(edit: Edit): Json {
    match edit
    case EditName(t) => JStr(t)
    case EditDosage(x) => NumberOrNull(x)
    case EditUnit(c) => JStr(c)
    case EditInstructions(t) => JStr(t)
    case EditInitialQuantity(k) => NumberOrNull(if k.Some? then Some(k.value as real) else None)
    case EditQuantityUnit(c) => JStr(c)
  }

  /** `setFormData(prev => ({ ...prev, field: value }))`: the edited field takes
      the new value and every other field keeps its own. */
  function ApplyEdit(form: Form, edit: Edit): (f: Form)
    ensures Project(f, FieldOf(edit)) == Some(EditValue(edit))
    ensures forall field :: field != FieldOf(edit) ==> Project(f, field) == Project(form, field)
  {
    match edit
    case EditName(_) => form.(name := Some(EditValue(edit)))
    case EditDosage(_) => form.(dosage := Some(EditValue(edit)))
    case EditUnit(_) => form.(unit := Some(EditValue(edit)))
    case EditInstructions(_) => form.(instructions := Some(EditValue(edit)))
    case EditInitialQuantity(_) => form.(initialQuantity := Some(EditValue(edit)))
    case EditQuantityUnit(_) => form.(quantityUnit := Some(EditValue(edit)))
  }

  /** The guard in front of the insert: a user, a truthy name and a truthy dosage. */
  predicate CanSave(form: Form, user: Option<User>) {
    user.Some? && Truthy(form.name) && Truthy(form.dosage)
  }

  /** The insert row: the form's fields verbatim under the user's id, falsy
      instructions as null, and the remaining quantity starting at the initial one. */
  function BuildRow(user: User, form: Form): (row: Row)
    ensures row.userid == user.id
    ensures row.remainingQuantity == row.initialQuantity == form.initialQuantity
    ensures row.name == form.name && row.dosage == form.dosage && row.unit == form.unit
    ensures row.quantityUnit == form.quantityUnit
    ensures Truthy(row.instructions) <==> Truthy(form.instructions)
    ensures Truthy(form.instructions) ==> row.instructions == form.instructions
    ensures !Truthy(form.instructions) ==> row.instructions == Some(JNull)
  {
    Row(user.id, form.name, form.dosage, form.unit,
        if Truthy(form.instructions) then form.instructions else Some(JNull),
        form.initialQuantity, form.initialQuantity, form.quantityUnit)
  }

  function Next(s: State, e: Event): (r: Step)
    ensures r.insert.Some? <==> e.SaveClicked? && CanSave(s.form, e.user)
    ensures r.insert.Some? ==> r.insert.value == BuildRow(e.user.value, s.form)
    ensures e.SaveClicked? && !(r.insert.Some? && e.insertOk) ==> r.state == s
    ensures e.SaveClicked? && r.insert.Some? && e.insertOk ==> r.state == Initial()
  {
    match e
    case Extracted(result) =>
      (match Accepted(result)
       case Some(medication) => var f := FormOf(medication); Step(s.(form := f, extracted := Some(f)), None)
       case None => Step(s, None))
    case Edited(edit) => Step(s.(form := ApplyEdit(s.form, edit)), None)
    case OpenChanged(open) => Step(s.(open := open), None)
    case SaveClicked(user, insertOk) =>
      if !CanSave(s.form, user) then Step(s, None)
      else
        var row := BuildRow(user.value, s.form);
        if insertOk then Step(Initial(), Some(row)) else Step(s, Some(row))
  }

  /** An accepted extraction puts the same value in `extractedData` and
      `formData`; a rejected one changes nothing. */
  lemma ExtractionSync(s: State, result: InvokeResult)
    ensures var r := Next(s, Extracted(result));
      && r.insert == None
      && r.state.open == s.open
      && (Accepted(result).Some? ==> r.state.extracted == Some(r.state.form) && r.state.form == FormOf(Accepted(result).value))
      && (Accepted(result).None? ==> r.state == s)
  {
  }

  /** After a numeric edit neither `dosage` nor `initial_quantity` holds 0. */
  predicate NoZeroQuantities(form: Form) {
    form.dosage != Some(JNum(0.0)) && form.initialQuantity != Some(JNum(0.0))
  }

  /** Opening or closing the dialog keeps whatever was typed or scanned. */
  lemma OpenChangeKeepsForm(s: State, open: bool)
    ensures Next(s, OpenChanged(open)) == Step(s.(open := open), None)
  {
  }

  /** An edit changes the edited field of the dialog's form and nothing else:
      no insert, the same extracted data, the same `open`. */
  lemma EditTouchesOneField(s: State, edit: Edit)
    ensures var r := Next(s, Edited(edit));
      && r.insert == None
      && r.state.extracted == s.extracted
      && r.state.open == s.open
      && Project(r.state.form, FieldOf(edit)) == Some(EditValue(edit))
      && forall field :: field != FieldOf(edit) ==> Project(r.state.form, field) == Project(s.form, field)
  {
  }

  /** The state after a sequence of events, and the rows the database accepted. */
  function Run(s: State, events: seq<Event>): (State, seq<Row>)
    decreases |events|
  {
    if |events| == 0 then (s, [])
    else
      var step := Next(s, events[0]);
      var (t, rows) := Run(step.state, events[1..]);
      var persisted := if step.insert.Some? && events[0].insertOk then [step.insert.value] else [];
      (t, persisted + rows)
  }

  /** Every stored row passed the save guard and starts with its remaining
      quantity equal to its initial quantity. */
  predicate WellFormedRow(row: Row) {
    && Truthy(row.name)
    && Truthy(row.dosage)
    && row.remainingQuantity == row.initialQuantity
    && row.instructions != Some(JStr(""))
  }

  lemma {:induction false} RunRowsWellFormed(s: State, events: seq<Event>)
    ensures forall i :: 0 <= i < |Run(s, events).1| ==> WellFormedRow(Run(s, events).1[i])
    decreases |events|
  {
    if |events| > 0 {
      RunRowsWellFormed(Next(s, events[0]).state, events[1..]);
    }
  }

  /** Without a scan in between, the zero-free numeric fields stay zero-free. */
  lemma {:induction false} EditsKeepNoZero(s: State, events: seq<Event>)
    requires NoZeroQuantities(s.form)
    requires forall i :: 0 <= i < |events| ==> !events[i].Extracted?
    ensures NoZeroQuantities(Run(s, events).0.form)
    decreases |events|
  {
    if |events| > 0 {
      var e := events[0];
      if e.Edited? {
        assert Project(ApplyEdit(s.form, e.edit), Dosage) == s.form.dosage || FieldOf(e.edit) == Dosage;
        assert Project(ApplyEdit(s.form, e.edit), InitialQuantity) == s.form.initialQuantity || FieldOf(e.edit) == InitialQuantity;
      }
      EditsKeepNoZero(Next(s, e).state, events[1..]);
    }
  }

  /** Nothing reaches the database while no user is signed in. */
  lemma {:induction false} SignedOutRunStoresNothing(s: State, events: seq<Event>)
    requires forall i :: 0 <= i < |events| ==> events[i].SaveClicked? ==> events[i].user.None?
    ensures Run(s, events).1 == []
    decreases |events|
  {
    if |events| > 0 {
      SignedOutRunStoresNothing(Next(s, events[0]).state, events[1..]);
    }
  }
}
