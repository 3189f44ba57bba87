/**
 * The workout-plan section: the create and update validators with their ordered early exits,
 * the edits of the exercise list in the create form, the summary counters and the status labels.
 */
module WorkoutPlans {
  import opened Common
  import opened Text

  /** One exercise row of the create or edit form. `sets` is `Number(input)`; only integers are modelled. */
  datatype ExerciseInput = ExerciseInput(
    name: string, sets: int, reps: string, weight: string, restTime: string, notes: string)

  datatype CreateForm = CreateForm(
    name: string, description: string, studentId: string, instructorId: string,
    exercises: seq<ExerciseInput>)

  datatype EditForm = EditForm(name: string, description: Option<string>, exercises: seq<ExerciseInput>)

  /** A stored exercise, as the list endpoint returns it. */
  datatype Exercise = Exercise(
    name: string, sets: int, reps: string, weight: Option<string>, restTime: Option<int>,
    instructions: Option<string>)

  /** A stored plan; only the fields the section reads. */
  datatype Plan = Plan(
    id: string, name: string, description: Option<string>, status: string, studentId: string,
    exercises: seq<Exercise>)

  const EmptyCreateForm := CreateForm("", "", "", "", [])
  const EmptyEditForm := EditForm("", Some(""), [])

  /** The row "Adicionar Exercício" appends. */
  const BlankExercise := ExerciseInput("", 0, "", "", "", "")

  datatype PlanError =
    | NameTooShort
    | NoStudent
    | NoInstructor
    | NoExercises
    | ExerciseWithoutName
    | ExerciseWithoutSets
    | ExerciseWithoutReps

  /** The toast each validation failure shows. */
  function ErrorMessage(e: PlanError): string {
    match e
    case NameTooShort => "O nome do plano deve ter pelo menos 2 caracteres"
    case NoStudent => "Selecione um aluno"
    case NoInstructor => "Selecione um instrutor"
    case NoExercises => "Adicione pelo menos um exercício"
    case ExerciseWithoutName => "Todos os exercícios devem ter um nome"
    case ExerciseWithoutSets => "Todos os exercícios devem ter pelo menos 1 série"
    case ExerciseWithoutReps => "Todos os exercícios devem ter repetições definidas"
  }

  /** `!name || name.trim().length < 2`. */
  predicate NameTooShortFor(name: string) {
    |Trim(name)| < 2
  }

  /** The three checks on one exercise: name, then sets, then reps. */
  function ExerciseError(e: ExerciseInput): (r: Option<PlanError>)
    ensures r == None <==> !IsBlank(e.name) && e.sets > 0 && !IsBlank(e.reps)
    ensures r == Some(ExerciseWithoutName) <==> IsBlank(e.name)
    ensures r == Some(ExerciseWithoutSets) <==> !IsBlank(e.name) && e.sets <= 0
    ensures r == Some(ExerciseWithoutReps) <==> !IsBlank(e.name) && e.sets > 0 && IsBlank(e.reps)
  {
    if IsBlank(e.name) then Some(ExerciseWithoutName)
    else if e.sets <= 0 then Some(ExerciseWithoutSets)
    else if IsBlank(e.reps) then Some(ExerciseWithoutReps)
    else None
  }

  /** The position of the first exercise that fails one of its checks, or |es| when none does. */
  function FirstInvalid(es: seq<ExerciseInput>): (k: nat)
    ensures k <= |es|
    ensures forall j :: 0 <= j < k ==> ExerciseError(es[j]) == None
    ensures k < |es| ==> ExerciseError(es[k]) != None
  {
    if es == [] || ExerciseError(es[0]) != None then 0 else 1 + FirstInvalid(es[1..])
  }

  /** The error of the first exercise, in list order, that fails one of its checks. */
  function FirstExerciseError(es: seq<ExerciseInput>): (r: Option<PlanError>)
    ensures r == None <==> forall i :: 0 <= i < |es| ==> ExerciseError(es[i]) == None
    ensures r != None ==> r == ExerciseError(es[FirstInvalid(es)])
  {
    var k := FirstInvalid(es);
    if k == |es| then None else ExerciseError(es[k])
  }

  /** The `for (const exercise of exercises)` loop of both handlers, returning at the first failure. */
  method CheckExercises(es: seq<ExerciseInput>) returns (err: Option<PlanError>)
    ensures err == FirstExerciseError(es)
  {
    for i := 0 to |es|
      invariant forall j :: 0 <= j < i ==> ExerciseError(es[j]) == None
    {
      var exercise := es[i];
      if IsBlank(exercise.name) {
        return Some(ExerciseWithoutName);
      }
      if exercise.sets <= 0 {
        return Some(ExerciseWithoutSets);
      }
      if IsBlank(exercise.reps) {
        return Some(ExerciseWithoutReps);
      }
    }
    return None;
  }

  /** The checks of handleCreatePlan, in order; the first failure is the error. */
  function ValidateCreate(f: CreateForm): (r: Option<PlanError>)
    ensures r == None <==>
      !NameTooShortFor(f.name) && f.studentId != "" && f.instructorId != "" && f.exercises != []
      && forall i :: 0 <= i < |f.exercises| ==> ExerciseError(f.exercises[i]) == None
    ensures NameTooShortFor(f.name) <==> r == Some(NameTooShort)
    ensures r == Some(NoStudent) <==> !NameTooShortFor(f.name) && f.studentId == ""
    ensures r == Some(NoInstructor) <==>
      !NameTooShortFor(f.name) && f.studentId != "" && f.instructorId == ""
    ensures r == Some(NoExercises) <==>
      !NameTooShortFor(f.name) && f.studentId != "" && f.instructorId != "" && f.exercises == []
    ensures !NameTooShortFor(f.name) && f.studentId != "" && f.instructorId != "" && f.exercises != [] ==>
      r == FirstExerciseError(f.exercises)
  {
    if NameTooShortFor(f.name) then Some(NameTooShort)
    else if f.studentId == "" then Some(NoStudent)
    else if f.instructorId == "" then Some(NoInstructor)
    else if f.exercises == [] then Some(NoExercises)
    else FirstExerciseError(f.exercises)
  }

  /** Outcome of pressing "Criar": a toast, or the request and the form state it leaves. */
  datatype CreateResult =
    | CreateRejected(error: PlanError, message: string)
    | CreateSent(request: CreateForm, formAfter: CreateForm, modalOpen: bool)

  /** handleCreatePlan; `succeeded` is whether the create mutation resolved. */
  function HandleCreatePlan(f: CreateForm, succeeded: bool): (r: CreateResult)
    ensures r.CreateRejected? <==> ValidateCreate(f) != None
    ensures r.CreateRejected? ==> Some(r.error) == ValidateCreate(f) && r.message == ErrorMessage(r.error)
    ensures r.CreateSent? ==> r.request == f
    ensures r.CreateSent? && succeeded ==> r.formAfter == EmptyCreateForm && !r.modalOpen
    ensures r.CreateSent? && !succeeded ==> r.formAfter == f && r.modalOpen
  {
    match ValidateCreate(f)
    case Some(e) => CreateRejected(e, ErrorMessage(e))
    case None => if succeeded then CreateSent(f, EmptyCreateForm, false) else CreateSent(f, f, true)
  }

  /** The checks of handleUpdatePlan: no plan selected returns silently, then name, then exercises. */
  datatype UpdateCheck = NoPlanSelected | UpdateRejected(error: PlanError) | UpdateAccepted(id: string)

  function ValidateUpdate(selected: Option<Plan>, f: EditForm): (r: UpdateCheck)
    ensures selected == None <==> r == NoPlanSelected
    ensures r.UpdateAccepted? <==>
      selected != None && !NameTooShortFor(f.name)
      && forall i :: 0 <= i < |f.exercises| ==> ExerciseError(f.exercises[i]) == None
    ensures r.UpdateAccepted? ==> r.id == selected.value.id
    ensures r.UpdateRejected? ==> r.error in {NameTooShort, ExerciseWithoutName, ExerciseWithoutSets, ExerciseWithoutReps}
    ensures r.UpdateRejected? ==> (r.error == NameTooShort <==> NameTooShortFor(f.name))
    ensures r.UpdateRejected? && !NameTooShortFor(f.name) ==> Some(r.error) == FirstExerciseError(f.exercises)
  {
    if selected == None then NoPlanSelected
    else if NameTooShortFor(f.name) then UpdateRejected(NameTooShort)
    else
      match FirstExerciseError(f.exercises)
      case Some(e) => UpdateRejected(e)
      case None => UpdateAccepted(selected.value.id)
  }

  /** Update accepts an empty exercise list; only the name is checked then. */
  lemma UpdateAcceptsNoExercises(p: Plan, name: string, description: Option<string>)
    ensures ValidateUpdate(Some(p), EditForm(name, description, [])).UpdateAccepted?
        <==> !NameTooShortFor(name)
  {
  }

  /** Whatever create accepts, update accepts too (with any selected plan): update checks less. */
  lemma UpdateWeakerThanCreate(f: CreateForm, p: Plan)
    requires ValidateCreate(f) == None
    ensures ValidateUpdate(Some(p), EditForm(f.name, Some(f.description), f.exercises)) == UpdateAccepted(p.id)
  {
  }

  /** Opening a plan for editing copies each exercise, with absent optional fields becoming "". */
  function EditFormOf(p: Plan): (f: EditForm)
    ensures f.name == p.name && f.description == p.description
    ensures |f.exercises| == |p.exercises|
    ensures forall i :: 0 <= i < |p.exercises| ==>
      var e, x := p.exercises[i], f.exercises[i];
      x.name == e.name && x.sets == e.sets && x.reps == e.reps
      && x.weight == OrElse(e.weight, "") && x.notes == OrElse(e.instructions, "")
      && x.restTime == (if e.restTime == None then "" else IntToString(e.restTime.value))
  {
    EditForm(p.name, p.description, seq(|p.exercises|, i requires 0 <= i < |p.exercises| =>
      var e := p.exercises[i];
      ExerciseInput(e.name, e.sets, e.reps, OrElse(e.weight, ""),
        if e.restTime == None then "" else IntToString(e.restTime.value),
        OrElse(e.instructions, ""))))
  }

  /** "Adicionar Exercício": the list with one blank row at the end. */
  function AddExercise(es: seq<ExerciseInput>): (r: seq<ExerciseInput>)
    ensures |r| == |es| + 1 && r[..|es|] == es && r[|es|] == BlankExercise
  {
    es + [BlankExercise]
  }

  /** "Remover" on row i: the list without that row. */
  function RemoveExercise(es: seq<ExerciseInput>, i: int): (r: seq<ExerciseInput>)
    ensures 0 <= i < |es| ==> |r| == |es| - 1
    ensures 0 <= i < |es| ==> forall k :: 0 <= k < |r| ==> r[k] == if k < i then es[k] else es[k + 1]
    ensures !(0 <= i < |es|) ==> r == es
  {
    WithoutIndex(es, i)
  }

  /** Removing the row just added restores the list. */
  lemma RemoveUndoesAdd(es: seq<ExerciseInput>)
    ensures RemoveExercise(AddExercise(es), |es|) == es
  {
    assert AddExercise(es)[..|es|] == es;
  }

  /** A freshly added row blocks creation until it is filled in: its name is blank. */
  lemma {:induction false} BlankRowBlocksCreate(f: CreateForm)
    requires !NameTooShortFor(f.name) && f.studentId != "" && f.instructorId != ""
    requires forall i :: 0 <= i < |f.exercises| ==> ExerciseError(f.exercises[i]) == None
    ensures ValidateCreate(f.(exercises := AddExercise(f.exercises))) == Some(ExerciseWithoutName)
  {
    var es := AddExercise(f.exercises);
    assert ExerciseError(es[|f.exercises|]) == Some(ExerciseWithoutName);
    assert FirstInvalid(es) == |f.exercises|;
  }

  /** One field edit of the exercise form. */
  datatype FieldEdit =
    | SetName(name: string)
    | SetSets(sets: int)
    | SetReps(reps: string)
    | SetWeight(weight: string)
    | SetRestTime(restTime: string)
    | SetNotes(notes: string)

  /** Which field an edit targets, as a column number of the row. */
  function FieldOf(edit: FieldEdit): nat {
    match edit
    case SetName(_) => 0
    case SetSets(_) => 1
    case SetReps(_) => 2
    case SetWeight(_) => 3
    case SetRestTime(_) => 4
    case SetNotes(_) => 5
  }

  /** The exercise with the edited field replaced. */
  function ApplyEdit(e: ExerciseInput, edit: FieldEdit): ExerciseInput {
    match edit
    case SetName(v) => e.(name := v)
    case SetSets(v) => e.(sets := v)
    case SetReps(v) => e.(reps := v)
    case SetWeight(v) => e.(weight := v)
    case SetRestTime(v) => e.(restTime := v)
    case SetNotes(v) => e.(notes := v)
  }

  /** Two edits of the same field: the later one wins. */
  lemma LaterEditWins(e: ExerciseInput, a: FieldEdit, b: FieldEdit)
    requires FieldOf(a) == FieldOf(b)
    ensures ApplyEdit(ApplyEdit(e, a), b) == ApplyEdit(e, b)
  {
  }

  /** Edits of different fields commute. */
  lemma EditsOfDifferentFieldsCommute(e: ExerciseInput, a: FieldEdit, b: FieldEdit)
    requires FieldOf(a) != FieldOf(b)
    ensures ApplyEdit(ApplyEdit(e, a), b) == ApplyEdit(ApplyEdit(e, b), a)
  {
  }

  /**
   * An input's onChange: copy the list into a new array, assign the field of row i in it, and
   * hand the array back as the new list.
   */
  method EditExercise(es: seq<ExerciseInput>, i: int, edit: FieldEdit) returns (r: seq<ExerciseInput>)
    requires 0 <= i < |es|
    ensures |r| == |es|
    ensures r[i] == ApplyEdit(es[i], edit)
    ensures forall k :: 0 <= k < |es| && k != i ==> r[k] == es[k]
  {
    var copy := new ExerciseInput[|es|](k requires 0 <= k < |es| => es[k]);
    copy[i] := ApplyEdit(copy[i], edit);
    r := copy[..];
  }

  /** Number of plans with status ACTIVE. */
  function ActivePlans(plans: seq<Plan>): (n: nat)
    ensures n <= |plans|
  {
    |Filter(plans, (p: Plan) => p.status == "ACTIVE")|
  }

  /** Sum of the exercise counts of all plans (the `reduce` from 0). */
  function TotalExercises(plans: seq<Plan>): nat {
    if plans == [] then 0 else |plans[0].exercises| + TotalExercises(plans[1..])
  }

  /** Number of distinct student ids among the plans. */
  function StudentsWithPlan(plans: seq<Plan>): nat {
    |Image(plans, (p: Plan) => p.studentId)|
  }

  /** Both counters add up over a split of the plan list. */
  lemma {:induction false} CountersAdditive(a: seq<Plan>, b: seq<Plan>)
    ensures ActivePlans(a + b) == ActivePlans(a) + ActivePlans(b)
    ensures TotalExercises(a + b) == TotalExercises(a) + TotalExercises(b)
  {
    FilterConcat(a, b, (p: Plan) => p.status == "ACTIVE");
    if a != [] {
      assert (a + b)[1..] == a[1..] + b;
      CountersAdditive(a[1..], b);
    } else {
      assert a + b == b;
    }
  }

  /** Distinct students never outnumber the plans, and there is one as soon as there is a plan. */
  lemma StudentsWithPlanBounds(plans: seq<Plan>)
    ensures StudentsWithPlan(plans) <= |plans|
    ensures plans != [] ==> StudentsWithPlan(plans) >= 1
  {
    ImageSize(plans, (p: Plan) => p.studentId);
  }

  /** When every plan is active all are counted, and when none is the count is 0. */
  lemma ActivePlansExtremes(plans: seq<Plan>)
    ensures (forall i :: 0 <= i < |plans| ==> plans[i].status == "ACTIVE") ==> ActivePlans(plans) == |plans|
    ensures (forall i :: 0 <= i < |plans| ==> plans[i].status != "ACTIVE") ==> ActivePlans(plans) == 0
  {
    var active := (p: Plan) => p.status == "ACTIVE";
    if forall i :: 0 <= i < |plans| ==> plans[i].status == "ACTIVE" {
      FilterKeepsAll(plans, active);
    }
    if forall i :: 0 <= i < |plans| ==> plans[i].status != "ACTIVE" {
      FilterNone(plans, active);
    }
  }

  const StatusColors: map<string, string> :=
    map["ACTIVE" := "default", "COMPLETED" := "success", "PAUSED" := "outline", "CANCELLED" := "destructive"]

  const StatusTexts: map<string, string> :=
    map["ACTIVE" := "Ativo", "COMPLETED" := "Concluído", "PAUSED" := "Pausado", "CANCELLED" := "Cancelado"]

  function StatusColor(status: string): string {
    Lookup(StatusColors, status, "secondary")
  }

  function StatusText(status: string): string {
    Lookup(StatusTexts, status, status)
  }

  /** The badge is "secondary" exactly for an unknown status, and the text is then the raw status. */
  lemma StatusLabels(status: string)
    ensures StatusColor(status) == "secondary" <==> status !in StatusColors
    ensures StatusText(status) == status <==> status !in StatusTexts
    ensures StatusColors.Keys == StatusTexts.Keys
  {
  }

  /** The label of the pause/activate button. */
  function ToggleLabel(status: string): (r: string)
    ensures r == "Pausar" <==> StatusColor(status) == "default"
    ensures r == "Ativar" <==> StatusColor(status) != "default"
  {
    if status == "ACTIVE" then "Pausar" else "Ativar"
  }
}
