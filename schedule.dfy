/**
 * The schedule section: the appointment form and its ordered submit checks, the create-or-update
 * choice, the query window, the data-source fallback, the search, the status actions and the
 * label tables.
 */
module Schedule {
  import opened Common
  import opened Text
  import AppointmentService

  datatype Appointment = Appointment(
    id: string, title: string, startTime: string, endTime: string, kind: string, status: string,
    notes: Option<string>, studentId: string, studentName: string, instructorId: string)

  /** The dialog's form; `kind` is the appointment type. */
  datatype AppointmentForm = AppointmentForm(
    title: string, studentId: string, instructorId: string, kind: string,
    startTime: string, endTime: string, notes: string)

  const EmptyForm := AppointmentForm("", "", "", "PERSONAL_TRAINING", "", "", "")

  /** The dialog state: the appointment being edited, if any, and the form. */
  datatype Dialog = Dialog(selected: Option<Appointment>, form: AppointmentForm, open: bool)

  /** handleOpenDialog: edit an appointment (copying its fields) or start a blank one. */
  function OpenDialog(appointment: Option<Appointment>): (d: Dialog)
    ensures d.open && d.selected == appointment
    ensures appointment.None? ==> d.form == EmptyForm
    ensures appointment.Some? ==>
      var a := appointment.value;
      d.form == AppointmentForm(a.title, a.studentId, a.instructorId, a.kind, a.startTime, a.endTime, OrElse(a.notes, ""))
  {
    match appointment
    case None => Dialog(None, EmptyForm, true)
    case Some(a) =>
      Dialog(appointment,
        AppointmentForm(a.title, a.studentId, a.instructorId, a.kind, a.startTime, a.endTime, OrElse(a.notes, "")),
        true)
  }

  datatype SubmitError =
    | NoTitle | NoStudent | NoInstructor | NoStart | NoEnd | BadStart | BadEnd | EndNotAfterStart

  /** The message of the thrown Error, which the catch block alerts. */
  function SubmitErrorMessage(e: SubmitError): string {
    match e
    case NoTitle => "O título é obrigatório"
    case NoStudent => "Selecione um aluno"
    case NoInstructor => "Selecione um instrutor"
    case NoStart => "Selecione o horário de início"
    case NoEnd => "Selecione o horário de fim"
    case BadStart => "Data de início inválida"
    case BadEnd => "Data de fim inválida"
    case EndNotAfterStart => "O horário de fim deve ser maior que o horário de início"
  }

  /**
   * The checks of handleSubmit, in order. `parse` stands for `new Date(s).getTime()`: None where
   * the result is NaN.
   */
  function ValidateSubmit(f: AppointmentForm, parse: string -> Option<int>): (r: Option<SubmitError>)
    ensures r == None <==>
      !IsBlank(f.title) && f.studentId != "" && f.instructorId != "" && f.startTime != "" && f.endTime != ""
      && parse(f.startTime).Some? && parse(f.endTime).Some? && parse(f.endTime).value > parse(f.startTime).value
    ensures r == Some(NoTitle) <==> IsBlank(f.title)
    ensures r == Some(NoStudent) <==> !IsBlank(f.title) && f.studentId == ""
    ensures r == Some(NoInstructor) <==> !IsBlank(f.title) && f.studentId != "" && f.instructorId == ""
    ensures r == Some(NoStart) <==> !IsBlank(f.title) && f.studentId != "" && f.instructorId != "" && f.startTime == ""
    ensures r == Some(NoEnd) <==>
      !IsBlank(f.title) && f.studentId != "" && f.instructorId != "" && f.startTime != "" && f.endTime == ""
    ensures r == Some(BadStart) <==>
      !IsBlank(f.title) && f.studentId != "" && f.instructorId != "" && f.startTime != "" && f.endTime != ""
      && parse(f.startTime).None?
    ensures r == Some(BadEnd) <==>
      !IsBlank(f.title) && f.studentId != "" && f.instructorId != "" && f.startTime != "" && f.endTime != ""
      && parse(f.startTime).Some? && parse(f.endTime).None?
    ensures r == Some(EndNotAfterStart) <==>
      !IsBlank(f.title) && f.studentId != "" && f.instructorId != "" && f.startTime != "" && f.endTime != ""
      && parse(f.startTime).Some? && parse(f.endTime).Some? && parse(f.endTime).value <= parse(f.startTime).value
  {
    if IsBlank(f.title) then Some(NoTitle)
    else if f.studentId == "" then Some(NoStudent)
    else if f.instructorId == "" then Some(NoInstructor)
    else if f.startTime == "" then Some(NoStart)
    else if f.endTime == "" then Some(NoEnd)
    else if parse(f.startTime).None? then Some(BadStart)
    else if parse(f.endTime).None? then Some(BadEnd)
    else if parse(f.endTime).value <= parse(f.startTime).value then Some(EndNotAfterStart)
    else None
  }

  /** An appointment ending at the very moment it starts is refused, even with every other field filled. */
  lemma ZeroLengthRefused(f: AppointmentForm, parse: string -> Option<int>)
    requires !IsBlank(f.title) && f.studentId != "" && f.instructorId != "" && f.startTime != "" && f.endTime != ""
    requires parse(f.startTime).Some? && parse(f.endTime) == parse(f.startTime)
    ensures ValidateSubmit(f, parse) == Some(EndNotAfterStart)
  {
  }

  /** The request handleSubmit sends: an update by the selected id or a create. */
  datatype Request = UpdateAppointment(id: string, form: AppointmentForm) | CreateAppointment(form: AppointmentForm)

  /** How the mutation settled: resolved, or rejected with an Error's message (None for a non-Error). */
  datatype Settled = Resolved | Rejected(message: Option<string>)

  datatype SubmitResult = SubmitResult(request: Option<Request>, alert: Option<string>, after: Dialog)

  /** handleSubmit: validation failures and mutation failures both end in an alert with the form kept. */
  function HandleSubmit(d: Dialog, parse: string -> Option<int>, settled: Settled): (r: SubmitResult)
    ensures r.request.None? <==> ValidateSubmit(d.form, parse).Some?
    ensures r.request.Some? && d.selected.Some? ==> r.request.value == UpdateAppointment(d.selected.value.id, d.form)
    ensures r.request.Some? && d.selected.None? ==> r.request.value == CreateAppointment(d.form)
    ensures r.request.None? ==> r.alert == Some(SubmitErrorMessage(ValidateSubmit(d.form, parse).value)) && r.after == d
    ensures r.request.Some? && settled.Resolved? ==>
      r.alert.None? && r.after == d.(form := EmptyForm, open := false)
    ensures r.request.Some? && settled.Rejected? ==>
      r.after == d
      && r.alert == Some(if settled.message.Some? then settled.message.value else "Erro ao salvar agendamento")
  {
    match ValidateSubmit(d.form, parse)
    case Some(e) => SubmitResult(None, Some(SubmitErrorMessage(e)), d)
    case None =>
      var request := if d.selected.Some? then UpdateAppointment(d.selected.value.id, d.form) else CreateAppointment(d.form);
      match settled
      case Resolved => SubmitResult(Some(request), None, d.(form := EmptyForm, open := false))
      case Rejected(m) =>
        var text := if m.Some? then m.value else "Erro ao salvar agendamento";
        SubmitResult(Some(request), Some(text), d)
  }

  /** Opening an existing appointment and submitting it unchanged updates that appointment, never creates. */
  lemma EditSubmitsUpdate(a: Appointment, parse: string -> Option<int>, settled: Settled)
    requires ValidateSubmit(OpenDialog(Some(a)).form, parse) == None
    ensures HandleSubmit(OpenDialog(Some(a)), parse, settled).request == Some(UpdateAppointment(a.id, OpenDialog(Some(a)).form))
  {
  }

  /** A successful submit leaves a blank form of type PERSONAL_TRAINING, which the next submit refuses. */
  lemma ResetFormIsRefused(d: Dialog, parse: string -> Option<int>)
    requires ValidateSubmit(d.form, parse) == None
    ensures var after := HandleSubmit(d, parse, Resolved).after;
      after.form.kind == "PERSONAL_TRAINING" && ValidateSubmit(after.form, parse) == Some(NoTitle)
  {
  }

  /** The query window, in days: three days before to three days after the selected day. */
  function QueryWindow(selectedDay: int): (w: (int, int))
    ensures w.0 < selectedDay < w.1
    ensures selectedDay - w.0 == w.1 - selectedDay == 3
  {
    (selectedDay - 3, selectedDay + 3)
  }

  /**
   * rawAppointments: the windowed list when it has elements, else the full list, else empty.
   * None is a query that has no data yet.
   */
  function RawAppointments(windowed: Option<seq<Appointment>>, all: Option<seq<Appointment>>): (r: seq<Appointment>)
    ensures windowed.Some? && windowed.value != [] ==> r == windowed.value
    ensures !(windowed.Some? && windowed.value != []) && all.Some? ==> r == all.value
    ensures r == [] <==> (windowed.None? || windowed.value == []) && (all.None? || all.value == [])
  {
    if windowed.Some? && |windowed.value| > 0 then windowed.value
    else if all.Some? then all.value
    else []
  }

  /**
   * With the replies of the two list queries: a failed or list-less windowed reply, or an empty
   * window, shows whatever list the full query has (empty when it has none); a non-empty window
   * is shown as it is.
   */
  lemma DataSourceFromReplies(windowed: AppointmentService.ListReply<Appointment>, all: AppointmentService.ListReply<Appointment>)
    ensures var w := AppointmentService.Appointments(Some(AppointmentService.WindowedList(windowed)));
      var a := AppointmentService.Appointments(AppointmentService.AllList(all));
      var shown := RawAppointments(w, a);
      (w.value != [] ==> shown == w.value)
      && (w.value == [] && a.Some? ==> shown == a.value)
      && (w.value == [] && a.None? ==> shown == [])
      && (windowed.RequestFailed? && all.RequestFailed? ==> shown == [])
  {
  }

  /** The search: the student's name or the title contains the term, ignoring case. */
  predicate AppointmentMatches(term: string, a: Appointment) {
    Matches(a.studentName, term) || Matches(a.title, term)
  }

  function SearchAppointments(list: seq<Appointment>, term: string): (r: seq<Appointment>)
    ensures forall i :: 0 <= i < |r| ==> r[i] in list && AppointmentMatches(term, r[i])
    ensures forall i :: 0 <= i < |list| && AppointmentMatches(term, list[i]) ==> list[i] in r
  {
    Filter(list, (a: Appointment) => AppointmentMatches(term, a))
  }

  /** An empty search term keeps the whole list. */
  lemma EmptySearchKeepsAll(list: seq<Appointment>)
    ensures SearchAppointments(list, "") == list
  {
    forall i | 0 <= i < |list| ensures AppointmentMatches("", list[i]) {
      EmptyTermMatches(list[i].studentName);
    }
    FilterKeepsAll(list, (a: Appointment) => AppointmentMatches("", a));
  }

  /** The status buttons of the details dialog: label and the status each sends. */
  function StatusActions(a: Appointment): (actions: seq<(string, string)>)
    ensures actions != [] <==> a.status == "SCHEDULED"
    ensures forall i :: 0 <= i < |actions| ==> actions[i].1 == "COMPLETED" || actions[i].1 == "NO_SHOW"
  {
    if a.status == "SCHEDULED" then [("Não Compareceu", "NO_SHOW"), ("Marcar Presença", "COMPLETED")] else []
  }

  /** The update handleMarkStatus sends, and whether the details dialog stays open. */
  datatype StatusUpdate = StatusUpdate(id: string, status: string)

  function HandleMarkStatus(id: string, status: string, resolved: bool): (r: (StatusUpdate, bool))
    ensures r.0 == StatusUpdate(id, status)
    ensures r.1 == !resolved
  {
    (StatusUpdate(id, status), !resolved)
  }

  /** Every status action sends an update of that same appointment to COMPLETED or NO_SHOW. */
  lemma MarkStatusTargets(a: Appointment, i: int, resolved: bool)
    requires 0 <= i < |StatusActions(a)|
    ensures var u := HandleMarkStatus(a.id, StatusActions(a)[i].1, resolved).0;
      u.id == a.id && (u.status == "COMPLETED" || u.status == "NO_SHOW") && a.status == "SCHEDULED"
  {
  }

  /** The loading view replaces the list only while both queries are loading. */
  function ShowLoading(windowLoading: bool, allLoading: bool): (r: bool)
    ensures r <==> windowLoading && allLoading
  {
    windowLoading && allLoading
  }

  const StatusColors: map<string, string> :=
    map["SCHEDULED" := "warning", "COMPLETED" := "success", "CANCELLED" := "destructive", "NO_SHOW" := "secondary"]

  const StatusTexts: map<string, string> :=
    map["SCHEDULED" := "Agendado", "COMPLETED" := "Concluído", "CANCELLED" := "Cancelado", "NO_SHOW" := "Não Compareceu"]

  const TypeTexts: map<string, string> :=
    map["PERSONAL_TRAINING" := "Personal Training", "GROUP_CLASS" := "Aula em Grupo",
        "EVALUATION" := "Avaliação", "CONSULTATION" := "Consulta"]

  function StatusColor(status: string): string {
    Lookup(StatusColors, status, "secondary")
  }

  function StatusText(status: string): string {
    Lookup(StatusTexts, status, status)
  }

  function TypeText(kind: string): string {
    Lookup(TypeTexts, kind, kind)
  }

  /** NO_SHOW shares the "secondary" badge with unknown statuses; known statuses and types get their own text. */
  lemma LabelTables(status: string, kind: string)
    ensures StatusColor(status) == "secondary" <==> status == "NO_SHOW" || status !in StatusColors
    ensures StatusText(status) == status <==> status !in StatusTexts
    ensures TypeText(kind) == kind <==> kind !in TypeTexts
  {
  }
}
