/**
 * The payments section: the list query, the search, the label tables, the create and register
 * handlers with their form defaults and resets, and the per-payment action buttons.
 */
module Payments {
  import opened Common
  import opened Text

  datatype Payment = Payment(id: string, status: string, payMethod: Option<string>, studentName: string)

  /** The parameters of the list query. */
  datatype PaymentQuery = PaymentQuery(status: Option<string>, limit: nat)

  /** The status filter "all" sends no status; any other value is sent as is. The limit is always 50. */
  function ListQuery(filterStatus: string): (q: PaymentQuery)
    ensures q.limit == 50
    ensures q.status.None? <==> filterStatus == "all"
    ensures q.status.Some? ==> q.status.value == filterStatus
  {
    PaymentQuery(if filterStatus == "all" then None else Some(filterStatus), 50)
  }

  /** filteredPayments: the student's name contains the search text, ignoring case. */
  function SearchPayments(payments: seq<Payment>, term: string): (r: seq<Payment>)
    ensures forall i :: 0 <= i < |r| ==> r[i] in payments && Matches(r[i].studentName, term)
    ensures forall i :: 0 <= i < |payments| && Matches(payments[i].studentName, term) ==> payments[i] in r
  {
    Filter(payments, (p: Payment) => Matches(p.studentName, term))
  }

  /** The search keeps the listed order: searching a concatenation searches each part. */
  lemma SearchKeepsOrder(a: seq<Payment>, b: seq<Payment>, term: string)
    ensures SearchPayments(a + b, term) == SearchPayments(a, term) + SearchPayments(b, term)
  {
    FilterConcat(a, b, (p: Payment) => Matches(p.studentName, term));
  }

  const StatusColors: map<string, string> := map["PAID" := "success", "PENDING" := "warning", "OVERDUE" := "destructive"]
  const StatusTexts: map<string, string> := map["PAID" := "Pago", "PENDING" := "Pendente", "OVERDUE" := "Vencido"]
  const MethodTexts: map<string, string> :=
    map["PIX" := "PIX", "CREDIT_CARD" := "Cartão de Crédito", "DEBIT_CARD" := "Cartão de Débito",
        "BANK_TRANSFER" := "Transferência", "CASH" := "Dinheiro"]

  function StatusColor(status: string): string {
    Lookup(StatusColors, status, "secondary")
  }

  function StatusText(status: string): string {
    Lookup(StatusTexts, status, status)
  }

  /** getMethodText; an absent method falls to the default like an unknown one. */
  function MethodText(payMethod: Option<string>): string {
    if payMethod.Some? then Lookup(MethodTexts, payMethod.value, "Não informado") else "Não informado"
  }

  /** Unknown statuses keep their text; only unknown or absent methods read "Não informado". */
  lemma LabelTables(status: string, payMethod: Option<string>)
    ensures StatusText(status) == status <==> status !in StatusTexts
    ensures StatusColor(status) == "secondary" <==> status !in StatusColors
    ensures MethodText(payMethod) == "Não informado" <==> payMethod.None? || payMethod.value !in MethodTexts
  {
  }

  datatype CreateForm = CreateForm(studentId: string, amount: string, dueDate: string, description: string, kind: string)
  datatype RegisterForm = RegisterForm(payMethod: string, notes: string)

  /** The create form's initial and reset value: type MONTHLY. */
  const EmptyCreateForm := CreateForm("", "", "", "", "MONTHLY")
  /** The register form's initial and reset value: method PIX. */
  const EmptyRegisterForm := RegisterForm("PIX", "")

  /** What the page holds between renders that these handlers touch. */
  datatype PageState = PageState(
    createForm: CreateForm, registerForm: RegisterForm, selected: Option<Payment>,
    createOpen: bool, registerOpen: bool)

  const InitialState := PageState(EmptyCreateForm, EmptyRegisterForm, None, false, false)

  /** The create request; `amount` is the text that parseFloat reads. */
  datatype CreateRequest = CreateRequest(studentId: string, amount: string, dueDate: string, description: string, kind: string)

  datatype CreateResult = CreateResult(request: Option<CreateRequest>, toast: Toast, after: PageState)

  /** handleCreatePayment: refused unless student, amount and due date are filled in. */
  function HandleCreatePayment(s: PageState, resolved: bool): (r: CreateResult)
    ensures r.request.Some? <==> s.createForm.studentId != "" && s.createForm.amount != "" && s.createForm.dueDate != ""
    ensures r.request.None? ==> r.toast == ErrorToast("Preencha todos os campos obrigatórios") && r.after == s
    ensures r.request.Some? ==>
      var f := s.createForm; r.request.value == CreateRequest(f.studentId, f.amount, f.dueDate, f.description, f.kind)
    ensures r.request.Some? && resolved ==>
      r.toast == SuccessToast("Pagamento criado com sucesso!")
      && r.after == s.(createForm := EmptyCreateForm, createOpen := false)
    ensures r.request.Some? && !resolved ==> r.toast == ErrorToast("Erro ao criar pagamento") && r.after == s
  {
    var f := s.createForm;
    if f.studentId == "" || f.amount == "" || f.dueDate == "" then
      CreateResult(None, ErrorToast("Preencha todos os campos obrigatórios"), s)
    else
      var request := CreateRequest(f.studentId, f.amount, f.dueDate, f.description, f.kind);
      if resolved then
        CreateResult(Some(request), SuccessToast("Pagamento criado com sucesso!"), s.(createForm := EmptyCreateForm, createOpen := false))
      else CreateResult(Some(request), ErrorToast("Erro ao criar pagamento"), s)
  }

  /** The update handleRegisterPayment sends; `paidAt` is the clock reading as an ISO string. */
  datatype PaymentUpdate = PaymentUpdate(id: string, status: string, payMethod: string, paidAt: string)

  datatype RegisterResult = RegisterResult(request: Option<PaymentUpdate>, toast: Option<Toast>, after: PageState)

  /** handleRegisterPayment: marks the selected payment PAID with the chosen method. */
  function HandleRegisterPayment(s: PageState, nowIso: string, resolved: bool): (r: RegisterResult)
    ensures s.selected.None? ==> r == RegisterResult(None, None, s)
    ensures s.selected.Some? ==>
      r.request == Some(PaymentUpdate(s.selected.value.id, "PAID", s.registerForm.payMethod, nowIso))
    ensures s.selected.Some? && resolved ==>
      r.toast == Some(SuccessToast("Pagamento registrado com sucesso!"))
      && r.after == s.(selected := None, registerForm := EmptyRegisterForm, registerOpen := false)
    ensures s.selected.Some? && !resolved ==> r.toast == Some(ErrorToast("Erro ao registrar pagamento")) && r.after == s
  {
    match s.selected
    case None => RegisterResult(None, None, s)
    case Some(p) =>
      var request := PaymentUpdate(p.id, "PAID", s.registerForm.payMethod, nowIso);
      if resolved then
        RegisterResult(Some(request), Some(SuccessToast("Pagamento registrado com sucesso!")),
          s.(selected := None, registerForm := EmptyRegisterForm, registerOpen := false))
      else RegisterResult(Some(request), Some(ErrorToast("Erro ao registrar pagamento")), s)
  }

  /** openRegisterModal: select the payment and show the register dialog. */
  function OpenRegister(s: PageState, p: Payment): PageState {
    s.(selected := Some(p), registerOpen := true)
  }

  /**
   * Registering a payment opened from the list with untouched defaults sends method PIX, and
   * after success both the selection and the method are back to their initial values.
   */
  lemma RegisterWithDefaults(p: Payment, nowIso: string)
    ensures var r := HandleRegisterPayment(OpenRegister(InitialState, p), nowIso, true);
      r.request == Some(PaymentUpdate(p.id, "PAID", "PIX", nowIso))
      && r.after.selected.None? && r.after.registerForm == InitialState.registerForm
  {
  }

  /** A created payment leaves the create form as it started, with type MONTHLY. */
  lemma CreateResetsToInitial(s: PageState)
    requires HandleCreatePayment(s, true).request.Some?
    ensures HandleCreatePayment(s, true).after.createForm == InitialState.createForm
    ensures HandleCreatePayment(s, true).after.createForm.kind == "MONTHLY"
  {
  }

  datatype PaymentAction = RegisterAction | ChargeAction | DetailsAction

  /** The buttons of a payment row: register for PENDING, charge for OVERDUE, details always. */
  function RowActions(p: Payment): (actions: set<PaymentAction>)
    ensures DetailsAction in actions
    ensures RegisterAction in actions <==> p.status == "PENDING"
    ensures ChargeAction in actions <==> p.status == "OVERDUE"
  {
    (if p.status == "PENDING" then {RegisterAction} else {})
    + (if p.status == "OVERDUE" then {ChargeAction} else {})
    + {DetailsAction}
  }

  /** No row offers both register and charge, and a paid row offers only the details. */
  lemma RowActionsExclusive(p: Payment)
    ensures !(RegisterAction in RowActions(p) && ChargeAction in RowActions(p))
    ensures StatusText(p.status) == "Pago" ==> RowActions(p) == {DetailsAction}
  {
  }

  /** handleSendReminder's toast. */
  function ReminderToast(p: Payment): (t: Toast)
    ensures t.InfoToast? && t.text == "Lembrete enviado para " + p.studentName
  {
    InfoToast("Lembrete enviado para " + p.studentName)
  }
}
