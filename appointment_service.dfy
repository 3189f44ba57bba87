/**
 * The appointment data hooks: how the two list queries normalise their replies, the create,
 * update and delete mutations with their success gate and error texts, the optional time
 * formatting of an update, and the query options.
 */
module AppointmentService {
  import opened Common

  /** The part of a list reply the pages read: the appointments, if the reply has them. */
  datatype ListData<T> = ListData(appointments: Option<seq<T>>)

  /** How a list request ended: it threw, or it replied with a body that may be absent. */
  datatype ListReply<T> = RequestFailed | Replied(data: Option<ListData<T>>)

  /**
   * useGetAppointments' query function: `{appointments: []}` when the request throws, when there
   * is no body or when the body has no list; the body unchanged otherwise (an empty list included).
   */
  function WindowedList<T>(reply: ListReply<T>): (r: ListData<T>)
    ensures r.appointments.Some?
    ensures reply.Replied? && reply.data.Some? && reply.data.value.appointments.Some? ==> r == reply.data.value
    ensures !(reply.Replied? && reply.data.Some? && reply.data.value.appointments.Some?) ==> r == ListData(Some([]))
  {
    match reply
    case RequestFailed => ListData(Some([]))
    case Replied(data) =>
      if data.None? || data.value.appointments.None? then ListData(Some([])) else data.value
  }

  /** useGetAllAppointments' query function: `{appointments: []}` only when the request throws. */
  function AllList<T>(reply: ListReply<T>): (r: Option<ListData<T>>)
    ensures reply.RequestFailed? ==> r == Some(ListData(Some([])))
    ensures reply.Replied? ==> r == reply.data
  {
    match reply
    case RequestFailed => Some(ListData(Some([])))
    case Replied(data) => data
  }

  /** `data?.appointments` as the schedule reads it. */
  function Appointments<T>(data: Option<ListData<T>>): Option<seq<T>> {
    if data.Some? then data.value.appointments else None
  }

  /**
   * The two queries agree on every reply that carries a list and on failures; they differ only on
   * a reply without a list, which the windowed query turns into [] and the other passes on.
   */
  lemma ListsAgree<T>(reply: ListReply<T>)
    ensures Appointments(Some(WindowedList(reply))) == Appointments(AllList(reply))
      <==> reply.RequestFailed? || (reply.data.Some? && reply.data.value.appointments.Some?)
  {
  }

  datatype QueryOptions = QueryOptions(keyHead: string, refetchInterval: nat, staleTime: nat)

  /** Both list queries: keyed under "appointments", refetched every 30 s, fresh for 5 s. */
  const WindowedOptions := QueryOptions("appointments", 30000, 5000)
  const AllOptions := QueryOptions("appointments", 30000, 5000)

  /**
   * A successful create invalidates "appointments", the key both lists live under, so both are
   * refreshed; and the two queries share their timing.
   */
  lemma SuccessRefreshesBothLists(outcome: MutationOutcome)
    requires key in CreateSettled(outcome).invalidated
    ensures CreateSettled(outcome).invalidated == {WindowedOptions.keyHead} == {AllOptions.keyHead}
    ensures WindowedOptions.refetchInterval == AllOptions.refetchInterval == 30000
    ensures WindowedOptions.staleTime == AllOptions.staleTime == 5000
  {
  }

  const key := "appointments"

  /** useCreateAppointment: success gate on `appointment && message`, error text `mensagem || fallback`. */
  function CreateSettled(outcome: MutationOutcome): (e: MutationEffect)
    ensures e.invalidated == (if outcome.Replied? && outcome.hasEntity && Truthy(outcome.message) then {key} else {})
    ensures e.toast == SuccessToast("Agendamento criado com sucesso.") <==> e.invalidated != {}
    ensures outcome.Replied? && e.invalidated == {} ==> e.toast == ErrorToast("Erro ao criar agendamento.")
    ensures outcome.Failed? ==> e.toast == ErrorToast(OrElse(outcome.mensagem, "Erro ao criar agendamento."))
  {
    Settle(outcome, key, "Agendamento criado com sucesso.", "Erro ao criar agendamento.", "Erro ao criar agendamento.")
  }

  /** useDeleteAppointment: the same rule with the delete texts. */
  function DeleteSettled(outcome: MutationOutcome): (e: MutationEffect)
    ensures e.invalidated == (if outcome.Replied? && outcome.hasEntity && Truthy(outcome.message) then {key} else {})
    ensures e.toast == SuccessToast("Agendamento deletado com sucesso.") <==> e.invalidated != {}
    ensures outcome.Replied? && e.invalidated == {} ==> e.toast == ErrorToast("Erro ao deletar agendamento.")
    ensures outcome.Failed? ==> e.toast == ErrorToast(OrElse(outcome.mensagem, "Erro ao deletar agendamento."))
  {
    Settle(outcome, key, "Agendamento deletado com sucesso.", "Erro ao deletar agendamento.", "Erro ao deletar agendamento.")
  }

  /**
   * useUpdateAppointment has onSuccess only: a reply goes through the success gate, and a failed
   * request shows no toast and invalidates nothing (None).
   */
  function UpdateSettled(outcome: MutationOutcome): (e: Option<MutationEffect>)
    ensures e.None? <==> outcome.Failed?
    ensures e.Some? ==> (key in e.value.invalidated <==> outcome.hasEntity && Truthy(outcome.message))
    ensures e.Some? ==> e.value.toast == (if key in e.value.invalidated then SuccessToast("Agendamento atualizado com sucesso.") else ErrorToast("Erro ao atualizar agendamento."))
  {
    match outcome
    case Failed(_) => None
    case Replied(hasEntity, message) =>
      Some(SuccessGate(hasEntity, message, key, "Agendamento atualizado com sucesso.", "Erro ao atualizar agendamento."))
  }

  /** All three hooks refresh the lists on exactly the same replies; only create and delete speak on failure. */
  lemma SameGateForAll(outcome: MutationOutcome)
    ensures CreateSettled(outcome).invalidated == DeleteSettled(outcome).invalidated
    ensures outcome.Replied? ==> UpdateSettled(outcome).value.invalidated == CreateSettled(outcome).invalidated
    ensures outcome.Failed? ==> UpdateSettled(outcome).None? && CreateSettled(outcome).toast.ErrorToast?
  {
  }

  /**
   * The times of an update: each is formatted when given and non-empty, and left undefined (None)
   * otherwise; `format` stands for the date-to-ISO conversion.
   */
  function UpdateTimes(startTime: Option<string>, endTime: Option<string>, format: string -> string): (r: (Option<string>, Option<string>))
    ensures r.0.Some? <==> Truthy(startTime)
    ensures r.1.Some? <==> Truthy(endTime)
    ensures r.0.Some? ==> r.0.value == format(startTime.value)
    ensures r.1.Some? ==> r.1.value == format(endTime.value)
  {
    (if Truthy(startTime) then Some(format(startTime.value)) else None,
     if Truthy(endTime) then Some(format(endTime.value)) else None)
  }

  /** The times of a create: both always formatted. */
  function CreateTimes(startTime: string, endTime: string, format: string -> string): (string, string) {
    (format(startTime), format(endTime))
  }

  /** With both times filled in, an update sends the same times a create would. */
  lemma UpdateFormatsLikeCreate(startTime: string, endTime: string, format: string -> string)
    requires startTime != "" && endTime != ""
    ensures var u := UpdateTimes(Some(startTime), Some(endTime), format);
      var c := CreateTimes(startTime, endTime, format);
      u == (Some(c.0), Some(c.1))
  {
  }
}
