/**
 * The notifications section: the filters turned into query parameters, the list default, the
 * priority and type labels, and which buttons are offered.
 */
module Notifications {
  import opened Common

  datatype Notification = Notification(id: string, kind: string, isRead: bool)

  /** The list query's parameters; None is a parameter left undefined. */
  datatype NotificationQuery = NotificationQuery(kind: Option<string>, isRead: Option<bool>)

  /** The type filter "all" sends no type; the read filter sends nothing for "all", true for "read", false otherwise. */
  function QueryParams(typeFilter: string, readFilter: string): (q: NotificationQuery)
    ensures q.kind.None? <==> typeFilter == "all"
    ensures q.kind.Some? ==> q.kind.value == typeFilter
    ensures q.isRead.None? <==> readFilter == "all"
    ensures q.isRead == Some(true) <==> readFilter == "read"
    ensures readFilter == "unread" ==> q.isRead == Some(false)
  {
    NotificationQuery(
      if typeFilter == "all" then None else Some(typeFilter),
      if readFilter == "all" then None else Some(readFilter == "read"))
  }

  /** `notificationsData?.notifications || []`: no data yet, or no list in it, shows an empty list. */
  function ShownNotifications(data: Option<Option<seq<Notification>>>): (r: seq<Notification>)
    ensures data.Some? && data.value.Some? ==> r == data.value.value
    ensures !(data.Some? && data.value.Some?) ==> r == []
  {
    if data.Some? && data.value.Some? then data.value.value else []
  }

  const PriorityColors: map<string, string> :=
    map["PAYMENT_OVERDUE" := "destructive", "PAYMENT_DUE" := "outline", "APPOINTMENT_REMINDER" := "outline",
        "BIRTHDAY" := "secondary", "GENERAL" := "secondary", "PLAN_EXPIRING" := "outline"]

  const PriorityTexts: map<string, string> :=
    map["PAYMENT_OVERDUE" := "Alta", "PAYMENT_DUE" := "Média", "APPOINTMENT_REMINDER" := "Média",
        "BIRTHDAY" := "Baixa", "GENERAL" := "Baixa", "PLAN_EXPIRING" := "Média"]

  const TypeTexts: map<string, string> :=
    map["PAYMENT_DUE" := "Pagamento Pendente", "PAYMENT_OVERDUE" := "Pagamento Atrasado",
        "APPOINTMENT_REMINDER" := "Lembrete de Agendamento", "BIRTHDAY" := "Aniversário",
        "PLAN_EXPIRING" := "Plano Vencendo", "GENERAL" := "Geral"]

  function PriorityColor(kind: string): string {
    Lookup(PriorityColors, kind, "secondary")
  }

  function PriorityText(kind: string): string {
    Lookup(PriorityTexts, kind, "Baixa")
  }

  function TypeText(kind: string): string {
    Lookup(TypeTexts, kind, kind)
  }

  /**
   * The three priorities: "Alta" only for an overdue payment, "Média" for a due payment, an
   * appointment reminder or an expiring plan, "Baixa" for everything else, known or not.
   */
  lemma PriorityLevels(kind: string)
    ensures PriorityText(kind) == "Alta" <==> kind == "PAYMENT_OVERDUE"
    ensures PriorityText(kind) == "Média" <==> kind in {"PAYMENT_DUE", "APPOINTMENT_REMINDER", "PLAN_EXPIRING"}
    ensures PriorityText(kind) == "Baixa" <==> kind !in {"PAYMENT_OVERDUE", "PAYMENT_DUE", "APPOINTMENT_REMINDER", "PLAN_EXPIRING"}
  {
  }

  /** The badge colour follows the priority text: Alta is destructive, Média outline, Baixa secondary. */
  lemma PriorityColorMatchesText(kind: string)
    ensures PriorityColor(kind) == "destructive" <==> PriorityText(kind) == "Alta"
    ensures PriorityColor(kind) == "outline" <==> PriorityText(kind) == "Média"
    ensures PriorityColor(kind) == "secondary" <==> PriorityText(kind) == "Baixa"
  {
  }

  /** Known types get their own text, and unknown ones are shown as they are. */
  lemma TypeTextTable(kind: string)
    ensures TypeText(kind) == kind <==> kind !in TypeTexts
    ensures kind in TypeTexts <==> kind in PriorityTexts
  {
  }

  /**
   * "Marcar Todas como Lidas" is disabled when the statistics report no unread notification or
   * the mutation is pending; before the statistics arrive it stays enabled.
   */
  function MarkAllDisabled(unread: Option<int>, pending: bool): (r: bool)
    ensures r <==> unread == Some(0) || pending
    ensures unread.None? && !pending ==> !r
  {
    unread == Some(0) || pending
  }

  datatype NotificationAction = MarkAsRead | Delete

  /** The buttons of a notification: "Marcar como Lida" only while it is unread, delete always. */
  function RowActions(n: Notification): (actions: set<NotificationAction>)
    ensures Delete in actions
    ensures MarkAsRead in actions <==> !n.isRead
  {
    (if n.isRead then {} else {MarkAsRead}) + {Delete}
  }

  /** Marking a notification read leaves it with the delete button alone. */
  lemma ReadRowHasOnlyDelete(n: Notification)
    ensures RowActions(n.(isRead := true)) == {Delete}
    ensures |RowActions(n)| == (if n.isRead then 1 else 2)
  {
    if !n.isRead {
      assert RowActions(n) == {MarkAsRead, Delete};
    }
  }
}
