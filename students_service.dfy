/**
 * The student data hooks: the list normalisation, the create and update mutations with their
 * success gate and error fallback, the update path and the single-student query.
 */
module StudentsService {
  import opened Common

  /** The cache key of the list query, which both mutations invalidate on success. */
  const ListKey := "students"

  /** useGetStudents: `res.data.students || []`; None is an absent list (an array, even empty, is kept). */
  function StudentsList<T>(students: Option<seq<T>>): (r: seq<T>)
    ensures students.Some? ==> r == students.value
    ensures students.None? ==> r == []
  {
    if students.Some? then students.value else []
  }

  /** A list reply, absent or not, always yields a list with exactly the replied students. */
  lemma ListIsNeverMissing<T>(students: Option<seq<T>>, x: T)
    ensures x in StudentsList(students) <==> students.Some? && x in students.value
  {
  }

  /** useCreateStudent: success gate on `student && message`, error text `mensagem || fallback`. */
  function CreateSettled(outcome: MutationOutcome): (e: MutationEffect)
    ensures e.invalidated == (if outcome.Replied? && outcome.hasEntity && Truthy(outcome.message) then {ListKey} else {})
    ensures e.toast == SuccessToast("Aluno criado com sucesso.") <==> e.invalidated != {}
    ensures outcome.Replied? && e.invalidated == {} ==> e.toast == ErrorToast("Erro ao criar aluno.")
    ensures outcome.Failed? ==> e.toast == ErrorToast(OrElse(outcome.mensagem, "Erro ao criar aluno."))
  {
    Settle(outcome, ListKey, "Aluno criado com sucesso.", "Erro ao criar aluno.", "Erro ao criar aluno.")
  }

  /** useUpdateStudent: the same rule with the update texts. */
  function UpdateSettled(outcome: MutationOutcome): (e: MutationEffect)
    ensures e.invalidated == (if outcome.Replied? && outcome.hasEntity && Truthy(outcome.message) then {ListKey} else {})
    ensures e.toast == SuccessToast("Aluno atualizado com sucesso.") <==> e.invalidated != {}
    ensures outcome.Replied? && e.invalidated == {} ==> e.toast == ErrorToast("Erro ao atualizar aluno.")
    ensures outcome.Failed? ==> e.toast == ErrorToast(OrElse(outcome.mensagem, "Erro ao atualizar aluno."))
  {
    Settle(outcome, ListKey, "Aluno atualizado com sucesso.", "Erro ao atualizar aluno.", "Erro ao atualizar aluno.")
  }

  /**
   * A failed request shows the server's text when it has one, whatever the hook, and the two
   * hooks differ only in their texts: they refresh the list on exactly the same replies.
   */
  lemma SettledAgree(outcome: MutationOutcome)
    ensures CreateSettled(outcome).invalidated == UpdateSettled(outcome).invalidated
    ensures outcome.Failed? && Truthy(outcome.mensagem) ==>
      CreateSettled(outcome).toast == UpdateSettled(outcome).toast == ErrorToast(outcome.mensagem.value)
    ensures outcome.Failed? && !Truthy(outcome.mensagem) ==>
      CreateSettled(outcome).toast != UpdateSettled(outcome).toast
  {
  }

  /** The path of the update request, built from the payload's own id. */
  function UpdatePath(id: string): (p: string)
    ensures |p| == |"/students/"| + |id|
    ensures p[..|"/students/"|] == "/students/" && p[|"/students/"|..] == id
  {
    "/students/" + id
  }

  /** Different payload ids are sent to different paths. */
  lemma UpdatePathInjective(a: string, b: string)
    requires UpdatePath(a) == UpdatePath(b)
    ensures a == b
  {
    assert a == UpdatePath(a)[|"/students/"|..];
  }

  /** What useGetStudent's query function ends with: the student, or a thrown error's message. */
  datatype Fetch<T> = Loaded(value: T) | Thrown(message: string)

  /**
   * `!response.data || !response.data.student` throws "Aluno não encontrado". The outer None is a
   * reply without data, the inner one a reply without a student.
   */
  function GetStudent<T>(reply: Option<Option<T>>): (r: Fetch<T>)
    ensures r.Loaded? <==> reply.Some? && reply.value.Some?
    ensures r.Loaded? ==> r.value == reply.value.value
    ensures r.Thrown? ==> r.message == "Aluno não encontrado"
  {
    if reply.None? || reply.value.None? then Thrown("Aluno não encontrado") else Loaded(reply.value.value)
  }

  datatype QueryConfig = QueryConfig(key: seq<string>, enabled: bool, retry: nat)

  /** useGetStudent's options: keyed by id, enabled only for a non-empty id, one retry. */
  function StudentQuery(id: string): (q: QueryConfig)
    ensures q.enabled <==> id != ""
    ensures q.retry == 1
    ensures |q.key| == 2 && q.key[0] == "student" && q.key[1] == id
  {
    QueryConfig(["student", id], id != "", 1)
  }

  /** Each student is cached under its own key, apart from the list the mutations refresh. */
  lemma StudentQueryKeys(a: string, b: string)
    ensures StudentQuery(a).key == StudentQuery(b).key <==> a == b
    ensures StudentQuery(a).key != [ListKey]
  {
    if StudentQuery(a).key == StudentQuery(b).key {
      assert StudentQuery(a).key[1] == StudentQuery(b).key[1];
    }
  }
}
