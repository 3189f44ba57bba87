/**
 * The instructors section: the search, the update guard, the role badge classes, the count
 * line, and the instructor form with its defaults and the payloads it builds.
 */
module Instructors {
  import opened Common
  import opened Text

  datatype Instructor = Instructor(id: string, name: string, email: string, role: string)

  predicate InstructorMatches(term: string, i: Instructor) {
    Matches(i.name, term) || Matches(i.email, term)
  }

  /** filteredInstructors: name or email contains the term, ignoring case; no list, no result. */
  function SearchInstructors(list: Option<seq<Instructor>>, term: string): (r: Option<seq<Instructor>>)
    ensures r.None? <==> list.None?
    ensures r.Some? ==> forall k :: 0 <= k < |r.value| ==> r.value[k] in list.value && InstructorMatches(term, r.value[k])
    ensures r.Some? ==> forall k :: 0 <= k < |list.value| && InstructorMatches(term, list.value[k]) ==> list.value[k] in r.value
  {
    match list
    case None => None
    case Some(l) => Some(Filter(l, (i: Instructor) => InstructorMatches(term, i)))
  }

  /** The search keeps the listed order: searching a concatenation searches each part. */
  lemma SearchKeepsOrder(a: seq<Instructor>, b: seq<Instructor>, term: string)
    ensures SearchInstructors(Some(a + b), term).value
      == SearchInstructors(Some(a), term).value + SearchInstructors(Some(b), term).value
  {
    FilterConcat(a, b, (i: Instructor) => InstructorMatches(term, i));
  }

  /**
   * The card's count line: "1 instrutor encontrado", otherwise the plural forms; an unloaded
   * list counts as 0.
   */
  function CountLabel(count: Option<nat>): string {
    var n := if count.Some? then count.value else 0;
    IntToString(n) + (if n == 1 then " instrutor encontrado" else " instrutores encontrados")
  }

  /** The singular form is used exactly for one instructor, and the number printed reads back as the count. */
  lemma CountLabelForms(count: Option<nat>)
    ensures var n := if count.Some? then count.value else 0;
      var line := CountLabel(count);
      var digits := IntToString(n);
      digits <= line && ParseInt(digits) == n
      && (line[|digits|..] == " instrutor encontrado" <==> n == 1)
  {
    var n := if count.Some? then count.value else 0;
    IntToStringRoundTrip(n);
    var line := CountLabel(count);
    var digits := IntToString(n);
    assert line[|digits|..] == (if n == 1 then " instrutor encontrado" else " instrutores encontrados");
  }

  const RoleColors: map<string, string> :=
    map["ADMIN" := "bg-red-100 text-red-800", "MANAGER" := "bg-blue-100 text-blue-800",
        "INSTRUCTOR" := "bg-green-100 text-green-800"]

  function RoleColor(role: string): string {
    Lookup(RoleColors, role, "bg-gray-100 text-gray-800")
  }

  /** The three roles get three different classes, and every other role the gray one, which none of them has. */
  lemma RoleColorsDistinct(a: string, b: string)
    requires a in RoleColors && b in RoleColors && a != b
    ensures RoleColor(a) != RoleColor(b)
    ensures forall r :: r !in RoleColors ==> RoleColor(r) != RoleColor(a)
  {
  }

  /** The edit and create dialogs' open flags and the instructor being edited. */
  datatype SectionState = SectionState(createOpen: bool, editOpen: bool, selected: Option<Instructor>)

  datatype UpdateRequest = UpdateRequest(id: string, data: UpdatePayload)

  /**
   * handleUpdateInstructor: nothing without a selection; otherwise update that instructor, and
   * after a resolved mutation close the dialog and clear the selection. A rejected mutation
   * leaves the state as it was.
   */
  function HandleUpdate(s: SectionState, data: UpdatePayload, resolved: bool): (r: (Option<UpdateRequest>, SectionState))
    ensures r.0.Some? <==> s.selected.Some?
    ensures r.0.Some? ==> r.0.value == UpdateRequest(s.selected.value.id, data)
    ensures s.selected.Some? && resolved ==> r.1 == s.(editOpen := false, selected := None)
    ensures !(s.selected.Some? && resolved) ==> r.1 == s
  {
    match s.selected
    case None => (None, s)
    case Some(i) =>
      (Some(UpdateRequest(i.id, data)), if resolved then s.(editOpen := false, selected := None) else s)
  }

  /** A resolved update cannot be repeated: the next call sends nothing. */
  lemma UpdateOnce(s: SectionState, data: UpdatePayload, next: UpdatePayload, resolved: bool)
    ensures HandleUpdate(HandleUpdate(s, data, true).1, next, resolved).0.None?
  {
  }

  datatype InstructorForm = InstructorForm(name: string, email: string, password: string, role: string)

  /** The form's initial value: the instructor's name, email and role (INSTRUCTOR if none), never a password. */
  function InitialForm(instructor: Option<Instructor>): (f: InstructorForm)
    ensures f.password == ""
    ensures f.role != ""
    ensures instructor.None? ==> f == InstructorForm("", "", "", "INSTRUCTOR")
    ensures instructor.Some? ==>
      f.name == instructor.value.name && f.email == instructor.value.email
      && f.role == (if instructor.value.role == "" then "INSTRUCTOR" else instructor.value.role)
  {
    match instructor
    case None => InstructorForm("", "", "", "INSTRUCTOR")
    case Some(i) =>
      InstructorForm(OrElse(Some(i.name), ""), OrElse(Some(i.email), ""), "", OrElse(Some(i.role), "INSTRUCTOR"))
  }

  /** The edit payload: the password is optional. */
  datatype UpdatePayload = UpdatePayload(name: string, email: string, role: string, password: Option<string>)

  datatype CreatePayload = CreatePayload(name: string, email: string, password: string, role: string)

  /** The edit payload a form yields: the password only when one was typed. */
  function UpdatePayloadFor(f: InstructorForm): UpdatePayload {
    UpdatePayload(f.name, f.email, f.role, if f.password != "" then Some(f.password) else None)
  }

  /**
   * The form's handleSubmit when editing: name, email and role always, and the password assigned
   * afterwards only when one was typed.
   */
  method BuildUpdatePayload(f: InstructorForm) returns (p: UpdatePayload)
    ensures p == UpdatePayloadFor(f)
    ensures p.name == f.name && p.email == f.email && p.role == f.role
    ensures p.password.Some? <==> f.password != ""
    ensures p.password.Some? ==> p.password.value == f.password
  {
    p := UpdatePayload(f.name, f.email, f.role, None);
    if f.password != "" {
      p := p.(password := Some(f.password));
    }
  }

  /** The form's handleSubmit when creating: all four fields, the password even when empty. */
  function BuildCreatePayload(f: InstructorForm): (p: CreatePayload)
    ensures InstructorForm(p.name, p.email, p.password, p.role) == f
  {
    CreatePayload(f.name, f.email, f.password, f.role)
  }

  /**
   * Creating and editing send the same name, email and role; they differ only on the password,
   * which create always carries and edit carries only when typed, so an empty password is sent as
   * "" on create and left out on edit.
   */
  lemma SubmitPayloadsAgree(f: InstructorForm)
    ensures var c, u := BuildCreatePayload(f), UpdatePayloadFor(f);
      c.name == u.name && c.email == u.email && c.role == u.role
      && u.password == (if c.password == "" then None else Some(c.password))
    ensures f.password == "" ==> BuildCreatePayload(f).password == "" && UpdatePayloadFor(f).password.None?
  {
  }
}
