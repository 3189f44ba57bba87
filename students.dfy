/**
 * The students section: the dialog form and how it is filled, the create-or-update choice on
 * submit, the search, the initials avatar, the submit-disabled rule and the status labels.
 */
module Students {
  import opened Common
  import opened Text
  import StudentsService

  /** A student as the API returns it; the optional attributes may be absent. */
  datatype Student = Student(
    id: string, name: string, email: string,
    phone: Option<string>, dateOfBirth: Option<string>, gender: Option<string>, address: Option<string>,
    emergencyContact: Option<string>, emergencyPhone: Option<string>,
    medicalRestrictions: Option<string>, objectives: Option<string>,
    status: string, registrationDate: Option<string>, createdAt: string)

  /** The dialog's form: every field is a plain text box. */
  datatype StudentForm = StudentForm(
    id: string, name: string, email: string, phone: string, dateOfBirth: string, gender: string,
    address: string, emergencyContact: string, emergencyPhone: string,
    medicalRestrictions: string, objectives: string)

  const EmptyForm := StudentForm("", "", "", "", "", "", "", "", "", "", "")

  /** The section state the dialog handlers replace. */
  datatype DialogState = DialogState(isEditing: bool, selected: Option<Student>, form: StudentForm, open: bool)

  /**
   * handleOpenDialog: with a student, edit it with its fields copied (an absent or empty optional
   * field becomes ""); without one, a blank form that is not editing.
   */
  function OpenDialog(student: Option<Student>): (d: DialogState)
    ensures d.open && d.selected == student
    ensures d.isEditing <==> student.Some?
    ensures student.None? ==> d.form == EmptyForm
    ensures student.Some? ==>
      var s := student.value;
      d.form.id == s.id && d.form.name == s.name && d.form.email == s.email
      && d.form.phone == OrElse(s.phone, "") && d.form.dateOfBirth == OrElse(s.dateOfBirth, "")
      && d.form.gender == OrElse(s.gender, "") && d.form.address == OrElse(s.address, "")
      && d.form.emergencyContact == OrElse(s.emergencyContact, "")
      && d.form.emergencyPhone == OrElse(s.emergencyPhone, "")
      && d.form.medicalRestrictions == OrElse(s.medicalRestrictions, "")
      && d.form.objectives == OrElse(s.objectives, "")
  {
    match student
    case None => DialogState(false, None, EmptyForm, true)
    case Some(s) =>
      DialogState(true, student,
        StudentForm(s.id, s.name, s.email, OrElse(s.phone, ""), OrElse(s.dateOfBirth, ""),
          OrElse(s.gender, ""), OrElse(s.address, ""), OrElse(s.emergencyContact, ""),
          OrElse(s.emergencyPhone, ""), OrElse(s.medicalRestrictions, ""), OrElse(s.objectives, "")),
        true)
  }

  /** An opened student's form holds exactly its values where they are present, and "" elsewhere. */
  lemma OpenedFormFallbacks(s: Student)
    ensures var f := OpenDialog(Some(s)).form;
      (Truthy(s.phone) ==> f.phone == s.phone.value) && (!Truthy(s.phone) ==> f.phone == "")
      && (Truthy(s.objectives) ==> f.objectives == s.objectives.value) && (!Truthy(s.objectives) ==> f.objectives == "")
      && f.id == s.id
  {
  }

  /** The request handleSubmit sends with the whole form. */
  datatype Request = UpdateStudent(form: StudentForm) | CreateStudent(form: StudentForm)

  datatype SubmitResult = SubmitResult(request: Request, after: DialogState)

  /**
   * handleSubmit: update when editing a selected student, otherwise create. A resolved mutation
   * closes the dialog and blanks the form; editing and the selection are left as they were. A
   * rejected one changes nothing.
   */
  function HandleSubmit(d: DialogState, resolved: bool): (r: SubmitResult)
    ensures r.request.UpdateStudent? <==> d.isEditing && d.selected.Some?
    ensures r.request.form == d.form
    ensures resolved ==> r.after == d.(open := false, form := EmptyForm)
    ensures !resolved ==> r.after == d
  {
    var request := if d.isEditing && d.selected.Some? then UpdateStudent(d.form) else CreateStudent(d.form);
    SubmitResult(request, if resolved then d.(open := false, form := EmptyForm) else d)
  }

  /**
   * Opening a student and submitting updates that student at its own path; opening the dialog
   * without one creates.
   */
  lemma OpenThenSubmit(student: Option<Student>, resolved: bool)
    ensures var r := HandleSubmit(OpenDialog(student), resolved);
      (r.request.UpdateStudent? <==> student.Some?)
      && (student.Some? ==> StudentsService.UpdatePath(r.request.form.id) == "/students/" + student.value.id)
  {
  }

  /** After a resolved submit the blank form keeps the submit button disabled. */
  lemma ResetDisablesSubmit(d: DialogState, updatePending: bool, createPending: bool)
    ensures var after := HandleSubmit(d, true).after;
      SubmitDisabled(after.isEditing, updatePending, createPending, after.form)
  {
  }

  /**
   * The submit button is disabled while the relevant mutation (update when editing, create
   * otherwise) is pending, or while the name or the email is empty.
   */
  predicate SubmitDisabled(isEditing: bool, updatePending: bool, createPending: bool, f: StudentForm) {
    (if isEditing then updatePending else createPending) || f.name == "" || f.email == ""
  }

  /** An idle dialog is enabled exactly when both name and email are filled in. */
  lemma SubmitEnabledIff(isEditing: bool, f: StudentForm)
    ensures !SubmitDisabled(isEditing, false, false, f) <==> f.name != "" && f.email != ""
    ensures SubmitDisabled(isEditing, isEditing, !isEditing, f)
  {
  }

  predicate StudentMatches(term: string, s: Student) {
    Matches(s.name, term) || Matches(s.email, term)
  }

  /**
   * filteredStudents: the students whose name or email contains the term, ignoring case. While
   * the list is not loaded (`students?.filter`) there is no result.
   */
  function SearchStudents(students: Option<seq<Student>>, term: string): (r: Option<seq<Student>>)
    ensures r.None? <==> students.None?
    ensures r.Some? ==> forall i :: 0 <= i < |r.value| ==> r.value[i] in students.value && StudentMatches(term, r.value[i])
    ensures r.Some? ==> forall i :: 0 <= i < |students.value| && StudentMatches(term, students.value[i]) ==> students.value[i] in r.value
  {
    match students
    case None => None
    case Some(list) => Some(Filter(list, (s: Student) => StudentMatches(term, s)))
  }

  /** An empty search shows every loaded student. */
  lemma EmptySearchKeepsAll(list: seq<Student>)
    ensures SearchStudents(Some(list), "") == Some(list)
  {
    forall i | 0 <= i < |list| ensures StudentMatches("", list[i]) {
      EmptyTermMatches(list[i].name);
    }
    FilterKeepsAll(list, (s: Student) => StudentMatches("", s));
  }

  const StatusColors: map<string, string> :=
    map["ACTIVE" := "default", "INACTIVE" := "secondary", "SUSPENDED" := "destructive", "PENDING" := "warning"]

  const StatusTexts: map<string, string> :=
    map["ACTIVE" := "Ativo", "INACTIVE" := "Inativo", "SUSPENDED" := "Suspenso", "PENDING" := "Pendente"]

  function StatusColor(status: string): string {
    Lookup(StatusColors, status, "secondary")
  }

  function StatusText(status: string): string {
    Lookup(StatusTexts, status, status)
  }

  /** Unknown statuses get the "secondary" badge, shared with INACTIVE, and keep their raw text. */
  lemma LabelTables(status: string)
    ensures StatusColor(status) == "secondary" <==> status == "INACTIVE" || status !in StatusColors
    ensures StatusColor("PENDING") == "warning"
    ensures StatusText(status) == status <==> status !in StatusTexts
  {
  }

  /** `n[0]` of a word: its first character, or nothing for an empty word (joined as ""). */
  function Head(w: string): string {
    if w == [] then [] else [w[0]]
  }

  /** `words.map((n) => n[0]).join("")`. */
  function FirstChars(words: seq<string>): (r: string)
    ensures |r| <= |words|
  {
    if words == [] then [] else Head(words[0]) + FirstChars(words[1..])
  }

  /** The avatar text: the first letters of the space-separated words, at most two of them. */
  function Initials(name: string): string {
    var all := FirstChars(Split(name, ' '));
    if |all| <= 2 then all else all[..2]
  }

  /**
   * Reference definition of the word starts: the non-space characters at the start of the text
   * (when `afterSpace`) or right after a space.
   */
  function WordStarts(t: string, afterSpace: bool): (r: string)
    ensures |r| <= |t|
    ensures forall k :: 0 <= k < |r| ==> r[k] != ' ' && r[k] in t
  {
    if t == [] then []
    else (if afterSpace && t[0] != ' ' then [t[0]] else []) + WordStarts(t[1..], t[0] == ' ')
  }

  /** The first characters of the split words are the word starts of the text. */
  lemma {:induction false} FirstCharsOfSplit(t: string)
    ensures FirstChars(Split(t, ' ')) == WordStarts(t, true)
    ensures FirstChars(Split(t, ' ')[1..]) == WordStarts(t, false)
  {
    if t != [] {
      FirstCharsOfSplit(t[1..]);
      var rest := Split(t[1..], ' ');
      var w := Split(t, ' ');
      if t[0] == ' ' {
        assert w == [""] + rest;
        assert w[1..] == rest;
      } else {
        assert w == [[t[0]] + rest[0]] + rest[1..];
        assert w[1..] == rest[1..];
        assert Head(w[0]) == [t[0]];
      }
    }
  }

  /** The initials are the first two word starts of the name (all of them when fewer), none of them a space. */
  lemma InitialsAreWordStarts(name: string)
    ensures var r, ws := Initials(name), WordStarts(name, true);
      r == (if |ws| <= 2 then ws else ws[..2])
      && forall k :: 0 <= k < |r| ==> r[k] != ' ' && r[k] in name
  {
    FirstCharsOfSplit(name);
  }

  /** A first and a last name give their two first letters. */
  lemma TwoWordInitials(first: string, last: string)
    requires first != [] && last != [] && ' ' !in first && ' ' !in last
    ensures Initials(first + " " + last) == [first[0], last[0]]
  {
    SplitJoin([first, last], ' ');
    assert Join([first, last], ' ') == first + " " + last;
    assert FirstChars([first, last]) == [first[0]] + FirstChars([last]);
  }
}
