/**
 * The student details page: its own status badge table, the gender label, the fallback texts of
 * the optional fields and the registration date.
 */
module StudentDetails {
  import opened Common
  import Students

  /** This page's badge table: like the list's, except that PENDING is drawn "outline". */
  const StatusColors: map<string, string> :=
    map["ACTIVE" := "default", "INACTIVE" := "secondary", "SUSPENDED" := "destructive", "PENDING" := "outline"]

  function StatusColor(status: string): string {
    Lookup(StatusColors, status, "secondary")
  }

  /** This page's own text table. */
  const StatusTexts: map<string, string> :=
    map["ACTIVE" := "Ativo", "INACTIVE" := "Inativo", "SUSPENDED" := "Suspenso", "PENDING" := "Pendente"]

  /** The badge text: the Portuguese name of the four known statuses, the raw status otherwise. */
  function StatusText(status: string): (r: string)
    ensures status == "ACTIVE" ==> r == "Ativo"
    ensures status == "INACTIVE" ==> r == "Inativo"
    ensures status == "SUSPENDED" ==> r == "Suspenso"
    ensures status == "PENDING" ==> r == "Pendente"
    ensures r == status <==> status !in StatusTexts
  {
    Lookup(StatusTexts, status, status)
  }

  /** The page and the student list show the same text for every status, known or not. */
  lemma StatusTextMatchesList(status: string)
    ensures StatusText(status) == Students.StatusText(status)
  {
    assert StatusTexts == Students.StatusTexts;
  }

  /** The details badge differs from the list badge on PENDING and nowhere else. */
  lemma BadgeDiffersOnlyOnPending(status: string)
    ensures StatusColor(status) != Students.StatusColor(status) <==> status == "PENDING"
    ensures StatusColor(status) == "secondary" <==> status == "INACTIVE" || status !in StatusColors
  {
  }

  /** The header avatar uses the list's initials rule: the first two word starts of the name. */
  function HeaderInitials(s: Students.Student): (r: string)
    ensures var ws := Students.WordStarts(s.name, true);
      r == (if |ws| <= 2 then ws else ws[..2])
  {
    Students.InitialsAreWordStarts(s.name);
    Students.Initials(s.name)
  }

  /** The gender line: the three known values, "Não informado" for anything else or nothing. */
  function GenderLabel(gender: Option<string>): (r: string)
    ensures gender == Some("MALE") ==> r == "Masculino"
    ensures gender == Some("FEMALE") ==> r == "Feminino"
    ensures gender == Some("OTHER") ==> r == "Outro"
    ensures r == "Não informado" <==> !(gender in {Some("MALE"), Some("FEMALE"), Some("OTHER")})
  {
    if gender == Some("MALE") then "Masculino"
    else if gender == Some("FEMALE") then "Feminino"
    else if gender == Some("OTHER") then "Outro"
    else "Não informado"
  }

  /** The texts the personal, medical and training tabs show for the optional fields. */
  datatype OptionalTexts = OptionalTexts(
    phone: string, address: string, emergencyContact: string, emergencyPhone: string,
    medicalRestrictions: string, objectives: string, dateOfBirth: Option<string>)

  /**
   * Each absent or empty field reads as its fallback; the birth date is formatted when present
   * (None here) and reads "Não informada" otherwise.
   */
  function OptionalFieldTexts(s: Students.Student): (t: OptionalTexts)
    ensures t.phone != "" && t.address != "" && t.emergencyContact != "" && t.emergencyPhone != ""
    ensures t.medicalRestrictions != "" && t.objectives != ""
    ensures !Truthy(s.phone) ==> t.phone == "Não informado"
    ensures !Truthy(s.address) ==> t.address == "Não informado"
    ensures !Truthy(s.emergencyContact) ==> t.emergencyContact == "Não informado"
    ensures !Truthy(s.emergencyPhone) ==> t.emergencyPhone == "Não informado"
    ensures !Truthy(s.medicalRestrictions) ==> t.medicalRestrictions == "Nenhuma restrição informada"
    ensures !Truthy(s.objectives) ==> t.objectives == "Não informados"
    ensures Truthy(s.phone) ==> t.phone == s.phone.value
    ensures Truthy(s.address) ==> t.address == s.address.value
    ensures Truthy(s.emergencyContact) ==> t.emergencyContact == s.emergencyContact.value
    ensures Truthy(s.emergencyPhone) ==> t.emergencyPhone == s.emergencyPhone.value
    ensures Truthy(s.medicalRestrictions) ==> t.medicalRestrictions == s.medicalRestrictions.value
    ensures Truthy(s.objectives) ==> t.objectives == s.objectives.value
    ensures t.dateOfBirth.Some? <==> !Truthy(s.dateOfBirth)
    ensures t.dateOfBirth.Some? ==> t.dateOfBirth.value == "Não informada"
  {
    OptionalTexts(
      OrElse(s.phone, "Não informado"), OrElse(s.address, "Não informado"),
      OrElse(s.emergencyContact, "Não informado"), OrElse(s.emergencyPhone, "Não informado"),
      OrElse(s.medicalRestrictions, "Nenhuma restrição informada"), OrElse(s.objectives, "Não informados"),
      if Truthy(s.dateOfBirth) then None else Some("Não informada"))
  }

  /** The date the history tab formats: the registration date when present, else the creation date. */
  function RegistrationDate(s: Students.Student): (r: string)
    ensures Truthy(s.registrationDate) ==> r == s.registrationDate.value
    ensures !Truthy(s.registrationDate) ==> r == s.createdAt
    ensures s.createdAt != "" ==> r != ""
  {
    OrElse(s.registrationDate, s.createdAt)
  }
}
