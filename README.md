# GymCRM admin console — a Dafny model of its decision logic

GymCRM is a React/Next.js admin console for a gym. It has sections for students, instructors,
payments, the appointment schedule, progress records, workout plans and notifications; a
dashboard; a header; an upload hook; and React Query data hooks. Most of the code is
rendering and HTTP plumbing. This project models the small deterministic layer inside it, the
code that decides what a user action does:

- form validators that stop at the first failing check;
- edits of form lists: exercises and photos;
- derived views over fetched lists: searches, the per-student filter, the appointment data
  source, summary counters, the progress rate, the weight trend and the comparison pick;
- label and badge tables;
- string and address building: initials, file and avatar addresses, and the progress query
  string;
- small decision machines: relative time, the auth gate of the workout-plans page, the success
  gate of the mutation hooks, and the optional instructor password.

Each source file of that core has one Dafny module. Three shared modules hold helpers:
- `Common`: optional values, JavaScript truthiness (`||` over strings), filter, removal at an
  index, and the success gate that the appointment and student hooks share.
- `Text`: ASCII lower-casing, substring search, JavaScript `trim`, `split`/`join` with their
  round trips, and integer printing with its parse-back round trip.
- `Ordering`: a stable sort by an integer key, which stands for the `Array.prototype.sort` calls
  with a date comparator.

The model takes the shape of the code it models:
- Expression code becomes functions over datatypes: handlers, validators, tables and
  normalisers.
- The few places that change things step by step stay imperative:
  - the exercise edit that copies the list into an array and assigns one slot
    (`WorkoutPlans.EditExercise`);
  - the page whose `checkAuth` sets its flags (`AuthGate.WorkoutPlansPage`);
  - the upload hook with its busy flag and its validation loop (`Upload.Uploader`);
  - the query-string builder that appends to a `URLSearchParams` (`ProgressService.SearchParams`
    and `ProgressService.GetAllPath`).

Several things enter the model as parameters rather than being modelled:
- the outcome of a request: resolved or rejected, and the reply body;
- the clock;
- date parsing;
- JWT payload decoding;
- URL form encoding.

## Model

| member | source | states |
|---|---|---|
| WorkoutPlans.ExerciseError | components/workout-plans-section.tsx:121-134 | an exercise passes iff its name is not blank, sets > 0 and reps are not blank; otherwise the name error comes first, then sets, then reps |
| WorkoutPlans.FirstInvalid | components/workout-plans-section.tsx:121-134 | the index of the first exercise that fails; every exercise before it passes |
| WorkoutPlans.FirstExerciseError | components/workout-plans-section.tsx:121-134 | there is no error iff every exercise passes; otherwise the error is the one of the first failing exercise |
| WorkoutPlans.CheckExercises | components/workout-plans-section.tsx:121-134 | the early-return loop over the exercises returns exactly the error of the first failing exercise, or none |
| WorkoutPlans.ValidateCreate | components/workout-plans-section.tsx:98-134 | create is accepted iff the trimmed name has at least 2 characters, a student and an instructor are chosen, there is an exercise and every exercise passes; each form error holds exactly when every earlier check passed and its own failed; past those, the error is that of the first failing exercise |
| WorkoutPlans.HandleCreatePlan | components/workout-plans-section.tsx:98-152 | a refused form sends nothing and shows the message of its first error; an accepted form is sent as is, and a resolved create closes the dialog and resets the form to blanks |
| WorkoutPlans.ValidateUpdate | components/workout-plans-section.tsx:154-177 | no selected plan returns silently; otherwise update is accepted iff the name has at least 2 trimmed characters and every exercise passes, and a refusal past the name is the error of the first failing exercise; an empty exercise list is never refused, and student and instructor are not checked |
| WorkoutPlans.UpdateAcceptsNoExercises | components/workout-plans-section.tsx:155-162 | with no exercises, update is accepted exactly on the name check |
| WorkoutPlans.UpdateWeakerThanCreate | components/workout-plans-section.tsx:98-177 | every form that create accepts is accepted by update for any selected plan |
| WorkoutPlans.EditFormOf | components/workout-plans-section.tsx:347-359 | opening a plan copies name, description and every exercise; a missing weight, rest time or instruction becomes "", and a rest time is printed as its number |
| WorkoutPlans.AddExercise | components/workout-plans-section.tsx:557-571 | one blank exercise (sets 0, empty texts) is appended, and the existing ones are kept in order |
| WorkoutPlans.RemoveExercise | components/workout-plans-section.tsx:543-544 | removing row i drops exactly that row: the length falls by one and the others keep their order; an index outside the list changes nothing |
| WorkoutPlans.RemoveUndoesAdd | components/workout-plans-section.tsx:543-571 | removing the row just added gives back the original list |
| WorkoutPlans.BlankRowBlocksCreate | components/workout-plans-section.tsx:121-125 | a form that passed every check is refused with "exercise without name" once a blank row is added |
| WorkoutPlans.LaterEditWins | components/workout-plans-section.tsx:466-540 | two edits of the same field of an exercise: the later one wins |
| WorkoutPlans.EditsOfDifferentFieldsCommute | components/workout-plans-section.tsx:466-540 | edits of different fields of an exercise commute |
| WorkoutPlans.EditExercise | components/workout-plans-section.tsx:468-472 | editing a field of row i changes only that field of that row; the length and every other row are unchanged |
| WorkoutPlans.ActivePlans | components/workout-plans-section.tsx:218 | the number of ACTIVE plans is at most the number of plans |
| WorkoutPlans.CountersAdditive | components/workout-plans-section.tsx:218-219 | the active count and the exercise total add up over any split of the plan list |
| WorkoutPlans.StudentsWithPlanBounds | components/workout-plans-section.tsx:220 | the number of distinct students is at most the number of plans, and at least 1 when there is a plan |
| WorkoutPlans.ActivePlansExtremes | components/workout-plans-section.tsx:218 | all plans are counted when all are ACTIVE, and none when none is |
| WorkoutPlans.StatusLabels | components/workout-plans-section.tsx:68-96 | the badge is "secondary" exactly for an unknown status, the text of an unknown status is the status itself, and both tables cover the same four statuses |
| WorkoutPlans.ToggleLabel | components/workout-plans-section.tsx:366-367 | the button reads "Pausar" exactly for a plan whose badge is the ACTIVE one, and "Ativar" otherwise |
| Progress.FilteredRecords | components/progress-section.tsx:68-71 | "all" keeps every record; any other selection keeps the records of that student |
| Progress.FilteredRecordsOfStudent | components/progress-section.tsx:68-71 | with a student selected, every kept record is that student's, every record of that student is kept, and the filter distributes over concatenation, so the order is kept |
| Progress.History | components/progress-section.tsx:93-95 | a student's records sorted by date, oldest first: sorted, a permutation of the student's records, all of them the student's |
| Progress.RoundPercent | components/progress-section.tsx:109 | `Math.round(100·p/n)` computed exactly: the integer r with r ≤ 100p/n + 1/2 < r + 1 |
| Progress.ProgressingStudents | components/progress-section.tsx:92-107 | a student is listed iff they are among the students, have at least two records, and their oldest record has more weight, or less muscle mass, than the newest, a missing value reading 0 |
| Progress.ProgressingMultiplicity | components/progress-section.tsx:92-107 | a progressing student with at least two records counts as often as the student list names them, and every other student not at all |
| Progress.ProgressRate | components/progress-section.tsx:84-110 | the rate is 0 without eligible students and otherwise the rounded percentage of progressing among eligible students; it never exceeds 100 |
| Progress.RateBounds | components/progress-section.tsx:109 | the rounded percentage is at most 100; it is 100 iff p/n ≥ 99.5% and 0 iff p/n < 0.5% |
| Progress.NoEligibleMeansZero | components/progress-section.tsx:85-90 | when no listed student has two records the rate is 0 |
| Progress.ProgressComparesExtremes | components/progress-section.tsx:93-101 | the oldest and newest records compared bound every record of the student by date |
| Progress.GetWeightTrend | components/progress-section.tsx:112-126 | with fewer than two records the trend is neutral with difference 0; otherwise it is up or down by the sign of current − weight of the second-newest record, and the difference is the absolute value |
| Progress.TrendBaseIsSecondNewest | components/progress-section.tsx:112-119 | the record the trend compares with is dated no later than the newest and no earlier than any other |
| Progress.CompareCandidates | components/progress-section.tsx:248-250 | the candidates are exactly the other records (different id) of the same student |
| Progress.ComparePick | components/progress-section.tsx:245-256 | with no candidate the previous choice is kept; otherwise a candidate is picked |
| Progress.ComparePickIsNewest | components/progress-section.tsx:248-254 | the pick is dated no earlier than any candidate, and among candidates of that date it is the first listed (stable sort) |
| Progress.CheckCreateRecord | components/progress-section.tsx:128-132 | create goes on iff a student and a weight are given; otherwise the toast "Selecione um aluno e informe o peso" |
| Progress.CheckEditRecord | components/progress-section.tsx:163-167 | edit goes on iff a record is selected and a weight is given; otherwise the toast "Informe o peso" |
| Progress.CheckPhotoBatch | components/progress-section.tsx:270-296 | size first: refused as too large iff some file exceeds 5 MiB, with the number of such files; then type: refused iff all sizes pass and some type is not allowed, with the number of such files; then the cap: refused iff both pass and the count would exceed 10; accepted otherwise |
| Progress.AcceptedPhotosPassUploadDefaults | components/progress-section.tsx:270-280 | every photo of an accepted batch also passes the upload hook's validator with its default options (hooks/use-upload.tsx:28-50) |
| Progress.RemovePhoto | components/progress-section.tsx:324-330 | removing photo i gives the list without that photo, the others in order |
| Progress.PhotoGateMessageNamesCount | components/progress-section.tsx:273-294 | `PhotoGateMessage`: every refusal has a toast and acceptance none; a size or type toast opens with the number of offending files, which parses back from it |
| Progress.AddPhotos | components/progress-section.tsx:297-318 | a refused batch leaves the photos; an accepted one appends the images of the files that were resized, after the existing photos |
| Progress.PhotoCapKept | components/progress-section.tsx:288-330 | adding a batch and removing a photo both keep a record at no more than 10 photos |
| Schedule.OpenDialog | components/schedule-section.tsx:62-87 | editing copies the appointment's fields (missing notes become ""); creating starts from the blank form of type PERSONAL_TRAINING |
| Schedule.ValidateSubmit | components/schedule-section.tsx:94-125 | submit passes iff the title is not blank, student, instructor, start and end are given, both times parse and end > start; each of the eight errors holds exactly when the checks before it passed and its own failed |
| Schedule.ZeroLengthRefused | components/schedule-section.tsx:123-125 | an end time equal to the start time is refused, with every other field valid |
| Schedule.HandleSubmit | components/schedule-section.tsx:94-152 | a refused form sends nothing and alerts the first error; otherwise an update of the selected appointment or a create; success closes the dialog and resets the form, and a failure alerts the error's message or the fallback text and keeps the form |
| Schedule.EditSubmitsUpdate | components/schedule-section.tsx:62-136 | opening an appointment and submitting it updates that appointment and never creates |
| Schedule.ResetFormIsRefused | components/schedule-section.tsx:137-146 | after a successful submit the form is blank with type PERSONAL_TRAINING, and submitting it again is refused for its title |
| Schedule.QueryWindow | components/schedule-section.tsx:47-48 | the query window runs from 3 days before the selected day to 3 days after |
| Schedule.RawAppointments | components/schedule-section.tsx:212-214 | the windowed list when it is not empty, else the full list, else empty; the result is empty iff both lists are |
| Schedule.DataSourceFromReplies | components/schedule-section.tsx:212-214 | over the replies as the two list hooks normalise them (lib/appointmentService.ts:190-206): a non-empty window is shown; otherwise the full list or empty; two failed requests show nothing |
| Schedule.SearchAppointments | components/schedule-section.tsx:216-220 | an appointment is kept iff its student name or title contains the term, ignoring case |
| Schedule.EmptySearchKeepsAll | components/schedule-section.tsx:216-220 | an empty term keeps the whole list |
| Schedule.StatusActions | components/schedule-section.tsx:549-562 | the mark-status buttons exist only for a SCHEDULED appointment, and each sends COMPLETED or NO_SHOW |
| Schedule.HandleMarkStatus | components/schedule-section.tsx:154-164 | the update carries the appointment id and the chosen status; the details dialog closes only when it resolves |
| Schedule.MarkStatusTargets | components/schedule-section.tsx:549-562 | every status action updates that same appointment to COMPLETED or NO_SHOW |
| Schedule.ShowLoading | components/schedule-section.tsx:222-224 | the loading view replaces the list iff both queries are loading |
| Schedule.LabelTables | components/schedule-section.tsx:166-209 | NO_SHOW shares the "secondary" badge with unknown statuses; unknown statuses and types keep their own text |
| Payments.ListQuery | components/payments-section.tsx:56-59 | the filter "all" sends no status and any other filter is sent as is; the limit is always 50 |
| Payments.SearchPayments | components/payments-section.tsx:78-81 | a payment is kept iff its student's name contains the term, ignoring case |
| Payments.SearchKeepsOrder | components/payments-section.tsx:78-81 | the search distributes over concatenation, so the listed order is kept |
| Payments.LabelTables | components/payments-section.tsx:96-137 | an unknown status keeps its text and gets "secondary"; the method text is "Não informado" iff the method is absent or unknown |
| Payments.HandleCreatePayment | components/payments-section.tsx:139-162 | refused with "Preencha todos os campos obrigatórios" and no request unless student, amount and due date are filled in; success toasts, closes and resets the form; failure toasts the error and keeps the form |
| Payments.HandleRegisterPayment | components/payments-section.tsx:164-186 | without a selection nothing happens; otherwise the selected payment is sent as PAID with the chosen method and the clock reading; success clears the selection and resets the method |
| Payments.RegisterWithDefaults | components/payments-section.tsx:164-186 | a payment opened from the list and registered with untouched defaults is sent with method PIX, and afterwards the register form is back to PIX |
| Payments.CreateResetsToInitial | components/payments-section.tsx:193-201 | a created payment leaves the create form as it started, with type MONTHLY |
| Payments.RowActions | components/payments-section.tsx:440-453 | "Registrar" appears iff the payment is PENDING, "Cobrar" iff it is OVERDUE, and "Ver Detalhes" always |
| Payments.RowActionsExclusive | components/payments-section.tsx:440-453 | no row offers both register and charge, and a paid row offers only the details |
| Payments.ReminderToast | components/payments-section.tsx:188-191 | the reminder is an information toast naming the student |
| Students.OpenDialog | components/students-section.tsx:48-83 | with a student the dialog edits it and copies its fields, an absent optional field becoming ""; without one it creates from a blank form; the dialog is open either way |
| Students.OpenedFormFallbacks | components/students-section.tsx:55-63 | an optional field of the opened form holds the student's value when present and "" otherwise |
| Students.HandleSubmit | components/students-section.tsx:85-109 | an update iff editing a selected student, else a create, with the whole form; success closes the dialog and blanks the form, and failure changes nothing |
| Students.OpenThenSubmit | components/students-section.tsx:48-91 | opening a student and submitting updates it at its own path (lib/studentsService.ts:76); opening without one creates |
| Students.ResetDisablesSubmit | components/students-section.tsx:289-296 | after a successful submit the blank form keeps the submit button disabled |
| Students.SubmitEnabledIff | components/students-section.tsx:291-295 | with no mutation pending, submit is enabled iff name and email are filled in; the relevant pending mutation disables it |
| Students.SearchStudents | components/students-section.tsx:111-115 | no list gives no result; otherwise a student is kept iff its name or email contains the term, ignoring case |
| Students.EmptySearchKeepsAll | components/students-section.tsx:111-115 | an empty term keeps every loaded student |
| Students.LabelTables | components/students-section.tsx:117-145 | PENDING is drawn "warning"; unknown statuses share "secondary" with INACTIVE and keep their raw text |
| Students.FirstChars | components/students-section.tsx:331-333 | the first characters of the words are at most one per word |
| Students.WordStarts | components/students-section.tsx:331-335 | reference definition: the non-space characters at the start of the name or right after a space |
| Students.FirstCharsOfSplit | components/students-section.tsx:331-334 | the first characters of the space-split words are exactly the word starts of the name |
| Students.InitialsAreWordStarts | components/students-section.tsx:331-335 | the initials are the first two word starts of the name (all of them when there are fewer), never a space |
| Students.TwoWordInitials | components/students-section.tsx:331-335 | a first and a last name give their two first letters |
| StudentDetails.StatusText | components/student-details.tsx:30-43 | ACTIVE, INACTIVE, SUSPENDED and PENDING read Ativo, Inativo, Suspenso and Pendente; any other status is shown as it is |
| StudentDetails.StatusTextMatchesList | components/student-details.tsx:30-43 | the page's own text table gives the same text as the student list's table (components/students-section.tsx) for every status |
| StudentDetails.BadgeDiffersOnlyOnPending | components/student-details.tsx:15-28 | the page's badge differs from the list's only on PENDING ("outline"); unknown statuses get "secondary" |
| StudentDetails.HeaderInitials | components/student-details.tsx:57-61 | the header initials are the first two word starts of the name (all of them when there are fewer) |
| StudentDetails.GenderLabel | components/student-details.tsx:108-114 | MALE, FEMALE and OTHER get their labels; anything else, or nothing, gives "Não informado" |
| StudentDetails.OptionalFieldTexts | components/student-details.tsx:95-161 | no optional field shows empty: each missing one shows its fallback text, and a present one shows its value |
| StudentDetails.RegistrationDate | components/student-details.tsx:179 | the registration date when present, else the creation date |
| Instructors.SearchInstructors | components/instructors-section.tsx:31-34 | no list gives no result; otherwise an instructor is kept iff its name or email contains the term, ignoring case |
| Instructors.SearchKeepsOrder | components/instructors-section.tsx:31-34 | the search distributes over concatenation, so the listed order is kept |
| Instructors.CountLabelForms | components/instructors-section.tsx:158 | `CountLabel`: the label starts with the count, which reads back as the count, and uses the singular exactly for 1 |
| Instructors.RoleColorsDistinct | components/instructors-section.tsx:54-65 | `RoleColor`: ADMIN, MANAGER and INSTRUCTOR get three different classes, and any other role the gray one, which none of them has |
| Instructors.HandleUpdate | components/instructors-section.tsx:41-47 | an update is sent iff an instructor is selected, with its id; success closes the dialog and clears the selection |
| Instructors.UpdateOnce | components/instructors-section.tsx:41-47 | after a resolved update the next call sends nothing |
| Instructors.InitialForm | components/instructors-section.tsx:255-260 | the form starts with no password, the instructor's name and email (or ""), and its role or INSTRUCTOR |
| Instructors.BuildUpdatePayload | components/instructors-section.tsx:265-276 | the step-by-step build equals the edit payload of the form: name, email and role always, and the password iff one was typed |
| Instructors.BuildCreatePayload | components/instructors-section.tsx:277-286 | the create payload loses nothing: the form reads back from it, the password included even when empty |
| Instructors.SubmitPayloadsAgree | components/instructors-section.tsx:265-286 | create and edit send the same name, email and role; an empty password goes out as "" on create and is left out on edit |
| Notifications.QueryParams | components/notifications-section.tsx:23-26 | type "all" sends no type; read filter "all" sends nothing, "read" sends true and anything else false |
| Notifications.ShownNotifications | components/notifications-section.tsx:36 | no data, or data with no list, shows an empty list |
| Notifications.PriorityLevels | components/notifications-section.tsx:99-114 | `PriorityText`: "Alta" only for PAYMENT_OVERDUE, "Média" for the three reminder types, "Baixa" for everything else |
| Notifications.PriorityColorMatchesText | components/notifications-section.tsx:82-114 | `PriorityColor` follows `PriorityText`; PAYMENT_OVERDUE is the only "destructive" type |
| Notifications.TypeTextTable | components/notifications-section.tsx:116-133 | `TypeText`: the six known types get their text, and unknown types are shown as they are |
| Notifications.MarkAllDisabled | components/notifications-section.tsx:157 | "mark all" is disabled iff the statistics report 0 unread or the mutation is pending; before the statistics arrive it is enabled |
| Notifications.RowActions | components/notifications-section.tsx:286-302 | "mark as read" appears iff the notification is unread; delete always |
| Notifications.ReadRowHasOnlyDelete | components/notifications-section.tsx:286-302 | a read notification offers only delete; an unread one offers two actions |
| Dashboard.MinutesBucket | components/dashboard.tsx:56-57 | `FormatRelativeTime`: any count below 60, negative ones included, reads "<m> min atrás" |
| Dashboard.HoursBucket | components/dashboard.tsx:58-60 | `FormatRelativeTime`: from 60 to 1439 minutes the text gives the whole hours, 1 to 23, with the plural from 2 on |
| Dashboard.DaysBucket | components/dashboard.tsx:61-64 | `FormatRelativeTime`: from 1440 minutes on the text gives the whole days, at least 1, with the plural from 2 on |
| Dashboard.MinutesDistinguished | components/dashboard.tsx:56-57 | `FormatRelativeTime`: two different counts in the minute bucket never read the same |
| Dashboard.ActivityBadge | components/dashboard.tsx:68-76 | an overdue payment is "destructive", a paid payment "default", any other payment or an appointment "secondary", and any other kind "outline" |
| Dashboard.ActivityStatusOnlyForPayments | components/dashboard.tsx:68-76 | the status only changes the badge of a payment |
| Dashboard.UpcomingBadge | components/dashboard.tsx:165 | 0 days left is "destructive", 1 day "secondary", and any other count "outline" |
| Dashboard.FrequencyDivisor | components/dashboard.tsx:43 | the divisor is at least 1: the active count when it is at least 1, and 1 otherwise |
| AppHeader.TitleTable | components/app-header.tsx:12-33 | `PageTitle`: the title is "Gym CRM Academy" iff the path is not one of the eight listed paths |
| AppHeader.MenuPathsTitled | components/app-sidebar.tsx:19-60 | every sidebar entry's path gets the entry's own title as header title, never the default, and every titled path is in the menu |
| AppHeader.DisplayName | components/app-header.tsx:44 | the user's name when there is a user with a non-empty name, "Usuário" otherwise |
| AppHeader.AvatarUrl | components/app-header.tsx:47-52 | without an avatar the placeholder; with one, the base address followed by "/uploads/" and the avatar file, the base being http://localhost:8000 without a backend address, the backend address as it is when it holds no "/api", and otherwise the backend address with its first "/api" cut out (or the localhost default when nothing is left) |
| AppHeader.AvatarDropsApiSuffix | components/app-header.tsx:50 | a backend address whose only "/api" is its suffix serves avatars from the same host without it |
| AppHeader.AvatarBareApiFallsBack | components/app-header.tsx:50 | a backend address that is just "/api" leaves nothing, so the local default host is used |
| AuthGate.DecisionCases | app/workout-plans/page.tsx:16-41 | `AuthDecision`: unauthenticated and malformed tokens redirect; without a token the expiry check is skipped; a token without `exp` is never expired; otherwise it proceeds iff exp·1000 ≥ now |
| AuthGate.AcceptedEarlier | app/workout-plans/page.tsx:27 | a token accepted now was accepted at every earlier moment |
| AuthGate.WorkoutPlansPage.CheckAuth | app/workout-plans/page.tsx:16-41 | a failed check sets the redirect to /login and leaves both flags unchanged; only when every check passes does the page become authenticated and stop loading |
| AuthGate.Mount | app/workout-plans/page.tsx:11-70 | the section is shown iff the decision is to proceed; otherwise the spinner stays up and the router is sent to /login |
| Upload.ValidateFile | hooks/use-upload.tsx:35-50 | a file passes iff its type is allowed and its size is at most the limit; the type is checked first, and a file of exactly the limit passes |
| Upload.DefaultLimits | hooks/use-upload.tsx:28-47 | `ValidateFile` and `FileErrorMessage` with the defaults: a 5 MiB image passes, one byte more is too large, and the size toast reads 5MB |
| Upload.TypeMessageListsTypes | hooks/use-upload.tsx:37-39 | `FileErrorMessage` for a bad type: the prefix followed by the allowed types joined with ", ", so every allowed type occurs in it and the first one right after the prefix |
| Upload.Outcome | hooks/use-upload.tsx:75-91 | success iff the reply says success, yielding its value; a bad status gives "Erro HTTP: <status>", an unsuccessful reply gives its message or "Erro no upload", and a network error gives its own message |
| Upload.HttpErrorNamesStatus | hooks/use-upload.tsx:75-77 | the status reads back from the HTTP error text |
| Upload.Uploader.UploadFile | hooks/use-upload.tsx:52-96 | an invalid file is refused with "Arquivo inválido" before any request and with the flags untouched; otherwise the request is made and the flags end reset whatever the outcome |
| Upload.Uploader.AppendValidated | hooks/use-upload.tsx:105-111 | the buffer holds exactly the files before the first invalid one (all of them when all are valid), every one of them valid |
| Upload.Uploader.UploadMultipleFiles | hooks/use-upload.tsx:98-144 | the request is made iff every file is valid, with all files; otherwise the toast of the first invalid file, then "Um ou mais arquivos são inválidos"; the flags end reset whatever the outcome |
| Upload.GetFileUrl | hooks/use-upload.tsx:187-196 | nothing for a missing or empty path; an http path unchanged; otherwise the API address (or the local default) + "/uploads/" + the path |
| Upload.FileUrlIdempotent | hooks/use-upload.tsx:187-196 | with an http base address, resolving a resolved address gives it back unchanged |
| ProgressService.GetAllPath | lib/progressService.ts:54-63 | the path is "/progress?" followed by the serialised pairs that the successive conditional appends produce |
| ProgressService.AppendedOrder | lib/progressService.ts:55-60 | the parameters come in the order studentId, startDate, endDate, page, limit, each at most once, and no other name appears |
| ProgressService.AppendedPresence | lib/progressService.ts:55-60 | the page, limit and studentId parameters are present iff their filters are truthy, so a page or limit of 0 is left out |
| ProgressService.NoFiltersPath | lib/progressService.ts:62 | without filters the path is "/progress?" |
| ProgressService.ZeroPageOmitted | lib/progressService.ts:59-60 | a page or limit of 0 produces the same parameters as none |
| ProgressService.Invalidated | lib/progressService.ts:108-141 | every mutation invalidates "progressRecords", and only update also invalidates "progressRecord" |
| ProgressService.InvalidationKeys | lib/progressService.ts:108-149 | create and delete invalidate the same keys, a strict subset of update's, and none refreshes "studentHistory" |
| ProgressService.QueryEnabled | lib/progressService.ts:100-106 | the single-record and history queries run iff the id is not empty |
| AppointmentService.WindowedList | lib/appointmentService.ts:53-70 | a failed request, a missing body or a body without a list gives an empty list; any other body is returned as is |
| AppointmentService.AllList | lib/appointmentService.ts:194-202 | a failed request gives an empty list; any reply is returned as is, even one without a list |
| AppointmentService.ListsAgree | lib/appointmentService.ts:190-206 | the two hooks give the same list iff the request failed or the reply carries a list |
| AppointmentService.SuccessRefreshesBothLists | lib/appointmentService.ts:112-118 | a successful create invalidates the key both lists live under, and both lists refetch every 30000 ms and stay fresh for 5000 ms |
| AppointmentService.CreateSettled | lib/appointmentService.ts:112-123 | "appointments" is invalidated iff the reply carries the appointment and a message, with the success toast; otherwise the error toast, on a failed request the server's `mensagem` or the fallback |
| AppointmentService.DeleteSettled | lib/appointmentService.ts:163-174 | the same rule with the delete texts |
| AppointmentService.UpdateSettled | lib/appointmentService.ts:144-151 | a failed update has no effect (no error handler); a reply goes through the same success gate with the update texts |
| AppointmentService.SameGateForAll | lib/appointmentService.ts:112-174 | the three hooks invalidate on exactly the same replies; only create and delete speak on a failed request |
| AppointmentService.UpdateTimes | lib/appointmentService.ts:133-137 | each time is formatted iff it is given and not empty, and left undefined otherwise |
| AppointmentService.UpdateFormatsLikeCreate | lib/appointmentService.ts:133-137 | with both times filled in, an update sends the same times a create would |
| StudentsService.StudentsList | lib/studentsService.ts:12-15 | the list is the reply's students, or empty when the reply has none |
| StudentsService.ListIsNeverMissing | lib/studentsService.ts:12-15 | the list always exists and holds exactly the replied students |
| StudentsService.CreateSettled | lib/studentsService.ts:42-53 | "students" is invalidated iff the reply carries the student and a message; otherwise the error toast "Erro ao criar aluno.", on a failed request the server's `mensagem` or that fallback |
| StudentsService.UpdateSettled | lib/studentsService.ts:80-91 | "students" is invalidated iff the reply carries the student and a message; otherwise the error toast "Erro ao atualizar aluno.", on a failed request the server's `mensagem` or that fallback |
| StudentsService.SettledAgree | lib/studentsService.ts:42-91 | create and update invalidate on exactly the same outcomes |
| StudentsService.UpdatePath | lib/studentsService.ts:76 | the path is "/students/" followed by the payload's own id |
| StudentsService.UpdatePathInjective | lib/studentsService.ts:76 | different ids go to different paths |
| StudentsService.GetStudent | lib/studentsService.ts:100-106 | a reply without a body or without a student fails with "Aluno não encontrado"; otherwise the student |
| StudentsService.StudentQuery | lib/studentsService.ts:98-108 | keyed by ["student", id], enabled iff the id is not empty, one retry |
| StudentsService.StudentQueryKeys | lib/studentsService.ts:96-99 | each student has its own cache key, apart from the list key the mutations refresh |
| Common.SuccessGate | lib/appointmentService.ts:112-119 | the resource key is invalidated, with the success toast, iff the reply carries the entity and a non-empty message; otherwise the error toast |
| Common.Settle | lib/studentsService.ts:42-53 | a reply goes through the success gate; a failed request invalidates nothing and shows the server's `mensagem` or the fallback |
| Text.MatchesIff | components/payments-section.tsx:79 | the case-insensitive match holds iff the lower-cased term occurs in the lower-cased field |
| Text.BlankIffTrimEmpty | components/workout-plans-section.tsx:122 | a text is blank iff trimming it leaves nothing |
| Text.IntToStringRoundTrip | components/instructors-section.tsx:158 | a printed integer parses back to itself |
| Ordering.SortStable | components/progress-section.tsx:250 | sorting by date keeps the listed order among records of the same date |

## Left out

- HTTP and storage I/O are not modelled: the axios instance, every `api.*` call, `fetch` and
  `FormData` in the upload hook, and `localStorage`. A request's outcome is a parameter
  (resolved or not, the reply body, the HTTP status).
- React Query semantics are not modelled: caching, staleness, refetching, retries and prefix
  matching. Invalidation is the set of key prefixes a hook names, and query options are plain
  records.
- `resizeImage` is not modelled: canvas, image decoding, floating-point scaling and JPEG
  encoding.
- `Progress.AddPhotos`: appends the resized images in file order. In the source each file is
  resized asynchronously and appended when it finishes, so the order can differ. The per-file
  error toasts and the success toast driven by the shared counter are not modelled.
- The clock and locale are inputs: `new Date()`, `recordsThisMonth`, `toLocaleDateString`, the
  date-fns `format`, and the date-to-ISO conversion (the `format` parameter of
  `AppointmentService.UpdateTimes`). Elapsed minutes and day differences are given as integers.
  Date parsing is a parameter that may fail (NaN).
- Floating-point formatting is not modelled: currency, `toFixed`, and the frequency value
  itself. Body measurements are reals compared exactly.
- `Progress.RoundPercent`: computes `Math.round` on the exact rational 100·p/n. Binary
  floating-point error in the quotient is not modelled.
- JWT decoding (`atob` and `JSON.parse`) is the `decode` parameter of `AuthGate`. It may fail
  (Malformed) or yield an optional `exp`. An `exp` that is not a number is not modelled.
- `WorkoutPlans.NameTooShortFor`: counts characters, while JavaScript's `length` counts UTF-16
  code units. A name that is a single character outside the Basic Multilingual Plane, such as an
  emoji, has length 2 in the source and passes; the model refuses it.
- `Students.Initials`: takes whole characters. The source's `n[0]` and `.slice(0, 2)` work on
  UTF-16 code units and can split a surrogate pair, which the model does not reproduce.
- `WorkoutPlans.ExerciseInput`: `sets` is an integer. The source stores `Number(input)`, which can
  be fractional (0.5 passes `!sets || sets <= 0`) or NaN (refused); neither is modelled.
- Case-insensitive matching lower-cases ASCII letters only. Unicode case mapping is not
  modelled.
- URL form encoding is the `encode` parameter of `ProgressService.Serialize`.
- `Upload.FileErrorMessage`: prints the size limit in whole megabytes (integer division). The
  source prints the floating-point quotient, which differs for limits that are not whole
  megabytes.
- `Upload.Uploader.UploadFile` and `Upload.Uploader.UploadMultipleFiles`: the `onSuccess` and
  `onError` callbacks, and the intermediate `isUploading = true` state seen while awaiting, are
  not modelled. The contracts state the state at the end.
- `Upload.Outcome`: a network failure is modelled as an error with a message. A thrown value
  that is not an `Error`, which the source reports as "Erro no upload", is not modelled.
- `deleteFile` in the upload hook is not modelled. It is a request and a toast with no
  decision logic.
- `ImagePreview` in the upload hook is not modelled. It is rendering.
- `handleCreateInstructor`, `handleDeleteInstructor`, `handleDeletePlan`, `handleTogglePlan` and
  `handleDeleteRecord` are not modelled. They forward to a mutation with no checks of their
  own; the confirmation dialog of the delete is user interaction.
- The progress create and edit handlers are modelled only by their required-field checks
  (`Progress.CheckCreateRecord`, `Progress.CheckEditRecord`). Their payloads go through
  `parseFloat`, which is not modelled.
- `useGetInstructorAvailability` in the appointment service is not modelled. It is a plain
  query with no logic.
- `WorkoutPlans.EditExercise`: the source assigns the field on the exercise object it shares
  with the previous list (a shallow copy), so the old list sees the change too. The model
  copies values, so that aliasing is not captured.
- `Payments.HandleCreatePayment`: the amount is sent as the text that `parseFloat` reads; the
  number it produces, NaN included, is not modelled.
- Thin service wrappers with no branching are not part of this model: the workout-plan, payment,
  instructor, notification, dashboard and user services. Nor are the test page, the layouts,
  the sidebar beyond its menu list, or the type-only style files.
- Rendering, dialogs, `confirm`/`alert` display, console logging and routing are not modelled.
  The router is the page's `redirectedTo` field.
