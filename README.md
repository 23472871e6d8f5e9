# CervixAI clinical workflow core, in Dafny

This project models the back end of CervixAI, a FastAPI service for
AI-assisted cervical cancer screening. The model covers:

- patients, screenings and samples;
- the simulated AI analysis that produces diagnoses and AI results;
- clinician annotations and their sign-off;
- clinician review of a diagnosis;
- the role-based permission checks;
- the append-only audit ledger and its compliance queries.

It models the route handlers under `app/app/api/routes/`, the services under
`app/app/services/` and the ORM models under `app/app/models/`, and proves
properties of that model.

## How the model is built

- **The database** is one object, `Store.Db`, as in the source's SQLAlchemy
  session.
  - Each table is a map from id to row. The audit ledger is a sequence of
    entries.
  - One counter hands out every id. So "table order", the order SQLite
    returns rows in when a query has no `ORDER BY`, is increasing id order.
  - `Store.ValidState` is the invariant every handler keeps:
    - every key is below the counter and equals its row's id;
    - ledger ids increase;
    - medical record numbers are unique;
    - a screening has at most one diagnosis;
    - a signed-off annotation has a sign-off time.
- **Rows** are immutable datatypes. An ORM attribute write replaces the row in
  its table.
- **Handlers** are methods taking the `Db`.
  - Each one states its whole new state as the old state with named changes:
    the rows it writes, the audit entries it appends and the counter.
  - It also states every error response, with its status and detail text.
  - When the source commits a change but the database refuses it, the handler
    returns `IntegrityError` and the state is unchanged. The constraints
    modelled are the NOT NULL columns, the unique `medical_record_number`, and
    the unique `screening_id` of a diagnosis.
- **The `setattr` loops** of the PATCH endpoints are `while` loops over the
  fields `model_dump(exclude_unset=True)` returns, in declaration order.
  - Each loop is proved equal to a field-wise merge function (`Schemas.Merge*`),
    which says which fields take the sent value and that all others are kept.
  - A patch is `Keep` (not sent) or `Put(v)` (sent, possibly null).
- **Read-only queries** are functions of a database snapshot (`DbState`).
  - They are specified by membership, lengths, order and totals: which rows
    they return, how many, in what order, and with what total.
  - `skip`/`limit` follow SQLite: a negative offset is 0 and a negative limit
    is no limit.
  - `ORDER BY ... DESC` is a stable descending sort, which is one of the
    orders the database may return.
- **Units.**
  - Times are integer seconds.
  - Confidences are integers in basis points: 1.0 is 10000 and the 0.7
    threshold is 7000.
  - Ids are natural numbers, not UUID strings.
- **Randomness** becomes parameters:
  - the `random.uniform` draws of the service inference are `draws`;
  - the category and confidence of `mock_ai_analysis` are `prediction` and
    `confidence`.
- **The file system** becomes parameters: `os.path.exists` is a flag or a set
  of paths present on disk.

## What the code does and does not enforce

The model follows the code, which is looser than a clinical workflow engine
would be:

- **Screening status.** There is no screening state machine. `PATCH
  /screenings/{id}` and `PATCH /samples/{id}` accept any `status` string
  (`Schemas.MergeScreening`, `Schemas.MergeSample`).
- **Completion gate.** A screening becomes `completed` on a clinician review
  (`DiagnosisRoutes.SubmitClinicianReview`, `AnnotationService.ReviewDiagnosis`)
  whether or not any annotation has been signed off.
- **Tie-break for the primary label.** It is not "most severe wins":
  `max(scores, key=scores.get)` keeps the first maximum in category order, so a
  tie goes to the less severe category (`AiResultService.ArgMaxFirst`).
- **Repeated sign-off.** Signing off again returns the signed annotation
  unchanged and logs nothing. No `repeat` entry is logged.
- **Analysis preconditions.** `AIResultService.run_analysis` checks neither the
  sample's state nor its images. Re-running it on a screening that already has
  a diagnosis fails on the unique `screening_id`.
- **Atomicity.** Every handler commits its change first and the audit entry in
  a second commit. The model assumes both commits succeed, except where a
  constraint fails.
- **Intended semantics.** Several lines of the code cannot run as written.
  The model follows what they evidently mean. The bullets below say what the
  code does instead.
- **The sample `metadata` column.** `app/app/models/sample.py:28` declares a
  column named `metadata`. Under `declarative_base()`
  (`app/app/db/database.py:31`) that name is reserved, and SQLAlchemy raises
  `InvalidRequestError` when the class is defined. As written, the models
  package does not import, so no route runs at all. The model keeps
  `metadata` as an ordinary JSON column.
- **Audit field names.** The route handlers build `AuditLog(entity_type=...,
  entity_id=...)`, and the audit route filters on `AuditLog.entity_type`. The
  audit model has neither column, and SQLAlchemy's constructor raises
  `TypeError` on an unknown keyword. As written, this has these effects:
  - `create_patient`, `update_patient`, `create_screening`,
    `update_screening`, `upload_image`, `run_ai_analysis` and
    `submit_clinician_review` have already committed their change. They then
    fail with a 500, and no audit entry is written.
  - `get_patient` fails before it returns the patient.
  - `delete_patient` fails before `db.delete`, so nothing is deleted.
  - The audit route's `entity_type` filter raises `AttributeError`.

  The model reads these arguments as `resource_type` and `resource_id`, the
  columns they evidently mean. Each route then returns its result and logs
  its entry.
- **Legacy review field names.** `review_diagnosis` writes `agrees_with_ai`,
  `reviewed_by_id`, `reviewed_at` and `status`. The `Diagnosis` model has none
  of those attributes. SQLAlchemy keeps them as plain Python attributes and
  stores none of them.
  - As written, the review date and the reviewer stay null.
  - A later `POST /diagnoses/{id}/review` is still accepted.

  `AnnotationService.AsWrittenReview` models the code as written. The model's
  `AnnotationService.ServiceReview` maps the attributes to
  `clinician_agrees_with_ai`, `reviewer_id` and `review_date`, and drops
  `status`. See "## Findings".
- **Diagnosis `status`.** `run_analysis` builds its `Diagnosis(...)` with
  `status="pending_review"`, and the `Diagnosis` model has no such column. As
  written, the constructor raises `TypeError` before anything is added, so the
  screening branch of `run_analysis` changes nothing and fails. The model drops
  the argument.

## Model

| member | source | states |
|---|---|---|
| Roles.Actions | app/app/models/role.py:36 | an unlisted resource has no actions; a listed one has exactly its own list |
| Roles.HasPermission | app/app/models/role.py:34-37 | allowed iff the resource is listed and its list holds the action or `*` |
| Roles.UnknownResourceDeniesAll | app/app/models/role.py:34-37 | a resource missing from the permission map allows no action at all |
| Roles.WildcardGrantsAll | app/app/models/role.py:34-37 | a `*` entry grants every action on its resource |
| Roles.AdminSeed | app/app/models/role.py:41-53 | the seeded admin may do everything on its seven resources and nothing on `integrations` |
| Roles.SignOffSeed | app/app/models/role.py:40-99 | of the seeded roles exactly admin and pathologist may sign annotations off |
| Roles.ItAdminSeed | app/app/models/role.py:88-98 | it_admin's only wildcard is `integrations` and it has no access to patients |
| Roles.SeedNamesDistinct | app/app/models/role.py:40-99 | the seeded role names are distinct, as the unique `role_name` column requires |
| Users.NewUser | app/app/models/user.py:27-46 | a new user is an active, unverified physician without MFA, RBAC role or lock |
| Users.IsLocked | app/app/models/user.py:67-71 | locked exactly while the clock is strictly before `locked_until`; never without it |
| Users.UnlocksAtLockedUntil | app/app/models/user.py:67-71 | the account is unlocked at `locked_until` itself |
| Users.HasPermission | app/app/models/user.py:73-78 | a linked role decides; without one only the legacy admin string is allowed |
| Users.LegacyNonAdminDeniedEverything | app/app/models/user.py:73-78 | without a linked role every non-admin user is denied everything |
| Users.LegacyAdminAllowedEverything | app/app/models/user.py:73-78 | without a linked role the legacy admin is allowed everything |
| Users.PathologistSignOffNeedsRoleRef | app/app/models/user.py:73-78 | a pathologist can sign off only through the linked pathologist role |
| Config.UploadPath | app/app/api/routes/images.py:63 | the joined path is the upload directory, one separator, then the name |
| PatientModel.NewPatient | app/app/models/patient.py:17-53 | a new patient is active, without consent, with empty contact info and risk factors |
| PatientModel.FullName | app/app/models/patient.py:65-68 | first name, one space, last name |
| PatientModel.GetAge | app/app/models/patient.py:70-74 | difference of the years, less one while this year's birthday is ahead |
| PatientModel.AgeNonNegative | app/app/models/patient.py:70-74 | nobody born on or before today has a negative age |
| PatientModel.AgeStepsOnBirthday | app/app/models/patient.py:70-74 | the age grows by exactly one on the birthday |
| PatientModel.AgeMonotonic | app/app/models/patient.py:70-74 | age never decreases as the date moves forward |
| PatientModel.GetContactEmail | app/app/models/patient.py:76-80 | the contact-info e-mail, whatever JSON value it is, when present and truthy; else the legacy e-mail, else the empty string; falsy iff neither e-mail is set |
| AiResultModel.GetTopPredictions | app/app/models/ai_result.py:60-70 | the first n of the stable descending sort: sorted, a sub-multiset, head maximal, Python slice length |
| AiResultModel.TopPredictionsStable | app/app/models/ai_result.py:60-70 | predictions of equal confidence keep their insertion order |
| AnnotationModel.NewAnnotation | app/app/models/annotation.py:17-46 | a new annotation has the given fields and is neither signed off nor stamped |
| AnnotationModel.SignOff | app/app/models/annotation.py:62-65 | signed and stamped now, every other field unchanged |
| AnnotationModel.SignOffTwice | app/app/models/annotation.py:62-65 | a second sign-off only restamps the time; the later call wins |
| AuditModel.LogEntry | app/app/models/audit.py:59-75 | user id and e-mail or nulls, details default `{}`, severity as given, stamped now |
| AuditModel.RouteEntry | app/app/api/routes/patients.py:79-87 | the entry a route builds: the caller, the action and resource, info severity, no details |
| AuditModel.RouteEntryIsLogEntry | app/app/models/audit.py:59-75 | a route-built entry equals the `log_action` entry with default arguments |
| AuditModel.ServiceEntries | app/app/services/ai_result_service.py:148-159 | a service logs one entry when it has a user and nothing otherwise |
| Records.NewDiagnosis | app/app/models/diagnosis.py:26-62 | a new diagnosis has no AI result, review or final diagnosis |
| Store.LogIfUser | app/app/services/annotation_service.py:115-127 | the ledger grows by exactly the service's entries and nothing else changes |
| Store.DiagnosisOf | app/app/models/screening.py:44 | the diagnosis of a screening, present iff one exists |
| Store.SamplesRemoved | app/app/models/sample.py:42 | deleting samples also deletes their AI results and those results' annotations, nothing else |
| Store.SamplesRemovedValid | app/app/models/ai_result.py:49 | after the cascade no AI result or annotation is left orphaned and the invariant holds |
| Store.PatientTreeRemoved | app/app/models/patient.py:56-57 | deleting a patient also deletes their screenings and samples and what hangs off the samples; every other screening and sample stays |
| Store.PatientTreeRemovedValid | app/app/models/patient.py:56-57 | no screening or sample of the deleted patient is left and the invariant holds |
| Store.Db.RemovePatientTree | app/app/api/routes/patients.py:182-183 | the stored state becomes the patient-tree removal of the old state |
| Store.Db.RemoveSampleTree | app/app/api/routes/samples.py:155-156 | the stored state becomes the sample cascade of the old state |
| Schemas.DumpPatientUpdateKeys | app/app/schemas/patient.py:25-32 | `model_dump(exclude_unset=True)` of a patient update has at most six items, pairwise distinct keys, and its key set is exactly the set of fields the request sent |
| Schemas.DumpPatientUpdateRanks | app/app/schemas/patient.py:25-32 | the dumped items follow the declaration order of the fields, each field at most once |
| Schemas.DumpPatientUpdateNames | app/app/schemas/patient.py:25-32 | the keys of the dumped items are exactly the sent fields |
| Schemas.KeyNamesField | app/app/schemas/patient.py:27-32 | distinct fields have distinct attribute names |
| Schemas.MergePatient | app/app/api/routes/patients.py:135-139 | each of the six fields takes the sent value when sent and is kept otherwise; no other field changes; the consent date is stamped on a false-to-true consent and only then |
| Schemas.PatientUpdateLoopIsMerge | app/app/api/routes/patients.py:136-139 | the setattr loop over the dumped fields is the field-wise merge |
| Schemas.MergeScreening | app/app/api/routes/screenings.py:123-125 | each updatable field takes the sent value when sent (any status string included) and is kept otherwise; no other field changes |
| Schemas.ScreeningUpdateLoopIsMerge | app/app/api/routes/screenings.py:123-125 | the setattr loop is the field-wise merge |
| Schemas.MergeAnnotation | app/app/api/routes/annotations.py:93-95 | each clinical field takes the sent value when sent and is kept otherwise; identity, clinician and sign-off never change |
| Schemas.AnnotationUpdateLoopIsMerge | app/app/api/routes/annotations.py:93-95 | the setattr loop is the field-wise merge |
| Schemas.MergeSample | app/app/api/routes/samples.py:97-99 | each updatable field takes the sent value when sent and is kept otherwise; identity, patient and dates never change |
| Schemas.SampleUpdateLoopIsMerge | app/app/api/routes/samples.py:97-99 | the setattr loop is the field-wise merge |
| AiResultService.CategoriesAreTheEnum | app/app/services/ai_result_service.py:15-25 | the service's category list is the diagnosis category enum, in order |
| AiResultService.Shares | app/app/services/ai_result_service.py:121-127 | one share per draw plus the remainder |
| AiResultService.SharesSplit | app/app/services/ai_result_service.py:119-127 | the shares split what remains exactly, none negative |
| AiResultService.ScoreSheet | app/app/services/ai_result_service.py:118-129 | one score per category, in category order |
| AiResultService.ScoreSheetIsDistribution | app/app/services/ai_result_service.py:118-129 | scores in [0, 1], `unsatisfactory` 0, and they sum to exactly 1 (in basis points; the source's float sum is only close to 1, see below) |
| AiResultService.SimulateScores | app/app/services/ai_result_service.py:118-129 | the loop builds exactly the score sheet of the draws |
| AiResultService.ArgMaxFirst | app/app/services/ai_result_service.py:132-133 | a maximal score, the first one on a tie |
| AiResultService.FormatPercent | app/app/services/ai_result_service.py:136 | `{c:.1%}`: a whole part without leading zeros, a point, one digit and `%`, negative iff c is; the digits read back as the percentage to the nearest tenth |
| AiResultService.PercentTextReads | app/app/services/ai_result_service.py:136 | the percent text has its point and `%` in place, a non-empty whole part without leading zeros, and digit runs that read back as the tenths it was built from |
| Common.NatToStringRoundTrip | app/app/services/ai_result_service.py:136 | the decimal digits of a number read back as that number |
| AiResultService.InferenceNotes | app/app/services/ai_result_service.py:136-138 | the notes are exactly the finding (lead, upper-cased primary, formatted confidence) followed by the warning iff confidence < 0.7, and by nothing otherwise |
| AiResultService.Summarise | app/app/services/ai_result_service.py:131-146 | primary is a first maximal category with its score; notes warn iff below 0.7 |
| AiResultService.SimulateAiInference | app/app/services/ai_result_service.py:115-146 | the inference of the draws, with every score in [0, 1] |
| AiResultService.InferredDiagnosis | app/app/services/ai_result_service.py:49-55 | the diagnosis carries the inference's prediction, confidence and notes, and no review |
| AiResultService.InferredResult | app/app/services/ai_result_service.py:80-89 | the AI result carries the scores, primary, notes, model name and version |
| AiResultService.CommitScreeningAnalysis | app/app/services/ai_result_service.py:49-69 | the inferred diagnosis stored under a fresh id, the screening `ai_analyzed`, the service's entry, nothing else |
| AiResultService.AnalyseScreening | app/app/services/ai_result_service.py:38-69 | IntegrityError iff the screening has a diagnosis, with nothing changed; else the whole new state: diagnosis, `ai_analyzed`, audit |
| AiResultService.AnalyseSample | app/app/services/ai_result_service.py:71-103 | the whole new state: a new AI result, the sample `analyzed`, `ai_result.create` logged with a user, nothing else |
| AiResultService.RunAnalysis | app/app/services/ai_result_service.py:35-105 | the screening wins over the sample; None for unknown ids or neither; whole new state |
| AiResultService.GetResultById | app/app/services/ai_result_service.py:107-109 | the result iff present |
| AiResultService.GetResultsBySample | app/app/services/ai_result_service.py:111-113 | exactly the stored results of the sample, each once, in id order |
| AnnotationService.ClinicianOf | app/app/services/annotation_service.py:24 | the clinician is the service's user, or null without one |
| AnnotationService.AnnotationOf | app/app/services/annotation_service.py:22-32 | the request's fields, override flags defaulting to `{}`, unsigned |
| AnnotationService.CreateAnnotation | app/app/services/annotation_service.py:20-42 | fails on NOT NULL iff there is no user; else one unsigned annotation and `annotation.create` |
| AnnotationService.ServiceReview | app/app/services/annotation_service.py:58-65 | the intended review: the verdict, notes, follow-up, reviewer and time set; every other field kept |
| AnnotationService.AsWrittenReview | app/app/services/annotation_service.py:58-65 | the review as written: only the verdict text, notes and follow-up stored; every other field kept |
| AnnotationService.AsWrittenReviewLeavesReviewOpen | app/app/services/annotation_service.py:58-65 | as written, reviewer, review date and agreement flag unchanged, so an unreviewed diagnosis stays open; the intended review sets the date |
| AnnotationService.CompleteScreening | app/app/services/annotation_service.py:68-70 | the reviewed diagnosis's screening, if any, becomes `completed`; others kept |
| AnnotationService.ReviewDiagnosis | app/app/services/annotation_service.py:44-81 | None iff unknown; else review stored, screening completed, critical `diagnosis.review` |
| AnnotationService.ReviewOverwrites | app/app/services/annotation_service.py:58-65 | a second review replaces the first completely |
| AnnotationService.SignOffAnnotation | app/app/services/annotation_service.py:83-98 | None iff unknown; an already signed one unchanged and unlogged; else signed and critical entry |
| AnnotationService.GetAnnotationById | app/app/services/annotation_service.py:100-102 | the annotation iff present |
| AnnotationService.GetAnnotationsByResult | app/app/services/annotation_service.py:104-106 | exactly the stored annotations of the result, each once, in id order |
| AnnotationService.GetPendingAnnotations | app/app/services/annotation_service.py:108-113 | exactly the unsigned annotations, of the clinician when one is named, each once, in id order |
| AnnotationService.SignedOffIsNotPending | app/app/services/annotation_service.py:83-113 | after a sign-off the pending list is the earlier list with the signed annotation filtered out, the rest in place |
| AnnotationService.PendingAfterSignOff | app/app/services/annotation_service.py:83-113 | after a sign-off the pending annotations are the earlier ones other than the signed one |
| AnnotationService.SignOffStaysValid | app/app/models/annotation.py:62-65 | signing an annotation off keeps every store invariant, a signed annotation having its time |
| AnnotationRoutes.CreateAnnotation | app/app/api/routes/annotations.py:19-28 | the service's create with the caller, so it always succeeds |
| AnnotationRoutes.ListAnnotations | app/app/api/routes/annotations.py:31-52 | exactly the window at the SQLite offset of the matching annotations sorted newest first, of the SQLite length |
| AnnotationRoutes.GetPendingAnnotations | app/app/api/routes/annotations.py:55-62 | exactly the caller's own unsigned annotations, each once, in id order |
| AnnotationRoutes.GetAnnotation | app/app/api/routes/annotations.py:65-75 | the annotation, or 404 "Annotation not found" |
| AnnotationRoutes.UpdateAnnotation | app/app/api/routes/annotations.py:78-99 | 404; 400 once signed off with nothing changed; else the merge, unaudited |
| AnnotationRoutes.SignOffAnnotation | app/app/api/routes/annotations.py:102-115 | 404 iff unknown; otherwise the service's sign-off with the caller |
| AuditService.LogAction | app/app/services/audit_service.py:20-43 | exactly one entry is appended, built as `log_action` builds it |
| AuditService.GetLogs | app/app/services/audit_service.py:45-78 | total counts all matches; items are exactly the window at the SQLite offset of the matching entries sorted newest first, of the SQLite length |
| AuditService.Matching | app/app/services/audit_service.py:60-73 | the ledger entries passing every given filter, dates inclusive |
| AuditService.MatchCount | app/app/services/audit_service.py:75 | the count of the filtered ledger is the number of matching entries |
| AuditService.LogDistinct | app/app/models/audit.py:13-54 | no entry appears twice in the ledger |
| AuditService.GetUserActivity | app/app/services/audit_service.py:80-84 | the first min(100, matches) of the user's entries within the last `days`, newest first; none left out ahead of them |
| AuditService.GetResourceHistory | app/app/services/audit_service.py:86-89 | the first min(100, matches) entries about the resource, newest first; none left out ahead of them |
| AuditService.GetCriticalActions | app/app/services/audit_service.py:91-95 | the first min(200, matches) critical entries within the last `days`, newest first; none left out ahead of them |
| AuditRoutes.ItemOf | app/app/api/routes/audit.py:51-60 | an item shows the entry's id, user, action, resource, time and address |
| AuditRoutes.AuditWindow | app/app/api/routes/audit.py:43-46 | exactly the window at the offset of the matching entries sorted newest first, of length min(limit, what remains) |
| AuditRoutes.AuditMatching | app/app/api/routes/audit.py:28-41 | the entries inside the window of days passing the filters |
| AuditRoutes.AuditMatchCount | app/app/api/routes/audit.py:45 | the filter's length is the number of matching entries |
| AuditRoutes.ListAuditLogs | app/app/api/routes/audit.py:16-63 | 422 iff outside the query bounds; otherwise total of all matches and the projection of each entry of the window, in order |
| AuditRoutes.ListedEntriesAreRecent | app/app/api/routes/audit.py:31-32 | every listed entry lies inside the requested window |
| PatientRoutes.ListPatients | app/app/api/routes/patients.py:19-41 | 422 iff outside the bounds; total of all matches; items exactly the window at the offset of the matching patients in table order |
| PatientRoutes.PatientPage | app/app/api/routes/patients.py:26-41 | the body: total of all matches and the window at the offset of the matching patients in table order |
| PatientRoutes.CreatedPatient | app/app/api/routes/patients.py:62-72 | the request's fields; consent date set, to now, iff consent is given |
| PatientRoutes.CreatePatient | app/app/api/routes/patients.py:44-89 | 400 iff a non-empty MRN is taken; fails iff an empty MRN is taken; else the patient and its entry |
| PatientRoutes.GetPatient | app/app/api/routes/patients.py:92-117 | 404 iff unknown; otherwise the patient and a `patient.view` entry |
| PatientRoutes.UpdatePatient | app/app/api/routes/patients.py:120-155 | 404; fails iff a name is nulled; else the merge with consent stamping and its entry |
| PatientRoutes.DeletePatient | app/app/api/routes/patients.py:158-185 | 404; fails iff a screening has images or a diagnosis; else the cascade and its entry |
| PatientService.ServicePatient | app/app/services/patient_service.py:22-30 | the request's fields without notes or consent date |
| PatientService.CreatePatient | app/app/services/patient_service.py:20-38 | fails iff the MRN is taken; else the patient and `patient.create` with a user |
| PatientService.GetPatientById | app/app/services/patient_service.py:40-45 | the patient iff present, and then a `patient.view` entry with a user |
| PatientService.GetPatients | app/app/services/patient_service.py:47-69 | total of active matches; items exactly the window at the SQLite offset of the active matching patients in table order |
| PatientService.UpdatedFields | app/app/services/patient_service.py:84 | the names of the sent fields, in the fields' declaration order |
| Schemas.ApplyPatientUpdate | app/app/api/routes/patients.py:136-139 | the setattr loop of `update_patient` (route and service alike) gives the field-wise merge, with consent stamping exactly when a clock is passed |
| PatientService.UpdatePatient | app/app/services/patient_service.py:71-86 | None iff unknown; fails iff a name is nulled, view entry kept; else merge and entries |
| PatientService.StoreUpdate | app/app/services/patient_service.py:77-84 | the merged row stored and the `patient.update` entry with its fields |
| PatientService.DeletePatient | app/app/services/patient_service.py:88-99 | false iff unknown; else the patient inactive, view and delete entries |
| PatientService.SoftDeletedIsNotListed | app/app/services/patient_service.py:54 | a soft-deleted patient drops out of the listing but stays on file |
| PatientService.GetPatientHistory | app/app/services/patient_service.py:101-112 | None iff unknown; else the patient, exactly their screenings and samples, each once in id order, and their age |
| ScreeningRoutes.ListScreenings | app/app/api/routes/screenings.py:18-41 | 422 iff outside the bounds; total of all matches; items exactly the window at the offset of the matching screenings sorted newest first |
| ScreeningRoutes.GetScreening | app/app/api/routes/screenings.py:91-105 | the screening iff present, else 404 |
| ScreeningRoutes.CreateScreening | app/app/api/routes/screenings.py:44-88 | 404 unknown patient; 400 without consent; else a pending screening and its entry |
| ScreeningRoutes.UpdateScreening | app/app/api/routes/screenings.py:108-141 | 404 iff unknown; else the merge and `screening.update` |
| DiagnosisRoutes.MockAnalysisNote | app/app/api/routes/diagnoses.py:39-45 | exactly HSIL and SCC ask for urgent review; NILM reports no finding |
| DiagnosisRoutes.ImagesOf | app/app/api/routes/diagnoses.py:93-95 | exactly the screening's stored images, each once, in id (upload) order; empty iff it has none |
| DiagnosisRoutes.WithAnalysis | app/app/api/routes/diagnoses.py:129-132 | the AI fields of the analysis set, everything else kept |
| DiagnosisRoutes.StoreAnalysis | app/app/api/routes/diagnoses.py:123-132 | the existing diagnosis updated or a new one added |
| DiagnosisRoutes.MarkAnalysed | app/app/api/routes/diagnoses.py:115-149 | heatmap path iff on disk, screening `ai_analyzed`, one entry |
| DiagnosisRoutes.RecordAnalysis | app/app/api/routes/diagnoses.py:111-149 | the whole new state of a successful analysis |
| DiagnosisRoutes.AnalysisRefusal | app/app/api/routes/diagnoses.py:85-109 | the first failing guard: 404, no images, or already analysed |
| DiagnosisRoutes.RunAiAnalysis | app/app/api/routes/diagnoses.py:78-158 | refused with nothing changed iff a guard fails; else the recorded analysis |
| DiagnosisRoutes.AnalysedScreeningIsRefused | app/app/api/routes/diagnoses.py:103-109 | a screening whose diagnosis has a prediction is always refused |
| DiagnosisRoutes.WithReview | app/app/api/routes/diagnoses.py:181-192 | review fields set and the final diagnosis is the clinician's; AI fields kept |
| DiagnosisRoutes.SubmitClinicianReview | app/app/api/routes/diagnoses.py:161-213 | 404; 400 once reviewed; else the review, screening completed, one entry |
| DiagnosisRoutes.GetDiagnosis | app/app/api/routes/diagnoses.py:216-229 | the diagnosis iff present, else 404 |
| DiagnosisRoutes.GetDiagnosisByScreening | app/app/api/routes/diagnoses.py:232-245 | the screening's diagnosis iff it has one, else 404 |
| ImageRoutes.LastIndexOf | app/app/api/routes/images.py:46 | the last position of the character, or -1 |
| ImageRoutes.Extension | app/app/api/routes/images.py:46 | POSIX `splitext`: a suffix from a dot, without `/` or another dot; non-empty iff the last component has a dot with a non-dot before it |
| ImageRoutes.UploadedImage | app/app/api/routes/images.py:61-78 | a fresh stored name with the lower-cased extension, the original name, size and type |
| ImageRoutes.UploadImage | app/app/api/routes/images.py:28-95 | 404, then 400 for the type, then 400 for the size; else the image and its entry |
| ImageRoutes.StoreImage | app/app/api/routes/images.py:61-93 | the accepted image stored and `image.upload` logged |
| ImageRoutes.StoredNameKeepsExtension | app/app/api/routes/images.py:62 | the stored name's extension is the lower-cased original extension |
| ImageRoutes.LeadingDotIsNoExtension | app/app/api/routes/images.py:46-47 | a name like `.jpg` has no extension and is refused |
| ImageRoutes.LastExtensionCounts | app/app/api/routes/images.py:46-47 | only the last extension counts: `scan.tar.JPG` passes |
| ImageRoutes.GetImageInfo | app/app/api/routes/images.py:98-111 | the image iff present, else 404 |
| ImageRoutes.DownloadImage | app/app/api/routes/images.py:114-138 | 404 unknown; 404 file missing; else its path, original name and type |
| ImageRoutes.GetHeatmap | app/app/api/routes/images.py:141-165 | 404 unknown; 404 without a heatmap on disk; else the PNG heatmap |
| ImageRoutes.ListScreeningImages | app/app/api/routes/images.py:168-179 | exactly the screening's images, each once, in id order, with the number of its stored images as total |
| SampleRoutes.CreatedSample | app/app/api/routes/samples.py:30-36 | a pending sample without image, metadata defaulting to `{}` |
| SampleRoutes.CreateSample | app/app/api/routes/samples.py:18-45 | 404 iff the patient is unknown; else the pending sample and `sample.create` |
| SampleRoutes.ListSamples | app/app/api/routes/samples.py:48-69 | exactly the window at the SQLite offset of the matching samples in table order, of the SQLite length |
| SampleRoutes.GetSample | app/app/api/routes/samples.py:72-82 | the sample iff present, else 404 "Sample not found" |
| SampleRoutes.UpdateSample | app/app/api/routes/samples.py:85-107 | 404 iff unknown; else the merge and `sample.update` |
| SampleRoutes.SampleImagePath | app/app/api/routes/samples.py:127 | the upload directory, the id, an underscore, and a path ending in the sent name |
| SampleRoutes.UploadSampleImage | app/app/api/routes/samples.py:110-141 | 404 iff unknown; else the image path recorded, `uploaded`, and its entry |
| SampleRoutes.DeleteSample | app/app/api/routes/samples.py:144-161 | 404 iff unknown; else the sample cascade, then `sample.delete` |
| SampleRoutes.DeletedSampleIsGone | app/app/api/routes/samples.py:155-156 | after the delete the sample is a 404 and in no listing |

## Findings

| source | as written | input that shows it | evidently intended | confidence | as-written member | corrected member |
|---|---|---|---|---|---|---|
| app/app/services/annotation_service.py:58-65 | the review is written to `agrees_with_ai`, `reviewed_by_id`, `reviewed_at` and `status`, which are not columns of `Diagnosis`; none is stored | an unreviewed diagnosis given a legacy review keeps `review_date` null, so `POST /diagnoses/{id}/review` still accepts it | store the agreement flag, the reviewer and the review time in `clinician_agrees_with_ai`, `reviewer_id` and `review_date` | high, not executed | AnnotationService.AsWrittenReview | AnnotationService.ServiceReview |

## Left out

- **Authentication and request context.** The FastAPI dependencies
  (`get_current_user`, `require_clinician`, `require_pathologist`,
  `require_admin`) are not modelled. Each handler receives the admitted user.
- **Request validation.** Pydantic validation other than the query bounds the
  routes declare is not modelled, for example `EmailStr` and UUID parsing.
- **Real AI and image work.** The weighted `random.choices` and
  `random.uniform` of `mock_ai_analysis` are parameters. The PIL drawing of
  `generate_mock_heatmap` is left out; only the path it records is modelled.
- **File-system writes.** Writing the uploaded bytes and `os.makedirs` are left
  out. So are the effects of a `file.filename` that holds path separators.
- **Missing file names.** An upload whose `file.filename` is None is not
  modelled.
- **Unique file names.** The `uuid4` image file name is modelled by the row
  id, which is just as fresh.
- **Floating point.**
  - Floats become integer basis points.
  - `round(score, 4)` is exact at that scale. The source stores the rounded
    score but subtracts the unrounded draw from `remaining`, so its stored
    scores sum to 1 only up to rounding. The model draws whole basis points,
    where both are the same number.
- **SQL text matching.** `ILIKE` is a case-insensitive substring test on ASCII
  letters. `%` and `_` inside the search text are not treated as wildcards.
- **Order of the allowed extensions.** The "File type not allowed" message
  lists the extensions in one fixed order. Python's set iteration order is not
  modelled.
- **Settings.** Environment overrides of the upload directory and the size
  limit are not modelled. The defaults `./uploads` and 10 MB are used.
- **Concurrency and transactions.** Concurrent sessions, optimistic locking
  and failed commits other than the constraint violations named above are not
  modelled.
- **Clock.** Each handler reads the clock once, as `now`. The source may read
  it twice, for `review_date` and `finalized_at`.
- **Timestamps.** The `updated_at` columns and other `onupdate` timestamps are
  not modelled.
- **Unmodelled endpoints.** The endpoints and services outside the files
  listed above are not modelled: authentication, users, AI-result routes,
  integrations and the UI.
- AuditService.GetUserActivity: the window start `utcnow() - timedelta(days)`
  is `now - days * 86400`, in integer seconds.
- AiResultService.ScoreSheetIsDistribution: states an exact sum of 1, which
  holds for the basis-point draws but only approximately for the source's
  floats (see Floating point).
- AiResultService.FormatPercent: an exact half of a tenth of a percent rounds
  away from zero. Python rounds the binary double, which may go either way.
