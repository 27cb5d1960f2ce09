# LE SAGE DEV back end — a verified model of its request logic

This project is a Dafny model of the decision logic in the LE SAGE DEV web agency's back end. The back end is an Express server over PostgreSQL. The model covers these parts:

- **Admin routes.**
  - Projects, reservations and contact messages.
  - The dynamic SQL builders that grow `updates`/`params` arrays with a `paramCount` counter, and the list and count filters.
  - The guards and defaults of the create, comment, file, reply and delete handlers.
  - The writes each handler performs.
- **The public contact form.** Required fields, the email pattern, trimming, lower-casing and `|| null` defaults.
- **The account routes.** Profile, password, account deactivation, the admin's delete and the role change: their guards and their writes.
- **The email service.** The preference gate, the hourly rate limit, the statistics filter builder, and `sendEmail`. `sendEmail` picks a recipient, derives a text body and moves its log row from `pending` to `sent` or `failed`.
- **The email helpers.** The preference short-circuit, the name and fallback derivations, and the batch sender's counting loop.
- **The email templates.**
  - `replaceVariables`, `createInfoBox`, `createButton`, `createDivider` and the slots of the base layout.
  - The labels, icons, defaults and truncations of the nine templates.
- **The server.** The CORS origin predicate and its preflight handler, the database connection retry with back-off, and the global error-to-status mapping.
- **The SMTP helper.** `sendContactReply` composition and the `sendEmail` result shape.

How the model is built:

- **Queries.** A query is modelled as its list of fragments plus its list of parameters.
  - A fragment `Bound(item, k)` stands for `column = $k`.
  - `Fixed(item)` stands for an item that takes no parameter, such as `completed_at = CURRENT_TIMESTAMP`.
  - `QueryBuilder.Builder` is the mutable `updates`/`params`/`paramCount` triple.
  - Each handler's builder is a method proved equal to a specification function, and the properties are lemmas about that function.
- **Handlers.** A handler's effect is an `Http.Outcome`: the writes it issues, in order, and the reply.
- **Oracles.** The database, bcrypt, the SMTP transport and the clock are oracle parameters. Examples: the row a lookup finds, whether an INSERT throws, what `bcrypt.compare` answers.
- **JavaScript values.** `Js.Value` models the JavaScript values a request body can carry, with JavaScript truthiness, `||` and `String(v)`.

## Model

| member | source | states |
|---|---|---|
| QueryBuilder.Builder.constructor | routes/admin/projects.js:219-221 | a new builder has no items, no parameters and the counter at 1 |
| QueryBuilder.Builder.Push | routes/admin/projects.js:223-227 | an item numbered with the current counter is appended, its value is pushed, and the counter moves to the next parameter |
| QueryBuilder.Builder.Literal | routes/admin/projects.js:240-242 | an item without a parameter is appended; parameters and counter are unchanged |
| QueryBuilder.Builder.PushWhen | routes/admin/projects.js:229-233 | the push happens exactly when the condition holds, and nothing changes otherwise |
| QueryBuilder.Builder.LiteralWhen | routes/admin/projects.js:240-242 | the literal item is appended exactly when the condition holds |
| QueryBuilder.Builder.UpdateOf | routes/admin/projects.js:320-329 | the UPDATE holds the items, then the WHERE id at the counter's number, with the id as last parameter |
| QueryBuilder.Builder.ListOf | routes/admin/projects.js:61-72 | the list query holds the filter clauses, then LIMIT and OFFSET at the next two numbers, with limit and offset as its last two parameters |
| QueryBuilder.Builder.CountOf | services/emailService.js:340-361 | the filter query holds the clauses and parameters built so far |
| QueryBuilder.PlaceholdersSound | routes/admin/projects.js:219-316 | one fragment per step, each rendering its step; the placeholders are exactly `$1 .. $n`, in push order, for the `n` parameters |
| QueryBuilder.UpdateStatementSound | routes/admin/projects.js:317-329 | the placeholders of an UPDATE are `$1 .. $n` with SET items first, and the WHERE clause names `$n`, whose parameter is the id |
| QueryBuilder.ListStatementSound | routes/admin/projects.js:35-72 | the list's placeholders are `$1 .. $n` for the filters, `$(n+1)` for the limit and `$(n+2)` for the offset |
| AdminProjects.BuildList | routes/admin/projects.js:35-83 | the list query is the one the filter specification describes; the count query has no filter and no parameter |
| AdminProjects.ListParameterCount | routes/admin/projects.js:35-72 | each present filter adds exactly one parameter and no absent one adds any: `n` filters give `n + 2` parameters |
| AdminProjects.ListNumbering | routes/admin/projects.js:35-72 | the query binds the filters' values in push order, then limit and offset; the filters are `$1 .. $n`, the limit `$(n+1)` and the offset `$(n+2)` |
| AdminProjects.ListFilters | routes/admin/projects.js:40-59 | a filter's clause is present exactly when the filter is truthy, and its placeholder then names the filter's value; the search names `%search%` |
| AdminProjects.ListClauses | routes/admin/projects.js:40-59 | every clause of the query renders its filter with the placeholder of that filter's value |
| AdminProjects.SearchAddsOneParameter | routes/admin/projects.js:56-59 | the search raises the parameter count by one, although its SQL names the placeholder four times |
| AdminProjects.BuildProjectUpdate | routes/admin/projects.js:219-329 | the method builds exactly the UPDATE (or the 400) of the project update specification |
| AdminProjects.ProjectUpdateRejectsEmpty | routes/admin/projects.js:317-322 | 400 exactly when the body carries no field; `updated_at` alone never makes an update non-empty |
| AdminProjects.ProjectUpdateNumbering | routes/admin/projects.js:219-329 | the fields' values are bound in source order and then the id; the placeholders are `$1 .. $k`, the WHERE names `$(k+1)`, which is the last parameter, and `updated_at` is the last SET item |
| AdminProjects.ProjectFalsyFieldsSkipped | routes/admin/projects.js:223-227 | a falsy title, status or priority updates exactly as an absent one does |
| AdminProjects.ProjectDefinedFieldsKept | routes/admin/projects.js:229-233 | the other fields are written whenever they are not `undefined`, falsy or not |
| AdminProjects.ProjectFalsyAssigneeIsNull | routes/admin/projects.js:257-260 | a falsy `assigned_to` updates exactly as `null` does |
| AdminProjects.ProjectCompletedAt | routes/admin/projects.js:240-242 | `completed_at` is set exactly for status `'completed'`, and it binds no parameter |
| AdminProjects.ProjectPlanKeepsLiterals | routes/admin/projects.js:262-321 | the blocks from `start_date` to `production_url` each bind a value and append no literal SET item, so neither `completed_at` nor `updated_at` comes from them: `updated_at` is added only after the emptiness check |
| AdminProjects.AfterProjectUpdate | routes/admin/projects.js:331-358 | what follows the project UPDATE: the 404, the owner's notification and the activity log; its properties are `AdminProjects.AfterProjectUpdateRules` |
| AdminProjects.AfterProjectUpdateRules | routes/admin/projects.js:331-358 | no returned row gives 404 with nothing more written; otherwise the returned row's owner is notified with `Mise à jour de votre projet` and a message quoting the project's title, and then the update is logged under the admin and the project id with the body's status and progress; the reply is success |
| AdminProjects.BuildTaskUpdate | routes/admin/projects.js:410-464 | the method builds exactly the task UPDATE (or the 400) of its specification |
| AdminProjects.TaskUpdateRules | routes/admin/projects.js:454-464 | 400 exactly when no field is given; otherwise the values are bound and then the id, numbered `$1 .. $(k+1)`, with no `updated_at` |
| AdminProjects.AfterTaskUpdate | routes/admin/projects.js:466-475 | what follows the task UPDATE: the 404 or success; its properties are `AdminProjects.AfterTaskUpdateRules` |
| AdminProjects.AfterTaskUpdateRules | routes/admin/projects.js:466-475 | 404 exactly when no row was updated, success otherwise, and no further write |
| AdminProjects.TaskFieldRules | routes/admin/projects.js:414-452 | `completed_at` is set exactly for status `'completed'`; a falsy title, status or priority is skipped, and a falsy assignee becomes `NULL` |
| AdminProjects.BuildMilestoneUpdate | routes/admin/projects.js:540-590 | the method builds exactly the milestone UPDATE (or the 400) of its specification |
| AdminProjects.MilestoneUpdateRules | routes/admin/projects.js:580-590 | 400 exactly when no field is given; otherwise the values are bound and then the id, numbered `$1 .. $(k+1)` |
| AdminProjects.AfterMilestoneUpdate | routes/admin/projects.js:592-601 | what follows the milestone UPDATE: the 404 or success; its properties are `AdminProjects.AfterMilestoneUpdateRules` |
| AdminProjects.AfterMilestoneUpdateRules | routes/admin/projects.js:592-601 | 404 exactly when no row was updated, success otherwise, and no further write |
| AdminProjects.MilestoneCompletion | routes/admin/projects.js:562-572 | a present `is_completed` sets `completed_at` to the timestamp when truthy and to `NULL` when falsy; an absent one sets neither |
| AdminProjects.CreateTask | routes/admin/projects.js:369-399 | the task creation handler: the title guard, the INSERT with its defaults and the activity log; its properties are `AdminProjects.CreateTaskRules` |
| AdminProjects.CreateTaskRules | routes/admin/projects.js:369-399 | no truthy title gives 400 and nothing written; otherwise the task is inserted with the given options, or `todo`, `normal` and `NULL` (description, assignee, due date) for falsy ones, then logged under the acting admin, the new task's id and `Tâche créée: <title>` |
| AdminProjects.CreateMilestone | routes/admin/projects.js:504-528 | the milestone creation handler: the title guard and the INSERT with its defaults; its properties are `AdminProjects.CreateMilestoneRules` |
| AdminProjects.CreateMilestoneRules | routes/admin/projects.js:504-528 | no truthy title gives 400 and nothing written; otherwise one INSERT of the project id and the title, then the description and target date when truthy or `NULL`, and the display order when truthy or 0; the reply is success |
| AdminProjects.AddComment | routes/admin/projects.js:612-653 | the comment handler: the blank-comment guard, the INSERT and the owner's notification for a public comment; its properties are `AdminProjects.CommentRules` |
| AdminProjects.CommentRules | routes/admin/projects.js:612-653 | 400 with no write exactly when the comment is missing, empty or white space only; a public comment notifies the project's owner, an internal one notifies no one |
| AdminProjects.AddFile | routes/admin/projects.js:692-780 | the file handler: the name and URL guards, the project lookup, the INSERT and the notification; its properties are `AdminProjects.FileRules` |
| AdminProjects.FileRules | routes/admin/projects.js:692-780 | name and URL are required (400), then an existing project (404); an accepted file is inserted, the owner notified and the upload logged, in that order |
| AdminProjects.SendUpdateMessage | routes/admin/projects.js:811-874 | the update-message handler: the guards, the project lookup, the update row and the owner's notification; its properties are `AdminProjects.UpdateMessageRules` |
| AdminProjects.UpdateMessageRules | routes/admin/projects.js:811-874 | title and message are required (400) and the project must exist (404); the notification text is the message if at most 200 characters, else its first 200 and `...`, never over 203 |
| AdminReservations.BuildCalendar | routes/admin/reservations.js:64-67 | the method builds exactly the calendar filter of its specification |
| AdminReservations.CalendarFilter | routes/admin/reservations.js:64-67 | the month filter applies only when both month and year are given, binding `$1` to the month and `$2` to the year |
| AdminReservations.BuildList | routes/admin/reservations.js:116-196 | the list and the count queries are those of their specifications, each built on counters of its own |
| AdminReservations.FilterBinds | routes/admin/reservations.js:116-147 | the filter block binds the present filters' values, in order |
| AdminReservations.CountMatchesList | routes/admin/reservations.js:116-196 | the count applies the list's filters in the same order with the same placeholders; its parameters are the list's minus the final limit and offset |
| AdminReservations.BuildReservationUpdate | routes/admin/reservations.js:351-407 | the method builds exactly the reservation UPDATE (or the 400) of its specification |
| AdminReservations.ReservationUpdateNumbering | routes/admin/reservations.js:395-407 | no field gives 400 before any query; otherwise the id is the last parameter, named by the WHERE, and the placeholders are `$1 .. $n` in push order |
| AdminReservations.ConfirmedBindsTwo | routes/admin/reservations.js:355-364 | status `'confirmed'` binds two parameters first: the status, then the acting admin |
| AdminReservations.ConfirmedByRule | routes/admin/reservations.js:360-364 | `confirmed_by` is set to the acting admin exactly for `'confirmed'` |
| AdminReservations.CancelledBindsOne | routes/admin/reservations.js:355-369 | status `'cancelled'` binds one parameter, the status |
| AdminReservations.CancelledAt | routes/admin/reservations.js:366-369 | `cancelled_at` is set exactly for `'cancelled'`, with no parameter |
| AdminReservations.AfterUpdate | routes/admin/reservations.js:409-448 | what follows a reservation UPDATE: the 404, the owner's notification for a status change and the activity log; its properties are `AdminReservations.NotificationRules` and `AdminReservations.LogWithoutStatus` |
| AdminReservations.NotificationRules | routes/admin/reservations.js:409-448 | a notification goes to the owner only for confirmed, cancelled and completed, and none for any other status; the activity log is written last; a missing row answers 404 with no write |
| AdminReservations.LogWithoutStatus | routes/admin/reservations.js:445-448 | without a status the log says `Mise à jour: modification` |
| AdminReservations.CreateReservation | routes/admin/reservations.js:226-274 | the admin creation handler: the guard, the `confirmed` INSERT, the notification and the log; its properties are `AdminReservations.CreateReservationRules` |
| AdminReservations.CreateReservationRules | routes/admin/reservations.js:226-274 | user, date and time are required (400, no write); the row is inserted with status `'confirmed'`, the duration defaulting to 60 and the meeting type to `visio`, and the creating admin as `confirmed_by`; the project type, budget, message and admin notes are passed through; the owner is notified with the date and time, then the creation is logged under the admin and the new id |
| AdminReservations.DeleteReservation | routes/admin/reservations.js:462-487 | the deletion handler: the existence check, the DELETE and the log; its properties are `AdminReservations.DeleteRules` |
| AdminReservations.DeleteRules | routes/admin/reservations.js:462-487 | a missing reservation answers 404 and nothing is written; an existing one is deleted, then the deletion is logged under the acting admin and the id |
| AdminContacts.BuildList | routes/admin/contacts.js:57-94 | the list and the count queries are those of their specifications |
| AdminContacts.ListNumbering | routes/admin/contacts.js:57-88 | the filters are bound in push order as `$1 .. $n`, then the limit at `$(n+1)` and the offset at `$(n+2)` |
| AdminContacts.CountFiltersStatusOnly | routes/admin/contacts.js:93-94 | the count filters by status alone, and priority and search leave it unchanged |
| AdminContacts.CountIgnoresListFilters | routes/admin/contacts.js:57-94 | with a priority or a search, the count has fewer clauses than the list |
| AdminContacts.BuildContactUpdate | routes/admin/contacts.js:165-201 | the method builds exactly the message UPDATE (or the 400) of its specification |
| AdminContacts.ContactUpdateNumbering | routes/admin/contacts.js:191-201 | none of status, priority or assignee gives 400 before any query; otherwise the id is the last parameter at `$paramCount`, and the placeholders are `$1 .. $n` in push order |
| AdminContacts.ReadAtRule | routes/admin/contacts.js:187-189 | `read_at` is set exactly for status `'read'` or `'replied'` |
| AdminContacts.FalsyAssigneeIsNull | routes/admin/contacts.js:181-185 | a given but falsy assignee is stored as `null` |
| AdminContacts.UpdateLogFailureIgnored | routes/admin/contacts.js:203-222 | a missing message answers 404; otherwise the reply is success whether or not the activity-log INSERT fails |
| AdminContacts.UpdateLogWithoutStatus | routes/admin/contacts.js:210-217 | without a status the log says `Mise à jour du statut: N/A` |
| AdminContacts.ReplyToMessage | routes/admin/contacts.js:233-337 | the reply handler: the blank-reply guard, the lookup, the reply row, the `replied` status, the notification and the log; its properties are `AdminContacts.ReplyRules` and `AdminContacts.ReplyNotification` |
| AdminContacts.ReplyRules | routes/admin/contacts.js:233-337 | a missing or blank reply answers 400 before any write, and a missing message 404; a stored reply sets the status to `'replied'` with the admin; the answer is success whatever the notification and log do |
| AdminContacts.ReplyNotification | routes/admin/contacts.js:272-312 | the notification goes to the sender's account when there is one and its INSERT succeeds; the log comes last unless it fails |
| AdminContacts.DeleteMessageAsWritten | routes/admin/contacts.js:347-370 | the deletion handler as written, with `permanent` read by truthiness; its properties are `AdminContacts.DeleteAsWrittenRules` |
| AdminContacts.DeleteAsWrittenRules | routes/admin/contacts.js:347-370 | as written: archive exactly when `permanent` is absent or falsy, else delete; `?permanent=false` deletes |
| AdminContacts.DeleteMessage | routes/admin/contacts.js:347-370 | the deletion handler with the flag read as intended (only `true` deletes); its properties are `AdminContacts.DeleteRules` |
| AdminContacts.DeleteRules | routes/admin/contacts.js:351-357 | with the corrected flag, only `permanent=true` deletes, and absent, `false` or `"false"` archive; it agrees with the code as written for absent and `"true"` |
| ContactForm.EmailPatternIff | routes/contact.js:33-36 | the pattern accepts exactly the texts with no white space, exactly one `@`, not first, and a `.` in the domain that is neither its first nor its last character |
| ContactForm.AcceptedEmailIsText | routes/contact.js:33-36 | only a string value can pass the pattern test |
| ContactForm.SubmitContact | routes/contact.js:9-75 | the public contact handler: the required fields, the email pattern, the normalised INSERT and the 500s; its properties are `ContactForm.GuardsBeforeInsert`, `ContactForm.SubmitStores` and `ContactForm.NonTextFieldFails` |
| ContactForm.GuardsBeforeInsert | routes/contact.js:26-36 | a missing name, email, subject or message gives 400 and no write; so does an email outside the pattern |
| ContactForm.StoredEmailLowercased | routes/contact.js:33-36 | an accepted email is stored lowercased and otherwise unchanged: the trim keeps it whole |
| ContactForm.StoredFields | routes/contact.js:48-64 | name, subject and message are stored trimmed; phone and company trimmed or null; type and budget or null; status `new`, priority `normal` |
| ContactForm.OptionalTextRule | routes/contact.js:57-60 | an optional text is null exactly when absent or blank, otherwise trimmed; any other value fails with 500 |
| ContactForm.NonTextFieldFails | routes/contact.js:57-67 | a truthy required field that is not a string makes `trim` throw: 500 |
| ContactForm.SubmitStores | routes/contact.js:48-67 | a message that passes the guards is inserted once, whole, and answered with success unless the INSERT fails |
| Users.UpdateProfile | routes/users.js:56-86 | the profile update; its properties are `Users.ProfileRules` and `Users.ProfilePhone` |
| Users.ProfileRules | routes/users.js:56-86 | both names are required (400, no write); an accepted update writes both names as given and the phone for this user |
| Users.ProfilePhone | routes/users.js:66-71 | the stored phone is null exactly when the given phone is falsy, the empty string included, and is the phone otherwise |
| Users.ChangePassword | routes/users.js:124-167 | the password change, guards then lookup then bcrypt then UPDATE; its properties are `Users.PasswordGuardsFirst`, `Users.PasswordRules` and `Users.AcceptedPasswordLength` |
| Users.PasswordGuardsFirst | routes/users.js:128-138 | when a body guard refuses, the answer is the same whatever the lookup and bcrypt would say, and nothing is written |
| Users.PasswordRules | routes/users.js:124-167 | both passwords are required (400); a shorter new string password gives 400; no user gives 404; a wrong current string password gives 401; only a verified change of string passwords writes the new hash of this user |
| Users.AcceptedPasswordLength | routes/users.js:134-158 | an accepted new password is a string of at least 8 characters; a truthy non-string passes the length check and fails only at `bcrypt.hash`, with 500 and nothing written |
| Users.DeactivateAccount | routes/users.js:218-253 | the deletion of one's own account as a soft delete; its properties are `Users.DeactivateRules` |
| Users.DeactivateRules | routes/users.js:218-253 | the password is required (400) and verified (401), a non-string making `bcrypt.compare` throw (500); a confirmed deletion sets `is_active` to false for this user and never issues a DELETE |
| Users.DeleteUser | routes/users.js:416-434 | the admin deactivation of a user with the self-deletion guard; its properties are `Users.DeleteUserRules` and `Users.SelfDeletionNeedsSameType` |
| Users.DeleteUserRules | routes/users.js:416-434 | an id equal to the admin's as a `Js.Value` answers 400 and writes nothing; any other id is deactivated, and no write touches an id equal to the admin's (a numeric `req.userId` never equals the string parameter, see `Users.SelfDeletionNeedsSameType`) |
| Users.SelfDeletionNeedsSameType | routes/users.js:418-422 | strict equality never matches a string route parameter against a numeric id |
| Users.UpdateRole | routes/users.js:439-459 | the role change with its whitelist; its properties are `Users.RoleRules` |
| Users.RoleRules | routes/users.js:439-459 | exactly `user`, `admin` and `staff` are accepted; anything else gives 400 and no write; an accepted role is written as given |
| EmailService.MappingRules | services/emailService.js:257-274 | the mapping covers exactly the eleven named types; the three reservation types share `reservation_confirmations` |
| EmailService.CheckUserEmailPreferences | services/emailService.js:227-284 | the preference gate over the lookup's answer; its properties are `EmailService.PreferenceRules` and `EmailService.PreferenceAllows` |
| EmailService.PreferenceRules | services/emailService.js:227-284 | no row or a failing lookup allows; notifications off refuses; a mapped type answers its column; an unmapped type is allowed |
| EmailService.PreferenceAllows | services/emailService.js:227-284 | the gate allows exactly when there is no row, the lookup fails, or notifications are on and the column is unmapped, absent or truthy |
| EmailService.CheckRateLimit | services/emailService.js:289-313 | the hourly rate limit over the count's answer; its properties are `EmailService.RateLimitRules` |
| EmailService.RateLimitRules | services/emailService.js:289-313 | sending is refused exactly when the hour's count reaches the limit, which defaults to 100; a failing count allows |
| EmailService.BuildStats | services/emailService.js:340-361 | the method builds exactly the statistics filter of its specification |
| EmailService.StatsNumbering | services/emailService.js:340-361 | each present filter adds its value in the order start, end, type, numbered `$1 .. $n` |
| EmailService.SendEmail | services/emailService.js:119-216 | the test recipient is used only in development when set; a missing text is the HTML with tags stripped; the log goes `pending`, then `sent` exactly on delivery or `failed` otherwise; the result carries the log id and the transport's id or error |
| Text.StripTags | services/emailService.js:131 | `html.replace(/<[^>]*>/g, '')`; its properties are `Text.StripTagsIsSubsequence`, `Text.StripTagsKeepsChars`, `Text.StripTagsLeavesNoTag` and `Text.StripTagsPlainText` |
| Text.Trim | routes/contact.js:57-64 | `String.prototype.trim`; its properties are `Text.TrimSpec`, `Text.TrimEmptyIff` and `Text.TrimEnds` |
| Text.TrimSpec | routes/contact.js:57-64 | `trim` removes a white-space prefix and a white-space suffix and nothing else, and the rest neither starts nor ends with white space |
| Text.TrimEmptyIff | routes/contact.js:57-64 | `trim` gives the empty string exactly for white-space-only input |
| Text.TrimEnds | routes/contact.js:57-64 | a non-empty trim starts and ends with a non-space character, all taken from the input |
| Text.Split | server.js:37 | `String.prototype.split` on a non-empty separator; its properties are `Text.SplitJoin`, `Server.OriginsFromVariable` and `Server.OriginsRoundTrip` |
| Text.SplitJoin | server.js:37 | joining the pieces of a split with the same separator gives the input back |
| Text.ReplaceAll | utils/mailer.js:60 | a global replacement of a literal pattern; its properties are `Mailer.ReplyAsHtmlRule` and `EmailBase.EachOccurrenceReplaced` |
| Text.StripTagsKeepsChars | services/emailService.js:131 | every character of the result occurs in the input |
| Text.StripTagsIsSubsequence | services/emailService.js:131 | stripping only deletes characters: the result is a subsequence of the input (`Text.IsSubsequence`), so kept characters stay in their order |
| Text.StripTagsLeavesNoTag | services/emailService.js:131 | no `<` is followed later by `>` after stripping |
| Text.StripTagsPlainText | services/emailService.js:131 | text without `<` passes through unchanged |
| EmailHelpers.Send | utils/emailHelpers.js:34-37 | a rejection of `sendEmail` becomes the helper's error result; anything else is returned as is |
| EmailHelpers.GateRules | utils/emailHelpers.js:43-50 | a refusing gate sends nothing and answers `user_preferences`, whatever the rest of the helper would do; an allowing gate leaves the helper to the rest |
| EmailHelpers.DeliverRules | utils/emailHelpers.js:205-245 | a template that threw is caught before anything is sent and its error is the helper's result; a rendered template is sent with the envelope's fields and the rendered html |
| EmailHelpers.GatedSendRules | utils/emailHelpers.js:43-82 | a gated helper whose template cannot throw sends exactly when the gate allows, to its envelope's recipient with its type and subject; a refusal answers `user_preferences` |
| EmailHelpers.GateFollowsPreferences | utils/emailHelpers.js:46-50 | notifications off means no gated email; no row or a failing lookup lets every gated email through |
| EmailHelpers.SendWelcomeEmail | utils/emailHelpers.js:12-37 | the welcome helper; its properties are `EmailHelpers.WelcomeEmailSent` |
| EmailHelpers.WelcomeEmailSent | utils/emailHelpers.js:12-37 | the welcome email is always handed to `sendEmail`, to the user, with the user's id and type `welcome`; only a thrown error becomes the helper's error |
| EmailHelpers.SendReservationCreatedEmail | utils/emailHelpers.js:43-82 | the reservation-created helper behind its gate; its properties are `EmailHelpers.ReservationCreatedGate` |
| EmailHelpers.ReservationCreatedGate | utils/emailHelpers.js:43-82 | sent exactly when the `reservation_created` preference allows, to the user, with the date in the subject; otherwise `user_preferences` |
| EmailHelpers.SendReservationConfirmedEmail | utils/emailHelpers.js:88-124 | the reservation-confirmed helper behind its gate; its properties are `EmailHelpers.ReservationConfirmedGate` |
| EmailHelpers.ReservationConfirmedGate | utils/emailHelpers.js:88-124 | sent exactly when the `reservation_confirmed` preference allows, to the user, with the date in the subject; otherwise `user_preferences` |
| EmailHelpers.SendReservationCancelledEmail | utils/emailHelpers.js:130-158 | the cancellation helper; its properties are `EmailHelpers.ReservationCancelledSent` |
| EmailHelpers.ReservationCancelledSent | utils/emailHelpers.js:130-158 | the cancellation is always handed to `sendEmail`, to the user, with the date in the subject and type `reservation_cancelled` |
| EmailHelpers.SendProjectCreatedEmail | utils/emailHelpers.js:164-199 | the project-created helper behind its gate; its properties are `EmailHelpers.ProjectCreatedGate` |
| EmailHelpers.ProjectCreatedGate | utils/emailHelpers.js:164-199 | sent exactly when the `project_created` preference allows, to the user; otherwise `user_preferences` |
| EmailHelpers.SendProjectUpdateEmail | utils/emailHelpers.js:205-245 | the project-update helper: gate, template (which can throw), send; its properties are `EmailHelpers.ProjectUpdateRules` |
| EmailHelpers.ProjectUpdateRules | utils/emailHelpers.js:205-245 | sent exactly when the `project_updated` gate allows and the update message is a string; a refusal answers `user_preferences`; past the gate a non-string message is the caught TypeError and nothing is sent |
| EmailHelpers.SendContactMessageReceivedEmail | utils/emailHelpers.js:251-284 | the admin notice helper; its properties are `EmailHelpers.ContactReceivedSent` |
| EmailHelpers.ContactReceivedSent | utils/emailHelpers.js:251-284 | the notice is always handed to `sendEmail`, to `ADMIN_EMAIL` or else the sender address, with the writer as reply-to and no user |
| EmailHelpers.SendContactReplyEmail | utils/emailHelpers.js:290-323 | the contact-reply helper, whose `split` and template can throw; its properties are `EmailHelpers.ContactReplyRules` and `EmailHelpers.ContactReplyVariables` |
| EmailHelpers.ContactReplyRules | utils/emailHelpers.js:290-323 | sent exactly when the sender's name and the original message are strings, else the caught TypeError and nothing sent; a reply goes to the sender under the sender's name, replying to the admin's address or the sender address |
| EmailHelpers.SendPasswordResetEmail | utils/emailHelpers.js:329-358 | the password-reset helper; its properties are `EmailHelpers.PasswordResetSent` and `EmailHelpers.ResetLinkRule` |
| EmailHelpers.PasswordResetSent | utils/emailHelpers.js:329-358 | the reset email is always handed to `sendEmail`, to the user, with type `password_reset` |
| EmailHelpers.ResetLinkRule | utils/emailHelpers.js:331 | the link is `FRONTEND_URL` as written (`undefined` when unset), the reset path, then the token |
| EmailHelpers.ContactReplyVariables | utils/emailHelpers.js:290-314 | the first name is the sender's name up to its first space; without an admin the signature is `LE SAGE DEV` and the reply goes to the sender address |
| EmailHelpers.SendBatchEmails | utils/emailHelpers.js:368-401 | each recipient gets `name or email` and `id or null`; success counts the calls that returned, failed the calls that threw; success + failed is the number of recipients, and the errors are one per thrower |
| EmailHelpers.UndeliveredCountsAsSuccess | utils/emailHelpers.js:377-384 | a batch whose every call returns, even with `success: false`, counts every recipient as a success |
| EmailHelpers.BatchErrorsFromThrowers | utils/emailHelpers.js:389-396 | each error names a recipient whose call threw, with that error; errors plus successes make up the batch |
| EmailHelpers.BatchErrorsInOrder | utils/emailHelpers.js:375-397 | errors keep the recipients' order |
| EmailBase.GenerateBaseEmailHtml | templates/emails/base.js:13-262 | the base layout, trimmed; its properties are `EmailBase.DocumentEmbedsSlots`, `EmailBase.DocumentIsTrimmed` and `EmailBase.BaseIsDocument` |
| EmailBase.DocumentEmbedsSlots | templates/emails/base.js:13-262 | the layout embeds title, preheader and content verbatim, in that order |
| EmailBase.DocumentIsTrimmed | templates/emails/base.js:261 | the filled-in layout is its own trim |
| EmailBase.BaseIsDocument | templates/emails/base.js:13-262 | the trim removes only the literal's surrounding white space |
| EmailBase.ReplaceVariables | templates/emails/base.js:270-279 | the loop's result is the entries' substitutions applied one after the other |
| EmailBase.SubstituteRules | templates/emails/base.js:275 | a falsy value is substituted as the empty string, a string as itself |
| EmailBase.EachOccurrenceReplaced | templates/emails/base.js:273-276 | each entry replaces every occurrence of its placeholder, left to right |
| EmailBase.AbsentPlaceholdersUntouched | templates/emails/base.js:270-278 | with no variables, or none of their placeholders present, the template is unchanged |
| EmailBase.CreateButton | templates/emails/base.js:284-296 | the button markup; its properties are `EmailBase.ButtonShowsUrlAndText` |
| EmailBase.ButtonShowsUrlAndText | templates/emails/base.js:284-296 | the `href` holds the URL and the link body the text, verbatim |
| EmailBase.CreateInfoBox | templates/emails/base.js:301-313 | the information box, one paragraph per item; its properties are `EmailBase.ItemsInOrder`, `EmailBase.BoxOpensWithFirstItem` and `EmailBase.ItemShowsLabelAndValue` |
| EmailBase.ItemsInOrder | templates/emails/base.js:301-313 | the box holds the paragraphs of the items in input order |
| EmailBase.BoxOpensWithFirstItem | templates/emails/base.js:301-313 | the box opens with the first item's paragraph |
| EmailBase.ItemShowsLabelAndValue | templates/emails/base.js:302-306 | an item's paragraph shows its label and then its value |
| EmailBase.DividerHasNoText | templates/emails/base.js:318-320 | a divider carries no text once tags are stripped |
| EmailTemplates.RenderEmbeds | templates/emails/index.js:48-53 | a rendered email holds its title, preheader and content verbatim at their slots |
| EmailTemplates.WelcomeEmail | templates/emails/index.js:16-54 | the welcome template; its properties are `EmailTemplates.WelcomeGreets` and `EmailTemplates.RenderEmbeds` |
| EmailTemplates.WelcomeGreets | templates/emails/index.js:16-54 | the welcome email greets the first name and links to the dashboard |
| EmailTemplates.MeetingLabelRule | templates/emails/index.js:70 | the video label is chosen exactly when the meeting type is the string `visio` |
| EmailTemplates.ReservationCreatedEmail | templates/emails/index.js:60-110 | the reservation-created template; its properties are `EmailTemplates.MeetingLabelRule` and `EmailTemplates.ReservationCreatedDetails` |
| EmailTemplates.ReservationCreatedDetails | templates/emails/index.js:79-83 | the box shows the meeting label and the project type, or `À définir` when falsy |
| EmailTemplates.ReservationConfirmedEmail | templates/emails/index.js:116-170 | the confirmation template; its properties are `EmailTemplates.VisioBlockRule` and `EmailTemplates.ConfirmedShowsLinkOnlyForVisio` |
| EmailTemplates.VisioBlockRule | templates/emails/index.js:140-146 | the video block is present exactly for `visio` with a truthy link, and then holds the link's button |
| EmailTemplates.ConfirmedShowsLinkOnlyForVisio | templates/emails/index.js:116-170 | the confirmation shows the join button only for a video call with a link |
| EmailTemplates.ReservationCancelledEmail | templates/emails/index.js:176-208 | the cancellation template; its properties are `EmailTemplates.CancellationBoxRule` |
| EmailTemplates.CancellationBoxRule | templates/emails/index.js:186-190 | the reason box is rendered exactly when a reason is given, and shows it |
| EmailTemplates.ProjectCreatedEmail | templates/emails/index.js:214-253 | the project-created template; its properties are `EmailTemplates.StartDateDefault` |
| EmailTemplates.StartDateDefault | templates/emails/index.js:227 | the start date shows `À définir` exactly when it is falsy |
| EmailTemplates.ProjectUpdatedEmail | templates/emails/index.js:259-298 | the project-update template, a TypeError for a non-string message; its properties are `EmailTemplates.IconFallback`, `EmailTemplates.UpdatePreheader` and `EmailTemplates.UpdateEmailFails` |
| EmailTemplates.IconFallback | templates/emails/index.js:262-270 | a known update type gets its icon; any other value gets the `info` icon |
| EmailTemplates.UpdatePreheader | templates/emails/index.js:294 | the preheader is the first 100 characters of the message; a non-string message is a TypeError |
| EmailTemplates.UpdateEmailFails | templates/emails/index.js:259-298 | the update email fails exactly when the message is not a string, and then with a TypeError |
| EmailTemplates.ContactMessageReceivedEmail | templates/emails/index.js:304-331 | the admin notice template; its properties are `EmailTemplates.ContactReceivedQuotesMessage` and `EmailTemplates.ContactReceivedPreheaderNames` |
| EmailTemplates.ContactReceivedQuotesMessage | templates/emails/index.js:304-330 | the admin copy quotes the message verbatim |
| EmailTemplates.ContactReceivedPreheaderNames | templates/emails/index.js:327 | the preheader starts with `Message de` and the sender's name, and ends with the subject |
| EmailTemplates.ContactReplyEmail | templates/emails/index.js:337-371 | the reply template, a TypeError for a non-string original message; its properties are `EmailTemplates.AdminNameDefaults`, `EmailTemplates.QuoteTruncated` and `EmailTemplates.ReplyEmailFails` |
| EmailTemplates.AdminNameDefaults | templates/emails/index.js:345-354 | without an admin name the intro says `Notre équipe` and the heading `LE SAGE DEV` |
| EmailTemplates.QuoteTruncated | templates/emails/index.js:349 | the quote is the message if at most 150 characters, else its first 150 and `...`; a non-string is a TypeError |
| EmailTemplates.ReplyEmailFails | templates/emails/index.js:337-371 | the reply email fails exactly when the original message is not a string, and then with a TypeError |
| EmailTemplates.PasswordResetEmail | templates/emails/index.js:377-412 | the password-reset template; its properties are `EmailTemplates.ResetLinkAndExpiry` |
| EmailTemplates.ResetLinkAndExpiry | templates/emails/index.js:387-391 | the expiry defaults to `1 heure` and the button leads to the given link |
| Server.AllowedOrigins | server.js:36-38 | the allowed-origins list from `ALLOWED_ORIGINS`; its properties are `Server.DefaultOrigins`, `Server.OriginsFromVariable` and `Server.OriginsRoundTrip` |
| Server.DefaultOrigins | server.js:36-38 | without the variable, or with it empty, the list is `http://localhost:3000` |
| Server.OriginsFromVariable | server.js:36-38 | one entry per comma-separated piece, trimmed: no comma and no outer white space |
| Server.OriginsRoundTrip | server.js:36-38 | entries written without outer white space come back as written: joining them with commas gives the variable |
| Server.FramedIff | server.js:42 | the vercel pattern matches exactly the strings of the form prefix, line-free middle, suffix |
| Server.WithPortIff | server.js:43-44 | the localhost patterns match exactly the prefix followed by one or more digits |
| Server.CorsCallback | server.js:50-83 | the CORS origin callback; its properties are `Server.CorsRule`, `Server.LocalPortAdmitted` and `Server.DefaultListExamples` |
| Server.CorsRule | server.js:50-83 | an origin is admitted exactly when absent or empty, listed, or matching one of the three patterns |
| Server.Preflight | server.js:86-95 | the OPTIONS handler; its properties are `Server.PreflightAgreesWithCors` |
| Server.PreflightAgreesWithCors | server.js:86-95 | the OPTIONS handler admits the same origins as the callback and always answers 204 |
| Server.LocalPortAdmitted | server.js:43 | any localhost port is admitted whatever the list |
| Server.DefaultListExamples | server.js:36-83 | with the default list, `http://localhost:3000` is admitted and `https://example.com` is not |
| Server.PortRequired | server.js:43 | a localhost address without a port does not match |
| Server.BackoffShape | server.js:178 | the wait is `min(5000·(i+1), 15000)`: growing, and 15 seconds from the third wait on |
| Server.TestConnection | server.js:150-194 | it connects exactly when some attempt below the limit does; it stops at the first success; it makes at most `retries` attempts; it waits `Backoff(i)` after each failed attempt but the last |
| Server.DefaultTestWaits | server.js:150-194 | with five failing attempts the waits are 5, 10, 15 and 15 seconds, 45 in all |
| Server.WaitBound | server.js:178 | the waits never exceed 15 seconds per failed attempt |
| Server.HandleError | server.js:407-446 | the error middleware; its properties are `Server.ErrorMapping` and `Server.Only503FromDatabase` |
| Server.ErrorMapping | server.js:407-446 | ETIMEDOUT and ECONNREFUSED answer 503 with their codes; any other error answers its status or 500; production hides the message and the details come only in development |
| Server.Only503FromDatabase | server.js:415-436 | a 503 comes only from the two database codes or an error carrying 503 |
| Mailer.SenderNamesUser | utils/mailer.js:19 | the sender's address is the configured SMTP user |
| Mailer.SendEmail | utils/mailer.js:16-32 | the mailer's `sendEmail`; its properties are `Mailer.SendEmailResult` |
| Mailer.SendEmailResult | utils/mailer.js:16-32 | the transport gets the fields as given from the configured sender; success with the message id exactly when the transport accepts, else the error |
| Mailer.ReplyAsHtmlRule | utils/mailer.js:60 | no line feed is left: the lines are joined by `<br>`, and a one-line reply is unchanged |
| Mailer.SendContactReply | utils/mailer.js:35-79 | the mailer's contact reply; its properties are `Mailer.ContactReplyRefused` and `Mailer.ContactReplyMessage` |
| Mailer.ContactReplyRefused | utils/mailer.js:60 | the reply fails with the TypeError of `replace` exactly when the reply text is not a string |
| Mailer.ReplySubjectRule | utils/mailer.js:75 | the subject is `Re: ` followed by the original subject |
| Mailer.ReplyHtmlHoldsReply | utils/mailer.js:36-71 | the HTML body holds the reply with its line feeds converted |
| Mailer.ContactReplyMessage | utils/mailer.js:35-79 | a string reply is sent: the recipient is kept, the subject is `Re: ` plus the original, the text is greeting + reply + signature, the HTML holds the converted reply, and the result is `sendEmail`'s |
| Mailer.ReplyTextEmbedsReply | utils/mailer.js:77 | the plain text holds the reply unchanged right after the greeting |

## Left out

- SQL execution is left out: `pool.query`, RETURNING, COUNT, ILIKE, ORDER BY and the SQL keywords around the fragments. Queries are fragments plus parameters, and rows and failures are oracle parameters.
- bcrypt hashing and comparison are left out because they are a foreign library. `bcrypt.compare` is a boolean parameter and `bcrypt.hash` a value parameter. Only their refusal of a password that is not a string is modelled, as the handlers' 500.
- The nodemailer transport and its configuration are left out. The transport's answer is a parameter. The emailService preview mode, `initEmailService` and the transporter's own retries are not modelled.
- Date and time are left out. `toLocaleDateString` output and `getFullYear` are parameters (`dateText`, `year`). `setTimeout` delays are modelled only as the list of wait values. `CURRENT_TIMESTAMP` and `INTERVAL` are literal fragments.
- String lengths, `substring` and `trim` count Dafny characters, not UTF-16 code units, so an emoji counts as one.
- `toLowerCase` maps only ASCII and Latin-1 capitals, because full Unicode case mapping is outside the model.
- Static HTML and CSS of the base layout, the nine templates and the mailer's reply are reduced to the slots and the elements that show a variable. The reply's document head, style sheet and fixed sentences are not modelled.
- replaceVariables keys are substituted literally. Regular-expression metacharacters in keys and `$` patterns in values are not modelled.
- Object prototype keys are not modelled. An `update_type` or email type such as `constructor` would find an inherited property in `updateIcons` or `typeMapping`.
- The JSON context of the email log is not modelled. Neither are `getUserEmailHistory`, the GET list and detail lookups other than the queries' filters, the stats routes and users' message listing.
- The profile read back after `PUT /me` is not modelled. The outcome ends at the UPDATE.
- Express routing, middleware, JWT authentication, helmet, rate limiting and body parsing are framework plumbing and are left out.
- The process lifecycle is left out: pool events, graceful shutdown and signal handlers are concurrency and OS interaction.
- Environment variables (`ALLOWED_ORIGINS`, `NODE_ENV`, `EMAIL_RATE_LIMIT`, `FRONTEND_URL` and the SMTP and email settings) are parameters.
- The reply email in the contacts reply handler is not modelled. The handler calls `sendContactReply` without importing it, and its `catch` swallows the ReferenceError, so no email is sent there.
- Users.SelfDeletionNeedsSameType: the JWT middleware that sets `req.userId` is not part of this model. `===` is value equality over `Js.Value`, and the lemma shows only that a string parameter never equals a numeric id.
- A lookup that throws is modelled only through each handler's `updateFails`/`insertFails`-style flags. Every other thrown query is the generic 500.
- Js.Value numbers are integers only, with no fractions, `NaN` or `Infinity`. Objects and arrays are not represented either, so a body field holding one is outside the model: an array `newPassword`, for instance, whose `length` the length check would read.
- Http.Outcome writes are the statement shapes, not their SQL text. `Write.SetStatus` and `Write.Update` name the table, the values and the id.
- Write.Update lists only the columns whose value varies. The `updated_at = CURRENT_TIMESTAMP` item that every users UPDATE also sets is not listed.
- AdminProjects.AfterProjectUpdate: the log's metadata `JSON.stringify({ status, progress })` is modelled as the two raw values, not as its JSON text, so the dropping of an undefined key is not shown.

## Findings

| source | as written | input that shows it | evidently intended | confidence | as-written member | corrected member |
|---|---|---|---|---|---|---|
| routes/admin/contacts.js:351-357 | `const { permanent = false } = req.query; if (permanent)` deletes the row for any non-empty query value, because query values are strings | `DELETE /admin/contact/:id?permanent=false`: the string `"false"` is truthy, so the message is deleted, not archived | archive unless `permanent` is `true` | not executed | AdminContacts.DeleteAsWrittenRules | AdminContacts.DeleteRules |
