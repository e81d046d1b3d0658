# Discovery: a Dafny model of the project and deliverable tracker

Discovery is a Next.js application for tracking client projects and the
deliverables (files) each project expects. Three JSON routes store users,
projects and deliverables in MySQL. `lib/db.ts` builds the connection pool
after loading `.env.local` and `.env` by hand. `scripts/check-db.js` is a
stand-alone connection check. The pages let a user do the following:

- log in;
- browse and filter the user, project, deliverable and notification lists;
- create users, projects and deliverables through three validating modals.

The project models the following parts, one module per source file:

- **Environment loading** (`EnvFile`, `CheckDb`):
  - the line regex `^([^=]+)=(.*)$`;
  - quote stripping;
  - the rule that a key already set to a non-empty value is never overwritten;
  - the password guard of `loadEnvManually`;
  - the settings the pool is given and the settings it logs;
  - the diagnosis the check script prints.
- **The database** (`Store`): a `Database` class. Its tables are sequences and a
  statement counter selects which statement fails (`faults`). This lets the
  routes be proved on every failure path. Emails are unique, as the route's
  `ER_DUP_ENTRY` branch assumes.
- **The routes** (`UsersRoute`, `ProjectsRoute`, `DeliverablesRoute`):
  - required-field checks;
  - the rows inserted, including the `|| null` and `|| default` coercions;
  - a body that is not JSON, and a missing (`undefined`) field, which the
    driver refuses to bind, so that no statement reaches the server (`Js.JsonField`
    keeps `undefined` and `null` apart);
  - the status codes and bodies;
  - the non-transactional admin-link loop of `POST /api/projects`;
  - the correlated counts of `GET /api/projects`;
  - the two `LEFT JOIN`s of `GET /api/deliverables`.
- **The modals** (`UserForm`, `ProjectForm`, `DeliverableForm`, shared `Forms`).
  Each modal is a class holding its form and error map:
  - `handleChange`, `validateForm` and `handleClose`;
  - the participant toggle, remove, add and merge handlers of the project modal;
  - each validator's error map, proved equivalent to a plain validity predicate.
- **The pages** (`Login`, `Sidebar`, `UsersPage`, `MockUsers`, `ProjectsPage`,
  `DeliverablesPage`, `Notifications`):
  - the search and selector filters, the counters and the badges;
  - the empty states;
  - the per-role menus;
  - the demo login routing;
  - the notification handlers, in a `NotificationCenter` class.

JavaScript's string helpers are in `Strings`:

- `trim` over the full JavaScript white-space set;
- `toLowerCase` on ASCII letters;
- `includes`.

`Array.prototype.filter` and its laws are in `Seqs`.

## Model

| member | source | states |
|---|---|---|
| EnvFile.IndexOf | discovery/lib/db.ts:17 | the first occurrence of a character: nothing before it matches, and the index is the length when there is none |
| EnvFile.SplitLines | discovery/lib/db.ts:16 | `split('\n')` yields at least one line and no line contains a newline |
| EnvFile.SplitJoin | discovery/lib/db.ts:16 | joining the split lines with newlines gives back the file content (nothing is lost) |
| EnvFile.StripQuotes | discovery/lib/db.ts:20 | at most one leading and one trailing quote are removed, each independently; the rest is a contiguous slice of the value |
| EnvFile.StripQuotesOfQuoted | discovery/lib/db.ts:20 | a value wrapped in quotes of either kind comes back unwrapped |
| EnvFile.StripQuotesOfUnquoted | discovery/lib/db.ts:20 | a value that neither starts nor ends with a quote is unchanged |
| EnvFile.ParseLineMatchesPattern | discovery/lib/db.ts:17-20 | a line parses exactly when the regex matches, split at its first `=` with a non-empty key and no line terminator after it; key and value are then trimmed and unquoted |
| EnvFile.SplitsAtIndexOf | discovery/lib/db.ts:17 | when the first `=` is preceded by text and followed by no line terminator, the regex matches there |
| EnvFile.SplitsAtOnlyIndexOf | discovery/lib/db.ts:17 | the regex can only match at the first `=` |
| EnvFile.CarriageReturnLineIgnored | discovery/lib/db.ts:16-18 | a CRLF line keeps its `\r` after the split and is rejected by the regex |
| EnvFile.ParseLines | discovery/lib/db.ts:16-18 | each line is parsed independently, in order |
| EnvFile.MergeEntriesAppend | discovery/lib/db.ts:16-29 | merging two runs of lines is merging the first, then the second |
| EnvFile.MergeEntriesStep | discovery/lib/db.ts:16-29 | one more line is one more merge step |
| EnvFile.MergeKeepsDefined | discovery/lib/db.ts:22 | a key already set to a non-empty value keeps its value whatever the file says |
| EnvFile.MergeWithoutDefinition | discovery/lib/db.ts:22-23 | lines that never give a key a non-empty value cannot make it defined |
| EnvFile.FirstDefinitionWins | discovery/lib/db.ts:16-29 | for an undefined key, the first line giving it a non-empty value decides its final value |
| EnvFile.MergeAddsOnlyParsedKeys | discovery/lib/db.ts:18-23 | a key that no parsed line names is never added |
| EnvFile.LoadFilesCons | discovery/lib/db.ts:11-31 | files are read one after another; a missing file changes nothing |
| EnvFile.EnvAfterManualLoad | discovery/lib/db.ts:6-35 | with the password already set nothing is read; otherwise `.env.local` then `.env` are merged |
| EnvFile.LoadFilesKeepsDefined | discovery/lib/db.ts:22 | no file changes a key that was defined before loading |
| EnvFile.EnvLocalWins | discovery/lib/db.ts:11-31 | a key that `.env.local` defines keeps that value whatever `.env` says |
| EnvFile.EffectivePort | discovery/lib/db.ts:40-48 | a connection given no port goes to 3306 |
| EnvFile.EnvOr | discovery/lib/db.ts:41-44 | `process.env[key] \|\| fallback`: the variable when it is non-empty, else the fallback |
| EnvFile.ConnectionConfigOf | discovery/lib/db.ts:40-44 | host, user, password and database come from their variables or default to localhost, root, empty and discovery; no port is passed |
| EnvFile.PoolConfigOf | discovery/lib/db.ts:40-48 | the pool adds `waitForConnections`, a limit of 10 connections and an unbounded queue to those settings |
| EnvFile.LoggedConfigOf | discovery/lib/db.ts:50-56 | the log shows the same host, user and database, the port as `MYSQL_PORT \|\| 3306`, and only whether a password is set |
| EnvFile.LoggedPortNotUsed | discovery/lib/db.ts:40-56 | with `MYSQL_PORT=3307` the log says 3307 while the pool connects to 3306 |
| EnvFile.PoolConfigWithPort | discovery/lib/db.ts:40-56 | the corrected pool settings connect to the logged port and otherwise equal the pool settings |
| EnvFile.ProcessEnv.constructor | discovery/lib/db.ts:6 | the environment starts as given |
| EnvFile.ProcessEnv.SetIfUndefined | discovery/lib/db.ts:18-27 | one `forEach` step: a parsed key is set unless already defined |
| EnvFile.ProcessEnv.LoadContent | discovery/lib/db.ts:15-29 | the loop over the lines of one file leaves the environment its lines merged in order |
| EnvFile.ProcessEnv.LoadEnvManually | discovery/lib/db.ts:6-35 | the in-place loader leaves exactly `EnvAfterManualLoad` |
| CheckDb.EnvAfterScriptLoad | discovery/scripts/check-db.js:6-26 | the script merges `.env` only, and a missing file changes nothing |
| CheckDb.LoadDotEnv | discovery/scripts/check-db.js:7-19 | the in-place load of the script leaves exactly `EnvAfterScriptLoad` |
| CheckDb.ScriptLoadMatchesManualLoad | discovery/scripts/check-db.js:6-26 | without a password and without `.env.local`, the script and lib/db.ts load the same environment |
| CheckDb.ScriptLoadIgnoresPasswordGuard | discovery/scripts/check-db.js:6-26 | with the password already set, lib/db.ts reads nothing but the script still picks up a key `.env` defines |
| CheckDb.HintFor | discovery/scripts/check-db.js:53-59 | the three hints correspond one-to-one with the three error codes; any other code gets none |
| CheckDb.JoinCommaEmpty | discovery/scripts/check-db.js:45 | a joined table list is empty exactly when there is no table or a single unnamed one |
| CheckDb.TablesLine | discovery/scripts/check-db.js:45 | the table line is the joined names, or "Aucune table" exactly when the join is empty |
| CheckDb.TestConnection | discovery/scripts/check-db.js:28-61 | the diagnosis uses the pool's settings without the pool extras; success lists tables, failure reports code, message and hint |
| Store.UserInsertError | discovery/app/api/users/route.ts:37-53 | an injected failure wins; otherwise an insert fails exactly on a taken email, with `ER_DUP_ENTRY` |
| Store.Database.constructor | discovery/lib/db.ts:58-61 | an empty database with the given failure schedule |
| Store.Database.NextFault | discovery/lib/db.ts:58-61 | the next statement fails exactly when its number is scheduled to fail |
| Store.Database.SelectUsers | discovery/app/api/users/route.ts:7 | a select issues one statement and returns the table when it does not fail |
| Store.Database.InsertUser | discovery/app/api/users/route.ts:37-40 | the row is appended exactly when the insert does not fail |
| Store.Database.InsertProject | discovery/app/api/projects/route.ts:28-31 | the row is appended exactly when the insert does not fail |
| Store.Database.InsertAdminLink | discovery/app/api/projects/route.ts:36 | the link is appended exactly when the insert does not fail |
| Store.Database.InsertDeliverable | discovery/app/api/deliverables/route.ts:37-40 | the row is appended exactly when the insert does not fail |
| Store.Database.Select | discovery/app/api/projects/route.ts:6-13 | a read-only query only issues one statement |
| Js.Or | discovery/app/api/users/route.ts:35 | `v \|\| fallback` keeps a non-empty value and otherwise gives the fallback |
| Js.OrNull | discovery/app/api/projects/route.ts:30 | `v \|\| null` keeps a non-empty value and stores NULL otherwise |
| UsersRoute.NewUserRow | discovery/app/api/users/route.ts:33-40 | the inserted row carries the generated id, the names and email, the hash of the password, `role \|\| 'user'` and `avatarColor \|\| 'bg-indigo-600'` |
| UsersRoute.InsertFailure | discovery/app/api/users/route.ts:50-56 | a duplicate email is a 400 "Email already exists"; any other error is a 500 |
| UsersRoute.PostOutcome | discovery/app/api/users/route.ts:24-57 | 400 when a required field is missing; 201 exactly when the insert succeeds, echoing the raw role; the table changes only on 201 |
| UsersRoute.PostKeepsEmailsUnique | discovery/app/api/users/route.ts:37-53 | whatever is posted, no two users end up sharing an email |
| UsersRoute.Post | discovery/app/api/users/route.ts:24-57 | the handler on the database gives exactly `PostOutcome` for a parsed body, issues no statement when validation fails, and answers 500 without a statement when the body is not JSON |
| UsersRoute.Listing | discovery/app/api/users/route.ts:7-8 | every user in table order with the eight selected columns, never the password |
| UsersRoute.ListingFailure | discovery/app/api/users/route.ts:9-21 | a failed listing is a 500 whose error starts with "Database Error: " and includes the driver's message and code |
| UsersRoute.Get | discovery/app/api/users/route.ts:5-22 | one select, then the listing or the failure body |
| ProjectsRoute.NewProjectRow | discovery/app/api/projects/route.ts:26-31 | the row carries the id and the body's name, description and sector, `null` stored as NULL; a falsy delivery date is stored as NULL |
| ProjectsRoute.Links | discovery/app/api/projects/route.ts:34-38 | one link per admin id, in order, all to the new project |
| ProjectsRoute.FirstFault | discovery/app/api/projects/route.ts:28-38 | the number of statements that run before the first failure: none of them fails, and the next one does unless all ran |
| ProjectsRoute.Post | discovery/app/api/projects/route.ts:21-45 | a body that is not JSON, or lacks `name`, `description` or `sector` (an `undefined` bind parameter), is a 500 with nothing issued; otherwise, without a transaction: a failed project insert changes nothing; a failed link keeps the project and the earlier links but answers 500; 201 only when every statement ran |
| ProjectsRoute.InsertLinks | discovery/app/api/projects/route.ts:34-38 | the link loop inserts the links up to the first failure and reports whether one happened |
| ProjectsRoute.Summaries | discovery/app/api/projects/route.ts:6-14 | every project in table order with its admin, deliverable and pending counts; pending never exceeds deliverables |
| ProjectsRoute.PendingAtMostDeliverables | discovery/app/api/projects/route.ts:10-11 | a project's pending deliverables are among its deliverables |
| ProjectsRoute.AdminCountAfterLinks | discovery/app/api/projects/route.ts:34-38 | linking `n` admins raises that project's admin count by `n` and leaves other projects' counts alone |
| ProjectsRoute.FreshProjectAdminCount | discovery/app/api/projects/route.ts:9 | a new project whose links were all inserted reports as many admins as were posted |
| ProjectsRoute.Get | discovery/app/api/projects/route.ts:4-19 | one query, then the summaries or a 500 "Failed to fetch projects" |
| DeliverablesRoute.AssigneeName | discovery/app/api/deliverables/route.ts:20 | "first last" when the joined first name is truthy, else "Unassigned" |
| DeliverablesRoute.Format | discovery/app/api/deliverables/route.ts:18-21 | each joined row keeps its columns and its `assignedTo` id is replaced by the display name |
| DeliverablesRoute.FormatAppend | discovery/app/api/deliverables/route.ts:18-21 | formatting keeps the rows' order |
| DeliverablesRoute.NewDeliverableRow | discovery/app/api/deliverables/route.ts:35-40 | `null` fields and falsy `deadline` and `assignedTo` are stored as NULL; the other fields as sent |
| DeliverablesRoute.EchoDiffersFromStored | discovery/app/api/deliverables/route.ts:37-42 | the 201 body echoes an empty deadline that was stored as NULL |
| DeliverablesRoute.Post | discovery/app/api/deliverables/route.ts:30-47 | a body that is not JSON, or lacks `name`, `projectId` or `format`, is a 500 with nothing issued; otherwise one insert: 201 echoing the body on success, 500 and an unchanged table on failure |
| DeliverablesRoute.FindProject | discovery/app/api/deliverables/route.ts:13 | the joined project has the deliverable's project id; none when no project has it |
| DeliverablesRoute.FindUser | discovery/app/api/deliverables/route.ts:14 | the joined user has the assignee id; none when no user has it |
| DeliverablesRoute.Join | discovery/app/api/deliverables/route.ts:6-15 | one joined row per deliverable in table order: the name of the project `FindProject` finds and the first and last names of the user `FindUser` finds, NULL where the join finds nothing |
| DeliverablesRoute.UnassignedWithoutUser | discovery/app/api/deliverables/route.ts:13-21 | a deliverable whose assignee is missing is listed as "Unassigned" |
| DeliverablesRoute.FindUserUnique | discovery/app/api/deliverables/route.ts:14 | with unique user ids, the join finds exactly the user whose id is the assignee |
| DeliverablesRoute.FindProjectUnique | discovery/app/api/deliverables/route.ts:13 | with unique project ids, the join finds exactly the deliverable's project |
| DeliverablesRoute.AssignedUserNamed | discovery/app/api/deliverables/route.ts:6-21 | a deliverable assigned to an existing user with a first name is listed as "first last" of that user |
| DeliverablesRoute.ProjectNamed | discovery/app/api/deliverables/route.ts:6-15 | a deliverable of an existing project is listed with that project's name |
| DeliverablesRoute.Get | discovery/app/api/deliverables/route.ts:4-28 | one query, then the formatted join or a 500 |
| Forms.ClearError | discovery/components/CreateUserModal.tsx:44-46 | an error present for the edited field is blanked; absent errors stay absent; other fields keep theirs |
| UserForm.With | discovery/components/CreateUserModal.tsx:42 | only the edited field changes |
| UserForm.FirstAt | discovery/components/CreateUserModal.tsx:62 | the first `@`: none before it |
| UserForm.ValidEmailMatchesPattern | discovery/components/CreateUserModal.tsx:62 | the email test accepts exactly the strings `^[^\s@]+@[^\s@]+\.[^\s@]+$` matches |
| UserForm.AcceptedEmailShape | discovery/components/CreateUserModal.tsx:62 | an accepted email has one `@`, no white space, and a dot after the `@` with text on both sides |
| UserForm.BlankEmailFailsPattern | discovery/components/CreateUserModal.tsx:60-64 | a blank email never matches the pattern |
| UserForm.ErrorMap | discovery/components/CreateUserModal.tsx:49-71 | a field has an error exactly when one of its checks failed; the emptiness message takes priority over the format and length messages |
| UserForm.CollectErrors | discovery/components/CreateUserModal.tsx:50-70 | the field-by-field construction of `newErrors` gives that map |
| UserForm.ErrorMapEmpty | discovery/components/CreateUserModal.tsx:73 | the map is empty exactly when no check failed |
| UserForm.FormErrors | discovery/components/CreateUserModal.tsx:49-74 | errors for a blank first or last name, an email that does not match, a password under 8 characters; never for the role |
| UserForm.NoErrorsIffValid | discovery/components/CreateUserModal.tsx:73 | `validateForm` returns true exactly for valid forms |
| UserForm.BlankEmailIsRequired | discovery/components/CreateUserModal.tsx:60-61 | a blank email is reported as missing, not as malformed |
| UserForm.UnmatchedEmailIsInvalid | discovery/components/CreateUserModal.tsx:62-63 | a non-blank email that does not match is reported as invalid |
| UserForm.SpacesPassword | discovery/components/CreateUserModal.tsx:66-70 | the password is not trimmed: eight spaces pass |
| UserForm.CreateUserModal.constructor | discovery/components/CreateUserModal.tsx:29-37 | the modal opens on the empty form with role "user" and no errors |
| UserForm.CreateUserModal.HandleChange | discovery/components/CreateUserModal.tsx:41-47 | the field takes the value and its error is blanked if set |
| UserForm.CreateUserModal.ValidateForm | discovery/components/CreateUserModal.tsx:49-74 | the stored errors are `FormErrors` and the result is validity |
| UserForm.CreateUserModal.HandleClose | discovery/components/CreateUserModal.tsx:91-101 | back to the empty form without errors |
| ProjectForm.AvatarColor | discovery/components/CreateProjectModal.tsx:109-119 | purple for "super-admin", blue for "admin", green for every other role |
| ProjectForm.Ids | discovery/components/CreateProjectModal.tsx:86 | the ids of the participants, in order |
| ProjectForm.Without | discovery/components/CreateProjectModal.tsx:162 | removal never lengthens the selection |
| ProjectForm.WithoutSpec | discovery/components/CreateProjectModal.tsx:155 | removal drops every copy of the id, keeps every other id, and keeps their order |
| ProjectForm.WithoutAbsent | discovery/components/CreateProjectModal.tsx:162 | removing an unselected id changes nothing |
| ProjectForm.WithoutAppend | discovery/components/CreateProjectModal.tsx:162 | removal distributes over concatenation |
| ProjectForm.Toggle | discovery/components/CreateProjectModal.tsx:153-159 | a selected id is removed everywhere, an unselected one appended |
| ProjectForm.ToggleTwiceRestores | discovery/components/CreateProjectModal.tsx:153-159 | toggling an unselected id twice restores the selection |
| ProjectForm.ToggleFlipsMembership | discovery/components/CreateProjectModal.tsx:153-159 | toggling flips whether the id is selected |
| ProjectForm.FromUser | discovery/components/CreateProjectModal.tsx:79-85 | a fetched user becomes a participant with the same fields and the role's color |
| ProjectForm.FromUsers | discovery/components/CreateProjectModal.tsx:79-85 | every fetched user, in order |
| ProjectForm.DropIds | discovery/components/CreateProjectModal.tsx:86 | exactly the earlier participants whose id no fetched user has, in their original order |
| ProjectForm.DropIdsDistinct | discovery/components/CreateProjectModal.tsx:86 | dropping keeps distinct ids distinct |
| ProjectForm.MergeParticipants | discovery/components/CreateProjectModal.tsx:77-88 | with users: they come first, then exactly the earlier participants they do not replace, in their original order; without users the list stays |
| ProjectForm.MergeIdsDistinct | discovery/components/CreateProjectModal.tsx:77-88 | merging keeps ids distinct when both lists have distinct ids |
| ProjectForm.Selected | discovery/components/CreateProjectModal.tsx:259-261 | exactly the participants whose id is selected |
| ProjectForm.Available | discovery/components/CreateProjectModal.tsx:263-265 | exactly the participants whose id is not selected |
| ProjectForm.SelectedAvailablePartition | discovery/components/CreateProjectModal.tsx:259-265 | every participant is in exactly one of the two lists and their sizes add up |
| ProjectForm.Searched | discovery/components/CreateProjectModal.tsx:254-257 | exactly the participants whose name or email includes the query, case-insensitively |
| ProjectForm.Dropdown | discovery/components/CreateProjectModal.tsx:486-489 | while open with a query, the dropdown lists exactly the unselected participants that match; nothing while closed, without a query or with nobody left |
| ProjectForm.FormErrors | discovery/components/CreateProjectModal.tsx:173-192 | errors for a blank name, a missing start, a missing end or an end before the start, each with its message; no other field |
| ProjectForm.NoErrorsIffValid | discovery/components/CreateProjectModal.tsx:191 | `validateForm` returns true exactly for valid forms |
| ProjectForm.MissingEndIsRequired | discovery/components/CreateProjectModal.tsx:184-185 | a missing end date is reported as missing |
| ProjectForm.NewParticipant | discovery/components/CreateProjectModal.tsx:133-140 | the new participant has the given id, the trimmed name and email, the role and its color |
| ProjectForm.CreateProjectModal.constructor | discovery/components/CreateProjectModal.tsx:41-73 | the modal opens on the empty form, the six sample participants and no errors |
| ProjectForm.CreateProjectModal.ReceiveUsers | discovery/components/CreateProjectModal.tsx:77-88 | the participant list becomes `MergeParticipants` |
| ProjectForm.CreateProjectModal.ChangeParticipants | discovery/components/CreateProjectModal.tsx:121-126 | the selection is replaced and its error blanked |
| ProjectForm.CreateProjectModal.HandleToggleParticipant | discovery/components/CreateProjectModal.tsx:153-159 | the selection becomes `Toggle` of itself |
| ProjectForm.CreateProjectModal.HandleRemoveParticipant | discovery/components/CreateProjectModal.tsx:161-163 | the selection loses every copy of the id |
| ProjectForm.CreateProjectModal.HandleAddParticipant | discovery/components/CreateProjectModal.tsx:128-151 | a blank name or email changes nothing; otherwise the new participant is appended and selected, and the draft reset |
| ProjectForm.CreateProjectModal.AddAndSelect | discovery/components/CreateProjectModal.tsx:142-150 | the accepted participant is appended and selected, and the draft is reset and hidden |
| ProjectForm.CreateProjectModal.HandleAddSector | discovery/components/CreateProjectModal.tsx:165-171 | a blank sector changes nothing; otherwise the trimmed sector is set and the input cleared |
| ProjectForm.CreateProjectModal.ValidateForm | discovery/components/CreateProjectModal.tsx:173-192 | the stored errors are `FormErrors` and the result is validity |
| ProjectForm.CreateProjectModal.HandleClose | discovery/components/CreateProjectModal.tsx:208-230 | everything but the participant list back to its initial value |
| DeliverableForm.With | discovery/components/DeliverablesModal.tsx:99 | only the edited field changes |
| DeliverableForm.AvailableUsers | discovery/components/DeliverablesModal.tsx:88-96 | exactly the users with role "user" or "client", in order |
| DeliverableForm.AvailableUsersIgnoreRole | discovery/components/DeliverablesModal.tsx:89-95 | both branches give the same list, so the current role makes no difference |
| DeliverableForm.SelectedProject | discovery/components/DeliverablesModal.tsx:169 | a project with the selected id, and none exactly when no project has it |
| DeliverableForm.SelectedProjectIsFirst | discovery/components/DeliverablesModal.tsx:169 | `find` returns the first project with that id |
| DeliverableForm.ErrorMap | discovery/components/DeliverablesModal.tsx:105-129 | a field has an error exactly when its check failed; a missing deadline is reported before a past one |
| DeliverableForm.CollectErrors | discovery/components/DeliverablesModal.tsx:106-128 | the field-by-field construction of `newErrors` gives that map |
| DeliverableForm.FormErrors | discovery/components/DeliverablesModal.tsx:105-132 | errors for a blank name, no project, no format, no assignee, and a missing or past deadline, each with its message; never for the description |
| DeliverableForm.NoErrorsIffValid | discovery/components/DeliverablesModal.tsx:131 | `validateForm` returns true exactly for valid forms |
| DeliverableForm.MissingDeadlineIsRequired | discovery/components/DeliverablesModal.tsx:120-121 | a missing deadline is reported as missing |
| DeliverableForm.DescriptionIgnored | discovery/components/DeliverablesModal.tsx:105-132 | the description never affects validity |
| DeliverableForm.DeliverablesModal.constructor | discovery/components/DeliverablesModal.tsx:49-58 | the modal opens on the empty form with no errors |
| DeliverableForm.DeliverablesModal.HandleChange | discovery/components/DeliverablesModal.tsx:98-103 | the field takes the value and its error is blanked if set |
| DeliverableForm.DeliverablesModal.ValidateForm | discovery/components/DeliverablesModal.tsx:105-132 | the stored errors are `FormErrors` and the result is validity |
| DeliverableForm.DeliverablesModal.HandleClose | discovery/components/DeliverablesModal.tsx:148-159 | every field empty again and no errors |
| Notifications.ToggleRead | discovery/app/notifications/page.tsx:440-446 | `read` is flipped on every item with the id and nothing else changes |
| Notifications.ToggleReadTwice | discovery/app/notifications/page.tsx:440-446 | marking the same id twice restores the list |
| Notifications.MarkedAllRead | discovery/app/notifications/page.tsx:448-453 | every item read, nothing else changed |
| Notifications.MarkAllReadIdempotent | discovery/app/notifications/page.tsx:448-453 | marking all read twice is marking once |
| Notifications.Deleted | discovery/app/notifications/page.tsx:455-457 | exactly the items with another id stay, in order |
| Notifications.DeleteAbsentKeepsAll | discovery/app/notifications/page.tsx:455-457 | deleting an unknown id changes nothing |
| Notifications.KeptByDeleteReadAsWritten | discovery/app/notifications/page.tsx:644-649 | the "Supprimer les lues" button, as written, keeps exactly the read items |
| Notifications.DeleteReadAsWrittenDropsUnread | discovery/app/notifications/page.tsx:644-649 | on one unread and one read item the button, as written, keeps only the read item |
| Notifications.WithoutRead | discovery/app/notifications/page.tsx:644-649 | the corrected deletion keeps exactly the unread items, in order, as many as the unread counter says |
| Notifications.MarkAllThenDeleteReadEmpties | discovery/app/notifications/page.tsx:448-453 | after marking all read, deleting the read items empties the list |
| Notifications.Filtered | discovery/app/notifications/page.tsx:477-486 | exactly the items matching the search (title or description, case-insensitive) and the type, in order |
| Notifications.DefaultFiltersKeepAll | discovery/app/notifications/page.tsx:426-427 | with the initial filters every item is shown |
| Notifications.UnreadCount | discovery/app/notifications/page.tsx:490 | the unread counter never exceeds the total |
| Notifications.ReadCount | discovery/app/notifications/page.tsx:683-691 | the read section never exceeds the total |
| Notifications.UnreadReadPartition | discovery/app/notifications/page.tsx:660-691 | the unread and read sections add up to the list |
| Notifications.MarkAllReadLeavesNoUnread | discovery/app/notifications/page.tsx:448-453 | no unread item after marking all read |
| Notifications.HighPriorityCount | discovery/app/notifications/page.tsx:491 | the high-priority counter never exceeds the total |
| Notifications.TodayCount | discovery/app/notifications/page.tsx:492 | the "today" counter never exceeds the total |
| Notifications.ReadStateKeepsCounters | discovery/app/notifications/page.tsx:440-453 | marking one item or all items read changes neither the high-priority nor the "today" counter |
| Notifications.NotificationCenter.constructor | discovery/app/notifications/page.tsx:361-427 | the page starts with empty search and type "all", showing every item |
| Notifications.NotificationCenter.MarkAsRead | discovery/app/notifications/page.tsx:440-446 | the list becomes `ToggleRead` of itself |
| Notifications.NotificationCenter.MarkAllAsRead | discovery/app/notifications/page.tsx:448-453 | the list becomes all read and the unread counter is 0 |
| Notifications.NotificationCenter.DeleteNotification | discovery/app/notifications/page.tsx:455-457 | the list loses the items with that id |
| Notifications.NotificationCenter.DeleteRead | discovery/app/notifications/page.tsx:644-649 | the corrected button leaves only the unread items |
| Notifications.NotificationCenter.ResetFilters | discovery/app/notifications/page.tsx:616-621 | after the reset every item is visible |
| DeliverablesPage.StatusValue | discovery/app/deliverables/page.tsx:32 | no status is spelled "all", so the status filter never confuses one with "all" |
| DeliverablesPage.DeliverablesList | discovery/app/deliverables/page.tsx:403 | the fetched list when it is an array, else empty |
| DeliverablesPage.Filtered | discovery/app/deliverables/page.tsx:405-417 | exactly the rows matching the search (name, or project when present), the project and the status, in order |
| DeliverablesPage.DefaultFiltersKeepAll | discovery/app/deliverables/page.tsx:405-417 | empty search and both selectors on "all" show every row |
| DeliverablesPage.StatusFilterSelects | discovery/app/deliverables/page.tsx:413-414 | picking a status shows only rows stored with it |
| DeliverablesPage.CountWithStatus | discovery/app/deliverables/page.tsx:421-424 | a counter never exceeds the total |
| DeliverablesPage.StatusCountsSum | discovery/app/deliverables/page.tsx:420-424 | the four status counters together count exactly the rows with one of the four declared statuses: the total when every status is known, a NULL or other status counted nowhere |
| DeliverablesPage.RowActionFor | discovery/app/deliverables/page.tsx:230-246 | upload exactly for pending and upcoming rows, download exactly for received and late rows, no button exactly for any other stored status |
| DeliverablesPage.UploadMenuEntryAsWritten | discovery/app/deliverables/page.tsx:272-280 | as written, the menu's upload entry renders only for upcoming rows |
| DeliverablesPage.PendingRowMenuLacksUpload | discovery/app/deliverables/page.tsx:230-280 | a pending row has an upload button but no upload entry in its menu |
| DeliverablesPage.UploadMenuEntry | discovery/app/deliverables/page.tsx:272-280 | the corrected entry renders exactly when the row offers an upload button |
| DeliverablesPage.ProjectOptions | discovery/app/deliverables/page.tsx:386-392 | "Tous les projets" first, then one option per fetched project in order, only when the data is an array |
| ProjectsPage.StatusValue | discovery/app/projects/page.tsx:31 | no status is spelled "all" |
| ProjectsPage.Filtered | discovery/app/projects/page.tsx:349-361 | exactly the projects matching the search (name or description), the sector and the status, in order |
| ProjectsPage.DefaultFiltersKeepAll | discovery/app/projects/page.tsx:349-361 | with the initial filters every project is shown |
| ProjectsPage.CountWithStatus | discovery/app/projects/page.tsx:365-367 | a counter never exceeds the total |
| ProjectsPage.StatusCountsSum | discovery/app/projects/page.tsx:364-367 | the three status counters together count exactly the projects with one of the three declared statuses: the total when every status is known, a NULL or other status counted nowhere |
| ProjectsPage.PendingBadge | discovery/app/projects/page.tsx:210-215 | the pending badge shows exactly when there are pending deliverables, with their number |
| ProjectsPage.PageBody | discovery/app/projects/page.tsx:513-538 | cards exactly when the filter keeps something; otherwise "no projects" when the list is empty and "no results" when it is not |
| ProjectsPage.NoProjectsOffersCreation | discovery/app/projects/page.tsx:526-536 | without projects the page offers to create the first one whatever the filters |
| ProjectsPage.DefaultFiltersShowAllCards | discovery/app/projects/page.tsx:513-523 | with projects and the initial filters every project is a card |
| UsersPage.WithNames | discovery/app/super-admin/users/page.tsx:235-241 | each fetched user keeps its fields and gains the name "first last"; empty until a list arrives |
| UsersPage.NamesJoinFirstAndLast | discovery/app/super-admin/users/page.tsx:239 | the display name is the first name, a space and the last name |
| UsersPage.Filtered | discovery/app/super-admin/users/page.tsx:321-330 | exactly the users matching the search (name or email) and the role, in order |
| UsersPage.SearchFindsFullName | discovery/app/super-admin/users/page.tsx:235-330 | a query found in a user's full name finds that user, whatever the case |
| UsersPage.CountWithRole | discovery/app/super-admin/users/page.tsx:334-336 | a counter never exceeds the total |
| UsersPage.RoleCountsSum | discovery/app/super-admin/users/page.tsx:333-336 | when every role is known, the three counters add up to the total |
| UsersPage.RoleBadge | discovery/app/super-admin/users/page.tsx:90-104 | the badge of each known role; the client badge for any other role |
| UsersPage.AvatarColorAt | discovery/app/super-admin/users/page.tsx:106-130 | the user's own color when set, else one of the five palette colors chosen by row |
| UsersPage.FallbackColorRepeats | discovery/app/super-admin/users/page.tsx:130 | rows five apart get the same fallback color |
| UsersPage.Initial | discovery/app/super-admin/users/page.tsx:131 | the first character of a name, or nothing for an empty name |
| UsersPage.Initials | discovery/app/super-admin/users/page.tsx:131 | up to two letters: the first name's initial then the last name's |
| UsersPage.StatusLabel | discovery/app/super-admin/users/page.tsx:136 | "Inactif" exactly for an inactive user, "Actif" otherwise, including a user without a status |
| MockUsers.Filtered | discovery/app/super-admin/users/users.tsx:56-64 | exactly the sample users matching the search and the role, in order |
| MockUsers.EmptySearchKeepsAll | discovery/app/super-admin/users/users.tsx:53-64 | the initial empty search with "all" keeps every user |
| MockUsers.RoleFilterIsExact | discovery/app/super-admin/users/users.tsx:61 | picking "User" keeps only users whose role is exactly "User" |
| MockUsers.StatusLabel | discovery/app/super-admin/users/users.tsx:177-187 | "Actif" exactly for status "active", "Inactif" otherwise |
| MockUsers.SampleRolesSelectable | discovery/app/super-admin/users/users.tsx:9-102 | every sample role is offered by the selector |
| Sidebar.MenuFor | discovery/components/Sidebar.tsx:41-63 | each of the three roles has its own menu; any other string has none |
| Sidebar.HyphenatedRoleHasNoMenu | discovery/app/super-admin/users/users.tsx:68 | the role "super-admin" that this page passes has no menu |
| Sidebar.MenuShapes | discovery/components/Sidebar.tsx:41-61 | five items for the super admin and four for the others, each menu starting with its own dashboard |
| Sidebar.ItemIds | discovery/components/Sidebar.tsx:41-61 | the ids of a menu, in order |
| Sidebar.RoleSpecificItems | discovery/components/Sidebar.tsx:41-61 | only the super admin gets "users" and only the plain user gets "uploads" |
| Sidebar.ActiveItems | discovery/components/Sidebar.tsx:105-107 | exactly the items whose href is the active route |
| Sidebar.AtMostOneActive | discovery/components/Sidebar.tsx:105-107 | with distinct hrefs at most one item is highlighted |
| Sidebar.MenusHaveDistinctHrefs | discovery/components/Sidebar.tsx:41-61 | no menu has two items leading to the same page |
| Sidebar.UnknownRoutesHighlightNothing | discovery/app/deliverables/page.tsx:436 | "/livrables" and the default "/dashboard" highlight nothing in any menu |
| Sidebar.SidebarState.constructor | discovery/components/Sidebar.tsx:38 | the collapse state starts as given |
| Sidebar.SidebarState.Toggle | discovery/components/Sidebar.tsx:65-67 | toggling flips the collapse state |
| Login.RouteFor | discovery/app/page.tsx:14-25 | "/super-admin" exactly when the email includes "superadmin", "/admin" exactly when it includes "admin" but not "superadmin", "/user" otherwise |
| Login.Submit | discovery/app/page.tsx:14-25 | the route depends on the email alone and is one of the three dashboards |
| Login.SuperAdminEmailContainsAdmin | discovery/app/page.tsx:18-20 | every "superadmin" email also includes "admin", so only the order of the tests sends super admins home |
| Login.UpperCaseAdminIsUser | discovery/app/page.tsx:18-23 | matching is case-sensitive: "ADMIN" goes to "/user" |
| Strings.TrimStart | discovery/lib/db.ts:19 | the suffix left after removing white space, starting with a non-space |
| Strings.TrimEnd | discovery/lib/db.ts:19 | the prefix left after removing white space, ending with a non-space |
| Strings.Trim | discovery/components/CreateUserModal.tsx:52 | `trim` empties a string exactly when it is all white space, and the result neither starts nor ends with white space |
| Strings.TrimIsSlice | discovery/components/CreateUserModal.tsx:52 | the trimmed string is a contiguous slice of the original with only white space cut on either side |
| Strings.Lower | discovery/app/notifications/page.tsx:479 | `toLowerCase` keeps the length and folds each character |
| Strings.ContainsIff | discovery/app/page.tsx:18 | `includes` holds exactly when the text occurs at some index |
| Strings.ContainsEmpty | discovery/app/super-admin/users/users.tsx:58 | every string includes the empty string |
| Seqs.Filter | discovery/app/notifications/page.tsx:477 | `filter` keeps exactly the elements that pass, and never adds any |
| Seqs.FilterIsSubsequence | discovery/app/notifications/page.tsx:477 | `filter` keeps the order of what it keeps |
| Seqs.FilterComplement | discovery/app/notifications/page.tsx:660-691 | the items kept by a test and by its negation add up to the whole list |

## Left out

- I/O is replaced by parameters:
  - file existence and content are `Option<string>`;
  - `fetch`/SWR data is `Option<seq<…>>`;
  - MySQL answers are the `faults` schedule of `Store.Database`;
  - `crypto.randomUUID()`, `Date.now()`, `bcrypt.hash` and `new Date()` are parameters.
- UsersRoute.ListingFailure: the `details: error` field of the 500 body (users/route.ts:19) is not modelled; the driver error is modelled only by its code and message.
- DeliverablesPage.MatchesSearch: takes the deliverable name as a string. A row stored with a NULL name makes `deliverable.name.toLowerCase()` (deliverables/page.tsx:407) throw as soon as a search is typed; that crash is not modelled.
- ProjectsPage.MatchesSearch: likewise takes name and description as strings, so the throw of `toLowerCase()` on a NULL name or description (projects/page.tsx:351-352) is not modelled.
- A request body that parses to something other than an object is modelled only as a body whose fields are all missing; a `null` body counts as one that is not JSON.
- The `try`/`catch` around file reading and every `console` output are not modelled.
- The MySQL pool itself is not modelled: connection reuse, queueing and concurrency. Only its settings are.
- `Store.Database` treats a `SELECT` as read-only and fills column defaults (`status`, `createdAt`) with nothing; the schema is not part of this model.
- Dates are day numbers:
  - `DeliverableForm.FormErrors` takes the parse function `dayOf` and the current time as parameters;
  - a string `new Date` cannot parse (an invalid date, whose comparisons are all false) is not distinguished from a valid one.
- `Strings.Lower` folds ASCII letters only. JavaScript's full Unicode case mapping and UTF-16 lengths are not modelled.
- `Sidebar.MenuFor` returns nothing for an unknown role. In the component, `menuItems.map` would then throw while rendering; the crash is not modelled.
- `UsersPage.RoleBadge` treats every unknown role as a client. A role naming an `Object.prototype` property (such as "constructor") would find a non-badge value in the component; this is not modelled.
- React rendering is modelled only where a page decides what appears: empty states, badges, menu entries, row actions. The following are left out:
  - layout, icons, modals opening and closing;
  - click-outside handlers, scrolling, `router.push` navigation.
- Percentages and other floating-point values shown on the dashboards are left out.
- The dashboards (`super-admin`, `admin`, `user`), `Header`, `ProjectCard` and the `[id]` routes are not part of this model.
- Notifications.Notification: omits five fields of the page's interface (notifications/page.tsx:30-43), none of which a list handler, filter or counter reads:
  - `time` (a required string), which the card shows next to the date;
  - `actionRequired` (a required boolean), which decides whether the card shows "Action requise" and its action button (lines 284 and 293);
  - the optional `projectId`, `userId` and `deliverableId`.
  The card rendering, and `handleNotificationAction`, which only logs, are left out.
- Js.JsonField: a field of a request body is modelled only as missing (`undefined`), `null` or a string, and so are the fields of `UsersRoute.NewUserBody` and the other body types. A JSON number, boolean, array or object in a field is not modelled. For instance, a numeric `password` makes `bcrypt.hash` throw (users/route.ts:33), and the `catch` answers 500.
- The status of a deliverable or project is taken as stored. No code in these files derives it from dates.
- DeliverablesPage.Deliverable: the status is the stored column (NULL or any string), but the status badge is not modelled. `StatusBadge` (deliverables/page.tsx:113-116) throws when the status is not one of the four declared ones; that crash is not modelled.
- ProjectsPage.Project: likewise, the card's status lookup (projects/page.tsx:115) throws for a status outside the three declared ones; that crash is not modelled.
- `ProjectForm.Dropdown`: the participant picker's open and close state is a parameter, not a field of the modal class.

## Findings

| source | as written | input that shows it | evidently intended | confidence | as-written member | corrected member |
|---|---|---|---|---|---|---|
| discovery/lib/db.ts:40-56 | the pool is created without a `port`, so it always connects to 3306, while the configuration log reports `MYSQL_PORT \|\| 3306` | `MYSQL_PORT=3307`: the log says 3307, the pool uses 3306 | the pool connects to the port it logs | not executed | EnvFile.LoggedPortNotUsed | EnvFile.PoolConfigWithPort |
| discovery/app/deliverables/page.tsx:272-280 | `status === 'pending' \|\| status === 'upcoming' && <button/>` parses as `pending \|\| (upcoming && button)`, so a pending row's menu renders `true` (nothing) | a row with status 'pending': upload button in the row, no "Uploader fichier" in its menu | `(pending \|\| upcoming) && <button/>`, as the row button at lines 230-237 does | not executed | DeliverablesPage.UploadMenuEntryAsWritten | DeliverablesPage.UploadMenuEntry |
| discovery/app/notifications/page.tsx:644-649 | the "Supprimer les lues" (delete the read ones) button keeps `notifications.filter(n => n.read)`, deleting the unread items instead | one unread and one read notification: only the read one remains | keep `notifications.filter(n => !n.read)` | not executed | Notifications.DeleteReadAsWrittenDropsUnread | Notifications.WithoutRead |
