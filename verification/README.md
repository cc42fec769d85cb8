# Clínica Harumi — a Dafny model of the front-end rules

Clínica Harumi is a React front end for a psychology and nutrition clinic.
Screens rent rooms by the hour, let patients book appointments, let
administrators block schedules, and manage professionals, patients,
service types ("tipos de agenda") and a ledger. Reports export tables as CSV.
Every screen keeps its rules inside event handlers and render expressions.
This project lifts those rules out as pure functions over immutable
datatypes and proves what they guarantee.

The code has no availability or conflict engine:

- Patient booking inserts without any check.
- The room grid's occupied slots are hard-coded.
- Schedule blocks are stored and listed, but no booking path reads them.

The model states these facts as they are: booking and confirming carry no
availability condition.

Modules follow the source files:

| module | file | what it holds |
|---|---|---|
| `Constants` | `constants.ts` | the hourly grid, the room and staff catalogs, the mock appointment spans |
| `RoomScheduler` | `components/RoomScheduler.tsx` | slot toggling, the occupied positions, confirming, as a state machine |
| `PatientBooking` | `components/PatientBooking.tsx` | the two-step wizard and its insert payload |
| `ScheduleBlocker` | `components/ScheduleBlocker.tsx` | the block guard and payload, target names with fallbacks, the time label |
| `ProfessionalManager` | `components/ProfessionalManager.tsx` | in-memory staff edit/create/delete and search |
| `PatientManager` | `components/PatientManager.tsx` | the record ↔ form mapping, the payload, the search |
| `AgendaTypeManager` | `components/AgendaTypeManager.tsx` | the service-type prefill and payload |
| `FinancialManager` | `components/FinancialManager.tsx` | income/expense/balance, new rows, pay, delete |
| `Reports` | `components/Reports.tsx` | the CSV text and the file name |
| `AuthContext` | `contexts/AuthContext.tsx` | the profile fallbacks and the session state |
| `Sidebar` | `components/Sidebar.tsx` | the menu of a role and the active entry |
| `App` | `App.tsx` | login, logout and the view router |

Four helper modules support them:

- `Optional`: the `Option` type.
- `Seqs`: `filter` and `find`.
- `Text`: `toLowerCase`, `includes`, `split`, `join`, and the `||` fallback of strings.
- `Types`: the records of `types.ts`.

Things the model receives as parameters:

- database results (a row or `None`; "the insert succeeds" as a boolean);
- the answer to `confirm()`;
- the current time (an ISO timestamp string);
- new ids;
- `parseFloat`, `Number.prototype.toString` and `encodeURIComponent` (functions).

Database writes are returned as values (`Write`, `NewAppointment`,
`NewBlock`, `NewTransaction`). The list a screen shows after a write is
modelled in these places:

- `ProfessionalManager` keeps its list in memory and changes it directly.
- `PatientManager.AfterSubmit` takes the rows of the refetch as a parameter.
- `FinancialManager.Pay`, `FinancialManager.Delete`, `PatientManager.Delete` and `ScheduleBlocker.DeleteBlock` take whether the write succeeds. On success they apply its effect to the listed rows, which is what the refetch shows. On failure they keep the rows, since the code ignores the returned error and the refetch shows the table unchanged.

After `FinancialManager.HandleAdd`, `ScheduleBlocker.SubmitBlock` and the
service-type writes, the refetched list is not modelled.

Facts of the code that shape the model:

- The grid is hourly (12 slots, 08:00–19:00), although `AgendaTypeManager` labels every service "30 min".
- The booking wizard offers every grid time, with no availability filtering.
- Schedule blocks are not consulted by any booking.

Behaviour modelled as written:

- A block with a start time but no end time is listed as `" • 09:00 - null"` (`ScheduleBlocker.OpenEndedBlockShowsNull`).
- CSV values are wrapped in quotes without escaping (`Reports.Quote`, `Reports.CommaInValueBreaksLine`).
- Saving a service type always rewrites its duration to one slot (`AgendaTypeManager.UneditedSaveResetsDuration`).
- An empty stored marital status comes back as the default (`PatientManager.EmptyMaritalStatusBecomesDefault`).
- The router itself checks no role (`App.RouterChecksNoRole`). Only the menu limits which views a role can select, and it does: after any logins, logouts and menu clicks, a signed-in patient is never on the settings view (`App.PatientNeverReachesSettings`).

## Model

| member | source | states |
|---|---|---|
| `Constants.TimeSlotsAreHourLabels` | constants.ts:114-117 | the grid has 12 entries; entry i is the label of hour 8 + i, from "08:00" to "19:00" |
| `Constants.TimeSlotsHourly` | constants.ts:114-117 | every entry has the form HH:00 and parses to its hour; consecutive entries are exactly one hour apart |
| `Constants.TimeSlotsDistinct` | constants.ts:114-117 | no start time appears twice in the grid |
| `Constants.OccupiedSlotLabels` | constants.ts:114-117 | the positions the room grid disables, 2 and 5, hold "10:00" and "13:00" |
| `Constants.RoomIdsDistinct` | constants.ts:12-34 | there are three rooms and their ids are pairwise distinct |
| `Constants.ProfessionalRoster` | constants.ts:86-112 | staff ids are pairwise distinct; the roster opens with the founder, who is an administrator |
| `Constants.MockAppointmentsLastOneHour` | constants.ts:36-65 | each mock appointment starts and ends on the same date, on the hour, one hour apart |
| `RoomScheduler.Initial` | components/RoomScheduler.tsx:7-9 | the screen opens with no room and no slot chosen, dated by the part of the timestamp before its first 'T' |
| `RoomScheduler.InitialDate` | components/RoomScheduler.tsx:7 | opened at `day` + "T" + `time`, the screen is dated `day` |
| `RoomScheduler.ToggleSlot` | components/RoomScheduler.tsx:12-18 | an unselected time is appended after the earlier selection; a selected one disappears and every other time keeps its membership |
| `RoomScheduler.ToggleRemovesInPlace` | components/RoomScheduler.tsx:13-14 | removing a selected time leaves the other times in their click order |
| `RoomScheduler.ToggleTwiceRestores` | components/RoomScheduler.tsx:12-18 | toggling an unselected time twice restores the selection |
| `RoomScheduler.ToggleKeepsDistinct` | components/RoomScheduler.tsx:13-16 | toggling keeps a duplicate-free selection duplicate-free |
| `RoomScheduler.Step` | components/RoomScheduler.tsx:20-121 | a click on a free grid position, with a room chosen, toggles that position's time and changes nothing else; any other click changes nothing; each action keeps the selection made of distinct free grid times; only a date pick changes the date |
| `RoomScheduler.Run` | components/RoomScheduler.tsx:93-102 | any sequence of actions keeps the selection made of distinct free grid times |
| `RoomScheduler.OccupiedNeverSelected` | components/RoomScheduler.tsx:95-102 | from the opening state, whatever the user does, "10:00" and "13:00" are never selected |
| `RoomScheduler.OccupiedClickIgnored` | components/RoomScheduler.tsx:101-102 | a click on an occupied position changes nothing |
| `RoomScheduler.PickRoomKeepsSlots` | components/RoomScheduler.tsx:49 | choosing a room, even a different one, keeps the slot selection |
| `RoomScheduler.ConfirmClears` | components/RoomScheduler.tsx:20-24 | confirming clears the selection and the room and keeps the date |
| `RoomScheduler.ConfirmDisabledWhenEmpty` | components/RoomScheduler.tsx:120 | Confirm does nothing while no slot is selected |
| `PatientBooking.LoadProfessionals` | components/PatientBooking.tsx:33-40 | every fetched profile becomes a user with role PROFESSIONAL and its own id, name, email, specialty and avatar; a failed query gives no professionals |
| `PatientBooking.PickProfessional` | components/PatientBooking.tsx:126-128 | choosing a card records the professional and moves to step 2 |
| `PatientBooking.Back` | components/PatientBooking.tsx:186 | "Voltar" returns to step 1 and clears nothing |
| `PatientBooking.PickDate` | components/PatientBooking.tsx:159 | the date input sets the date and keeps the other choices |
| `PatientBooking.OfferedTimes` | components/PatientBooking.tsx:163-167 | once a date is chosen the offered times are exactly the grid; before that, none |
| `PatientBooking.PickTime` | components/PatientBooking.tsx:167-170 | clicking a time button selects that grid time |
| `PatientBooking.Confirm` | components/PatientBooking.tsx:50-66 | nothing is inserted unless user, professional, date and time are set; the row carries the patient id, the choices and status scheduled, with no service type; success is set exactly when the insert succeeds |
| `PatientBooking.StartOver` | components/PatientBooking.tsx:84-90 | "Novo Agendamento" returns to step 1 with professional, date and time cleared |
| `PatientBooking.BackKeepsChoices` | components/PatientBooking.tsx:186 | going back and picking another professional keeps the chosen date and time |
| `PatientBooking.StartOverDisarmsConfirm` | components/PatientBooking.tsx:84-90 | after starting over, Confirm inserts nothing |
| `PatientBooking.WizardBooksChoice` | components/PatientBooking.tsx:55-63 | a full pass through the wizard inserts exactly the chosen professional, date and grid time |
| `ScheduleBlocker.NullIfEmpty` | components/ScheduleBlocker.tsx:43-44 | an empty time is stored as null, a non-empty one unchanged |
| `ScheduleBlocker.NullIfEmptyRoundTrip` | components/ScheduleBlocker.tsx:43-44 | reading a stored time back as an input gives the original input |
| `ScheduleBlocker.SetTargetType` | components/ScheduleBlocker.tsx:88-92 | switching the target type changes only the type, keeping the chosen target |
| `ScheduleBlocker.SubmitBlock` | components/ScheduleBlocker.tsx:34-49 | no block without target and date; the row copies the form with empty times as null; after a successful insert only the reason is cleared |
| `ScheduleBlocker.EmptyFormSendsNothing` | components/ScheduleBlocker.tsx:13-18 | the form as first shown, with no target and no date, sends no block |
| `ScheduleBlocker.LookupName` | components/ScheduleBlocker.tsx:64-66 | the name of the first entry with the id, or the fallback when none has it or its name is empty |
| `ScheduleBlocker.TargetName` | components/ScheduleBlocker.tsx:62-68 | a room block shows the name of the first catalog room with its id, a professional block that of the first fetched profile with its id; an empty name or no match shows the kind's own fallback |
| `ScheduleBlocker.KnownProfessionalResolves` | components/ScheduleBlocker.tsx:65-66 | a professional block whose id is in the fetched list shows the first such profile's name, or the fallback when that name is empty |
| `ScheduleBlocker.RoomTargetResolves` | components/ScheduleBlocker.tsx:63-64 | a room block shows a room name exactly when its id is r1, r2 or r3 |
| `ScheduleBlocker.UnknownProfessionalFallback` | components/ScheduleBlocker.tsx:65-66 | a professional id found in no profile shows "Profissional Desconhecido" |
| `ScheduleBlocker.TimeLabel` | components/ScheduleBlocker.tsx:151 | a block without start time reads " • Dia todo"; with a start and an end it reads " • start - end"; the dash appears exactly for ranged blocks |
| `ScheduleBlocker.OpenEndedBlockShowsNull` | components/ScheduleBlocker.tsx:151 | a block with a start time but no end time reads " • start - null" |
| `ScheduleBlocker.DeleteBlock` | components/ScheduleBlocker.tsx:56-60 | a confirmed, successful delete removes the blocks with the id and keeps all others; an unconfirmed or failed one leaves the list as it was |
| `ProfessionalManager.OpenModal` | components/ProfessionalManager.tsx:20-39 | editing prefills from the user (missing specialty as ""); a new user starts with empty fields and role PROFESSIONAL |
| `ProfessionalManager.CloseModal` | components/ProfessionalManager.tsx:41-44 | closing the modal forgets the edited user |
| `ProfessionalManager.ApplyEdit` | components/ProfessionalManager.tsx:51 | users with the edited id get the form's name, email, specialty and role and keep id and avatar; the others and the length are unchanged |
| `ProfessionalManager.Submit` | components/ProfessionalManager.tsx:46-65 | editing applies the edit; creating appends exactly one user with the form's fields, the given id and the avatar URL after all others; the modal then closes |
| `ProfessionalManager.Delete` | components/ProfessionalManager.tsx:67-71 | a confirmed delete removes the users with the id and keeps every other user |
| `ProfessionalManager.DeleteKeepsOrder` | components/ProfessionalManager.tsx:69 | deleting from two consecutive parts of the list deletes from each and keeps them in order |
| `ProfessionalManager.DeleteUnique` | components/ProfessionalManager.tsx:67-71 | deleting the id of a user no other shares removes exactly that user and keeps the rest in order |
| `ProfessionalManager.DeleteKeepsOthers` | components/ProfessionalManager.tsx:69 | deletion keeps every other user as many times as it was listed |
| `ProfessionalManager.CreateThenDelete` | components/ProfessionalManager.tsx:54-69 | creating a user with a fresh id and deleting it gives back the original list in order |
| `ProfessionalManager.ApplyEditIdempotent` | components/ProfessionalManager.tsx:51 | applying the same edit twice is applying it once |
| `ProfessionalManager.FilteredUsers` | components/ProfessionalManager.tsx:73-76 | a user is listed iff the lower-cased name or specialty includes the lower-cased term |
| `ProfessionalManager.SearchKeepsOrder` | components/ProfessionalManager.tsx:73-76 | searching two consecutive parts of the list searches each and keeps them in order |
| `ProfessionalManager.SearchKeepsCopies` | components/ProfessionalManager.tsx:73-76 | a matching user is listed as often as the list holds it, a non-matching one never |
| `ProfessionalManager.EmptySearchListsAll` | components/ProfessionalManager.tsx:73-76 | an empty term lists every user in order |
| `ProfessionalManager.SearchIgnoresCase` | components/ProfessionalManager.tsx:73-76 | searching a term and its lower-cased form list the same users |
| `PatientManager.Prefill` | components/PatientManager.tsx:49-61 | absent fields prefill as ""; marital status and education level fall back to "Solteiro(a)" and "Ensino Médio Completo" |
| `PatientManager.OpenModal` | components/PatientManager.tsx:46-67 | a new patient starts from the initial form; editing records the id and prefills |
| `PatientManager.Payload` | components/PatientManager.tsx:71-83 | every field goes to the same column except cellphone to phone; an empty birth date is sent as null |
| `PatientManager.SubmitWrite` | components/PatientManager.tsx:85-90 | an edit with a truthy id updates that row, otherwise a row is inserted, with the form's payload |
| `PatientManager.AfterSubmit` | components/PatientManager.tsx:33-95 | when the write does not raise, the modal closes and the list becomes the refetched rows (kept if the refetch fails); when it raises, the modal stays open and the list is kept |
| `PatientManager.Delete` | components/PatientManager.tsx:98-106 | a confirmed, successful delete removes the patients with the id and keeps all others; an unconfirmed or failed one leaves the list as it was |
| `PatientManager.PrefillPayloadRoundTrip` | components/PatientManager.tsx:49-83 | for a patient with every field present and non-empty birth date, marital status and education level, saving the prefilled form writes back the stored columns |
| `PatientManager.EmptyMaritalStatusBecomesDefault` | components/PatientManager.tsx:57-79 | an empty stored marital status is saved back as "Solteiro(a)" |
| `PatientManager.FilteredPatients` | components/PatientManager.tsx:108-111 | a patient is listed iff the lower-cased name includes the lower-cased term or the CPF includes the raw term |
| `PatientManager.SearchKeepsOrder` | components/PatientManager.tsx:108-111 | searching two consecutive parts of the list searches each and keeps them in order |
| `PatientManager.SearchKeepsCopies` | components/PatientManager.tsx:108-111 | a matching patient is listed as often as the list holds it, a non-matching one never |
| `PatientManager.EmptySearchListsAll` | components/PatientManager.tsx:108-111 | an empty term lists every patient in order |
| `PatientManager.SearchFindsOwnCpf` | components/PatientManager.tsx:108-111 | searching a patient's CPF lists that patient |
| `AgendaTypeManager.OpenModal` | components/AgendaTypeManager.tsx:35-52 | a new type starts with empty name and price and colour #B5DAD7; editing prefills name and colour unchanged and the price as its text |
| `AgendaTypeManager.Payload` | components/AgendaTypeManager.tsx:57-62 | name and colour are copied, an empty price is 0, any other is parsed, and the duration is always one slot |
| `AgendaTypeManager.SubmitWrite` | components/AgendaTypeManager.tsx:54-70 | an edit with a truthy id updates that row, otherwise a row is inserted |
| `AgendaTypeManager.UneditedSaveKeepsType` | components/AgendaTypeManager.tsx:37-62 | saving an unedited prefilled form keeps name, colour and (when the text parses back) price, with duration one |
| `AgendaTypeManager.UneditedSaveResetsDuration` | components/AgendaTypeManager.tsx:60 | a stored duration other than one slot is not preserved by saving |
| `AgendaTypeManager.BlankSaveInsertsFreeService` | components/AgendaTypeManager.tsx:45-62 | saving the untouched new-type form inserts price 0 with the default colour |
| `AgendaTypeManager.DeleteRequest` | components/AgendaTypeManager.tsx:77-80 | a row is deleted exactly when the dialog is confirmed, and it is the chosen one |
| `FinancialManager.Totals` | components/FinancialManager.tsx:75-77 | the one-pass totals equal the sums of the INCOME and EXPENSE transactions, and the balance is their difference |
| `FinancialManager.TotalAppend` | components/FinancialManager.tsx:75-76 | the total of a kind adds up over concatenated lists |
| `FinancialManager.InsertRaisesTotal` | components/FinancialManager.tsx:75-77 | a transaction listed anywhere raises its kind's total by its amount and leaves the other total unchanged |
| `FinancialManager.BlankForm` | components/FinancialManager.tsx:10-16 | the blank form is an expense with empty text fields, due on the part of the timestamp before its first 'T' |
| `FinancialManager.BlankFormDueToday` | components/FinancialManager.tsx:15 | at `day` + "T" + `time`, the blank form is due on `day` |
| `FinancialManager.HandleAdd` | components/FinancialManager.tsx:39-57 | the row starts PENDING with the form's fields; a successful insert hides and resets the form, a failed one keeps both |
| `FinancialManager.Pay` | components/FinancialManager.tsx:60-65 | after a successful update the transactions with the id are PAID and nothing else changes; after a failed one, whose error is ignored, nothing changes |
| `FinancialManager.PayWithdrawsOffer` | components/FinancialManager.tsx:175 | after paying, the pay action is no longer offered for that id |
| `FinancialManager.PayKeepsTotals` | components/FinancialManager.tsx:60-77 | paying, whether the update succeeds or not, changes neither total |
| `FinancialManager.Delete` | components/FinancialManager.tsx:67-73 | a confirmed, successful delete removes the transactions with the id and keeps all others; an unconfirmed or failed one changes nothing |
| `FinancialManager.DeleteLowersTotal` | components/FinancialManager.tsx:67-77 | deleting the only transaction with an id lowers its kind's total by its amount |
| `FinancialManager.DeleteUnique` | components/FinancialManager.tsx:67-73 | deleting the id of a transaction no other shares removes exactly that transaction and keeps the order of the rest |
| `Reports.Quote` | components/Reports.tsx:17 | a value is wrapped in double quotes with its text unchanged inside |
| `Reports.QuotedValues` | components/Reports.tsx:17 | one field per column: the column's value wrapped in double quotes, which unquotes to the value |
| `Reports.CsvContent` | components/Reports.tsx:11-18 | an empty table gives no CSV; otherwise the text starts with the data-URI prefix |
| `Reports.CsvLines` | components/Reports.tsx:16-18 | without newlines in the data, the text after the prefix splits into the header line and one line per row, rows + 1 lines in all |
| `Reports.LineRoundTrip` | components/Reports.tsx:17 | a line of comma-free values splits at commas into the quoted values, which unquote to the row |
| `Reports.CommaInValueBreaksLine` | components/Reports.tsx:17 | with no escaping, a comma inside a value makes a comma split of the line differ from the quoted values |
| `Reports.Filename` | components/Reports.tsx:23 | the download name starts with `<name>_` and ends with `.csv` |
| `Reports.FilenameDate` | components/Reports.tsx:23 | the date in the name is the calendar day of the timestamp |
| `AuthContext.EmailPrefix` | contexts/AuthContext.tsx:49 | the fallback name is the longest '@'-free prefix of the email |
| `AuthContext.EmailPrefixOfAddress` | contexts/AuthContext.tsx:49 | the prefix of `local@domain` is `local` |
| `AuthContext.FetchProfile` | contexts/AuthContext.tsx:24-53 | the email always comes from the session; with a row, its id, its name or else the email prefix, its role or else PATIENT; without one, a patient named after the email prefix |
| `AuthContext.NewAccountIsPatient` | contexts/AuthContext.tsx:46-52 | an account without profile signs in as a patient named after the local part of the address |
| `AuthContext.HandleSession` | contexts/AuthContext.tsx:59-72 | a mounted provider stops loading and holds the profile fetched for the session's id and email, or no user without a session; an unmounted one ignores the event |
| `AuthContext.FirstSignInWithoutProfile` | contexts/AuthContext.tsx:24-72 | the first session event for an account without a profile row ends loading with a patient named after the local part of the address |
| `AuthContext.LoadingTimeout` | contexts/AuthContext.tsx:85-90 | the guard ends loading of a mounted provider and keeps the user |
| `AuthContext.SignOut` | contexts/AuthContext.tsx:99-102 | signing out clears the user at once |
| `AuthContext.RefreshUser` | contexts/AuthContext.tsx:117-122 | when the user has an id and an email the user becomes the profile re-read for them; otherwise nothing changes |
| `AuthContext.RefreshIdempotent` | contexts/AuthContext.tsx:117-122 | two refreshes against the same row equal one |
| `AuthContext.RefreshAfterSignOut` | contexts/AuthContext.tsx:102-122 | after signing out a refresh does nothing |
| `Sidebar.MenuItems` | components/Sidebar.tsx:13-23 | every role gets dashboard, schedule, rooms in that order; ADMIN also gets patients, professionals, settings, for 6 entries against 3 |
| `Sidebar.MenuIdsDistinct` | components/Sidebar.tsx:13-23 | the ids of a role's menu are pairwise distinct |
| `Sidebar.AtMostOneActive` | components/Sidebar.tsx:38 | at most one entry is highlighted for any view |
| `Sidebar.ClickTarget` | components/Sidebar.tsx:42 | clicking an entry asks for the view that highlights it |
| `Sidebar.ClickHighlightsOnlyThatItem` | components/Sidebar.tsx:38-42 | after clicking an entry, that entry and no other is highlighted |
| `App.Login` | App.tsx:18-21 | login records the role, unlocks the shell and keeps the view |
| `App.Logout` | App.tsx:23-27 | logout locks the shell, forgets the role and returns to the dashboard view |
| `App.ChangeView` | App.tsx:63 | the menu sets the view and nothing else |
| `App.Route` | App.tsx:34-56 | the six named views go to the dashboard, room scheduler, patient agenda, professional manager, patients placeholder and settings screens; any other view shows the dashboard; the router never shows the login screen |
| `App.RouteDistinguishesViews` | App.tsx:34-56 | no two named views share a screen, and of the named views only "dashboard" shows the dashboard |
| `App.Render` | App.tsx:29-56 | while locked only the login screen shows, whatever the view; otherwise the routed screen |
| `App.SidebarRole` | App.tsx:64 | a missing role builds the ADMIN menu |
| `App.RoleTitle` | App.tsx:74 | the top bar says "Administradora" exactly for ADMIN |
| `App.RenderIgnoresRole` | App.tsx:34-56 | two states differing only in role show the same screen |
| `App.MenuViewsAreRouted` | App.tsx:34-56 | every menu entry of every role names a view the router knows |
| `App.LogoutThenLoginShowsDashboard` | App.tsx:18-37 | logging out and back in shows the dashboard |
| `App.RouterChecksNoRole` | App.tsx:34-56 | the router checks no role: a patient state on the settings view shows the settings screen, though the patient menu lacks that entry |
| `App.Handle` | App.tsx:18-66 | logging in works only on the login screen, logging out and menu clicks only while signed in; a menu click sets the view to the clicked entry's id |
| `App.HandleKeepsInvariant` | App.tsx:18-66 | each event keeps the shell locked on the dashboard view or signed in on a view its role's menu offers |
| `App.ShellKeepsViewOnMenu` | App.tsx:14-66 | any sequence of events keeps that invariant |
| `App.PatientNeverReachesSettings` | App.tsx:14-66 | from the opening state, a signed-in patient never sees the settings screen |

## Left out

- Database access, `async`/`await`, `useEffect` fetches, loading spinners and error alerts. Query results and write outcomes are parameters where the model uses them. The refetches after `FinancialManager.HandleAdd`, `ScheduleBlocker.SubmitBlock`, and the service-type writes are not modelled, because their result is simply the table's new content.
- The browser's form checks run before any handler and are not modelled, so the members below accept inputs the browser never submits:
- `ScheduleBlocker.SubmitBlock`: the `required` target, date and reason inputs (components/ScheduleBlocker.tsx:100, 111, 127); an empty reason is accepted.
- `ProfessionalManager.Submit`: the `required` name and email inputs (components/ProfessionalManager.tsx:178, 193).
- `FinancialManager.HandleAdd`: the `required` description, amount and due date inputs (components/FinancialManager.tsx:125, 129, 140).
- `PatientManager.SubmitWrite`: the `required` name input (components/PatientManager.tsx:211).
- `PatientBooking.PickDate`: the `min={today}` bound of the date input (components/PatientBooking.tsx:158); a past date is accepted.
- Clocks and random ids. `new Date()`, `Date.now()` and `toISOString` become parameters (an ISO string, a new id).
- Floating point. Amounts and prices are exact reals. `parseFloat`, `toString` and `toFixed` are opaque function parameters. The one interpreted case is the empty price, which is saved as 0. A `NaN` from `parseFloat` is not modelled.
- The browser download in `Reports` (`encodeURI`, the anchor element, the click). So are `localStorage.clear`, the page reload after a failed sign-out, the auth subscription and the timer.
- `toLocaleDateString('pt-BR')` in the block and ledger lists.
- Lower-casing outside Basic Latin and Latin-1. `Text.Lower` maps only A–Z and À–Þ (except ×).
- `components/Dashboard.tsx`, `components/Login.tsx`, `components/Settings.tsx` and `components/PatientAgenda.tsx`. They are static markup, a simulated login that ignores its credentials, an unsaved toggle, and labels over mock data. `App.Handle` lets any role log in, although the login screen offers only the ADMIN and PROFESSIONAL buttons; this is more general than the program.
- `MOCK_BOOKINGS` (constants.ts:67-84) and the camelCase fields of the mock appointments other than their ids and start/end timestamps. These shapes do not match the records the screens use.
- Null versus empty strings in profile rows. A null and an empty `name` are one value, since `||` treats them alike. A row role outside the three known roles cannot be represented.
- The avatar field. `types.ts` names it `avatar_url`, while `constants.ts` and `components/ProfessionalManager.tsx` write `avatarUrl`. The model has one avatar field for both spellings.
- `RoomScheduler.Step`: a click on the grid before a room is chosen is a no-op. The grid is not rendered then, so the source has no such event at all.
- `PatientBooking.Confirm`: the `bookingLoading` flag that disables the button during a write is not modelled. Writes are instantaneous here.
- The wizard buttons that are not on screen (step 1 cards during step 2, and so on) are preconditions of `PatientBooking.PickProfessional`, `PatientBooking.Back`, `PatientBooking.PickDate` and `PatientBooking.PickTime`.
