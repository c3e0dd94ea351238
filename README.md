# LifeLink client core in Dafny

LifeLink is a blood-donation web application with three kinds of account: donors,
administrators and hospitals. It has no server. The roster of accounts lives in the
browser's storage, and everything else is held in component state. This project models
the parts of the client that decide things:

- **Sign-in screen** (`auth_screen.dfy`, module `AuthScreen`):
  - log-in by e-mail, accepting either the account's password or the demo master password "1234";
  - donor registration, which refuses an e-mail already on the roster;
  - the quick demo log-in by role;
  - the screen's state: mode, loading flag, error text and form. Its handlers return the `onLogin`/`onRegister` calls they make, in order.
- **Application shell** (`app.dfy`, module `App`):
  - the seed roster and the load-or-seed start-up;
  - the landing view per role, the menu per role and the content shown for a view and role;
  - the shell's state as a class: roster and saved copy, signed-in account, view, assistant transcript, chat input and typing flag. Its handlers cover log-in, registration, log-out, navigation, the back button and chat submission.
- **Hospital donor search** (`hospital_dashboard.dfy`): donors filtered by exact blood type and by a case-insensitive location substring.
- **Administrator overview** (`admin_dashboard.dfy`): account and donor counts, and donation and lives-saved totals over donors only.
- **Specialist directory** (`doctor_appointments.dfy`): the specialty list, the search and specialty filter, and the booking marker.
- **Floating assistant widget** (`floating_chat.dfy`): open/close, a welcome message shown once, and a transcript whose questions and replies alternate. This is kept as a class invariant.
- **Shared pieces**:
  - `types.dfy`: the records;
  - `roster.dfy`: the donor selection;
  - `seqs.dfy`: `filter`, `find`, `reduce` and `Set`-based de-duplication on sequences;
  - `text.dfy`: ASCII `toLowerCase`, `trim`, `includes` and `split(' ')[0]`.

The `await` on the assistant's reply, in the shell and in the floating widget, is two
steps: a submit method up to the pause and a receive method after it, with a composed
method doing both. The sign-in form's `await` on its simulated delay is one step inside
`AuthScreen.AuthForm.HandleSubmit`, since nothing else can happen to the form while it
waits. Ids and timestamps (`Date.now()`, `new Date()`) are parameters, and so is the
assistant's reply text.

Where the design description and the code differ, the model follows the code:

- An administrator lands on the ordinary dashboard view. The administrator's overview is what `renderContent` shows there, and there is no separate overview view (App.tsx:99-105, 213-216).
- Navigation is not restricted by role. Any view can be selected, and a view the role has no content for renders nothing (App.tsx:164-169, 207-234).
- There is no appointments view. The donor menu is dashboard, centre finder, assistant and profile (App.tsx:197-203).
- Log-out clears the account and the transcript but leaves the current view as it was (App.tsx:131-134).
- A reply that arrives after log-out is still appended, and log-out does not clear the typing flag. In the model, `AppShell.ReceiveReply` requires only a pending reply.

## Model

| member | source | states |
|---|---|---|
| Text.Lower | components/AuthScreen.tsx:52 | lowercasing keeps the length and maps every character through the ASCII lower-case map |
| Text.LowerIdempotent | components/AuthScreen.tsx:52 | lowercasing twice is lowercasing once |
| Text.Trim | components/AuthScreen.tsx:52-53 | the trimmed string is the infix of the input left after removing whitespace from both ends: everything before and after it is whitespace, it neither starts nor ends with whitespace, and it is empty exactly when the input is all whitespace |
| Text.TrimIdempotent | components/AuthScreen.tsx:52-53 | trimming twice is trimming once |
| Text.LowerOfTrimmedLower | components/AuthScreen.tsx:52-56 | a normalised e-mail is unchanged by the lowercasing applied to stored e-mails |
| Text.ContainsIffOccurs | components/HospitalDashboard.tsx:19 | `includes` holds exactly when the term occurs at some position |
| Text.FirstWord | App.tsx:114 | the first word is a prefix without spaces, ending at the first space or at the end |
| Seqs.Filter | components/HospitalDashboard.tsx:15 | a filter result is no longer than its input and holds exactly the input's elements that pass |
| Seqs.FilterIsSubsequence | components/HospitalDashboard.tsx:17 | a filter result keeps its input's order |
| Seqs.FilterFilter | components/HospitalDashboard.tsx:15-22 | two successive filters equal one filter by the conjunction |
| Seqs.FindFirst | components/AuthScreen.tsx:31 | `find` returns the first passing position, and none exactly when nothing passes |
| Seqs.SumOf | components/AdminDashboard.tsx:13-14 | the `reduce` sum is at least each of its terms |
| Seqs.SumOfAppend | components/AdminDashboard.tsx:13-14 | a sum over a concatenation is the sum of the two sums |
| Seqs.Distinct | components/DoctorAppointments.tsx:16 | de-duplication keeps exactly the input's elements, each once |
| Seqs.DistinctFirstOccurrenceOrder | components/DoctorAppointments.tsx:16 | de-duplication lists elements in order of first occurrence |
| Roster.Donors | components/AdminDashboard.tsx:12 | the donor list holds exactly the roster's donors |
| Roster.DonorsAppend | App.tsx:127-129 | appending an account extends the donor list by that account exactly when it is a donor |
| AuthScreen.Message | components/AuthScreen.tsx:40-75 | every error message is non-empty, so an error is always shown, and the missing-role message starts "No " |
| AuthScreen.LowerRoleName | components/AuthScreen.tsx:40 | the missing-role message names the role in lower case |
| AuthScreen.FindByEmail | components/AuthScreen.tsx:56-73 | the lookup finds an account exactly when the e-mail is taken, and it finds the first match |
| AuthScreen.Login | components/AuthScreen.tsx:52-70 | "account not found" exactly when no stored e-mail matches; otherwise the found account if its own or the master password is given, else "incorrect password" |
| AuthScreen.LoginUsesFirstMatch | components/AuthScreen.tsx:56-70 | log-in decides on the first matching account and succeeds with it exactly when the password is accepted for it |
| AuthScreen.MasterPasswordUnlocksEveryAccount | components/AuthScreen.tsx:64-66 | "1234" logs in every account that can be found |
| AuthScreen.NewDonor | components/AuthScreen.tsx:80-92 | a new account is an active donor with zero counters and "Never" donated, the normalised e-mail, the trimmed name, a blood type that is "Unknown" when none was chosen, a location that is "Unknown" when blank and otherwise trimmed, and a password that is "1234" when blank and otherwise trimmed |
| AuthScreen.Register | components/AuthScreen.tsx:73-92 | registration fails exactly when the e-mail is taken, and otherwise yields the new donor |
| AuthScreen.NewEmailMatches | components/AuthScreen.tsx:52-56 | the stored e-mail matches every case or spacing variant of itself |
| AuthScreen.RegisterThenLogin | components/AuthScreen.tsx:52-95 | after registration, log-in with any variant of the e-mail and the same non-blank password returns exactly the new account |
| AuthScreen.RegisterBlankPassword | components/AuthScreen.tsx:53-84 | a registration with a blank password stores "1234" as the password; the blank password is then refused and "1234" accepted |
| AuthScreen.RegisterTwiceFails | components/AuthScreen.tsx:73-78 | the same e-mail in any case or spacing cannot be registered twice |
| AuthScreen.DemoLogin | components/AuthScreen.tsx:30-41 | the demo log-in succeeds exactly when the role has an account, and it picks the first such account |
| AuthScreen.Submit | components/AuthScreen.tsx:55-96 | a successful log-in returns an account of the roster; a successful registration returns a fresh donor whose e-mail was not taken; the "already registered" error arises exactly in registration mode, and a missing role never arises here |
| AuthScreen.AuthForm.constructor | components/AuthScreen.tsx:14-23 | log-in mode, not loading, no error, the form empty but for the password "1234" |
| AuthScreen.AuthForm.HandleChange | components/AuthScreen.tsx:25-28 | only the changed field takes the new value, and the error clears |
| AuthScreen.AuthForm.ToggleMode | components/AuthScreen.tsx:293-297 | the mode flips, the form resets and the error clears |
| AuthScreen.AuthForm.BackToLogin | components/AuthScreen.tsx:141-144 | log-in mode with the error cleared and the form kept |
| AuthScreen.AuthForm.HandleDemoLogin | components/AuthScreen.tsx:30-42 | calls `onLogin` with the role's first account, or shows the missing-role message and calls nothing |
| AuthScreen.AuthForm.HandleSubmit | components/AuthScreen.tsx:44-97 | on success calls `onLogin`, or `onRegister` then `onLogin` with the same record, and stays loading; on failure calls nothing, shows the matching message and stops loading |
| HospitalDashboard.FilteredDonors | components/HospitalDashboard.tsx:15-22 | the results are exactly the roster's donors passing both filters |
| HospitalDashboard.FilteredDonorsSpec | components/HospitalDashboard.tsx:15-22 | the results keep roster order and are exactly the donors passing both filters |
| HospitalDashboard.NoFilterListsAllDonors | components/HospitalDashboard.tsx:18-21 | with both filters empty the result is all donors, in order |
| HospitalDashboard.BloodFilterIsExact | components/HospitalDashboard.tsx:18 | a non-empty blood-type filter keeps only that exact type |
| HospitalDashboard.LocationFilterNeedsLocation | components/HospitalDashboard.tsx:19-21 | a non-empty location filter drops donors without a location |
| HospitalDashboard.CombinedIsIntersection | components/HospitalDashboard.tsx:17-22 | both filters give the location filter applied to the blood-type result, and their members are the intersection of the two single-filter results |
| HospitalDashboard.EmptyStateIffNoMatch | components/HospitalDashboard.tsx:71-114 | "No donors found" is shown exactly when no donor passes both filters |
| AdminDashboard.TotalDonations | components/AdminDashboard.tsx:13 | the donations total equals a sum over the whole roster in which non-donors count zero |
| AdminDashboard.TotalLivesSaved | components/AdminDashboard.tsx:14 | the lives-saved total equals a sum over the whole roster in which non-donors count zero |
| AdminDashboard.Stats | components/AdminDashboard.tsx:12-33 | Total Users is the roster length, and Total Donors is at most that |
| AdminDashboard.TotalIgnoresNonDonors | components/AdminDashboard.tsx:12-14 | a total over donors equals a total over the whole roster in which non-donors count zero |
| AdminDashboard.AppendUpdatesStats | components/AdminDashboard.tsx:12-14 | appending a non-donor changes only Total Users; appending a donor adds one donor and exactly its own donations and lives |
| DoctorAppointments.SpecialtyColumn | components/DoctorAppointments.tsx:16 | the column holds each doctor's specialty at that doctor's position |
| DoctorAppointments.Specialties | components/DoctorAppointments.tsx:16 | the list starts with "All" and names no specialty twice after it |
| DoctorAppointments.SpecialtiesSpec | components/DoctorAppointments.tsx:16 | "All" comes first, then every doctor specialty once, in order of first occurrence |
| DoctorAppointments.FilteredDoctors | components/DoctorAppointments.tsx:18-23 | the listing holds exactly the doctors passing both the search and the specialty selection |
| DoctorAppointments.FilteredDoctorsSpec | components/DoctorAppointments.tsx:18-23 | the listing keeps directory order and holds exactly the doctors passing both the search and the specialty selection |
| DoctorAppointments.SearchThenSpecialty | components/DoctorAppointments.tsx:18-23 | the listing is the specialty selection applied to the search result |
| DoctorAppointments.AllImposesNoRestriction | components/DoctorAppointments.tsx:21 | selecting "All" leaves exactly the search result |
| DoctorAppointments.SelectionIsExact | components/DoctorAppointments.tsx:21 | any other selection lists only that exact specialty |
| DoctorAppointments.EmptyTermMatches | components/DoctorAppointments.tsx:19-20 | the empty search term matches every doctor |
| DoctorAppointments.UnfilteredListsAll | components/DoctorAppointments.tsx:12-23 | with the initial search and selection, the whole directory is listed |
| DoctorAppointments.Booking.constructor | components/DoctorAppointments.tsx:12-14 | empty search, "All" selected, nothing booked |
| DoctorAppointments.Booking.SetSearchTerm | components/DoctorAppointments.tsx:49 | the search term becomes the typed value |
| DoctorAppointments.Booking.SelectSpecialty | components/DoctorAppointments.tsx:56 | the selection becomes the pressed specialty |
| DoctorAppointments.Booking.HandleBook | components/DoctorAppointments.tsx:25-27 | exactly the doctors with the booked id show "Confirmed" |
| FloatingChat.Welcome | components/FloatingChat.tsx:18-25 | the welcome message has id "welcome", comes from the model and carries the welcome text |
| FloatingChat.ChatWidget.constructor | components/FloatingChat.tsx:8-13 | closed, empty transcript, empty input, no reply pending, not initialised |
| FloatingChat.ChatWidget.Open | components/FloatingChat.tsx:15-28 | the first opening sets the transcript to the welcome message; later openings keep it |
| FloatingChat.ChatWidget.Close | components/FloatingChat.tsx:94-105 | only the panel closes; the transcript and the latch are kept |
| FloatingChat.ChatWidget.SetInput | components/FloatingChat.tsx:144 | the input becomes the typed text |
| FloatingChat.ChatWidget.SendDisabled | components/FloatingChat.tsx:150 | the send button is enabled exactly when no reply is pending and the input has a non-whitespace character |
| FloatingChat.ChatWidget.SubmitInput | components/FloatingChat.tsx:34-47 | a blank input changes nothing; otherwise the untrimmed input is appended as a question, the input clears and a reply is pending |
| FloatingChat.ChatWidget.ReceiveReply | components/FloatingChat.tsx:49-59 | the reply is appended and nothing is pending; questions and replies still alternate |
| FloatingChat.ChatWidget.HandleSendMessage | components/FloatingChat.tsx:34-60 | the transcript grows by the question and then the reply, each with its own timestamp, or not at all for a blank input |
| App.LoadUsers | App.tsx:69-77 | the saved roster when there is one, else the seed |
| App.SeedRoles | App.tsx:33-59 | the seed has five accounts: three donors, one administrator and one hospital, all with password "1234" |
| App.SeedEmailsDistinct | App.tsx:33-59 | the seed's e-mails are pairwise distinct |
| App.SeedStats | App.tsx:33-59 | on the seed the overview shows 5 users, 3 donors, 19 donations and 57 lives |
| App.DefaultView | App.tsx:99-105 | hospitals land on the donor search and everyone else on the dashboard |
| App.SidebarItems | App.tsx:181-205 | the menu is empty exactly when nobody is signed in, starts with the role's landing view and names each view once |
| App.MenuViews | App.tsx:181-205 | the views of a menu, entry by entry |
| App.SidebarViews | App.tsx:181-205 | the menu of each role, and no menu when signed out |
| App.DefaultViewInMenu | App.tsx:181-205 | each role's landing view is on its menu; only administrators get user management and only hospitals the donor search |
| App.RenderContent | App.tsx:207-234 | each content is characterised exactly: the assistant and profile for their views whatever the role; the admin overview for an administrator on the dashboard or user management; the donor search for a hospital on the donor search; the requests placeholder for a hospital on the dashboard; the donor home for a donor on the dashboard; the centre directory on the donate view for every role; nothing for user management without the administrator role or the donor search without the hospital role |
| App.MenuEntriesRender | App.tsx:181-234 | every menu entry and every landing view shows content |
| App.Greeting | App.tsx:112-115 | the first message comes from the model, has id "1" and greets the account by its first name |
| App.AppShell.constructor | App.tsx:69-96 | the roster is loaded and saved, nobody is signed in, the view is the dashboard and the transcript is empty |
| App.AppShell.UserChanged | App.tsx:107-117 | with an account signed in, the view resets to its landing view and the transcript to its greeting |
| App.AppShell.HandleLogin | App.tsx:107-125 | the account is signed in, and a change of account resets the view and the transcript |
| App.AppShell.HandleRegister | App.tsx:127-129 | the new account is appended at the end and the whole roster is saved |
| App.AppShell.HandleLogout | App.tsx:131-134 | nobody is signed in and the transcript is empty; the view is kept |
| App.AppShell.Deliver | App.tsx:123-129 | the sign-in screen's calls reach the shell's log-in and registration handlers, with the log-in's reset only when the account changes |
| App.AppShell.SubmitAuth | App.tsx:524-526 | a successful registration appends and signs in the new donor on the dashboard; a successful log-in signs in the found account on its landing view; a failure leaves roster, account, view and transcript as they were and shows its message on the form; the chat input and typing flag are never touched |
| App.AppShell.Navigate | App.tsx:164-169 | any view can be selected, whatever the role |
| App.AppShell.ShowBackButton | App.tsx:529-530 | the back button shows exactly when a hospital is off the donor search or anyone else is off the dashboard, and when it is hidden the content area is not blank |
| App.AppShell.PressBack | App.tsx:615-617 | the back button returns to the landing view, which hides the button |
| App.AppShell.SetInput | App.tsx:474 | the chat input becomes the typed text |
| App.AppShell.SendDisabled | App.tsx:478 | the send button is enabled exactly when no reply is pending and the input has a non-whitespace character |
| App.AppShell.SubmitChat | App.tsx:136-150 | a blank input changes nothing; otherwise the untrimmed input is appended, the input clears and a reply is pending |
| App.AppShell.ReceiveReply | App.tsx:151-161 | the reply is appended and nothing is pending |
| App.AppShell.HandleChatSubmit | App.tsx:136-162 | the transcript grows by the question and then the reply, each with its own timestamp, or not at all for a blank input |

## Left out

- Browser storage and JSON are modelled as the `storage` field of `App.AppShell`. `None` stands for a missing, empty or unparseable slot, all of which load the seed. The console logging in the fallbacks is not modelled.
- The `setTimeout` pauses are single steps: 600 ms before a demo log-in and 800 ms before a submit.
- DoctorAppointments.Booking.HandleBook: the booking marker's 3-second reset is a timer callback and is not modelled.
- The assistant service is a stub whose reply text is a parameter. `initializeChat` and `scrollIntoView` have no modelled effect.
- Ids and timestamps from `Date.now()` and `new Date()` are parameters. Locale date and time formatting is left out.
- Button and StatCard are presentational components and are left out, along with the JSX layout, icons, images, the mobile-menu toggle and the mock centre and doctor tables with their float ratings.
- The profile, donor-home and centre-directory views are represented only as the `App.Content` value shown.
- HTML `required` attributes on the sign-up inputs are browser validation, not handler logic, and are not modelled. The handlers accept any field values.
- Text.Lower: lowercases ASCII letters only. JavaScript's `toLowerCase` also maps non-ASCII letters.
- App.AppShell.HandleLogin: React reruns the user-change effect when the account object changes identity. The model compares account values. The two agree whenever the shell is signed out before a log-in, which is the only time the sign-in screen is shown.
- App.AppShell.SubmitChat: requires that no reply is pending, because the send button is disabled then (App.tsx:478). Likewise FloatingChat.ChatWidget.SubmitInput requires an open panel, because the form exists only while the panel is open.
- Integer widths: counters are unbounded naturals. JavaScript numbers are doubles, but these demo counts never approach their precision limit.
