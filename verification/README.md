# Goal tracking app — a verified model of its rules

GoalTrackingApp is a React Native app. A signed-in user sets goals, each with a title, a description, a start and an end date, and a start and an end time. The user ticks off the days of a goal in a checklist and follows progress on several screens:
- a goal list with a status badge per goal;
- a home screen listing upcoming goals;
- a history of expired goals;
- statistics (status counts, a pie chart, a breakdown);
- a progress screen (average and line chart).

Accounts are handled by the registration, login and profile-editing screens. Four Redux slices hold what the server returned: `auth`, `goal`, `user` and `progress`.

This project models the rules behind those screens and slices in Dafny and proves properties of them.

- **Pure rules** become functions with lemmas beside them. These are the status resolvers, the search filter, the day list, `determineStatus`, the history rewrite, the upcoming filter, the counts and averages, and the date and time formatters.
- **Stateful code** becomes classes whose methods change fields. This covers the slice reducers (one store class per slice, dispatching actions), the goal form, the checklist, the registration, login and profile forms, the rotating quote header and the double-back-to-exit handler. Each method's `ensures` ties the new state to a pure function of the old one, and lemmas about that function state what the app promises.

Modelling conventions:

- **Time and dates.** The current time `now` is a parameter. Dates are calendar triples. Instants are milliseconds counted from 0001-01-01 (`Calendar`).
- **Numbers.** JavaScript numbers are `NaN | PosInf | NegInf | Fin(real)` (`JsNumber`). Rounding is not modelled. `parseFloat`'s result comes with the percentage text rather than being computed.
- **Server values.** A value received from the server is a `Json`, with JavaScript truthiness, optional chaining, `||` and `includes` (`Payload`).
- **Thunk outcomes.** The outcome of a thunk arrives as an input action. Device storage is a map from key to list (`GoalCheck.DateStorage`).

Files: `base.dfy`, `text.dfy`, `numbers.dfy`, `calendar.dfy`, `goal.dfy` and `payload.dfy` hold shared definitions. Each other file models one source file, except `consistency.dfy`, which relates the rules of different screens.

## Model

| member | source | states |
|---|---|---|
| GoalsScreen.ResolveStatus | screens/goals/GoalsScreen.js:373-427 | The badge is one of exactly four (text, colour) pairs. For a same-day goal: never "In Progress"; "Completed" iff progress is exactly 100; otherwise "Failed" iff now is after end_date@end_time. For a multi-day goal: NaN → "Pending"; strictly between 0 and 100 → "In Progress"; 100 → "Completed"; 0, negative or over 100 → "Failed" iff the end date (at the start of its day) has passed, else "Pending". |
| GoalsScreen.StatusMonotoneInTime | screens/goals/GoalsScreen.js:375-427 | A goal showing "Failed" still shows it at any later instant, and one showing "Completed" shows it at every instant. |
| GoalRecord.ListedProgress | screens/goals/GoalsScreen.js:373 | A missing or empty percentage counts as 0; otherwise the parsed percentage is used. |
| GoalsScreen.SearchGoals | screens/goals/GoalsScreen.js:190-201 | Blank text lists every goal (none without `data`). Otherwise the result is an in-order subsequence holding exactly the goals whose lower-cased title contains the lower-cased, untrimmed text. |
| GoalsScreen.SearchFindsVerbatim | screens/goals/GoalsScreen.js:196-198 | A goal whose title contains the search text verbatim is always found, whatever the letter case. |
| GoalsScreen.CreateError | screens/goals/GoalsScreen.js:128-148 | Checks run in order and the first failure gives the message: blank title or description after trimming, then end date before start date, then end time less than 30 minutes after start time. None iff all three pass. |
| GoalsScreen.UpdateError | screens/goals/GoalsScreen.js:203-223 | The same ladder as creation, except that the date check refuses end date <= start date. |
| GoalsScreen.UpdateStricterThanCreate | screens/goals/GoalsScreen.js:214-216 | Whatever update accepts, creation accepts. A form whose start and end dates are the same instant never passes update, though it passes creation with a long enough time gap. Two dates picked on the same day are the same instant, since `DateValue` takes each day at midnight. |
| GoalsScreen.ParseTime | screens/goals/GoalsScreen.js:76-81 | The parsed time is today's midnight plus the clock's milliseconds, and it falls within today for a valid clock. |
| GoalsScreen.Outcome | screens/goals/GoalsScreen.js:156-165 | A handler refuses iff validation chose a message. Otherwise it throws iff a date is invalid (`toISOString`). Otherwise it dispatches exactly the form's title, description, dates and times, under the field names of the handler that built the body. |
| GoalsScreen.BodiesNameTitleDifferently | screens/goals/GoalsScreen.js:233-240 | The update body carries the title and description as `goal_title` and `goal_description` and has no `title` or `description` field. The create body (lines 156-163) uses `title` and `description`. Both share the four date and time names. |
| GoalsScreen.GoalForm.constructor | screens/goals/GoalsScreen.js:36-49 | The form starts empty, with every date and time set to now and the modal, picker, error and search all cleared. |
| GoalsScreen.GoalForm.OpenAdd | screens/goals/GoalsScreen.js:342-352 | The add button clears the inputs, resets the dates and times to now and opens the modal in add mode. Nothing else changes. |
| GoalsScreen.GoalForm.OpenForEdit | screens/goals/GoalsScreen.js:110-120 | `openModal` fills the form from the goal (times placed on today), remembers its id and switches to update mode. |
| GoalsScreen.GoalForm.CloseModal | screens/goals/GoalsScreen.js:122-126 | Hides the modal and clears only the title and the description. |
| GoalsScreen.GoalForm.ShowPicker | screens/goals/GoalsScreen.js:565-605 | A date or time button opens the picker for that field only. |
| GoalsScreen.GoalForm.PickerChange | screens/goals/GoalsScreen.js:269-280 | The picker always closes. A confirmed choice sets exactly the field the picker was opened for; a dismissal changes nothing else. |
| GoalsScreen.GoalForm.AddGoal | screens/goals/GoalsScreen.js:128-165 | The message becomes CreateError of the form and the outcome is Outcome(form, CreateError, create field names, no id). The inputs are left as they are. |
| GoalsScreen.GoalForm.CreateSucceeded | screens/goals/GoalsScreen.js:167-172 | A successful create closes the modal, clears the two text inputs and clears the message. |
| GoalsScreen.GoalForm.UpdateGoal | screens/goals/GoalsScreen.js:203-245 | Validates with UpdateError and dispatches for the current goal id, with the update field names. Once dispatched, the modal closes at once without waiting for the server. |
| GoalsScreen.GoalForm.Press | screens/goals/GoalsScreen.js:628-632 | The button is disabled while the goal slice is loading: a press then does nothing. Otherwise it runs the update handler in update mode and the add handler otherwise, with their outcomes and their effects on the form. Adding sets the message and keeps the inputs and the modal. A dispatched update closes the modal, clears the title, description and message; a refused or thrown one sets the message and keeps the rest. |
| GoalsScreen.GoalForm.Search | screens/goals/GoalsScreen.js:190-201 | The effect stores the text and recomputes the listed goals as SearchGoals. |
| GoalCheck.DayList | screens/goals/GoalCheckScreen.js:25-31 | `n` labels, the i-th being the "DD-MM-YYYY" rendering of the start date plus i days. |
| GoalCheck.DayListOrdered | screens/goals/GoalCheckScreen.js:25-31 | The labels are pairwise different and read back as strictly increasing calendar days. |
| GoalCheck.BuildDateList | screens/goals/GoalCheckScreen.js:25-33 | The loop yields (end − start) + 1 labels, and none when start is after end or a date does not parse. The first label is the start date, the last is the end date, and there are no duplicates. |
| Calendar.NextDay | screens/goals/GoalCheckScreen.js:30 | `add(1, "day")` moves to the calendar day whose day number is one greater. |
| Calendar.AddDays | screens/goals/GoalCheckScreen.js:28-31 | Adding k days adds k to the day number. |
| Calendar.OrdinalOrder | screens/goals/GoalCheckScreen.js:28 | The loop's `isSameOrBefore` on dates agrees with day numbers: one day precedes another iff its number is smaller. |
| Calendar.FormatDashRoundTrip | screens/goals/GoalCheckScreen.js:29 | A "DD-MM-YYYY" label reads back as the date it was made from. |
| Calendar.FormatDashInjective | screens/goals/GoalCheckScreen.js:29 | Different days never share a label. |
| GoalCheck.Toggle | screens/goals/GoalCheckScreen.js:56-61 | A selected date is removed (every occurrence) and an unselected one is appended at the end. No other date's membership changes. |
| GoalCheck.ToggleKeepsSelectionSound | screens/goals/GoalCheckScreen.js:58-60 | Toggling keeps the selection duplicate-free, and keeps it within the day list when the toggled date is one of its days. |
| GoalCheck.ToggleTwice | screens/goals/GoalCheckScreen.js:58-60 | Checking an unchecked date and unchecking it again restores the identical selection. |
| GoalCheck.StorageKey | screens/goals/GoalCheckScreen.js:38 | The key is "selectedDates_" followed by the goal id. |
| GoalCheck.StorageKeyInjective | screens/goals/GoalCheckScreen.js:38 | Different goals never share a storage key. |
| GoalCheck.DateStorage.SetItem | screens/goals/GoalCheckScreen.js:76-82 | A write stores the list under its key unless it fails; a failed write changes nothing. |
| GoalCheck.DateStorage.GetItem | screens/goals/GoalCheckScreen.js:44 | A read yields the stored list, nothing for an absent key, or a failure. |
| GoalCheck.Checklist.constructor | screens/goals/GoalCheckScreen.js:24-36 | Mounting builds the day list (length, order and no duplicates as for BuildDateList) with nothing selected. |
| GoalCheck.Checklist.Load | screens/goals/GoalCheckScreen.js:41-54 | The stored list under this goal's key replaces the selection. A missing entry or a failed read leaves the selection as it was. |
| GoalCheck.Checklist.ToggleDay | screens/goals/GoalCheckScreen.js:56-82 | The selection becomes Toggle of the old one and is written under this goal's key (unless the write fails). No other key changes. |
| GoalCheck.DetermineStatus | screens/goals/GoalCheckScreen.js:84-90 | 0 → "pending"; strictly between 0 and 100 → "in_progress"; 100 → "completed"; NaN, infinities, negatives and values over 100 → "failed". Each is an if-and-only-if. |
| JsNumber.PercentOf | screens/goals/GoalCheckScreen.js:231-232 | `(k / n) * 100` is finite and satisfies r · n = 100 · k when n > 0, and is NaN or Infinity when n = 0. |
| GoalCheck.SavedPercent | screens/goals/GoalCheckScreen.js:231-232 | With an empty day list the saved status is "failed". |
| GoalCheck.SavedPercentBounds | screens/goals/GoalCheckScreen.js:231-234 | For a duplicate-free selection of days from a non-empty list: the percentage is finite and in [0, 100]; it is 100 iff every day is checked and 0 iff nothing is. |
| GoalCheck.Checklist.SaveProgress | screens/goals/GoalCheckScreen.js:92-97 | The request carries this goal's id, the saved percentage, and the status DetermineStatus gives for it. |
| Calendar.DisplayHour | screens/goals/GoalsScreen.js:104 | `hours % 12 \|\| 12` lies in 1..12 and agrees with the hour modulo 12. |
| Calendar.FormatTimeReadBack | screens/goals/GoalsScreen.js:101-108 | The text ends in "PM" iff hours >= 12. The hour part reads back as a number in 1..12 congruent to the hour modulo 12. The minutes read back from exactly two digits. The seconds never change the text. |
| Calendar.FormatDateRoundTrip | components/GoalsCard.js:8-22 | An unparseable date gives "Invalid Date". A parsed date gives zero-padded "DD/MM/YYYY" with a 1-based month, which reads back as that date and is never the sentinel. |
| Calendar.DateTime | screens/home/HomeScreen.js:110-112 | `${date}T${time}` parses iff the date parses and the time is a valid clock, and then lies within that day. |
| GoalsCard.StyleFor | components/GoalsCard.js:63-74 | completed → completed style, pending → pending, in_progress → inProgress. "failed" and every other string → failed. Each is an if-and-only-if. |
| GoalsCard.Background | components/GoalsCard.js:143-158 | Pending and in-progress share "#FF9800"; completed is "#4CAF50" and failed is "#F44336". |
| GoalsCard.CardOf | components/GoalsCard.js:41-77 | A card shows the title, description, both dates as "DD/MM/YYYY", both times on the 12-hour clock, and the raw stored status with its style. |
| GoalsCard.Cards | components/GoalsCard.js:40-79 | One card per goal, in input order. |
| History.HistoryPercentage | screens/history/HistoryScreen.js:41 | A missing or empty percentage is the text "0.00". |
| History.HistoryStatus | screens/history/HistoryScreen.js:38-49 | "Completed" only for the exact text "100.00" with stored status "completed". Otherwise "Failed" when the percentage reads below 100. Otherwise the stored status is kept. |
| History.HistoryStatusCases | screens/history/HistoryScreen.js:41-47 | A goal without a percentage becomes "Failed". "100.00" with a stored status other than "completed" keeps that status. |
| History.HistoryGoals | screens/history/HistoryScreen.js:29-50 | Throws iff there is no `data`. Otherwise the goals whose end date has passed, in order, each with only its status replaced by HistoryStatus. |
| History.HistoryGoalsFaithful | screens/history/HistoryScreen.js:29-50 | Every listed goal is an expired input goal with only its status changed, and every expired input goal is listed. |
| History.CardStyle | screens/history/HistoryScreen.js:74-77 | The completed style iff the status is "Completed", the missed style otherwise. |
| History.HistoryScreen | screens/history/HistoryScreen.js:87-105 | No `data` crashes, even while loading. Loading shows the loader; an empty list shows "No Goals History Found"; otherwise one card per listed goal, with its end date and its rewritten status and style. |
| Home.UpcomingGoals | screens/home/HomeScreen.js:105-115 | No `data` gives nothing. Otherwise the in-order subsequence of exactly the goals still "pending" whose start date-time parses and lies after now. |
| Home.UpcomingCard | screens/home/HomeScreen.js:117-133 | "No Upcoming Goals" iff the list is empty; otherwise the cards of exactly those goals, all in the pending style. |
| Home.UpcomingShrinksOverTime | screens/home/HomeScreen.js:108-114 | A goal upcoming at a later instant was already upcoming at an earlier one. |
| Statistics.StatusCount | screens/statistics/StatisticsScreen.js:126-128 | The number of goals with exactly that stored status, never more than the total. |
| Statistics.CountsPartition | screens/statistics/StatisticsScreen.js:126-146 | The four counts plus the goals with any other status add up to the total. |
| Statistics.PieData | screens/statistics/StatisticsScreen.js:156-185 | Exactly four slices, in the order Pending, In Progress, Completed, Failed, with their counts and colours. |
| Statistics.PieWithinTotal | screens/statistics/StatisticsScreen.js:126-185 | The pie's populations add up to at most the number of goals. |
| Statistics.ProgressChart | screens/statistics/StatisticsScreen.js:124-208 | "No goals available." iff there are no goals. Otherwise the pie and the line "{total} Goals Set, {completed} Completed". |
| Statistics.FirstThree | screens/statistics/StatisticsScreen.js:261 | The first min(n, 3) goals, in order. |
| Statistics.Breakdown | screens/statistics/StatisticsScreen.js:211-273 | At most three rows, for the first goals in order: title, percentage (0 when missing) and end date as "DD/MM/YYYY". |
| Statistics.AchievementsMatchPie | screens/statistics/StatisticsScreen.js:307-310 | The achievements count equals the pie chart's completed population. |
| ViewProgress.EntryProgress | screens/viewProgress/ViewProgressScreen.js:34-36 | 0 without a progress record. Otherwise the parsed percentage, which is NaN when the record has no percentage. |
| ViewProgress.GoalProgress | screens/viewProgress/ViewProgressScreen.js:30-39 | One entry per goal, in order, copying title and status. |
| ViewProgress.TotalProgress | screens/viewProgress/ViewProgressScreen.js:42-44 | With no goals the divisor is 1 and the average is 0. |
| ViewProgress.SumBounds | screens/viewProgress/ViewProgressScreen.js:43 | With every progress in [0, 100], the sum is finite and between 0 and 100 · n. |
| ViewProgress.TotalProgressBounds | screens/viewProgress/ViewProgressScreen.js:42-44 | With every progress in [0, 100], the average is finite and in [0, 100]. |
| ViewProgress.NaNSpoilsTotal | screens/viewProgress/ViewProgressScreen.js:42-44 | One goal whose percentage does not parse makes the sum and the average NaN. |
| ViewProgress.LineChartData | screens/viewProgress/ViewProgressScreen.js:47-55 | Labels "Goal 1".."Goal n", with the data equal to each goal's progress in the same order. |
| ViewProgress.ChartLabelsDistinct | screens/viewProgress/ViewProgressScreen.js:48 | The chart labels are pairwise different. |
| ViewProgress.ProgressScreen | screens/viewProgress/ViewProgressScreen.js:58-69 | Loading shows the loader. "No Goal Progress Found" iff there are no goals. Otherwise the average and the line chart of GoalProgress. |
| Register.EmailPatternIff | screens/auth/RegisterScreen.js:44 | `/^[^\s@]+@[^\s@]+\.[^\s@]+$/` accepts exactly the strings with: no white space; exactly one '@', not first; and a '.' after the '@' that is neither the first nor the last character of that part. |
| Register.EmailCheckIff | screens/auth/RegisterScreen.js:45-46 | "Blank after trimming, or not matching" fails exactly the addresses that are not well formed. |
| Register.Validate | screens/auth/RegisterScreen.js:39-50 | The names fail iff blank after trimming. The email fails iff not well formed. The password fails iff blank after trimming or shorter than 6 characters untrimmed. |
| Register.RegisterScreen.constructor | screens/auth/RegisterScreen.js:26-31 | Empty inputs and no errors. |
| Register.RegisterScreen.Edit | screens/auth/RegisterScreen.js:88-121 | Typing replaces exactly one input; the errors stay. |
| Register.RegisterScreen.ValidateInputs | screens/auth/RegisterScreen.js:39-53 | The errors object is replaced wholesale by Validate of the inputs; the result is true iff it has no keys. |
| Register.RegisterScreen.HandleRegister | screens/auth/RegisterScreen.js:55-68 | The request (the raw inputs under first_name, last_name, username, email, password) is sent, and its pending action reaches the auth slice, iff every field passes. |
| Register.RegisterScreen.PressRegister | screens/auth/RegisterScreen.js:125-129 | The button is disabled while the auth slice is loading: a press then changes neither the errors nor the slice. Otherwise it sets the errors to Validate and sends the raw inputs iff every field passes; the slice changes only when the request is sent. |
| Register.RegisterScreen.AuthChanged | screens/auth/RegisterScreen.js:70-79 | A truthy error replaces all errors by {global: error} and is cleared in the slice. Success navigates to "Login User" and is cleared. Afterwards the slice holds neither. |
| Login.LoginScreen.constructor | screens/auth/LoginScreen.js:21-24 | Empty inputs and empty messages. |
| Login.LoginScreen.HandleLogin | screens/auth/LoginScreen.js:28-46 | Both inputs are checked for emptiness, untrimmed, and each empty one gets its message. The request {login, password} is sent (pending reaches the slice) iff both are non-empty. |
| Login.LoginScreen.PressLogin | screens/auth/LoginScreen.js:108-112 | The button is disabled while the auth slice is loading: a press then changes neither the messages nor the slice. Otherwise each empty input gets its message and the other message is kept, and {login, password} is sent iff both inputs are non-empty; the slice changes only when the request is sent. |
| Login.CatchRouting | screens/auth/LoginScreen.js:47-55 | A nullish rejection makes the catch block throw. With `errors`, the first `login` and `password` messages go to their fields. Otherwise a `message` goes to the email field. |
| Login.StringRejectionIgnored | screens/auth/LoginScreen.js:49-54 | A rejection that is a plain string (what the login thunk rejects with) changes neither message. |
| Payload.AuthUnwrapValue | screens/auth/LoginScreen.js:45-47 | `unwrap` throws the server's message when the thunk rejected with one. Without a response it throws the serialized exception of the thunk's catch block: an object with a `message` and no `errors`. |
| Login.TransportFailureShownOnLogin | screens/auth/LoginScreen.js:45-54 | A login failing without a response puts the thrown exception's message in the email field and leaves the password message alone. |
| Login.LoginScreen.LoginFailed | screens/auth/LoginScreen.js:47-55 | The messages become CatchRouting of the rejection, or stay unchanged when the catch block throws. |
| Payload.Includes | screens/auth/LoginScreen.js:61-63 | `includes` is substring search on a string and element search on an array. It is missing (the call throws) iff the value is a boolean, number or plain object. |
| Login.RouteError | screens/auth/LoginScreen.js:60-65 | An error mentioning "email" or "username" goes to the email message; else one mentioning "password" goes to the password message; else it is dropped. A value without `includes` throws. |
| Login.RoutedToOneField | screens/auth/LoginScreen.js:60-65 | A routed error changes at most one message, and only to itself. |
| Login.LoginScreen.AuthChanged | screens/auth/LoginScreen.js:58-72 | A truthy error is routed and then cleared in the slice, unless routing throws, which changes nothing. Success navigates to "HHomeScreen" without clearing success. |
| Login.LoginScreen.EditIdentifier | screens/auth/LoginScreen.js:86-89 | Typing an identifier clears the email message only. |
| Login.LoginScreen.EditPassword | screens/auth/LoginScreen.js:98-101 | Typing a password clears the password message only. |
| Payload.AuthRejectionValue | store/slice/authSlice.js:21-24 | An auth thunk rejects with the server's message, or with no payload when there was no response. |
| Payload.RejectionValue | store/slice/goalSlice.js:27-33 | A goal thunk rejects with the server's message when there is a response, otherwise with the transport error's message. |
| Payload.TransportFailureReported | store/slice/goalSlice.js:27-33 | Without a response, a goal thunk still puts a non-empty message in its slice. An auth thunk's rejected action carries no truthy payload, so the auth slice's error stays falsy. |
| AuthSlice.AuthStore.constructor | store/slice/authSlice.js:6-12 | user null, isLoggedIn false, loading false, error null, success false. |
| AuthSlice.AuthStore.Dispatch | store/slice/authSlice.js:105-181 | Each dispatch leaves the state AfterAsWritten(old state, action). This is the reducer as written: a fulfilled password reset throws and changes nothing, and every other action gives Step. |
| AuthSlice.PendingOnlyLoads | store/slice/authSlice.js:116-170 | Every pending case sets loading and nothing else; error and success are not reset. |
| AuthSlice.RejectedCases | store/slice/authSlice.js:124-181 | Every rejection stops loading and stores its payload as the error. Login and logout failures also sign out. None clears the user or success. |
| AuthSlice.RegisterDoesNotSignIn | store/slice/authSlice.js:119-123 | A successful registration stores the user and success but leaves isLoggedIn unchanged. |
| AuthSlice.LogoutCases | store/slice/authSlice.js:171-181 | Both logout outcomes sign out. Only success forgets the user and reports success. |
| AuthSlice.ClearersTouchOneField | store/slice/authSlice.js:106-111 | `clearError` and `clearSuccess` each reset exactly one field. |
| AuthSlice.OnlyLoginSignsIn | store/slice/authSlice.js:132-142 | Only a successful login signs in, and only logout or a failed login signs out. Only a rejection or `clearError` changes the error. |
| AuthSlice.SignedInIffLoginStands | store/slice/authSlice.js:116-181 | From the initial state, someone is signed in iff some successful login has not been followed by a logout or a failed login or logout. |
| AuthSlice.StepAsWritten | store/slice/authSlice.js:159-162 | As written, the reducer throws exactly on a successful password reset and otherwise agrees with Step. |
| AuthSlice.PasswordResetStuckAsWritten | store/slice/authSlice.js:156-162 | As written, a successful password reset leaves the slice loading and never reports success. |
| AuthSlice.PasswordResetSettles | store/slice/authSlice.js:159-162 | Corrected, a successful password reset stops loading and reports success, without touching the sign-in. |
| AuthSlice.AsWrittenKeepsSession | store/slice/authSlice.js:156-162 | After any run, the reducer as written and the corrected one agree on isLoggedIn, user and error. |
| AuthSlice.SignedInIffLoginStandsAsWritten | store/slice/authSlice.js:116-181 | The store as written also has someone signed in iff some successful login has not been followed by a logout or a failed login or logout. |
| GoalSlice.GoalStore.constructor | store/slice/goalSlice.js:6-10 | goals `[]` (no `data`), loading false, error null. |
| GoalSlice.GoalStore.Dispatch | store/slice/goalSlice.js:131-190 | Each dispatch leaves the state AfterAsWritten(old state, action). This is the reducer as written: a fulfilled update throws and changes nothing, and every other action gives Step. |
| GoalSlice.PendingClearsError | store/slice/goalSlice.js:139-182 | Every pending case sets loading and clears the error, keeping the goals. |
| GoalSlice.RejectedKeepsGoals | store/slice/goalSlice.js:148-190 | Every rejection stops loading and stores its payload, keeping the goals. |
| GoalSlice.OnlyFetchChangesGoals | store/slice/goalSlice.js:143-186 | Only a successful fetch changes the goals, replacing them wholesale. Every success stops loading and clears the error. |
| GoalSlice.ClearErrorOnly | store/slice/goalSlice.js:132-134 | `clearError` resets the error only. |
| GoalSlice.GoalsFromLastFetch | store/slice/goalSlice.js:143-147 | After any run of actions, the goals are the payload of the last successful fetch. |
| GoalSlice.GoalsWithoutFetch | store/slice/goalSlice.js:139-190 | Without a fetch the goals never change; from the initial state they have no `data`. |
| GoalSlice.StepAsWritten | store/slice/goalSlice.js:170-173 | As written, the reducer throws exactly on a successful update and otherwise agrees with Step. |
| GoalSlice.UpdateStuckAsWritten | store/slice/goalSlice.js:166-173 | As written, a successful update leaves the slice loading. |
| GoalSlice.UpdateSettles | store/slice/goalSlice.js:170-173 | Corrected, a successful update stops loading, clears the error and keeps the goals. |
| GoalSlice.AsWrittenKeepsGoals | store/slice/goalSlice.js:166-173 | After any run, the reducer as written holds the same goal list as the corrected one. |
| GoalSlice.GoalsFromLastFetchAsWritten | store/slice/goalSlice.js:143-173 | In the store as written too, the goals after a run are the payload of its last successful fetch. |
| UserSlice.UserStore.constructor | store/slice/userSlice.js:6-10 | user null, loading false, error null. |
| UserSlice.UserStore.Dispatch | store/slice/userSlice.js:105-153 | Each dispatch leaves the state Step(old state, action). |
| UserSlice.PendingClearsError | store/slice/userSlice.js:113-144 | Every pending case sets loading and clears the error, keeping the user. |
| UserSlice.FulfilledAlike | store/slice/userSlice.js:117-149 | All three successes are alike: the body becomes the user, loading stops and the error clears. |
| UserSlice.RejectedKeepsUser | store/slice/userSlice.js:122-153 | Every rejection stores its payload and stops loading, keeping the user. |
| UserSlice.ClearErrorOnly | store/slice/userSlice.js:106-108 | `clearError` resets the error only. |
| UserSlice.UserFromLastSuccess | store/slice/userSlice.js:113-153 | After a run, the user is the body of the last successful request. |
| UserSlice.UserWithoutSuccess | store/slice/userSlice.js:6-10 | With no successful request, the user stays null. |
| ProgressSlice.ProgressStore.constructor | store/slice/progressSlice.js:6-10 | progress `[]`, loading false, error null. |
| ProgressSlice.ProgressStore.Dispatch | store/slice/progressSlice.js:78-112 | Each dispatch leaves the state Step(old state, action). |
| ProgressSlice.PendingClearsError | store/slice/progressSlice.js:86-103 | Both pending cases set loading and clear the error, keeping the progress. |
| ProgressSlice.FulfilledAlike | store/slice/progressSlice.js:90-108 | Saving and reading succeed alike: the body replaces the progress. |
| ProgressSlice.RejectedKeepsProgress | store/slice/progressSlice.js:95-112 | Every rejection stores its payload, keeping the progress. |
| ProgressSlice.ClearErrorOnly | store/slice/progressSlice.js:79-81 | `clearError` resets the error only. |
| ProgressSlice.SettledIffAnswered | store/slice/progressSlice.js:86-112 | The slice is loading after an action iff it was a pending one, or a `clearError` while loading. |
| EditProfile.InitialFields | screens/editProfile/EditProfileScreen.js:28-39 | Each field starts as its stored value when that value is truthy, "" otherwise. Bio, quote and phone come from `user_detail`; everything is "" without a user. |
| EditProfile.InitialPicture | screens/editProfile/EditProfileScreen.js:40-44 | The placeholder URL when no image path is stored; otherwise a string starting with the image server's address, non-empty when that address is. |
| EditProfile.InputChangesNamedFieldOnly | screens/editProfile/EditProfileScreen.js:61-90 | An edit sets exactly the named field, every other field keeps its value, and an unknown key changes nothing. |
| EditProfile.FormData | screens/editProfile/EditProfileScreen.js:113-130 | The eight fields in a fixed order under the server's names (bio→short_detail, motivationalQuote→long_detail, phone→mobile_number), then `profile_pic` as a JPEG file when the picture is non-empty. |
| EditProfile.FormNamesDistinct | screens/editProfile/EditProfileScreen.js:115-129 | Every name in the body is different. |
| EditProfile.UnchangedFormEchoesStored | screens/editProfile/EditProfileScreen.js:28-39 | Saving the form as it opened sends each stored value (or "") back under the name it was read from. |
| EditProfile.ProfileForm.constructor | screens/editProfile/EditProfileScreen.js:28-44 | The form opens with InitialFields and InitialPicture of the stored user. |
| EditProfile.ProfileForm.InputChange | screens/editProfile/EditProfileScreen.js:61-90 | `handleInputChange` leaves the fields WithInput of the old ones; the picture is unchanged. |
| EditProfile.ProfileForm.RemovePicture | screens/editProfile/EditProfileScreen.js:93-95 | The picture becomes the placeholder and the fields are unchanged. |
| EditProfile.ProfileForm.PictureChosen | screens/editProfile/EditProfileScreen.js:106-108 | The chosen image replaces the picture unless the picker was cancelled. |
| EditProfile.ProfileForm.Save | screens/editProfile/EditProfileScreen.js:112-134 | Pressing save while the user slice is loading does nothing (the button is disabled, line 322). Otherwise it sends FormData of the form and the update's pending action reaches the user slice. |
| QuotesHeader.Next | components/QuotesHeader.js:38 | The next index is always below 5 and is the current one plus 1 unless that reaches 5. |
| QuotesHeader.AfterChangesIsMod | components/QuotesHeader.js:38-39 | After k changes from 0, the index is k mod 5. |
| QuotesHeader.EveryQuoteShown | components/QuotesHeader.js:15-21 | Each quote q appears after q changes, and the cycle repeats every 5 changes. |
| QuotesHeader.Header.constructor | components/QuotesHeader.js:25 | The index starts at 0. |
| QuotesHeader.Header.Change | components/QuotesHeader.js:36-39 | A change keeps the index valid and advances it with Next. |
| QuotesHeader.Header.Subtitle | components/QuotesHeader.js:60 | The subtitle is always one of the five quotes. |
| BackPress.CountIsLastPress | components/bottomTabBarScreen.js:23-44 | Starting from 0, the count is 1 iff the last event was a back press. So a press exits iff the event before it was also a press, with no reset in between. |
| BackPress.BackHandler.constructor | components/bottomTabBarScreen.js:44 | The count starts at 0. |
| BackPress.BackHandler.Back | components/bottomTabBarScreen.js:23-26 | Exits iff the count was 1, otherwise arms the exit (count 1). Always reports the event handled, and the exit toast shows afterwards. |
| BackPress.BackHandler.Timer | components/bottomTabBarScreen.js:39-41 | The reset timer sets the count to 0, hiding the toast. |
| Consistency.MultiDayListAgreesWithChecklist | screens/goals/GoalsScreen.js:403-422 | For a multi-day goal that has not expired, with a percentage in [0, 100], the goal list's label matches the status the checklist stores. |
| Consistency.SameDayListDisagreesWithChecklist | screens/goals/GoalsScreen.js:387-401 | For a same-day goal at 50%, the checklist stores "in_progress" but the goal list never shows "In Progress". |
| Consistency.TodayIsUpcomingAndHistory | screens/home/HomeScreen.js:108-114 | A pending goal starting later today is listed as upcoming on the home screen and, since its end date has passed at midnight, as "Failed" in the history. |

Behaviour the proofs make visible, kept as written:

- **Empty day list.** The checklist's save button divides by the length of the day list without a guard. When the end date precedes the start date, or a date does not parse, the list is empty and the percentage is NaN or Infinity. The status sent to the server is then "failed" (`GoalCheck.SavedPercent`).
- **Same-day goals.** The goal list never shows a same-day goal as "In Progress", though the checklist stores "in_progress" for it (`Consistency.SameDayListDisagreesWithChecklist`). Update validation never accepts a same-day goal (`GoalsScreen.UpdateStricterThanCreate`).
- **Stray identifiers.** Two reducer cases throw a ReferenceError (see "## Findings"). The store classes follow the reducers as written (`AfterAsWritten`), while the run lemmas are proved on the corrected reducers. `AuthSlice.AsWrittenKeepsSession` and `GoalSlice.AsWrittenKeepsGoals` carry them over to the stores, since the two versions differ only in the loading and success flags.
- **Today's goals.** A goal ending today is "expired" from midnight on, since only its end date is compared. The history screen therefore lists it as "Failed" while the home screen still lists it as upcoming (`Consistency.TodayIsUpcomingAndHistory`).
- **Auth rejections.** The auth thunks read `error.response.data.message` without a guard. Without a response, that read throws inside the catch block, and the rejected action carries no payload. The auth slice's error therefore stays falsy (`Payload.TransportFailureReported`), and the register screen, which watches only that error, shows nothing. The login screen still shows something: `unwrap` throws the serialized exception, whose `message` goes to the email field (`Login.TransportFailureShownOnLogin`).

## Left out

- HTTP requests, tokens and the bodies of the `createAsyncThunk` calls are not modelled. Their outcomes arrive as input actions, and their rejection values are modelled by `Payload.RejectionValue` and `Payload.AuthRejectionValue`. The logout thunk's token check is not modelled.
- Device storage is a map from key to list. JSON serialisation of the checklist is not modelled, and storage failures are boolean parameters.
- The image server's address (`ImageURL` in utils/common) is a parameter; utils/common is not part of this model.
- `Date`, `moment`, timezones, `toISOString` and `toLocaleTimeString` are not modelled. Date-only strings and `date T time` strings are treated on one scale (the former parse as UTC, the latter as local time). The request bodies carry instants rather than "YYYY-MM-DD"/"HH:MM:SS" text. Hours past 23 in a stored time are not clamped.
- Floating-point numbers are exact reals. `parseFloat` is not computed: a percentage carries its text and the number read from it. `Number()` yielding NaN for a malformed time, `toFixed`, `Math.round` and the progress-bar widths are not modelled.
- The text of the TypeError the engine raises when an auth thunk reads `response.data` of an undefined response is a parameter of `Payload.AuthUnwrapValue`. Redux Toolkit's serialisation of the thrown error is modelled only as far as its `message` field.
- `toLowerCase` is modelled on ASCII letters only; Unicode case mapping is not modelled.
- Alerts, navigation (beyond the route a screen moves to), animations, charts and layout are not modelled. The quote fade timings appear only as constants.
- Effect scheduling, re-renders and races between refreshes are not modelled. The same goes for the save inside the `setSelectedDates` updater and for the promise behaviour of `dispatch` (the awaited dispatch when saving a profile never rejects).
- The `userSlice` export of `clearError` binds the whole actions object (store/slice/userSlice.js:157). Nobody imports it, so it has no behaviour to model.
- The `.user` read of a fulfilled register or login payload is not modelled: the action carries the user directly, so a payload without `user` yields undefined and a null payload is not considered.
- EditProfile.FormData appends the picture when it is non-empty, as the code tests. The picture is non-empty in practice only because the placeholder and the image server's address are; `EditProfile.InitialPicture` states the latter as a condition.

## Findings

| source | as written | input that shows it | evidently intended | confidence | as-written member | corrected member |
|---|---|---|---|---|---|---|
| store/slice/authSlice.js:159 | The password-reset success case begins with the stray identifier `sto`. Reading it throws a ReferenceError before any field is assigned, so the store keeps its old state. | From the initial state, dispatch the pending and then the fulfilled action of `sendPasswordResetEmail`: the slice stays loading with success false. | The case sets loading to false and success to true. | not executed | AuthSlice.PasswordResetStuckAsWritten | AuthSlice.PasswordResetSettles |
| store/slice/goalSlice.js:171 | The update success case assigns `loading` and then evaluates the stray identifier `mmon`. It throws a ReferenceError, and the draft with its assignment is discarded. | From any state, dispatch the pending and then the fulfilled action of `updateGoal`: the slice stays loading. | The case sets loading to false and error to null. | not executed | GoalSlice.UpdateStuckAsWritten | GoalSlice.UpdateSettles |
