# StudySync session store, modelled in Dafny

StudySync is a command-line study tracker. Each user has a record holding an
ordered list of study sessions, and each session has a log time, a subject and
a duration as typed. The program keeps all users in one dictionary. It
registers users, appends sessions, lists them, and edits or deletes one by its
1-based number. It totals the current week's hours and runs a menu loop until
the user confirms they want to exit.

This project models that core:

- `wrappers.dfy` holds `Option` and `Result`.
- `clock.dfy` holds `Timestamp`. A day is numbered as `date.toordinal()` numbers it (0001-01-01 is day 1, a Monday). The time of day is in microseconds. The file also has `Weekday`, `MondayOf`, midnight truncation and datetime ordering.
- `text.dfy` holds the `str.lower()` folding of typed answers and the `yes` test.
- `store.dfy` holds the store. The functions say what each operation makes of the `users` map. Class `SessionStore` holds the map and changes it in place through `Register`, `Log`, `View` and `EditOrDelete`.
- `week.dfy` holds the weekly-total filter exactly as written, the total it reports, and the full Monday-to-Sunday week beside it.
- `menu.dfy` holds the entry prompt, one turn of the menu, and a run of the loop over a script of typed turns. `MenuLoop` and `MainMenu` drive a `SessionStore`.

Typed answers and the clock are parameters. `float()` on a duration is a
parameter `parse: string -> Option<real>`. `None` stands for the `ValueError`
it raises.

## Model

| member | source | states |
|---|---|---|
| `Clock.Weekday` | StudySyncMain.py:54 | `weekday()` lies in 0..6 and is 0 exactly on the days congruent to day 1 (a Monday) mod 7 |
| `Clock.MondayOf` | StudySyncMain.py:54 | `now - weekday(now)` days is a Monday, no later than `now` and at most six days earlier |
| `Clock.MondayUnique` | StudySyncMain.py:54-55 | any Monday at most six days before a day is that day's Monday, so weeks do not overlap |
| `Clock.SameWeekIff` | StudySyncMain.py:54-55 | two days share a Monday exactly when the second is within six days after the first one's Monday |
| `Text.Lower` | StudySyncMain.py:75 | lowering keeps the length and folds each character on its own |
| `Text.IsYesExactly` | StudySyncMain.py:85 | a confirmation is accepted exactly for the eight mixed-case spellings of `yes` |
| `Store.HasSessions` | StudySyncMain.py:40-49 | view reports true exactly when the user exists and has at least one session; an absent user is not an error, it just reads as having no sessions |
| `Store.Registered` | StudySyncMain.py:20-29 | a known name leaves the store unchanged; a new name adds exactly that key with no sessions; every existing user keeps its sessions |
| `Store.Logged` | StudySyncMain.py:31-37 | the user's list grows by one, the old list is its prefix, the new session is last, other users are unchanged |
| `Store.SessionIndex` | StudySyncMain.py:77-80 | a typed number selects position k-1 exactly when 1 <= k <= count; 0 and count+1 are rejected |
| `Store.RemoveAt` | StudySyncMain.py:94 | `del` drops one element; earlier ones stay put and later ones move down one place |
| `Store.EditOrDeleteResult` | StudySyncMain.py:70-101 | which message each input leads to (both directions); only a confirmed edit or delete with an in-range number changes anything; an edit replaces just position k-1 with a fresh-dated session; a delete removes just that position; other users are never touched |
| `Store.DeleteLastLeavesNothing` | StudySyncMain.py:92-95 | confirming deletion of a user's only session leaves the user with nothing to view |
| `Store.LoggedIsListed` | StudySyncMain.py:31-49 | after a log the user has sessions to view and the new one is listed last |
| `Store.SessionStore.constructor` | StudySyncMain.py:118 | the store starts as the loaded map |
| `Store.SessionStore.Register` | StudySyncMain.py:20-29 | returns the entered name in both cases and updates the map as `Registered` says |
| `Store.SessionStore.Log` | StudySyncMain.py:31-37 | appends in place as `Logged` says |
| `Store.SessionStore.View` | StudySyncMain.py:40-49 | returns whether there are sessions, plus the listing numbered from 1 in stored order |
| `Store.SessionStore.EditOrDelete` | StudySyncMain.py:70-101 | changes the map and reports the outcome exactly as `EditOrDeleteResult` says |
| `Week.InWindow` | StudySyncMain.py:53-57 | a session counts iff its day is Tuesday to Sunday of `now`'s week, or it is that Monday and `now` is exactly midnight |
| `Week.Filter` | StudySyncMain.py:56-57 | the kept sessions are exactly those of the list that pass the filter, and there are no more of them than in the list |
| `Week.FilterKeepsOccurrences` | StudySyncMain.py:56-57 | each passing session is kept exactly as many times as it occurs, and every other one is dropped, so `sum` sees duplicates |
| `Week.WeekSessions` | StudySyncMain.py:53-57 | the sessions counted this week are exactly the stored ones whose date is in the window |
| `Week.WeeklyTotal` | StudySyncMain.py:51-58 | the reported total sums the durations of the week's sessions; it fails exactly when some in-window session's duration does not parse |
| `Week.CalendarWeekTotal` | StudySyncMain.py:51-58 | the corrected total sums over the full Monday-to-Sunday week; it fails exactly when some duration in that week does not parse |
| `Week.TotalWhere` | StudySyncMain.py:56-57 | the total fails exactly when a counted session's duration does not parse, and it reports the first such duration |
| `Week.TotalIsSumOfFiltered` | StudySyncMain.py:56-57 | filtering and summing in one pass equals summing the filtered list |
| `Week.FilterAppend` | StudySyncMain.py:56-57 | filtering keeps stored order across a concatenation |
| `Week.LoggedJoinsWeek` | StudySyncMain.py:36 | a logged session joins the end of the week's sessions exactly when its date is in the window |
| `Week.OnlyCountedParsed` | StudySyncMain.py:56-57 | durations of sessions outside the window are never parsed: the total depends only on counted ones |
| `Week.TuesdayToSundayCounted` | StudySyncMain.py:53-57 | Tuesday to Sunday of the current week always count |
| `Week.OutsideWeekNotCounted` | StudySyncMain.py:53-57 | the previous Sunday and anything after this Sunday never count |
| `Week.MondayCountedOnlyAtMidnight` | StudySyncMain.py:53-57 | a current-Monday session counts only when `now` is 00:00:00.000000 |
| `Week.TimeOfSessionIgnored` | StudySyncMain.py:57 | only the session's date matters, because `[:10]` cuts its time away |
| `Week.JustLoggedCounted` | StudySyncMain.py:53-57 | a session logged now counts right away unless it is Monday after midnight |
| `Week.CalendarWeekIsSameWeek` | StudySyncMain.py:51-55 | the full week is exactly the days whose Monday is `now`'s Monday |
| `Week.WindowIsWeekLessMonday` | StudySyncMain.py:53-57 | the filter as written equals the full week minus the current Monday, unless `now` is midnight |
| `Week.MondaySessionMissed` | StudySyncMain.py:53-57 | concrete case: Monday "2", Friday "1.5" and last Sunday "5", totalled Friday at noon, give 1.5 as written and 3.5 over the full week |
| `Menu.Enter` | StudySyncMain.py:120-125 | `new` registers and enters as the typed name even if it already existed; any other unknown name stops before the menu; a known name enters unchanged |
| `Menu.Step` | StudySyncMain.py:138-158 | only choice 7 with a `yes` reply exits; choice 4 ends the program exactly when the weekly total fails; only choices 1 and 3 change the store, and only the signed-in user's list |
| `Menu.Run` | StudySyncMain.py:127-158 | the loop leaves at the first confirmed exit; a script used up without leaving held none; other users and the key set are untouched |
| `Menu.ExitsIffConfirmed` | StudySyncMain.py:151-156 | with no weekly total to fail, the loop is left exactly when some turn is a confirmed exit |
| `Menu.VisitTouchesOnlyItsUser` | StudySyncMain.py:118-158 | a whole visit keeps every existing user and their sessions, apart from the signed-in user |
| `Menu.PlayTurn` | StudySyncMain.py:138-158 | one pass of the loop body does to the store exactly what `Step` says |
| `Menu.MenuLoop` | StudySyncMain.py:127-158 | the loop leaves the store and ends as `Run` says |
| `Menu.MainMenu` | StudySyncMain.py:117-158 | an unknown name leaves the store alone; otherwise the store ends as entry followed by `Run` says |

## Left out

- Loading and saving the JSON file (lines 7-18) are not modelled. The model's state is the store after each operation. `save_data` still runs after a declined edit or delete, but that does not change the in-memory store.
- Prompts, printed messages, the banner and the help text are not modelled. Typed lines are parameters. `Outcome` names where `edit_or_delete_session` stops. `Declined` prints no message, and `save_data` still runs.
- The `ValueError` from `int()` on a non-numeric session number (line 77) is not modelled. The number arrives already as an `int`.
- `datetime.now()` is a parameter. The text round trip `str(datetime)` → `[:10]` → `fromisoformat` is modelled as truncation to the day. `datetime`'s range (years 1 to 9999) is not modelled. Neither is the `OverflowError` when the week end falls after 9999-12-31.
- `float()` is the parameter `parse`. Durations add as exact reals, so floating-point rounding is not modelled. The printed total is not modelled either.
- `display_motivational_quote` (lines 60-68) is not modelled, because it is a random pick with no state.
- Text.Lower: folds only ASCII `A`-`Z`, where Python's `str.lower()` also folds other scripts. Every reply is compared with an ASCII word (`yes`, `edit`, `delete`, `no`).
- Store.SessionStore.Log: requires the user to be in the store. `users[username]` would raise `KeyError` otherwise, and `main_menu` only calls it for a user who is present.
- The user record is its session list. A hand-edited file whose record lacks `sessions` (line 42's `.get('sessions', [])`) is not modelled.
- The `while True` loop reads from a finite script. When the script runs out, the model stops with `OutOfInput`. Python's `EOFError` on closed input is not modelled.

## Findings

| source | as written | input that shows it | evidently intended | confidence | as-written member | corrected member |
|---|---|---|---|---|---|---|
| StudySyncMain.py:53-57 | the week starts at Monday with `now`'s time of day, but session dates are cut to midnight, so the current Monday's sessions count only when `now` is exactly midnight | sessions on Monday 2024-01-01 ("2") and Friday 2024-01-05 ("1.5"), totalled Friday at 12:00: the total is 1.5, not 3.5 | count the whole Monday-to-Sunday week, as the function's name and docstring say | high; not executed | `Week.MondaySessionMissed` | `Week.CalendarWeekIsSameWeek` |

`Menu.Step` keeps the window as the program has it, so the menu model describes
what the program does. `Week.CalendarWeekTotal` computes the total over the
corrected window. `Week.WindowIsWeekLessMonday` states the exact difference
between the two windows.
