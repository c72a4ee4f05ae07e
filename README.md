# Stop Trivia: room protocol, Tic-Tac-Toe board and login form in Dafny

This project models the parts of the Stop Trivia app (React Native over a
Firebase document store) that carry rules, as opposed to rendering:

- **The Stop room.** This is the shared room document of the word game Stop
  and the writes each device makes to it: a host creates the room, joiners
  append themselves, and the host starts a round once everyone is ready.
  Every device then runs a 3-2-1 countdown, bumps the round and runs a
  per-second clock that is synchronised to the server's clock. "Stop",
  answer upload, points and leaving follow. The screen
  (`StopScreen.StopSession`) is a class whose fields are the component's
  state and refs. Each handler is a method that edits those fields and/or
  merges one partial document into the store (`StopScreen.StopBackend`). The
  interval timer is `Tick(now)`. The store subscription is
  `OnGameChange(offset)`, run against whatever the store holds.
- **Tic-Tac-Toe.** This covers the nine-cell board, the first-winning-line
  verdict over the eight lines in the screen's order, the square-press rule,
  reset, and the room bookkeeping (create, join, leave). The screen is the
  class `TttScreen.TttSession`. `checkWinner`'s loop is the method
  `TttBoard.FindWinner`, proved equal to the verdict function
  `TttBoard.Judge`.
- **The e-mail login form.** `validate`'s ordered chain of checks is
  `Login.Validate`. The service error-code `switch` is
  `Login.AuthErrorMessage`. The sign-in and password-reset handlers are
  methods of `Login.LoginForm`. String trimming follows ECMAScript's
  `String.prototype.trim` (white space and line terminators), in `JsString`.

Modules: `Wrappers` (Option), `Roster` (player lists: join, leave, points),
`Rooms` (status, identity, host rule, countdown edge), `StopRoom` (room
document and merges), `StopScreen`, `JsString`, `TttBoard`, `TttScreen`,
`Login`.

The store is a map from room id to room. `Fire.setGame` overwrites and
`Fire.deleteGame` removes. `Fire.updateGame` merges into an existing room
and leaves a missing one absent, as a document-store update does.
`Fire.updatePlayerInputs` is not part of this model. It is taken to record
the answers under (room id, user id), in `StopBackend.answers`.

Several callbacks in the source are closures created once at mount, so they
read the state as it was then. The model follows what they read:
- The Stop subscription's `if (!isStarting)` always sees `false`, so every
  rising edge starts the countdown.
- The Tic-Tac-Toe subscription's `handleReset()` sees no room data and so
  writes `playersReady: 1`.
- Its STOPPED-branch `checkWinner()` reads the empty mount-time board and
  therefore changes nothing (`TttBoard.EmptyBoardUndecided`).

## Model

| member | source | states |
|---|---|---|
| Roster.Join | app/stop.tsx:220-234 | append-if-absent: an already-present id leaves the list unchanged, otherwise the joiner is appended at the end; the old entries stay as a prefix; the id is present afterwards |
| Roster.Leave | app/stop.tsx:303-307 | the filter keeps exactly the entries of the old list whose id differs; no entry with the id remains; a list without the id is unchanged |
| Roster.SumPoints | app/stop.tsx:507-515 | same length; every entry with the user's id gains `toAdd` points, every other entry is unchanged |
| Roster.LeaveConcat | app/stop.tsx:303-307 | leaving distributes over concatenation, so the remaining entries keep the order of the list the filter is given (which on screen is the points order the render sorts it into) |
| Roster.JoinIdempotent | app/stop.tsx:220-222 | a rejoin adds nothing: joining twice equals joining once |
| Roster.LeaveUndoesJoin | app/ttt.tsx:192-204 | leaving right after a first join restores the list |
| Roster.JoinKeepsUnique | app/ttt.tsx:192-204 | join keeps player ids unique |
| Roster.LeaveKeepsUnique | app/ttt.tsx:278-285 | leave keeps player ids unique |
| Roster.SumPointsTotal | app/stop.tsx:507-519 | the points total grows by `toAdd` times the number of entries carrying the id |
| Roster.UniqueCountAtMostOne | app/stop.tsx:507-515 | with unique ids the id occurs once if present and never otherwise, so the credit goes to exactly one entry |
| Roster.LeaveLength | app/stop.tsx:303-307 | leave removes exactly as many entries as carry the id |
| Rooms.HostName | app/stop.tsx:209 | the host field is the uid when it is a non-empty string, otherwise "no-host"; never empty |
| Rooms.CreatorIsHost | app/stop.tsx:209 | the creator passes the host test `gameData.host === userId` exactly when signed in |
| Rooms.DisplayRound | app/stop.tsx:976 | a stored round 0 is shown as 1, a missing room as 0, every later round as itself |
| Rooms.CountdownEdge | app/stop.tsx:258-276 | a rise happens exactly on IN_PROGRESS with the flag down; a fall exactly on STOPPED with the flag up |
| Rooms.AfterEdge | app/stop.tsx:258-276 | a rise raises the flag, a fall lowers it, anything else keeps it |
| Rooms.EdgesAlternate | app/stop.tsx:258-276 | over any run of snapshots, rises plus the initial flag equal falls plus the final flag |
| Rooms.AtMostOneRunningRound | app/stop.tsx:258-276 | from the mount state, countdown starts outnumber timer stops by at most one |
| StopRoom.EmptyInputs | app/stop.tsx:81-92 | ten answers, all empty |
| StopRoom.Entry | app/stop.tsx:201-207 | the player entry carries the user's id, 0 points and the current answers |
| StopRoom.NewRoom | app/stop.tsx:191-212 | round 0, CREATED, one ready player who is the creator, letter "-", start time 0, the round length, host from `HostName`; ids unique and readiness equals the player count |
| StopRoom.JoinRoom | app/stop.tsx:215-236 | only `players` changes; the joiner's id is present; old entries are a prefix; an already-present joiner changes nothing; a new one is the single appended entry |
| StopRoom.PickLetter | app/stop.tsx:360-363 | the drawn letter is one character in A-Z |
| StopRoom.Start | app/stop.tsx:366-370 | the play merge sets IN_PROGRESS, the letter and the server start time, and every other field of the room is kept |
| StopRoom.Halt | app/stop.tsx:377-380 | the stop merge sets STOPPED and one ready player, and every other field of the room (round length, timestamp and id included) is kept |
| StopRoom.MarkReady | app/stop.tsx:386-388 | the ready merge writes one more than the readiness the player saw; the stored room differs in no other field |
| StopRoom.BumpRound | app/stop.tsx:411-413 | the countdown merge writes one past the round of the snapshot it started from; the stored room differs in no other field |
| StopRoom.CreditPoints | app/stop.tsx:507-519 | the points merge writes the snapshot's players with the user credited; no other field changes |
| StopRoom.ReadyAfterLeave | app/stop.tsx:308-311 | a leaving joiner writes `players.length - 1` when more than one was ready, else 1 |
| StopRoom.LeaveRoom | app/stop.tsx:301-312 | the leave merge writes the snapshot's players without the user's entries and the recounted readiness; no other field changes |
| StopRoom.Apply | app/stop.tsx:366-413 | of all the merges only the countdown's touches `round`; none touches the id or the host |
| StopRoom.Update | app/stop.tsx:366-370 | an update changes only the named room and never adds or removes a room |
| StopRoom.RemainingTime | app/stop.tsx:438-440 | the time left t is the unique value with 1000*(currentTime - t) <= now + offset - startTime < 1000*(currentTime - t + 1), i.e. floor division by 1000 |
| StopRoom.RemainingTimeExample | app/stop.tsx:437-442 | offset 500, 60 s round, 58.5 s after the start: 1 s left |
| StopRoom.RemainingTimeMonotone | app/stop.tsx:437-442 | time left never increases as the local clock advances |
| StopRoom.RemainingTimeExpires | app/stop.tsx:453 | once the server-adjusted elapsed time reaches the round length, the time left is at most 0 |
| StopRoom.UpdateKeepsRounds | app/stop.tsx:411-413 | no merge lowers any stored round; the countdown merge from the stored snapshot raises it by exactly one |
| StopRoom.FreshRoomCannotStart | app/stop.tsx:340-348 | nobody can start a freshly created room: the host is alone |
| StopRoom.JoinAndReadyEnableStart | app/stop.tsx:339-358 | after one new joiner and one ready press, the signed-in host passes every play gate |
| StopRoom.LeaveOfReadyRoom | app/stop.tsx:308-311 | when everyone was ready and a ready joiner leaves, the recount equals the remaining player count |
| StopRoom.LeaveRecountCanOvercount | app/stop.tsx:308-311 | with four players of whom two are ready, a non-ready joiner's leave records three ready out of three, so the play gate opens |
| StopRoom.PressStopAsWritten | app/stop.tsx:375-381 | the stop press as written sends the stop merge to the room named by the route parameter, and changes nothing when no such room exists |
| StopRoom.HostStopPressIsLost | app/stop.tsx:377 | a host whose route parameter is "" presses stop and its running room stays IN_PROGRESS |
| StopRoom.PressStopWrite | app/stop.tsx:375-381 | the corrected stop press stops the room the snapshot came from, with one ready player, and no other room |
| StopRoom.StopPressStopsSeenRoom | app/stop.tsx:375-381 | the corrected press always stops the seen room, and agrees with the as-written one whenever the route parameter is that room's id |
| StopScreen.StopBackend.constructor | app/stop.tsx:193 | the store starts empty |
| StopScreen.StopSession.constructor | app/stop.tsx:65-99 | the initial state: no room data, 0 points, count 3, 300 s, letter "-", empty answers, flag down, no timer |
| StopScreen.StopSession.Mount | app/stop.tsx:183-237 | online: a fresh room stored under the new id; join: the joiner is merged in if absent; offline: the store is untouched; the clock shows the round length |
| StopScreen.StopSession.RestartInputs | app/stop.tsx:542-556 | the dialog closes and all ten answers are cleared |
| StopScreen.StopSession.CountdownSync | app/stop.tsx:403-430 | count 3, starting, answers cleared, the 3-2-1 timer armed, and the round bump merged into the snapshot's room |
| StopScreen.StopSession.StopTimer | app/stop.tsx:477-494 | signed in: the answers are stored under (room, user), the timer cleared, ready dropped; signed out: nothing |
| StopScreen.StopSession.OnGameChange | app/stop.tsx:239-277 | a deleted room sends a joiner back and changes nothing else; otherwise the snapshot is stored and the flag follows `CountdownEdge`; a rise arms the countdown, clears the answers and bumps the round; a fall resets the count and, when signed in, uploads the answers and stops the timer; a hold keeps timer, count, answers and store; rounds never go down |
| StopScreen.StopSession.Tick | app/stop.tsx:417-467 | with no timer nothing changes; the countdown steps 3-2-1 then shows the letter and hands over to the round clock, writing nothing; the round clock shows `RemainingTime` and at 0 or below shows 0, uploads the answers and stops when signed in, and, on the host, writes STOPPED; letter and count stay as they were while the clock runs; rounds never go down |
| StopScreen.StopSession.PressPlay | app/stop.tsx:337-373 | the start merge is written exactly when the user is the host, there are two or more players and all are ready; otherwise nothing is written |
| StopScreen.StopSession.PressStop | app/stop.tsx:375-382 | with room data, the seen room becomes STOPPED with one ready player (corrected target); without, nothing |
| StopScreen.StopSession.PressReady | app/stop.tsx:384-391 | with room data, readiness one past the snapshot's is written and the button hides; without, nothing |
| StopScreen.StopSession.PressRestart | app/stop.tsx:393-400 | the confirmation opens exactly when some answer is non-blank after trimming |
| StopScreen.StopSession.SetAnswer | app/stop.tsx:754-866 | an answer changes only when the fields are editable: offline, or in a started round |
| StopScreen.StopSession.AddPoints | app/stop.tsx:496-520 | the score grows offline or when signed in with room data; in the latter case the credited players are merged into the room, otherwise nothing is written |
| StopScreen.StopSession.Exit | app/stop.tsx:568-582 | the dialog closes, the timer stops, the screen leaves |
| StopScreen.StopSession.BackPress | app/stop.tsx:522-540 | always handled; offline exits; online or joined with no room data or in a running round nothing changes; one player exits; otherwise the confirmation opens |
| StopScreen.StopSession.OpenPlayerInputs | app/stop.tsx:609-618 | another player's answers open only online, connected, outside CREATED and IN_PROGRESS, and never for oneself |
| StopScreen.StopSession.SetConnection | app/stop.tsx:280-282 | the connection flag follows the listener |
| StopScreen.StopSession.Unmount | app/stop.tsx:284-314 | the timer stops; the host deletes its room; a joiner merges its leave; nothing else is written |
| JsString.LeadingSpaces | components/LoginForm.tsx:85 | the count of leading white space: all of them white space and the next one not |
| JsString.TrailingSpaces | components/LoginForm.tsx:85 | the count of trailing white space: all of them white space and the one before them not |
| JsString.Trim | components/LoginForm.tsx:85 | `trim()`: a slice of the input between an all-white-space prefix and an all-white-space suffix, itself neither starting nor ending with white space |
| JsString.TrimEmptyIffBlank | app/stop.tsx:394-396 | a string trims to "" exactly when every character is white space |
| JsString.TrimKeepsInner | components/LoginForm.tsx:106 | every non-space character survives trimming |
| JsString.TrimUnpadded | components/LoginForm.tsx:96 | a string with no white space at either end is its own trim |
| TttBoard.InitialBoard | app/ttt.tsx:58 | nine empty cells |
| TttBoard.FirstWin | app/ttt.tsx:325-332 | the first complete line at or after a position, with every earlier one incomplete, or none at all |
| TttBoard.Judge | app/ttt.tsx:313-337 | a win exactly when some line is complete, by the non-empty mark of the first complete line in list order; a draw exactly when full with no complete line; otherwise undecided |
| TttBoard.FindWinner | app/ttt.tsx:313-337 | the loop with its early return computes `Judge` |
| TttBoard.TopRowWins | app/ttt.tsx:315-329 | a top row of X wins for X |
| TttBoard.EmptyBoardUndecided | app/ttt.tsx:243-245 | the empty board is undecided |
| TttBoard.CountAfterPlace | app/ttt.tsx:361-362 | marking an empty cell adds one of that mark, removes one empty, and leaves the other counts alone |
| TttBoard.CountEmptyBoard | app/ttt.tsx:58 | the empty board holds no X and no O |
| TttScreen.RandomXO | app/ttt.tsx:290-294 | the starting player is X or O, X for index 0 |
| TttScreen.HostEntry | app/ttt.tsx:173-178 | the host's entry: its id and photo, 0 points |
| TttScreen.JoinerEntry | app/ttt.tsx:198-202 | the joiner's entry: its id, 0 points, no photo |
| TttScreen.NewTttRoom | app/ttt.tsx:164-184 | round 0, CREATED, one ready player who is the creator, an empty nine-cell board, X or O to start, host from `HostName` |
| TttScreen.Apply | app/ttt.tsx:195-204 | join appends if absent, reset clears the stored board and writes the readiness, leave filters the snapshot's players; each write changes only the fields it names, and every other field of the stored room is kept |
| TttScreen.Update | app/ttt.tsx:382-386 | an update changes only the named room and never adds or removes a room |
| TttScreen.ResetReady | app/ttt.tsx:384-385 | the reset writes `players.length - 1` when more than one was ready in the data it sees, else 1 |
| TttScreen.ResetRecount | app/ttt.tsx:384-385 | the recount ignores who was ready: four players with two ready give three, two players both ready give one, no data gives one |
| TttScreen.ResetIgnoresReadiness | app/ttt.tsx:384-385 | for every room with more than one ready player the reset writes the player count minus one, the same for any readiness above one, and more than the readiness whenever fewer than all but one were ready |
| TttScreen.ResetKeepsReadinessIff | app/ttt.tsx:384-385 | with more than one ready player, the written readiness equals the stored one exactly when the stored one was the player count minus one |
| TttScreen.TttBackend.constructor | app/ttt.tsx:166 | the store starts empty |
| TttScreen.TttSession.constructor | app/ttt.tsx:61-70 | the initial state: empty board, X to move (balanced), no winner, not ready, connected |
| TttScreen.TttSession.Mount | app/ttt.tsx:157-207 | online: a fresh room stored under the new id; join: the joiner merged in if absent; offline and computer: nothing written |
| TttScreen.TttSession.CheckWinner | app/ttt.tsx:313-337 | a complete line sets the winner and "X Win"/"O Win"; a draw sets only the winner; otherwise nothing changes |
| TttScreen.TttSession.SquarePress | app/ttt.tsx:359-366 | a filled cell or a decided game changes nothing; otherwise only that cell takes the mover's mark and the turn flips; X stays at most one move ahead of O |
| TttScreen.TttSession.Reset | app/ttt.tsx:374-387 | empty board, winner and text cleared; only offline gives the move back to X; offline and join write nothing; the other modes merge the cleared board into the route's room |
| TttScreen.TttSession.Press | app/ttt.tsx:368-372 | only "restart" does anything: it makes `Reset`'s changes (board, winner, turn, and the merge into the route's room) with the room data on screen |
| TttScreen.TttSession.OnGameChange | app/ttt.tsx:219-252 | the turn never changes; a deleted room sends a joiner back and changes nothing else; otherwise the snapshot and its board are taken, a CREATED room clears ready and resets with no room data, and any other status keeps ready, winner and its text |
| TttScreen.TttSession.Exit | app/ttt.tsx:389-392 | the dialog closes and the screen leaves |
| TttScreen.TttSession.BackPress | app/ttt.tsx:339-357 | always handled; offline and computer exit; online or joined with no room data or in a running round nothing changes; one player exits; otherwise the confirmation opens |
| TttScreen.TttSession.SetConnection | app/ttt.tsx:254-256 | the connection flag follows the listener |
| TttScreen.TttSession.Unmount | app/ttt.tsx:258-287 | the host deletes its room; a joiner merges its leave; nothing else is written |
| Login.Validate | components/LoginForm.tsx:82-117 | each message is given exactly when its own check fails and every earlier check passes, in the order credentials, password mismatch (6 or more characters), name under 3, name over 20, space in the name; sign-in runs only the first check; no error exactly when all checks pass; the empty-name error never occurs |
| Login.AuthErrorMessage | components/LoginForm.tsx:179-209 | the credentials message exactly for codes outside the seven listed; a listed code gives a message that no field check produces |
| Login.AuthErrorMessageInjective | components/LoginForm.tsx:180-208 | the seven listed codes give seven distinct messages |
| Login.AttemptAsWritten | components/LoginForm.tsx:147-177 | as written, the sign-in form always calls sign-in; the sign-up form calls sign-up exactly when the passwords are equal, with the trimmed name |
| Login.BlankSignInReachesService | components/LoginForm.tsx:147-158 | as written, a blank sign-in form fails validation yet calls sign-in with ("", "") |
| Login.ShortNameReachesService | components/LoginForm.tsx:147-162 | as written, a one-letter display name fails validation yet the sign-up call is made |
| Login.SigninAttempt | components/LoginForm.tsx:147-177 | the corrected handler calls nothing while validation fails, and otherwise makes the as-written call |
| Login.AttemptsAreValid | components/LoginForm.tsx:96-116 | every corrected call has non-blank credentials; every sign-up has equal passwords and a trimmed name of 3-20 characters without a space |
| Login.ShortMismatchIsSilent | components/LoginForm.tsx:91-94 | mismatched passwords under 6 characters pass validation, but no call is made |
| Login.LoginForm.constructor | components/LoginForm.tsx:45-53 | empty fields, no error, not loading, sign-in form |
| Login.LoginForm.ChangeForm | components/LoginForm.tsx:123 | the form switches between sign-in and sign-up |
| Login.LoginForm.Forgot | components/LoginForm.tsx:125-141 | no e-mail: the empty-e-mail error and no reset mail; otherwise a reset mail to that address and the error cleared |
| Login.LoginForm.Signin | components/LoginForm.tsx:143-216 | the call made is `SigninAttempt`; the message afterwards is the validation error, or the mapped service error on a failed call, or none; loading ends off |

## Left out

- Firebase: store calls are modelled as single atomic edits of the store's map. Latency, failures, retries and interleavings of concurrent read-modify-write merges are not modelled. The `.catch(() => null)` on the leave write is not modelled either.
- Firebase sign-in, sign-up, profile update, verification and reset mail are foreign calls. Their outcome is a parameter of `Login.LoginForm.Signin`, and `Forgot` returns the address it would mail.
- Google sign-in (`googleSignin`) is an SDK flow with no rules of its own.
- Randomness: `sixDigit()` and `Math.random()` become parameters. These are the new room id, the letter index `k < 26` and the X/O index `k < 2`.
- Clocks: `Date.now()`, `Fire.getServerTimeMs` and `Fire.getServerOffset` become parameters.
- Scheduling: the intervals are `Tick` calls, one per firing. The timing between firings is not modelled.
- UI effects are left out: vibration, toasts, ads, animations, the title text (`setTitleByGameStatus`), the timer colour, the clipboard copy, the back-handler registration, the players sheet (`handlePlayers`) and translations.
- Text-field edits of the login form and its show-password toggle are plain assignments and are not modelled as methods. The Stop answer fields are modelled, as `SetAnswer`.
- Lengths: JavaScript's `.length` counts UTF-16 code units, while the model counts characters. `Login.Validate` therefore differs from the source for display names and passwords (the six-character mismatch check) with characters outside the Basic Multilingual Plane.
- Undefined fields: a signed-out user's `uid`, `displayName` and `photoURL` are `None`. Firestore's handling of `undefined` field values is not modelled.
- Against the computer, Tic-Tac-Toe has no computer player in the source. The screen behaves as the offline one with two exceptions: a reset keeps the turn instead of giving it back to X, and it also merges into the route's room (`TttScreen.TttSession.Reset`).
- TttScreen.TttSession.Reset: the merge goes to the route parameter's room, as the source writes it. For a host that parameter is the lobby's join-code field, not the id of its own room, so the host's reset usually writes to no room at all. A reset other than offline keeps the turn, so `Balanced` is re-established only by the offline reset.
- TttScreen.TttSession.OnGameChange: the `checkWinner` effect that reruns after the board changes is the separate method `CheckWinner`, not part of this method.
- CreditPoints, AddPoints and Unmount: the render sorts the room data's player array in place by points, highest first (app/stop.tsx:1064-1066, app/ttt.tsx:682-684). The points merge and the joiner's leave merge therefore send the list in that order, while the model keeps the order the store holds. The model does not capture this reordering, nor the aliasing between the rendered and the stored array.
- The screens app/settings.tsx, app/_layout.tsx and the lobby screens under app/(tabs)/ are not part of this model, and neither are the presentational components.

## Findings

| source | as written | input that shows it | evidently intended | confidence | as-written member | corrected member |
|---|---|---|---|---|---|---|
| app/stop.tsx:377 | the "stop" merge goes to the route parameter `id` | a host in its running room "ab12cd" whose route parameter is "" (the lobby's empty join-code field) presses stop: the room stays IN_PROGRESS | send it to `gameData.gameId`, like the "play" and "ready" merges | not executed | StopRoom.PressStopAsWritten, StopRoom.HostStopPressIsLost | StopRoom.PressStopWrite, StopRoom.StopPressStopsSeenRoom |
| components/LoginForm.tsx:147-154 | `validate` returns what `setError` returns (undefined), so the handler's `if (err)` gate never stops a call | the sign-in form with e-mail "" and password "": validation picks the credentials error, yet sign-in is called with ("", ""); the sign-up form with name "x" and equal passwords still creates the account | no service call while `validate` reports an error | not executed | Login.AttemptAsWritten, Login.BlankSignInReachesService, Login.ShortNameReachesService | Login.SigninAttempt, Login.AttemptsAreValid |
