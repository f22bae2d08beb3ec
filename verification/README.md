# Clinic queue ticketing — Dafny model

This project models the core of a walk-in clinic's queue-ticketing service
(`server.js` and the display logic of `public/scripts.js`). A kiosk issues
numbered tickets in two categories, Normal and Preferencial. An operator
station calls the next ticket by a bounded-priority rule and can recall the
current one. An administrator can reset the numbering. A public display
polls the server and plays a voice announcement built from audio segments.

The server is one immutable `State` record (module `Ticketing`) holding the
two next-number counters, the two FIFO queues, the priority budget
`prioridadePreferencial`, the current call `chamadaAtual`, the issued total
`totalSenhasGeral`, the five-entry history `ultimasChamadas` and
`lastAudioTimestamp`. Each route handler body is a pure function from a state
to a new state and a reply or an error (`Issue`, `CallNext`, `Recall`,
`Reset`, `Stats`). `Step` dispatches one request and `Run` handles a
sequence of them, one at a time, as the server does. `Valid` is the invariant
every reachable state keeps:
- the budget lies in [0, 2];
- the history holds at most five calls;
- a non-zero announcement timestamp implies a current call.

The display (module `Announcer`) has three parts:
- `Announcement`: the segment list of `fazerChamadaVoz`.
- `PlaySequence`: the idealised `playSequence` as a loop, with the function `Played` as its reference.
- The polling tick of `atualizarPainelExibicao`, split at its first `await` into `BeginTick` (the `isPolling` guard) and `FinishTick` (the `lastPlayedTimestamp` rule and the panel). The tick awaits three times (public/scripts.js:117, 118, 123), but `FinishTick` runs everything after the first await as one step. That is sound because `isPolling` stays set throughout, so any tick start in between is a no-op.

`Replay` runs an arbitrary interleaving of tick starts and resumptions.

`ServerLaws`, `Fairness`, `DisplayLaws` and `EndToEnd` hold the lemmas
relating several operations; `Fairness` holds the first-in-first-out and
bounded-waiting laws of the Normal queue. `Decimal` models `String(n).padStart(3, '0')` and reads digit
strings back, and `Common` holds `Option` and `Result`.

Inputs the source takes from the environment are parameters:
- `Date.now()` is the `now: nat` argument of `CallNext` and `Recall`;
- the outcome of a fetch is an `Option<Snapshot>`;
- how each audio segment's playback ends is a `fates: nat -> Fate` function;
- the audio-activation gate is the boolean `audioOn`.

Four behaviours of the code to keep in mind:
- The announcement marker is the wall-clock time of the last call or recall, and reset sets it to 0, so nothing guarantees that it grows. No monotonicity is claimed for it.
- The statistics route returns the whole history, up to five entries. The display shows only the first three (`Render`).
- Display codes are not unique: reset restarts numbering while older tickets stay queued. `ResetRestartsNumbering` shows N001 being issued again.
- The priority rule bounds a Normal ticket's wait only between resets. Reset zeroes the budget and keeps the queues, so Preferencial tickets can be served back to back across it (`ResetDefeatsBoundedWaiting`).

## Model

| member | source | states |
|---|---|---|
| Decimal.ToDecimal | server.js:84 | `String(n)` is a non-empty digit string, with a leading '0' only for 0 and one digit exactly below 10 |
| Decimal.PadStart | server.js:84 | `padStart(width, '0')` yields max(width, length) characters, ends with the original string, and fills only with '0'; it never truncates |
| Decimal.ValueOfDecimal | server.js:84 | the decimal numeral of `n` reads back as `n` |
| Decimal.PaddedValue | server.js:84 | the zero-padded numeral of `n` is all digits and still reads back as `n` |
| Ticketing.ParseType | server.js:82-92 | a ticket type is accepted exactly when it is the string "Normal" or "Preferencial" |
| Ticketing.DisplayCode | server.js:83-88 | a code is the category letter then at least three digits, reading back as the ticket number and ending in its unpadded decimal (1000 gives N1000) |
| Ticketing.Valid | server.js:19-31 | the invariant of reachable states: the budget `prioridadePreferencial` lies in [0, 2], `ultimasChamadas` holds at most five calls, and a non-zero `lastAudioTimestamp` implies a current call; it is kept by every request (`Step`) |
| Ticketing.Issue | server.js:78-99 | an invalid type fails with 400 and changes nothing; a valid one returns the code of the old counter, appends it to that category's queue, bumps that counter and the total by one, and leaves the other queue, the other counter and the call state alone |
| Ticketing.Arbitrate | server.js:106-116 | the rule picks nothing exactly when both queues are empty; it picks Preferencial exactly when that queue is non-empty and budget remains or Normal is empty; serving Normal zeroes the budget, serving Preferencial adds one only while under budget |
| Ticketing.PushHistory | server.js:118-123 | the replaced call (if any) goes in front, the rest is a prefix of the old history, the oldest drops once six would be held, and the length stays at five or fewer |
| Ticketing.CallNext | server.js:102-137 | with both queues empty it fails with 404 and changes nothing; otherwise it serves the head of the queue the rule picks and removes only that head, with the budget update above; the new current call is that code with the caller's station, the old one moves into the history, the timestamp becomes `now`, and counters and total stay the same |
| Ticketing.Recall | server.js:140-149 | succeeds exactly when a current call exists from the same station; success changes only the timestamp, and failure answers 404 and changes nothing |
| Ticketing.RecallMessage | server.js:145 | the recall reply reads "Rechamando senha: <code> na Triagem <station>" |
| Ticketing.Status | server.js:91-147 | an invalid ticket type is answered with 400 and both "nothing to call" and "nothing to recall" with 404; no other status is used |
| Ticketing.ErrorMessage | server.js:91-147 | the `error` text of each of the three error replies |
| Ticketing.Reset | server.js:152-168 | both counters go back to 1, the current call and history are cleared, the budget and timestamp become 0; both queues and the issued total are kept |
| Ticketing.Stats | server.js:171-179 | the snapshot reports the issued total, the sum of both queue lengths, the current call, the history and the timestamp |
| Ticketing.Step | server.js:78-179 | every request keeps the invariant, every error reply leaves the state as it was, and the statistics request changes nothing |
| Ticketing.LoadedState | server.js:41-64 | a state the startup load leaves (stored total and counters, at most five stored calls, empty queues, no current call, zero budget and timestamp) satisfies the invariant, so the laws for valid states hold after a restart |
| Ticketing.Run | server.js:78-179 | requests are handled one at a time, in order, each on the state the previous one left (see `RunAppend`) |
| ServerLaws.InitialValid | server.js:19-31 | the initial state satisfies the invariant |
| ServerLaws.RunPreservesValid | server.js:106-123 | after any sequence of requests from a valid state the budget is still in [0, 2] and the history at most five long |
| ServerLaws.RunAppend | server.js:78-179 | requests are handled one after another, each on the state the previous one left: running two sequences in a row equals running their concatenation |
| ServerLaws.TotalNeverDecreases | server.js:152-166 | the issued total never decreases over any run of requests, resets included |
| ServerLaws.StepKeepsNumbering | server.js:83-87 | no request other than reset lowers either next-number counter |
| ServerLaws.NumberingMonotoneWithoutReset | server.js:83-87 | with no reset in between, neither next-number counter ever decreases |
| ServerLaws.IssuedNumbersIncrease | server.js:82-89 | between resets, a ticket issued after another of the same category reads back as the same category with a strictly larger number |
| ServerLaws.ParseDisplayCode | server.js:84-88 | every issued code reads back as its category and number |
| ServerLaws.DisplayCodeInjective | server.js:84-88 | two codes are equal only if category and number are |
| ServerLaws.IssuedCodeNumber | server.js:82-89 | a valid ticket request succeeds and its code reads back as the counter value before the request |
| ServerLaws.CallConservesTickets | server.js:106-116 | a successful call neither loses nor invents a ticket: the served code plus both queues afterwards are, as a multiset, the queues before |
| Fairness.StepNormalFifo | server.js:82-116 | one request appends a code to the back of the Normal queue, or serves its front, or leaves it alone: the queue followed by what it issues equals what it serves followed by the queue afterwards |
| Fairness.ServedIsReplied | server.js:109-110 | a Normal ticket a call serves is the front of the Normal queue, and is the call's reply |
| Fairness.NormalQueueFifo | server.js:78-179 | over any run of requests, resets included, the starting Normal queue followed by the Normal codes issued equals the codes served, in order, followed by the queue at the end |
| Fairness.StepLowersPressure | server.js:78-149 | a request other than reset, while m > 0 Normal tickets wait, never shortens the Normal queue below what remains of those m; a call lowers 3m - budget by at least one, with m counting down when Normal is served; an issue, recall or poll never raises it |
| Fairness.RunLowersPressure | server.js:106-116 | between resets, over any run of requests, either the first m Normal tickets have all been served or the pressure fell by at least the number of calls made |
| Fairness.BoundedWaiting | server.js:106-116 | between resets: any run of requests from a valid state that makes 3m calls serves the m tickets heading the Normal queue first, in order, whatever is issued, recalled or polled in between; so a Normal ticket with k tickets ahead is called within 3(k + 1) calls |
| Fairness.NormalServedWithinThree | server.js:106-116 | between resets: from a valid state where a Normal ticket waits, any run of requests that makes three calls serves that ticket |
| Fairness.ResetRaceReachable | server.js:78-99 | issuing a fourth ticket, Preferencial, after the scenario's three hands out P003 and leaves N001 waiting behind P001, P002 and P003 with a zero budget |
| Fairness.ResetDefeatsBoundedWaiting | server.js:152-161 | the bound fails across a reset: from the state reached by issuing Normal and three Preferencial tickets (`ResetRaceReachable`), call, reset, call, call serves P001, P002 and P003 and leaves N001 queued, because reset zeroes the budget and keeps the queues |
| ServerLaws.StatsRunChangesNothing | server.js:171-179 | any number of statistics requests leave the state exactly as it was, so repeated snapshots agree |
| ServerLaws.ResetIdempotent | server.js:152-161 | resetting twice is the same as resetting once |
| ServerLaws.FirstCodes | server.js:84-88 | the first codes of each category are N001, P001 and P002 |
| ServerLaws.ResetRestartsNumbering | server.js:152-155 | after a reset the next tickets are N001 and P001 again |
| ServerLaws.RecallKeepsCall | server.js:140-149 | a successful recall leaves everything the statistics expose unchanged except the timestamp |
| ServerLaws.ScenarioIssues | server.js:78-99 | from the initial state, issuing Normal, Preferencial, Preferencial yields N001, P001, P002 and those queues |
| ServerLaws.ScenarioCalls | server.js:102-137 | those queues are served P001 (budget 1), P002 (budget 2), N001 (budget 0), with the history newest first, and a fourth call answers 404 |
| Announcer.CategoryCue | public/scripts.js:60 | the category cue is the Normal one exactly when the code starts with 'N', and the Preferencial one otherwise |
| Announcer.Announcement | public/scripts.js:52-76 | the segments are the calling cue, the category cue, the lower-cased letter ("/.mp3" for an empty code), then one cue per character after the letter in order; their count is 3 + length - 1 (3 for an empty code) |
| Announcer.Played | public/scripts.js:9-49 | with audio on, each segment is attempted once, in order, whatever the fate of the earlier ones; with audio off nothing is attempted |
| Announcer.PlaySequence | public/scripts.js:9-49 | the loop that takes the head of the pending list and continues on every ending yields exactly the reference attempt log |
| Announcer.Render | public/scripts.js:129-167 | the panel shows the queue count, the total, the current code and upper-cased station (or "--"), and only the first three history entries |
| Announcer.BeginTick | public/scripts.js:110-114 | a tick started while another is in flight is a no-op; otherwise it takes the slot |
| Announcer.FinishTick | public/scripts.js:116-172 | the slot is released on every path; a failed fetch, or a newer timestamp with no current call, leaves `lastPlayedTimestamp` unchanged; a timestamp not newer plays nothing; a newer one plays the current code's announcement and then becomes the last played; the last played value never decreases |
| Announcer.Tick | public/scripts.js:110-173 | a whole tick is skipped while polling and otherwise is the start followed by the finish |
| Announcer.Apply | public/scripts.js:110-173 | a start event is `BeginTick`; a resume finishes the tick in flight; a resume on an idle display, with no tick in flight, is a no-op, which is a modelling choice: the browser never delivers such a resume |
| Announcer.Replay | public/scripts.js:110-173 | events are applied in order (see `ReplayAppend`) |
| DisplayLaws.ReplayAppend | public/scripts.js:110-173 | replaying two event sequences in a row equals replaying their concatenation |
| DisplayLaws.AnnouncementRoundTrip | public/scripts.js:56-72 | for a code starting with a capital letter, decoding the segment list gives the code back |
| DisplayLaws.IssuedCodeAnnouncement | public/scripts.js:56-72 | every issued code's announcement decodes back to it, carries its own category cue, and has one cue per digit |
| DisplayLaws.AnnouncementInjective | public/scripts.js:56-72 | two codes starting with a capital letter, as every issued code does, get the same announcement only if they are equal; codes differing only in the case of the letter, such as "a1" and "A1", are not covered |
| DisplayLaws.LastPlayedNeverDecreases | public/scripts.js:121-126 | under any interleaving of tick starts and resumptions, the last played timestamp never decreases and the audio gate is untouched |
| DisplayLaws.GuardIsSingleSlot | public/scripts.js:112-172 | a start while polling changes nothing, and a started tick that finishes always frees the slot |
| EndToEnd.ValidSnapshotNeverFails | public/scripts.js:121-126 | a snapshot of a valid server state never makes the tick throw on a missing current call |
| EndToEnd.CallAnnouncedOnce | public/scripts.js:121-126 | after a call stamped later than the display's last play, the next tick plays the served code's announcement and records the stamp, and polling the same state again plays nothing |
| EndToEnd.ReplacedCallNotAnnounced | public/scripts.js:121-126 | announcements follow the timestamp, not a list of calls: when a second call follows the first before the display polls, the tick announces only the second and records its stamp, and a repeated poll plays nothing, so the first call is never announced |
| EndToEnd.MissedCallExample | public/scripts.js:121-126 | N001 called at time 10 and N002 at time 20 before the display polls: only N002's announcement, which differs from N001's, is played |
| EndToEnd.RecallReannounces | server.js:142-145 | a later-stamped recall makes the display play the same ticket's announcement again in full |
| EndToEnd.SilentDisplayCatchesUp | public/scripts.js:121-126 | with audio off the display plays nothing but still advances its last played timestamp |

## Left out

- HTTP routing, CORS, static files and `app.listen` (server.js:1-16, 181-189): transport plumbing. Each route is its handler body.
- SQLite table creation, `saveCounters` and history inserts (server.js:33-40, 54-58, 70-75, 129-133): writes whose outcome no reply reads.
- The startup load itself (server.js:41-49, 59-64): it only chooses the starting state. It sets the total, both next-number counters and `ultimasChamadas`, so after a restart the next code and every statistics reply depend on it. `LoadedState` describes the states it can leave. Each such state is `Valid`: `LIMIT 5` keeps the history at five or fewer, there is no current call, and the timestamp and budget are 0. So every law other than the scenarios, being stated for any `Valid` state, holds after a restart. The database calls, their callbacks racing with early requests, and the load's failure paths are not modelled.
- The order of a loaded history: `rows.reverse()` on `ORDER BY id DESC` puts it oldest first, while calls push newest first. `LoadedState` takes the stored calls as given and claims no order.
- `Date.now()`: a `now` parameter instead.
- The `Audio` object, the 50 ms pause between segments, `ativarAudio`, and the persisted activation flag read by `init` (public/scripts.js:79-107, 340-353): device and browser APIs. Activation is the boolean `audioOn`, constant during a tick.
- `onerror` and the `play()` rejection both firing for one segment (public/scripts.js:28-46): that would start two continuations over the same shifted array. Only the single-continuation order is modelled.
- DOM rendering beyond the panel contents, `selecionarTriagem`, the station extraction by `split(': ')`, `imprimirSenha`, alerts and confirms (public/scripts.js:129-166, 175-338): UI. Apart from forwarding route replies, the operator and kiosk helpers also start a tick (`await atualizarPainelExibicao()`, public/scripts.js:247, 277, 304, 320). `Replay`'s arbitrary tick-start events already cover those ticks.
- Request fields missing from the JSON body (`undefined` in JavaScript): the type and the station are plain strings.
- JavaScript number limits: counters and timestamps are unbounded naturals. `String(n)` is not modelled beyond 2^53 or in exponent notation.
- Announcer.Announcement: lower-cases only ASCII capitals, not all of Unicode as `toLowerCase` does. Every code the server issues starts with 'N' or 'P'.
- Announcer.Render: upper-cases only ASCII letters of the station, not all of Unicode as `toUpperCase` does.
