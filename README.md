# TruthCard: a verified model of the roast engine, the usage gate and the session

TruthCard.AI is a single React component (`app/routes/truthcard.tsx`).
It "roasts" an uploaded dating-profile picture. This project models the
logic of that component in Dafny:

- **Scoring** (`scoring.dfy`, module `Scoring`). The decoded image's width
  and height, plus one random jitter, give a cringe score and the red flags
  raised. A chain of twenty score buckets, plus a default, picks three
  canned roast lines of one severity. Scores are integer hundredths, and the
  jitter (`Math.random() * 20`, rounded to two decimals) is a parameter in
  [0, 2000]. The aspect-ratio tests `w / h > 1.2` and `w / h < 0.8` are
  cross-multiplied (`5w > 6h`, `5w < 4h`), which also matches JavaScript's
  division for a zero height. The roast texts are the constant `RoastTable`.
  The engine takes the table as a parameter, so what is proved holds for
  any texts.
- **Usage gate** (`usage_gate.dfy`, module `UsageGate`). This is the free
  tier's per-device record `{count, date, locked, lockoutEnd}`. It covers:
  - the start-up reconciliation with storage;
  - the `handleUploadLimit` authorisation;
  - the "already locked" guard of the file handler.

  Days and instants are integers. The storage slot is an optional record.
  An empty `lockoutEnd` string is `None`.
- **Onboarding typewriter** (`typewriter.dfy`, module `Typewriter`). An
  interval reveals the terminal script one character per tick.
  - The function `Step` gives one tick.
  - The class `Typewriter` holds the refs and the displayed lines, and
    updates them in place.
  - `Play` runs the interval to its end and proves that the reveal takes
    exactly (characters + lines) ticks.
- **Session** (`session.dfy`, module `Session`). The class `TruthCard` holds
  the component's state. Its methods are the handlers:
  - file selection, with and without the gate;
  - the file reader's callbacks;
  - the analysis progress tick;
  - publishing a score;
  - popping a red flag;
  - restarting.

  Each method is specified by a transition function on the `Screen` value
  and, for the gate, by the functions of `UsageGate`.

`wrappers.dfy` holds `Option` and `Min`.

Behaviours of the code worth knowing, all modelled as written:

- **A new day does not clear an active lockout.** Reconciliation tests the
  lockout before the date. A record whose month-long lockout is still
  running keeps the session locked on a later day (`NewDayResets`,
  `LockSurvivesReload`).
- **Reconciliation only runs at mount.** It does not run before each
  authorisation. A session left open overnight keeps its count.
- **The free tier gets two uploads per day.** The third attempt is the one
  that locks, even though the refusal message speaks of "3 uploads"
  (`FreshDayAllowsTwo`, `RunGrantsQuota`).
- **The gated handler charges before it checks the file.** It consumes an
  upload before checking the MIME type, so a rejected non-image still
  counts (`SelectFileGated`). That handler (`app/routes/truthcard.tsx:1289-1320`)
  is written outside the component. The in-component handler (`:527-556`)
  never calls the gate. Both are modelled: `SelectFileGated` as the gate is
  designed, and `SelectFile` as the live handler.

## Model

| member | source | states |
|---|---|---|
| Scoring.DimensionWeight | app/routes/truthcard.tsx:180-191 | the points added by the aspect and resolution tests never exceed 55 |
| Scoring.CringeScore | app/routes/truthcard.tsx:193 | the rounded, capped score lies in [0, 100.00], and in fact never exceeds 75.00 |
| Scoring.BucketOf | app/routes/truthcard.tsx:195-326 | the bucket chain always selects one of the default and the twenty buckets |
| Scoring.BucketIsCeiling | app/routes/truthcard.tsx:195-326 | on [0, 100.00] the chain is ceiling division by 5.00; the default is taken exactly when the score is below 1.00 |
| Scoring.Roasts | app/routes/truthcard.tsx:195-326 | each bucket yields exactly three roasts, which are the table's three texts for that bucket and share the bucket's severity |
| Scoring.ThemedFlag | app/routes/truthcard.tsx:285-319 | buckets 16 to 20 push exactly one extra unexploded flag, whose id is the bucket minus 12 (ids 4 to 8); every other bucket pushes none |
| Scoring.Analyze | app/routes/truthcard.tsx:171-326 | the scoring step gives a score in [0, 100.00], three roasts and only unexploded flags |
| Scoring.ScoreSeverity | app/routes/truthcard.tsx:195-326 | the three roasts of a score's bucket are mild up to 15.00 (default included), medium up to 60.00 and nuclear above |
| Scoring.DimensionFlagsCarryWeight | app/routes/truthcard.tsx:180-191 | the weight of the flags raised equals the points added, so each flag is pushed exactly when its points are |
| Scoring.FlagsAndWeights | app/routes/truthcard.tsx:180-191 | "Bad Crop" iff w/h > 1.2, "Suspicious Crop" iff w/h < 0.8, never both, "Low Res" iff a side is below 800; the flags' weight is the points added |
| Scoring.ScoreRange | app/routes/truthcard.tsx:193 | the cap never binds: score = weight + jitter, at most 75.00, bucket at most 15, so the themed flags 4 to 8 are unreachable and only flags 1 to 3 appear |
| Scoring.RoastsMatchScore | app/routes/truthcard.tsx:195-341 | the roasts published always have the severity of the published score |
| Scoring.LandscapeExample | app/routes/truthcard.tsx:171-326 | a 1920 by 1080 image with no jitter scores 20.00, raises only "Bad Crop" and gets medium roasts |
| UsageGate.Authorized | app/routes/truthcard.tsx:87-119 | the paid tier passes with nothing changed; on the free tier a record {count + 1, today} is persisted, locked iff count + 1 reached 3 and then carrying a lockout end after now; the call passes iff that record is unlocked; a pass adopts count + 1 and today and leaves the lock alone; a refusal locks until the month-later instant and keeps the count and date |
| UsageGate.Attempt | app/routes/truthcard.tsx:1292-1301 | a locked free session is refused with nothing changed; otherwise the new state is that of the authorisation, granted iff it passes and refused for the limit iff it does not; the paid tier always passes unchanged |
| UsageGate.RunGrantsQuota | app/routes/truthcard.tsx:87-119 | k attempts in a day grant exactly min(k, quota), and end locked iff the session started locked or asked for more than its quota |
| UsageGate.FreshDayAllowsTwo | app/routes/truthcard.tsx:87-119 | from count 0: pass, pass, refuse and lock (record {3, today, locked, month later}, count kept at 2), then the guard refuses |
| UsageGate.ReconciledAgreesWithStorage | app/routes/truthcard.tsx:60-84 | after reconciliation the session is locked iff a stored lockout was running or the session already was; an unlocked session's count is the stored count of a record dated today; nothing stored changes nothing |
| UsageGate.SameDayRestores | app/routes/truthcard.tsx:66-71 | at mount, a record of today without a running lockout restores its count and date, leaves the session unlocked and the storage as it was |
| UsageGate.ReconcileIdempotent | app/routes/truthcard.tsx:60-84 | reconciling twice at the same day and instant is reconciling once |
| UsageGate.LockSurvivesReload | app/routes/truthcard.tsx:60-119 | a lockout written by a refusal locks any reload before its end, on any day |
| UsageGate.GrantSurvivesReload | app/routes/truthcard.tsx:60-119 | after a pass, a same-day reload restores the incremented count unlocked |
| UsageGate.NewDayResets | app/routes/truthcard.tsx:60-84 | on another day a running lockout takes priority; otherwise the count restarts at 0 and {0, today, unlocked, ''} is persisted |
| Typewriter.StartedInv | app/routes/truthcard.tsx:122-125 | entering onboarding starts a consistent reveal with all ticks still to come |
| Typewriter.StepKeepsInv | app/routes/truthcard.tsx:125-149 | each tick keeps the earlier lines whole and the current line a prefix of its script line, and a running tick uses up exactly one tick |
| Typewriter.RemainingZeroAtEnd | app/routes/truthcard.tsx:126-148 | no tick remains exactly when the interval has been cleared |
| Typewriter.StepsConsume | app/routes/truthcard.tsx:125-149 | k ticks use up k of the remaining ticks, or all of them |
| Typewriter.RevealTakesTotalTicks | app/routes/truthcard.tsx:122-152 | the interval still runs before characters + lines ticks; after that many, every line is shown, the interval is cleared and the move to upload is scheduled |
| Typewriter.Typewriter.constructor | app/routes/truthcard.tsx:46-57 | at mount nothing is shown and both refs are 0 |
| Typewriter.Typewriter.Start | app/routes/truthcard.tsx:123-124 | entering onboarding shows one empty line and starts the interval |
| Typewriter.Typewriter.Tick | app/routes/truthcard.tsx:125-149 | the interval callback performs exactly one step of the reveal in place |
| Typewriter.ScriptTicks | app/routes/truthcard.tsx:46-54 | the onboarding script has 265 characters, so its reveal takes 272 ticks |
| Typewriter.Onboard | app/routes/truthcard.tsx:46-152 | a terminal mounted over the script and played to its end shows the whole script after exactly 272 ticks |
| Typewriter.Typewriter.Play | app/routes/truthcard.tsx:122-152 | from mount, the loop ends after exactly characters + lines ticks with the whole script displayed, the interval cleared and the move to upload scheduled |
| Session.NextProgress | app/routes/truthcard.tsx:160-164 | a progress tick never exceeds 100%, never goes backwards, and reports completion iff it reached 100% |
| Session.ProgressIsCappedSum | app/routes/truthcard.tsx:159-164 | progress after a run of ticks is the running sum of the steps, capped at 100% |
| Session.ImageMimeIsPrefix | app/routes/truthcard.tsx:531 | a file is accepted iff its type is "image/" followed by anything |
| Session.Explode | app/routes/truthcard.tsx:587-589 | popping keeps length, order, ids and texts, and marks exploded exactly the flags with that id, others unchanged |
| Session.ExplodeIdempotent | app/routes/truthcard.tsx:587-589 | a repeated click changes nothing |
| Session.ExplodeCommutes | app/routes/truthcard.tsx:587-589 | two clicks give the same flags in either order |
| Session.ExplodeAfterAnalysis | app/routes/truthcard.tsx:178-191 | after one click on freshly scored flags, a flag is exploded iff it has the clicked id |
| Session.RestartScreen | app/routes/truthcard.tsx:666-679 | the restart screen is the mount screen on the upload step |
| Session.TruthCard.constructor | app/routes/truthcard.tsx:24-44 | at mount the screen is the initial one, the tier is Free, usage is zero and unlocked with storage as found |
| Session.TruthCard.ReconcileUsage | app/routes/truthcard.tsx:60-84 | the effect performs the reconciliation in place and touches nothing else |
| Session.TruthCard.HandleUploadLimit | app/routes/truthcard.tsx:87-119 | the handler's result and new usage state are those of the authorisation; the screen and tier are unchanged |
| Session.TruthCard.SelectFileGated | app/routes/truthcard.tsx:1289-1311 | no file does nothing; otherwise the usage state is that of the guarded attempt, a locked or exhausted session is refused, a non-image after a pass is refused, an image starts loading under its name |
| Session.TruthCard.SelectFile | app/routes/truthcard.tsx:527-556 | an image (and only an image) starts loading under its name; no file or a non-image returns to the upload step; usage untouched |
| Session.LoadStartsAnalysis | app/routes/truthcard.tsx:539-544 | a successful read attaches the image, stops the loader and shows the analyzing screen with the analysis running from zero progress |
| Session.ReadFailureStalls | app/routes/truthcard.tsx:539-549 | as written, a failed read ends on the analyzing screen with no image, so the analysis effect (guarded at 157) never runs |
| Session.IntendedReadFailureReturnsToUpload | app/routes/truthcard.tsx:545-549 | a failed read that only runs the error callback returns to the upload step with the loader off and never stalls |
| Session.TruthCard.FileLoaded | app/routes/truthcard.tsx:539-544 | the `loadend` callback attaches the reader's result (none after a failure), stops the loader and switches analysis on; with an image the progress restarts at zero (158) |
| Session.TruthCard.FileReadFailed | app/routes/truthcard.tsx:539-549 | a read error runs `onerror` and then `loadend` with no result, which is the stalled end state |
| Session.TruthCard.FileReadFailedIntended | app/routes/truthcard.tsx:545-549 | the intended read-error handling: back to the upload step, loader off, nothing else changed |
| Session.TruthCard.ProgressTick | app/routes/truthcard.tsx:159-164 | one progress tick in place; analysis stops when 100% is reached |
| Session.TruthCard.ShowRoast | app/routes/truthcard.tsx:336-341 | score, roasts and flags of the analysis are shown on the roast screen with lip-sync on; usage untouched |
| Session.TruthCard.HandleRedFlagClick | app/routes/truthcard.tsx:587-589 | the flags are popped in place; nothing else changes |
| Session.TruthCard.HandleRestart | app/routes/truthcard.tsx:666-679 | every screen field is reset to the restart screen; tier and usage counters are kept |

## Left out

- Heatmap: its six random values (`app/routes/truthcard.tsx:327-334`) are random draws that nothing else reads.
- Timers: the lip-sync, share-card and support-popup delays (342-401), the 1.5 s delay before leaving onboarding (143), and the 50 ms and 300 ms periods. Only each tick's or callback's state change is modelled; the move to upload is a scheduled flag.
- The support popup built by direct DOM manipulation (344-401), and all markup, styling and animation: presentation only.
- React's deferred evaluation of updater functions. Each handler is modelled as applying its updates at once.
- Typewriter.Step, Typewriter.Typewriter.Tick: the source's `setDisplayedLines` updater (129-133) reads `lineIndex.current` and `charIndex.current` when React runs it at render, after the `charIndex.current++` at 134. So the program's partly typed line is usually one character ahead of the modelled `lines[lineIndex][..charIndex]`. When two ticks run before a render, a pending updater can write into the next line's slot. The model evaluates the updater at the tick, with the values the refs had then.
- Session.TruthCard.ProgressTick: the source's updater has an uncapped `prev + Math.random() * 10` in floating point. The model takes one step in hundredths of a percent as a parameter.
- The image decode that `ShowRoast` waits for: width and height are parameters.
- Export and sharing (`html2canvas`, `jsPDF`, `navigator.share`, 595-664): foreign libraries and browser APIs.
- Payments (Razorpay order creation and widget): network calls and a third-party script.
- `localStorage` and JSON encoding: the stored record is a field, and the encoding is not modelled.
- Calendar arithmetic: `setMonth(+1)` and the ISO date strings. The month-later instant and today's day number are parameters.
- The code after the `return` inside the image callback (434-515): unreachable.
- `showCookieBanner`, `isDragging` and the drag handlers, which only forward to the file handler: presentation state.
- The `error` app state and the user-visible alerts: nothing in the modelled handlers enters the error state, and the alerts are I/O.
- Build configuration (`vite.config.js`, `vite.config.ts`, `next.config.js`): no logic.

## Findings

| source | as written | input that shows it | evidently intended | confidence | as-written member | corrected member |
|---|---|---|---|---|---|---|
| app/routes/truthcard.tsx:539-549 | on a read error `onerror` returns to the upload step, but a FileReader fires `loadend` after `error` too, so `onloadend` then attaches the null result, sets `isAnalyzing` and shows the analyzing screen; the analysis effect needs an image (157), so nothing ever leaves that screen | any file whose read fails (for instance one removed from disk after it was chosen) | a read error returns to the upload step with the loader off | high, not executed | Session.ReadFailureStalls | Session.IntendedReadFailureReturnsToUpload |
