# Verified model of herdr-tabline

herdr-tabline keeps the tab labels of a terminal multiplexer in line with templates: it takes a
snapshot of the session over a Unix socket, renders a label per tab, renames the tabs that differ,
and remembers per tab which label the user gave (the *source* label) and which label it wrote itself
(the *rendered* label). A daemon does this on events and on a poll interval; a key binding does it
for one tab.

This project models the parts of it whose correctness is not visible in any single function and
proves their properties for all inputs, all interleavings and all runs. `dafny verify dfyconfig.toml`
checks everything.

| file | what it models |
|---|---|
| `Width.dfy` | truncation by display width over grapheme clusters |
| `Render.dfy` | from a template's output to a tab label |
| `Frames.dfy` | the bounded newline-frame reader of the socket client, refining "split at newlines" |
| `Client.dfy` | the client's lifecycle: calls, subscriptions, stream goroutines, cancellation and `Close` |
| `PidRecord.dfy`, `DaemonLock.dfy` | the PID record and the single-daemon lock protocol |
| `Store.dfy` | the label-history file: locked read-modify-write with atomic replacement |
| `Config.dfy` | profile resolution and the hot-reload manager |
| `Collector.dfy` | template contexts of a snapshot |
| `Controller.dfy` | one reconciliation pass |
| `Fixpoint.dfy` | two passes in a row |
| `Sessions.dfy` | whole runs of passes, some interrupted, interleaved with the user |
| `Runner.dfy` | the daemon's event loop over events, timers, reconnects and changing intervals |
| `Common.dfy`, `Model.dfy` | shared datatypes |

Objects and loops of the original are classes, methods and loops here, each proved against a
specification function; the results about those functions are lemmas. The client, the daemon lock,
the history file and the session are state machines over small steps, because their properties are
about interleavings. A lemma about a run quantifies over every finite sequence of enabled steps;
`Client.CloseTerminates` quantifies over every infinite run that starves no goroutine.

## Assumptions

- A label is the sequence of its grapheme clusters, each with a non-negative width. Concatenating and
  reversing labels does not merge clusters (so no runs of regional indicators in the sense of rules
  GB12 and GB13 in section 3.1.1 of Unicode Standard Annex #29), an outer space is a cluster of its
  own, and the ellipsis is one cell wide.
- Regular expressions, globs, path normalization, template execution, the digest and the validation of
  a configuration are uninterpreted functions, passed as parameters. So is the segmentation of a text
  into grapheme clusters; where a result needs it, the clusters are assumed to be non-empty and to make
  up the text.
- The JSON codec is any pair of functions for which decoding an encoded map gives the map back. For
  labels this needs valid UTF-8.
- The buffered reader behaves as documented for Go's `bufio.Reader`: an error of the connection is
  reported after the bytes before it.
- `flock` belongs to an open file description and is released when its process dies; a rename replaces
  a file atomically. Code under a mutex is one step.
- A rename that the client reports as failed has left the label as it was; passes do not overlap.
- With the Go version the module declares (1.22), resetting or stopping a timer or ticker can leave an
  undelivered fire in its channel. `Runner` allows this throughout; the field `discards` selects
  timers that drop the fire, and is used only where a statement says so.

## Where the code does not do what its comments or documentation say

The model follows the code. What holds instead is proved.

- The README promises that warm-up lasts until the stream was quiet for a full poll interval
  (README.md:344-347). Every warm-up of every run ends like that if and only if the timers discard an
  undelivered fire when they are set (`Runner.WarmUpsAreQuietIff`); the timers of the declared Go version
  do not. The guard that decides is whether the settle timer holds a fire when it is set: after a received
  event, a forced refresh or a hot reload, the warm-up can end in that same instant exactly then
  (`Runner.WarmUpCutShortIff`). For every poll interval there are runs that cut it short: a fire that meets
  a replayed event (`Runner.WarmUpCutShort`), a first refresh that takes a poll interval
  (`Runner.WarmUpCutShortByRefresh`), and a fire left over from before a reconnection
  (`Runner.WarmUpCutShortByReconnection`). A run whose steps never keep an old fire ends its warm-ups in
  quiet (`Runner.WarmUpEndsInQuiet`).
- The same timers can cut the debounce interval short: right after a live event its refresh can start if and
  only if the debounce timer keeps undelivered fires and holds one (`Runner.DebounceCutShortIff`,
  `Runner.DebounceCutShort`). Otherwise no event refresh starts before the interval that was in force at the
  event has passed (`Runner.EventRefreshWaits`); a hot reload does not retime a waiting event.
- `ReloadIfChanged` remembers the signature before it looks at the outcome of the load, and takes the
  signature and the configuration from separate looks (internal/config/load.go:226-248). The last reload
  that observed a new signature decides (`Config.LastFreshDecides`), so a valid version that a reload has
  seen is current if and only if that last fresh reload loaded it, or loaded nothing while it was current
  already (`Config.ReloadConvergesIff`). A transient read failure
  (`Config.ConstantFileIsLoadedOrNever`) and a recurring signature (`Config.RecurringSignaturePins`) are
  inputs for which it is not.
- A difference between the shown and the recorded label is taken to mean that the user renamed the tab
  (internal/controller/controller.go:210-212). It does as long as no pass ends between a rename and its
  commit, by a crash, a cancellation or a failed write. Otherwise the next snapshot takes the plugin's own
  label for the user's if and only if the interrupted pass had recorded a rendered label for that tab that
  is not the stored one (`Sessions.InterruptionLosesIff`); `Sessions.InterruptionAdoptsOwnLabel` is a run in
  which it does. Runs whose interruptions avoid that keep the invariant (`Sessions.HistoryIsFaithful`), and
  the recorded sources even survive an interruption whose label is gone by the next snapshot
  (`Sessions.SourcesSurviveInterruptions`).
- A stop request counts on the lock being held to mean that the recorded PID is the daemon's
  (internal/state/lock_unix.go:180-185). The PID it signals is the current daemon's if and only if a daemon
  whose Acquire has returned then holds the lock and the record still reads as it did
  (`DaemonLock.SignalHitsTheDaemonIff`); so it is when one daemon holds the lock from the beginning of the
  request to the signal (`DaemonLock.SteadyDaemonIsHit`). It is not when a crashed daemon has left its record
  and somebody else's probe has the lock for a moment (`DaemonLock.ProbeMakesStaleSignal`), nor when a
  successor comes up between the read and the probe (`DaemonLock.SuccessorMakesStaleSignal`).
- An unterminated stream of exactly 2^20 bytes is refused as too large when whole read buffers fill
  it, and as unterminated otherwise (internal/herdrapi/client_unix.go:351-360); `Frames.Truncated`
  states the condition and `Frames.BufferedReader.ReadNewlineFrame` that it is exact.
- A comment says that no empty label can reach a rename (internal/controller/controller.go:188-189),
  but emptiness is checked before missing values are stripped (internal/render/engine.go:62-65). An
  accepted output gives an empty label if and only if it is one or more copies of `<no value>` and nothing
  else (`Render.EmptyLabelIff`); a single copy does (`Render.PlaceholderIsAccepted`).
  `Controller.AttemptedLabels` says the same of the renames.

## Model

| member | source | states |
|---|---|---|
| `Width.DisplayWidth` | internal/render/width.go:11-18 | The accumulator loop computes the total width of the clusters. |
| `Width.TakePrefix` | internal/render/width.go:60-73 | The loop that stops at the first cluster that does not fit returns the longest prefix within the budget. |
| `Width.TakeSuffix` | internal/render/width.go:75-94 | Collecting from the right and reversing the collected text returns the longest suffix within the budget, in reading order. |
| `Width.ReverseGraphemes` | internal/render/width.go:96-107 | The loop reverses the order of the clusters. |
| `Width.ReversedTwice` | internal/render/width.go:93-107 | Reversing twice is the identity, which is why the suffix comes out in order. |
| `Width.FittingPrefixIsLongest` | internal/render/width.go:60-73 | The prefix kept is a prefix, fits, and every longer one is too wide. |
| `Width.FittingSuffixIsLongest` | internal/render/width.go:75-94 | The suffix kept is a suffix, fits, and every longer one is too wide. |
| `Width.PrefixCutUnique` | internal/render/width.go:66-68 | Stopping at the first cluster that does not fit is enough: only one position has that property. |
| `Width.SuffixCutUnique` | internal/render/width.go:86-89 | The same for the suffix. |
| `Width.TruncationKeepsWhatFits` | internal/render/width.go:20-45 | Both truncations keep a label that fits and leave nothing for a limit that is not positive. |
| `Width.TruncateFits` | internal/render/width.go:20-33 | A truncated label never exceeds the limit, is unchanged when it fits, and otherwise is a prefix and the ellipsis with no room for another cluster. |
| `Width.TruncateMiddleFits` | internal/render/width.go:35-50 | An over-wide label becomes an original prefix, the ellipsis and an original suffix that never overlap and drop at least one cluster; it fits, each side is as long as its half of the budget allows, and at most 2(W-1) cells are wasted. |
| `Width.CutsAreMaximal` | internal/render/width.go:46-49 | Two budgets that together are less than the label's width cut it in two places that do not meet, each wasting less than one cluster. |
| `Width.PaddedTitleIsCut` | internal/render/engine.go:117-120 | An over-wide title between spaces keeps both and the longest part of its interior that leaves room for the ellipsis; slicing off the spaces is never out of range. |
| `Width.ApplyMaxWidthFits` | internal/render/engine.go:112-122 | A positive ceiling is never exceeded, a label that fits is unchanged, both outer spaces survive from three cells on, the ceiling is idempotent, and it empties no label. |
| `Width.CeilingAddsLittle` | internal/render/engine.go:112-122 | The ceiling adds no cluster that was not there but the ellipsis and a space. |
| `Render.AcceptedIff` | internal/render/engine.go:61-65 | A label is made exactly when something was printed that is not a control character; one that fits shows what was printed, stripped and sanitized. |
| `Render.StripKeeps` | internal/render/engine.go:90-92 | A text without the placeholder is kept as it is. |
| `Render.StripTakesFirst` | internal/render/engine.go:90-92 | Of any other text exactly the placeholders are taken, from left to right, and everything between them is kept. |
| `Render.SanitizedAt` | internal/render/engine.go:94-101 | Exactly the control characters become spaces; every other character is kept in its place. |
| `Render.StripsToNothingIff` | internal/render/engine.go:83-92 | Stripping missing values leaves nothing exactly of copies of the placeholder. |
| `Render.EmptyLabelIff` | internal/render/engine.go:50-66 | An accepted output gives an empty label if and only if it is one or more copies of the placeholder, whatever the width ceiling. |
| `Render.PlaceholderIsAccepted` | internal/render/engine.go:61-65 | The placeholder alone passes the check for displayable text and gives an empty label. |
| `Render.LabelIsDisplayable` | internal/render/engine.go:50-66 | A label never carries a control character, and a positive ceiling bounds its width. |
| `Frames.SplitRebuilds` | internal/herdrapi/client_unix.go:339-373 | Accepted frames and the unread rest rebuild every byte stream, each is one line within the limit, and the rest starts with none. |
| `Frames.SplitUnique` | internal/herdrapi/client_unix.go:339-373 | There is no other way to cut a stream into frames and a rest; frames written by a peer are read back exactly. |
| `Frames.TurnIsRight` | internal/herdrapi/client_unix.go:345-361 | One turn of the reading loop either settles the result the whole stream has, or keeps whole buffers without a newline below the limit. |
| `Frames.BufferedReader.ReadSlice` | internal/herdrapi/client_unix.go:346 | A slice read depends only on the unread stream and the buffer size, not on how the stream arrives in chunks. |
| `Frames.BufferedReader.ReadFrameBytes` | internal/herdrapi/client_unix.go:343-362 | The accumulated frame never exceeds 2^20 bytes, and the result and the unread rest are those of the split specification for every stream, chunking and buffer size. |
| `Frames.BufferedReader.ReadNewlineFrame` | internal/herdrapi/client_unix.go:364-373 | A frame is returned exactly when the stream starts with one of at most 2^20 bytes including its newline; an unterminated tail is never returned, and each error has its exact condition. |
| `Frames.BufferedReader.RequireConnectionEnd` | internal/herdrapi/client_unix.go:386-398 | Succeeds exactly at a clean end of the stream. |
| `Frames.BufferedReader.ReadResponse` | internal/herdrapi/client_unix.go:174-185 | A reply is accepted exactly when the connection carried one frame that answers the request and then ended cleanly. |
| `Frames.BufferedReader.StreamEvents` | internal/herdrapi/client_unix.go:276-290 | The stream delivers, in order, the frames up to the first that is not an event, and nothing else. |
| `Client.CallerStepKeepsOpInv` | internal/herdrapi/client_unix.go:142-207 | In every stage of a call or subscription the slot is held exactly in the guarded section, and the caller runs Done exactly when the stream has not taken it over. |
| `Client.StreamStepKeepsOpInv` | internal/herdrapi/client_unix.go:270-291 | The stream goroutine closes its connection and its channel before its one Done. |
| `Client.WithOpKeepsCounts` | internal/herdrapi/client_unix.go:142-155 | A step of one operation changes the wait group and the slot tokens by exactly what it changes in their count. |
| `Client.NextKeepsInv` | internal/herdrapi/client_unix.go:142-320 | Every step of calls, subscriptions, watchers, peers and closes keeps the protocol's invariant. |
| `Client.Accounting` | internal/herdrapi/client_unix.go:142-155 | In every reachable state the wait group counts exactly the operations whose caller, or whose stream once it has taken over, is unfinished, and every other one has run one Done; the tokens are the calls in the guarded section, at most 8, and closeDone was closed at most once. |
| `Client.EnterCloseKeepsClosers` | internal/herdrapi/client_unix.go:295-305 | Exactly one Close call is the first, however many enter together. |
| `Client.CloserKeepsClosers` | internal/herdrapi/client_unix.go:298-309 | Only the first Close call closes closeDone, after the group is zero; no follower returns before that. |
| `Client.ReturnedMeansQuiet` | internal/herdrapi/client_unix.go:307-309 | When any Close call has returned, first or follower, no operation is live, every connection and every handed-out event channel is closed, every context is released and no slot is taken. |
| `Client.QuietForever` | internal/herdrapi/client_unix.go:312-320 | From then on nothing starts and nothing finishes twice. |
| `Client.CloseReturnsOnlyWhenQuiet` | internal/herdrapi/client_unix.go:295-320 | Over whole runs: after a Close call returns, everything that was begun has finished, and no later step begins anything. |
| `Client.CloseNeverDeadlocks` | internal/herdrapi/client_unix.go:295-310 | In every reachable state in which a Close call has not returned, some goroutine has a step that needs neither a free slot nor the peer nor the consumer of the events. |
| `Client.NoStageIsSkipped` | internal/herdrapi/client_unix.go:142-278 | Every success of a caller takes it exactly one stage further. |
| `Client.SubscriptionEndsByFailure` | internal/herdrapi/client_unix.go:202-269 | In any run a subscription ends without handing over to its stream only after a step of its caller failed. |
| `Client.AcknowledgementHandsOver` | internal/herdrapi/client_unix.go:247-292 | In every reachable state, a subscription that reads its acknowledgement on an open connection hands over: connection and channel open, Done still owed. |
| `Client.StreamSendsEvents` | internal/herdrapi/client_unix.go:276-290 | From there, for any number of events the peer delivers, there is a run in which the stream sends each of them and goes on. |
| `Client.CallRuns` | internal/herdrapi/client_unix.go:142-195 | A call for which there is a slot can run through: it holds slot and connection while it waits for its reply, and ends with both given back and its Done run. |
| `Client.SubscriptionRuns` | internal/herdrapi/client_unix.go:197-292 | A subscription needs no slot and can run through to a stream that has taken over. |
| `Client.StepLowersMeasure` | internal/herdrapi/client_unix.go:148-168 | After Close no step raises the measure (stage, cancellation, buffered input) of an unfinished operation, and the responsible goroutine lowers it. |
| `Client.MeasureDrops` | internal/herdrapi/client_unix.go:270-308 | In a fair run the measure of an unfinished operation drops sooner or later. |
| `Client.OperationDrains` | internal/herdrapi/client_unix.go:148-308 | Every operation in flight when the client closes runs its Done. |
| `Client.FirstReturns` | internal/herdrapi/client_unix.go:303-309 | The first Close call returns once the group has drained. |
| `Client.FollowerReturns` | internal/herdrapi/client_unix.go:297-301 | A Close call that found the client closed returns once closeDone is closed. |
| `Client.CloseTerminates` | internal/herdrapi/client_unix.go:295-310 | In every fair run every Close call returns, whatever the peer and the consumers of the events do. |
| `PidRecord.ItoaValue` | internal/state/lock_unix.go:278 | The decimal text of a PID denotes that PID. |
| `PidRecord.ParseOwnRecord` | internal/state/lock_unix.go:161-178 | What a daemon writes as its record is read back as its PID. |
| `PidRecord.ParseTrims` | internal/state/lock_unix.go:169-172 | Outer white space does not matter, and a record of nothing else is no record. |
| `PidRecord.ParseDigits` | internal/state/lock_unix.go:173-177 | Digits are the PID they denote, if that is positive and fits into 64 bits, and malformed otherwise. |
| `PidRecord.ParseSigned` | internal/state/lock_unix.go:173-177 | The same after a plus; after a minus every number is malformed. |
| `PidRecord.ParseRefuses` | internal/state/lock_unix.go:173-177 | Every other text is malformed. |
| `DaemonLock.NextKeepsInv` | internal/state/lock_unix.go:105-269 | Every small step of starters, probes, stale-record clearers, stop requests and crashes keeps the invariant tying each stage to the lock and the record. |
| `DaemonLock.OnlyTheOwnerWrites` | internal/state/lock_unix.go:103-157 | In every reachable state only the current owner of the lock can change an existing record. |
| `DaemonLock.HeldRecordIsIntact` | internal/state/lock_unix.go:105-133 | In every reachable state, a daemon between a successful Acquire and its Release or crash is the only holder and the record is exactly its PID. |
| `DaemonLock.ContenderIsRefused` | internal/state/lock_unix.go:118-124 | Whoever asks for the lock while a daemon holds it is refused and changes neither record nor ownership. |
| `DaemonLock.AcquireSucceeds` | internal/state/lock_unix.go:105-133 | When the lock is free, an Acquire of the protocol can run through and then holds the lock with its PID on record. |
| `DaemonLock.FailedAcquireFreesLock` | internal/state/lock_unix.go:125-129 | One whose writing fails, at whatever step, frees the lock; only a failing write changes the record, leaving the part of the PID it managed. |
| `DaemonLock.FailedTruncationFreesLock` | internal/state/lock_unix.go:138-157 | A truncation that fails still frees the lock and keeps the record. |
| `DaemonLock.ReleaseRuns` | internal/state/lock_unix.go:138-157 | A Release of the protocol frees the lock and leaves an empty record. |
| `DaemonLock.ProbeRuns` | internal/state/lock_unix.go:229-244 | A probe of a free lock leaves record and lock as they were. |
| `DaemonLock.ClearingRuns` | internal/state/lock_unix.go:247-269 | Clearing the record of a free lock empties it and frees the lock again. |
| `DaemonLock.StopRuns` | internal/state/lock_unix.go:186-217 | An undisturbed stop request while a daemon holds the lock signals that daemon once and changes nothing. |
| `DaemonLock.StopWithoutDaemonRuns` | internal/state/lock_unix.go:195-202 | One while the lock is free signals nobody and leaves a well-formed record empty. |
| `DaemonLock.MalformedRecordStops` | internal/state/lock_unix.go:160-190 | One that finds a malformed record ends there and changes neither record nor lock. |
| `DaemonLock.EmptyRecordStops` | internal/state/lock_unix.go:160-208 | One that finds an empty record signals nobody and changes neither record nor lock, held or not. |
| `DaemonLock.SignalHitsTheDaemonIff` | internal/state/lock_unix.go:186-217 | In every reachable state a stop request about to signal hits the current daemon if and only if there is one and the record still reads as it did. |
| `DaemonLock.SteadyDaemonIsHit` | internal/state/lock_unix.go:186-217 | A request hits the daemon that holds the lock from its beginning to its signal, whatever else happens meanwhile. |
| `DaemonLock.NobodySignalsItself` | internal/state/lock_unix.go:203-209 | In every run no request signals process zero or its own process. |
| `DaemonLock.ProbeMakesStaleSignal` | internal/state/lock_unix.go:187-210 | For any PIDs, a run in which another probe holds the lock and the request signals a daemon that is gone. |
| `DaemonLock.SuccessorMakesStaleSignal` | internal/state/lock_unix.go:187-210 | For any PIDs, a run in which a successor holds the lock and the request signals its predecessor. |
| `DaemonLock.Lock.Acquire` | internal/state/lock_unix.go:105-133 | Succeeds exactly when this object already owns the lock, or the lock is free and no step fails; a refusal leaves the live record alone; a failure at any step leaves the lock as it was and the record untouched or a prefix of the PID. |
| `DaemonLock.Lock.WritePID` | internal/state/lock_unix.go:271-282 | Which part of the record is there after a failure at each of its four steps. |
| `DaemonLock.Lock.Release` | internal/state/lock_unix.go:138-157 | Frees the lock in every case and empties the record unless the truncation fails, reporting either failure; does nothing when not owned. |
| `DaemonLock.Lock.LockHeld` | internal/state/lock_unix.go:222-245 | Reports exactly whether some process holds the lock, changes nothing, and fails exactly when the lock is not owned here and the file or the lock request fails. |
| `DaemonLock.Lock.ClearStalePID` | internal/state/lock_unix.go:247-269 | Empties an existing record exactly when nobody holds the lock and no step fails; each failure has its exact condition. |
| `DaemonLock.Lock.SignalStop` | internal/state/lock_unix.go:186-217 | Signals exactly the holder of the lock, nobody when the lock is free or cannot be probed, and never itself; a well-formed record of a free lock is left empty; every result, failures of the read, the probe and the clearing included, has its exact condition. |
| `Store.NextKeepsInv` | internal/state/store.go:110-135 | Every step of concurrent updates and loads, an error or a crash included, keeps the invariant tying the file to the committed mutations. |
| `Store.SerialCommit` | internal/state/store.go:117-134 | A commit is the mutation of what the earlier commits left. |
| `Store.UpdatesAreSerial` | internal/state/store.go:110-135 | In every interleaving the file shows what the committed mutations give one after another in the order of the exclusive lock; an undecodable file is never replaced. |
| `Store.FileIsOldOrNew` | internal/state/store.go:173-208 | Whatever step, error or crash happens, the file stays as it is or becomes the complete encoding of an intended mutation of what it showed. |
| `Store.LoadSeesWholeUpdates` | internal/state/store.go:96-104 | A load reads the file while no update is between its lock and its unlock. |
| `Store.UpdateRuns` | internal/state/store.go:110-135 | An undisturbed update of the protocol mutates what the file shows if that is intended, rewrites it exactly if the bytes differ, and frees the lock. |
| `Store.FailureCleansUp` | internal/state/store.go:182-188 | A failing update leaves the file as it was, no temporary file, and the lock free. |
| `Store.LoadRuns` | internal/state/store.go:96-104 | An undisturbed load shows what the file shows and leaves everything as it was. |
| `Store.StateFile.Load` | internal/state/store.go:94-104 | A missing file loads as an empty session, whatever map was encoded into the file loads as that map, and besides failing to get at the file the only error is a file that cannot be decoded. |
| `Store.StateFile.WriteAtomically` | internal/state/store.go:173-208 | A failure at any step leaves the old file and no temporary one; success leaves exactly the new bytes. |
| `Store.StateFile.Update` | internal/state/store.go:110-135 | The file is rewritten exactly when it can be read, the mutation is intended, the encoding differs from the bytes on disk and nothing fails; each error has its exact condition. |
| `Config.Resolve` | internal/config/profile.go:15-36 | The loop over the profiles settles each field on its own, and reports the last profile that overrode anything. |
| `Config.OverrideIsTheLastOne` | internal/config/profile.go:17-34 | A value is in effect if and only if some matching profile sets it and no later matching profile sets that field. |
| `Config.MatchesIff` | internal/config/profile.go:38-95 | A profile matches if and only if each of its six conditions that is not empty has an entry accepting its own field: workspace label, tab label, normalized pane directory, process name, agent kind, agent status. |
| `Config.EffectivelyIff` | internal/config/profile.go:15-36 | A result is the resolution if and only if each field is set by the last profile that sets it and meets the six conditions, or is the default when there is none. |
| `Config.ResolutionSeesOnlyMatchers` | internal/config/profile.go:38-45 | Resolution depends only on the six things matchers look at, so not on the shown label, the rendered label or the clock. |
| `Config.Manager.constructor` | internal/config/load.go:212 | A new manager has seen nothing and has no configuration. |
| `Config.Manager.ReloadIfChanged` | internal/config/load.go:222-249 | One reload reports a change exactly when an unseen signature is loaded, an error exactly when the signature or the load of an unseen one fails, remembers every unseen signature, and changes the configuration only to what was loaded. |
| `Config.SignatureSeparates` | internal/config/load.go:194-199 | Two looks give the same signature exactly when presence, time, size and digest agree. |
| `Config.SignatureOfIsLoaded` | internal/config/load.go:226-248 | Over any reloads: if the remembered signature is a version's, the configuration is that version's. |
| `Config.LastFreshDecides` | internal/config/load.go:226-248 | The last reload that observed a signature other than the remembered one decides signature and configuration. |
| `Config.ReloadConvergesIff` | internal/config/load.go:222-264 | After a reload that sees a valid version, it is current if and only if the last fresh reload loaded it, or loaded nothing while it was current already. |
| `Config.ReloadConverges` | internal/config/load.go:222-264 | After a reload that sees the final version, its configuration is current if each reload that observed its signature loaded it, although the file is read twice at different times; an invalid final version leaves the last valid configuration. |
| `Config.SightIsTrue` | internal/config/load.go:251-264 | If the final signature never recurs for a different version, every reload that observes it loads the final version, unless the read fails. |
| `Config.CurrentStays` | internal/config/load.go:214-219 | A configuration never becomes absent again. |
| `Config.InvalidVersionErrsOnce` | internal/config/load.go:221-246 | Over any number of reloads that look at an unchanged invalid version it is reported exactly once, unless its signature was already remembered or never observed, then never; the configuration stays. |
| `Config.ConstantFileIsLoadedOrNever` | internal/config/load.go:243-246 | On an unchanged valid file the configuration becomes current if and only if the load of the first successful look succeeded. |
| `Config.RecurringSignaturePins` | internal/config/load.go:251-264 | A file that passes between the two looks and whose earlier signature recurs leaves its configuration pinned. |
| `Collector.FindPaneFinds` | internal/collector/collector.go:117-124 | A pane is found exactly when one has the id. |
| `Collector.SelectionFollowsLayout` | internal/collector/collector.go:96-115 | The layout decides exactly when it names one of the tab's own panes as focused, and then such a pane is selected; a tab with panes always gets one of them. |
| `Collector.PanesOfIff` | internal/collector/collector.go:24-27 | A tab's panes are the snapshot's panes of that tab, each as often as there. |
| `Collector.PanesOfKeepsOrder` | internal/collector/collector.go:24-27 | Two panes of a tab keep their order. |
| `Collector.PanesOfConcat` | internal/collector/collector.go:24-27 | Grouping takes lists apart, which with single panes determines it. |
| `Collector.GroupPanes` | internal/collector/collector.go:24-27 | Grouping keeps each tab's panes, all of them, in order. |
| `Collector.IndexSnapshot` | internal/collector/collector.go:12-27 | The tables give the last workspace, layout and agent with an id, and the panes of a tab. |
| `Collector.DescribeTab` | internal/collector/collector.go:31-65 | The context of a tab depends only on the snapshot, its position, its own history entry and the clock. |
| `Collector.Build` | internal/collector/collector.go:11-67 | The loop over maps and counters builds one context per tab, in order. Field by field: its tab and source label, the last workspace with its id, all panes of the tab in order, the pane its layout focuses if the tab has it, else the first focused entry's, else the first, and that pane's agent. |
| `Collector.ContextAt` | internal/collector/collector.go:29-66 | The i-th context is that of the i-th tab. |
| `Collector.NumbersFollowOrder` | internal/collector/collector.go:29-33 | Within a workspace the shown numbers grow with the position, from 1 to the number of its tabs. |
| `Collector.NumbersHaveNoGaps` | internal/collector/collector.go:29-33 | Every number from 1 to n is shown, whatever numbers the server reports. |
| `Collector.AttachProcess` | internal/collector/collector.go:75-94 | Every process field is replaced and no other: all processes in order, the first one, the last one with the foreground group's id, the shell; nothing of an earlier process survives. |
| `Controller.SourceSettles` | internal/controller/controller.go:204-232 | Renamed or not, the entry recorded and the label then shown give back the source label the pass worked with. |
| `Controller.AttemptedIff` | internal/controller/controller.go:160-243 | A tab is attempted with a label if and only if the trigger means it, its effective mode is auto, or keybind for an action, both before and after process data, the process is known if there is a pane, its template is displayed as that label, and the tab does not show it. |
| `Controller.SentInOrder` | internal/controller/controller.go:113-138 | The renames are those of the attempted tabs, in tab order. |
| `Controller.SentIsJustified` | internal/controller/controller.go:160-208 | Every rename a pass sends was due to a tab of its snapshot. |
| `Controller.AttemptedLabels` | internal/controller/controller.go:188-202 | The label of a rename shows no control character, and is empty if and only if the template printed nothing but placeholders. |
| `Controller.UpdatesAt` | internal/controller/controller.go:113-138 | With unique ids each tab's update is recorded under its own id and no other. |
| `Controller.HistoryAfterAt` | internal/controller/controller.go:245-258 | A commit leaves exactly live tabs, each with this pass's entry or else its stored one. |
| `Controller.TabsAreIsolated` | internal/controller/controller.go:85-143 | A tab's rename and entry depend only on the job, the snapshot, its own history and its own answers: failures on other tabs change nothing for it. |
| `Controller.Override` | internal/controller/controller.go:249-251 | Iterating over the updates in any order overrides the stored map by them. |
| `Controller.Purge` | internal/controller/controller.go:252-256 | Deleting while iterating in any order leaves exactly the live tabs. |
| `Controller.MergeInto` | internal/controller/controller.go:248-258 | The callback computes stored entries overridden by this pass's and restricted to live tabs. |
| `Controller.Commit` | internal/controller/controller.go:245-263 | A commit fails exactly when the update does, leaving the file alone, and otherwise leaves the encoding of the merge of what is stored by then. |
| `Controller.Record` | internal/controller/controller.go:119-137 | An observed source label is recorded even without a rename; a rename replaces that entry. |
| `Controller.ReconcileTabs` | internal/controller/controller.go:113-138 | The loop yields exactly the specified updates, live tabs and renames, in tab order; when cancelled it stops before the first tab it would work on, having sent what came before. |
| `Controller.NothingSent` | internal/controller/controller.go:140-142 | A pass in which no tab is attempted, such as an action whose target is gone, sends no rename. |
| `Controller.Reconcile` | internal/controller/controller.go:90-144 | A refused pass leaves the file alone and sends nothing; a cancelled one leaves the file alone and has sent the renames of the tabs before; any other sends the specified renames and leaves the encoding of the specified history unless the write fails. Every rename was due, as for `Controller.AttemptedIff`. |
| `Fixpoint.ContextRepeats` | internal/collector/collector.go:47-54 | The collector of the next pass derives the same source label the controller recorded, so the context repeats up to shown label, rendered label and clock. |
| `Fixpoint.DesiredIgnoresLabels` | internal/controller/controller.go:168-197 | If templates ignore those three, the desired label repeats. |
| `Fixpoint.SecondPassRetriesOnly` | internal/controller/controller.go:180-207 | A second background pass attempts exactly the renames the server refused in the first, with the same labels. |
| `Fixpoint.SecondPassIsQuiet` | internal/controller/controller.go:113-143 | If none was refused, the second pass sends nothing, records nothing and leaves the history unchanged. |
| `Fixpoint.SecondPassKeepsTheFile` | internal/state/store.go:117-134 | On disk: a committed first pass leaves the bytes the second one loads, and if every rename was accepted the second keeps exactly those bytes, even where a write would fail. |
| `Sessions.VisitKeepsInv` | internal/controller/controller.go:113-138 | Visiting a tab, with a rename accepted, refused or not attempted, keeps the session's invariant while the user keeps changing tabs. |
| `Sessions.CommitRecords` | internal/controller/controller.go:247-258 | A commit stores for the tabs of the snapshot what the pass went by, and nothing else. |
| `Sessions.NextKeepsInv` | internal/controller/controller.go:90-144 | Every step of passes, opened, closed and renamed tabs, and every harmless interruption, keeps the invariant. |
| `Sessions.HistoryIsFaithful` | internal/controller/controller.go:204-232 | Between passes of any run without interruptions, or with harmless ones: a label last written by the plugin is its tab's rendered label on record; every recorded source was given by somebody else, and is the last snapshot label that differed from the record. |
| `Sessions.OwnLabelIsNeverAdopted` | internal/controller/controller.go:226-232 | In any such run, a snapshot that shows the plugin's own label keeps the recorded source. |
| `Sessions.SourcesSurviveInterruptions` | internal/controller/controller.go:210-232 | The recorded sources stay right through any interruptions, if each snapshot finds every label of the plugin's on record. |
| `Sessions.InterruptionLosesIff` | internal/controller/controller.go:200-207 | An interruption makes the next snapshot adopt a label of the plugin's if and only if the pass had recorded a rendered label for that tab that is not the stored one; it is harmless if and only if there is no such tab. |
| `Sessions.InterruptionAdoptsOwnLabel` | internal/controller/controller.go:127-129 | For any tab and template, a run in which an interruption after a rename makes the next pass record the plugin's own label as the source. |
| `Sessions.OnlyPermittedRenames` | internal/controller/controller.go:160-243 | In any run every rename sent, accepted or refused, was due: its tab's effective mode is not off, and keybind only for an action, both before and after process data, an action renames only its target, and the label is the template's and was not shown; every label of the plugin's on the server comes from such a rename of that tab. |
| `Sessions.VisitSendsWhatIsDue` | internal/controller/controller.go:160-208 | The converse: a visit sends exactly the label that is due, and nothing if none is. |
| `Sessions.UninterruptedPass` | internal/controller/controller.go:90-144 | The small steps of a pass that nothing interrupts can always run to the commit; they leave the history and send the renames of the whole pass, and the server shows the accepted ones. |
| `Sessions.SessionSettles` | internal/controller/controller.go:180-207 | On the running session: after a background pass in which nothing was refused, a second one sends no rename and leaves the history and every shown label as they are. |
| `Runner.NextKeepsInv` | internal/controller/runner.go:113-189 | Every step of the loop and its surroundings keeps the invariant on flags, timers, intervals and times. |
| `Runner.LoopHead` | internal/controller/runner.go:134-188 | At every loop head: a waiting event has an armed or fired debounce timer; in warm-up no event waits and the settle timer is armed or fired; the ticker runs at the poll interval in force. |
| `Runner.DirtyUntilRefreshed` | internal/controller/runner.go:166-180 | A waiting event is waited for until a refresh starts. |
| `Runner.NoEventIsLost` | internal/controller/runner.go:134-188 | After a live event, a received debounce fire or a reconnection comes with a refresh; until then the event is remembered and its timer alive, stale fires or not. |
| `Runner.EventRefreshNeedsEvent` | internal/controller/runner.go:175-180 | An event refresh starts only from a debounce fire with an event waiting, never in warm-up. |
| `Runner.BurstRefreshesOnce` | internal/controller/runner.go:159-180 | Live events with no debounce fire and no reconnection among them cause exactly one event refresh, at the next fire, whatever polls and reloads happen meanwhile. |
| `Runner.NoTraceLosesAnEvent` | internal/controller/runner.go:166-180 | Along any run of the loop each live event is followed by a refresh or is still waited for. |
| `Runner.EventRefreshesArePaid` | internal/controller/runner.go:166-180 | Every event refresh, and the one still waited for, answers a live event of its own. |
| `Runner.EventRefreshWaits` | internal/controller/runner.go:166-180 | After a live event that finds no old fire, or with timers that drop it, no event refresh starts before the debounce interval in force at that event has passed. |
| `Runner.NoTraceRefreshesEarly` | internal/controller/runner.go:134-188 | The same along any run of the loop, for the last live event before each event refresh. |
| `Runner.WaitingEventIsTheLast` | internal/controller/runner.go:159-180 | Whenever an event waits, the last event received was a live one, and it is that one. |
| `Runner.DebounceIsExact` | internal/controller/runner.go:166-180 | The debounce timer can fire exactly once the debounce interval has passed, and then the refresh starts. |
| `Runner.WaitingEventCanRefresh` | internal/controller/runner.go:166-180 | From every loop head at which an event waits, the run that lets what is left of its debounce interval pass, with no further event, starts the refresh. |
| `Runner.DebounceCutShortIff` | internal/controller/runner.go:166-167 | Right after a live event its refresh can start if and only if timers keep undelivered fires and one is pending. |
| `Runner.DebounceCutShort` | internal/controller/runner.go:166-180 | From every start with such timers there is a run in which it can. |
| `Runner.ConfiguredIntervalsAreInForce` | internal/controller/runner.go:154-186 | The intervals in force are those configured at the last refresh that looks at them, and the ticker runs at the poll interval. |
| `Runner.RefreshesAreCaused` | internal/controller/runner.go:125-187 | Every received tick starts a poll, every reconnection and the first subscription a forced refresh, and nothing else does. |
| `Runner.TicksAreExact` | internal/controller/runner.go:182-186 | A tick comes exactly when due and is then due one interval later, or one new interval after a hot reload of it, which keeps or discards a tick not yet received as the timers do. |
| `Runner.FiresAreReceivedOnce` | internal/controller/runner.go:125-187 | Along every run each fire of a timer and each tick is received once at most. |
| `Runner.PollsAreSpaced` | internal/controller/runner.go:118-119 | Over a whole run the polls never outpace its shortest poll interval: their number times that interval is at most the time the run took. |
| `Runner.PollIsNear` | internal/controller/runner.go:182-186 | From every loop head a poll is at most one poll interval away. |
| `Runner.ReconnectionRestores` | internal/controller/runner.go:140-158 | A closed stream is replaced before anything else is selected, with a forced refresh, the intervals configured by then, a new warm-up and no event waiting. |
| `Runner.SubscriptionOpens` | internal/controller/runner.go:125-132 | The first subscription opens a warm-up after a forced refresh; without one there is none. |
| `Runner.CancelIsFinal` | internal/controller/runner.go:137-138 | A cancelled loop takes no further step. |
| `Runner.PollOnly` | internal/controller/runner.go:191-199 | Without an initial subscription every refresh of the run is a poll. |
| `Runner.RetimeKeepsTimes` | internal/controller/runner.go:232-243 | A hot reload retimes the ticker and the settle timer to the interval that is then in force. |
| `Runner.WarmUpEndsInQuiet` | internal/controller/runner.go:148-189 | Warm-up ends only after a full poll interval in force without a received event, unless a step of the run kept an old fire in the settle timer, which timers that discard never do. |
| `Runner.WarmUpCutShortIff` | internal/controller/runner.go:130-186 | After each step that sets the settle timer in warm-up, by an event, a forced refresh or a hot reload, the warm-up can end in the same instant if and only if timers keep undelivered fires and it held one. |
| `Runner.WarmUpsAreQuietIff` | internal/controller/runner.go:113-189 | Every warm-up of every run can only end in quiet if and only if the timers discard undelivered fires. |
| `Runner.WarmUpCutShort` | internal/controller/runner.go:159-173 | From every start there is a run in which an event ends the warm-up at once. |
| `Runner.WarmUpCutShortByRefresh` | internal/controller/runner.go:127-132 | From every start there is one without any event in which the warm-up can end as it begins. |
| `Runner.WarmUpCutShortByReconnection` | internal/controller/runner.go:141-156 | From every start there is one in which a fire from before a reconnection ends the next warm-up in the instant of a live event. |
| `Runner.WarmUpCanEnd` | internal/controller/runner.go:169-173 | From every loop head in warm-up there is a run without further events that ends it. |
| `Runner.EventLoop.Run` | internal/controller/runner.go:113-189 | The loop, taking each turn any of the ready cases: wherever it stops, every live event it received was followed by a refresh or is still waited for with its timer alive; event refreshes never outnumber live events and keep the debounce interval unless an old fire was kept; every tick received was a poll, and polls keep their interval; timers that discard end every warm-up in quiet; the intervals are the configured ones; without a subscription every refresh was a poll. |
| `Runner.Reconnect` | internal/controller/runner.go:203-219 | Of any attempts, makes those up to the first that is not refused, which decides, pausing before each: a quarter of a second first, then twice as long each time, up to five seconds. |

## Left out

- Command dispatch, flags, environment lookup, exit codes and process spawning: plumbing.
- Template parsing and execution, regular expressions, globs, TOML, JSON and SHA-256: libraries, uninterpreted here. The order of members, identifiers and error objects inside a reply is behind the parameter `answers`.
- Grapheme segmentation: clusters and their widths are given.
- Sockets, deadlines, file modes, directory sync: only their outcomes appear. A deadline shows as the connection closing.
- Padding, the small template helpers, the status line's template, status counts and the copying of plain fields: one-branch functions; the fields `detail` stand for what is only copied.
- Range checks when a configuration is compiled: each is settled by one branch.
- Passes that overlap (daemon and action): one pass at a time.
- Process-wide retention of lock handles against garbage collection.
- Request numbering: identifiers only have to match.
- Runner.EventLoop.Run: the turns are a finite sequence of any length, and a refresh that fails counts as a refresh.
- Sessions.HistoryIsFaithful: the order of tabs appears only in snapshots, so moving a tab is no step of its own.
- DaemonLock.Lock.SignalStop: stated for one caller without interleaving and for a lock that is free or held by a daemon whose Acquire has returned; with interleaving, stop requests are part of the protocol, without their I/O errors.
- Fixpoint.SecondPassRetriesOnly: assumes templates that ignore the shown label, the rendered label and the clock; others may legitimately differ between passes.
- Client.CloseTerminates: a dial is assumed to return once its context is cancelled, as Go's dialer documents.
