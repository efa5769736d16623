# Thread border router firmware: models and proofs

The repository is firmware for an ESP32 border router, with PC tools that follow it.
This project models its self-contained protocols in Dafny and proves what they promise.
Code that changes variables in place is modelled by classes and array methods, each
proved equal to a specification function; the theorems are lemmas about those
functions, over every input and every run.

## What is modelled

**The log that survives a crash.** `LogText` cleans text into at most 179 octets of
valid UTF-8. `LogJson` writes a row and reads it back. `Fnv` says what the slot check
really guarantees: any change to one covered octet is noticed. `LogMemory` models the
two halves of no-init RAM with a volatile cache line in front of each, and a reset or
power cut possible between any two stores or write-backs, those of initialisation
included; `LogSurvival` says exactly which lines a reset brings back, `LogBoots` which
boot, and `LogLife` that every boot comes to run and any line can outlive a reset.
`LogRing` is the ring of the running boot, `LogCapture` the console hook with its four
pending slots, `LogInterleaving` the theorem that neither chunking nor interleaving
shows, and `LogPages` the paged reader and its batching. `LogTail` is the
follower on the PC, over every run of logging, reboots and polls with any request
failing, `LogDelivery` what a poll brings, and `LogTailTool` the tool itself.
`LogSystem` joins the two ends, the stores and resets of the memory being steps of the
follower's device, and `LogFirmware` runs them together. `LogReturn` shows store by
store how an overwritten line comes back.

**Battery history and its recorder.** `PowerLog` is the ring of 8640 samples and its
paged reader. `Recorder` and `RecorderTool` are the PC recorder, killed after any
character it writes; the CSV file stays an exactly-once record.

**Wi-Fi.** `WifiModel` is one machine of driver calls, callbacks, timers and console
commands. `WifiTransaction` proves what a join does to flash, `WifiSuccess` when it
succeeds, `WifiSupervisor` that a hold is kept and that reconnecting is otherwise never
given up, and `WifiStation` holds the variables and methods, run in any world of
callbacks and answers.

**Matter battery and UI worker.** `MatterBattery` publishes attributes through a cache,
`MatterQueue` is the token that keeps one publish job queued, `UiCalls` the synchronous
calls and the busy flag, `UiShare` the generations of the share screen.

**Codecs and arithmetic.** `Coap` and `MeshTlv` frame and scan CoAP and MeshCoP TLVs,
`RestQuote` and `RestOptions` are the REST quoter and option parser, `Discharge` the
discharge estimate and `GaugeCurve` the voltage curve.

## What the proofs found

- `MatterQueue.EarlierFailureLosesLaterSample`: a sample can go unpublished although the
  schedule failed before it was stored, because the failed request still holds the
  flag. The newest sample is published if and only if no failed request clears the flag
  while it waits, and the next request that can be scheduled makes up for it.
- `WifiTransaction.RejectedCandidateComesBack`: a join takes the configuration it finds
  in the driver for the known-good one (main/main.c:487-497). After a failed rollback
  that is the rejected candidate, so a second failing join restores it, lifts the
  hold and reconnects to it until reboot. Flash still holds the good one.
- `WifiSupervisor.ConnectsUnderHold`: `link retry` connects under a hold when, and after
  boot only when, the reconnect timer could not be created and retries are left
  (`WifiSupervisor.RetryConnectsAfterLeave`).
- `WifiSupervisor.TheBoundIsReached`: the longest wait for another attempt is 75 s and
  1 µs. The watchdog runs every 15 s (main/main.c:209); the repository's README says ten.
- `UiShare.AKeyIsOnAfterClose` and `UiShare.ADelayedStopEndsACallsKey`: REST and console
  calls open the share screen's key without a generation (main/otbr_rest.c:176-192,
  main/main.c:979-994). A closed screen at rest may so leave a key on, and a delayed stop
  may end a newer key. `ClosedMeansOff` and `StopSparesNewerKey` say exactly when.
- `RestOptions.VerticalTabIsAccepted`: the option parser takes a vertical tab and a form
  feed for white space, which RFC 8259 does not. `RestOptions.AcceptedIsJson` says that
  nothing else keeps an accepted object from being JSON. A member name written with
  escapes is refused, though it is JSON (`RestOptions.EscapedNameIsRefused`).
- `LogBoots.OlderBootComesBack`: a reset inside two inits in a row can leave the boot
  counter restarted at 1 over the header of an earlier boot 1, which the next init then
  serves as PREVIOUS although a later boot ran since (main/log_ring.c:342-353).
  `LogBoots.RecoveredIsNewest` says exactly when what is recovered is the boot that ran
  last or a later one. A boot whose header never left the cache is passed over
  (`LogBoots.StoredBootIsPassedOver`).
- `Recorder.RestartSucceeds`: a recorder killed inside the very first line of its file
  cannot start again; at any other point it can.
- `LogDelivery.AReturnedLineIsLost`: when the line that overwrote another never reached
  RAM, a reset makes the older line readable again (`LogReturn.FirstLineComesBack`);
  behind the follower's cursor it is never read. `LogDelivery.PollBridges` says exactly which lines are.
- `Coap.BareMarkerIsAccepted`: the scanner takes a marker with nothing after it, which
  the standard makes a format error, for an empty payload (main/meshcop_codec.h:58-63).
  Its callers do nothing with one. `Coap.AcceptedIsLegal` says that it is the only such case.
- `Coap.RequestIsEncoded`: `coap_post` writes a valid message only for a path under 13
  octets, which its two callers respect.

## What is assumed

- **Slot check.** In `LogSlot` and everything above it the check is ideal: it validates
  only what a boot sealed under its own ID. `Fnv` proves the part of that which the
  real 32-bit check guarantees; two changes at once are not covered by it. Memory at
  power-on holds no valid check and no magic number.
- **Boots.** Boot IDs are fresh, and numbered in boot order. 32-bit sequence numbers do
  not wrap. Stores reach a cache line in program order, and `write_back` reaches RAM.
- **Follower.** One poll is atomic with respect to reboots (`Tail.drain` does not look at
  the boot ID again), and one page fetch with respect to logging.
- **Capture.** Chunk independence is for printable ASCII and newlines, since escape
  sequences and characters split across calls are not rejoined. The victim slot is
  round-robin, as in the code (main/log_ring.c:244-245), not the oldest.
- **Wi-Fi.** A failing driver call changes nothing; `set_storage` changes only the mode;
  a callback runs whole; timers run on time. Both semaphores and the watchdog timer
  exist. Strings hold no NUL.
- **Share screen.** The rejected open that publishes and restores the generation
  (main/ui.c:944-965) is one step. Whether a key can be started is left open, and a key
  may end at any time: used, run out or disabled.
- **Recorder.** A line of the event file is written whole, and what was flushed is in
  the order written. Row widths are arbitrary below 4096 characters.
- **Numbers.** Rates are exact reals. `long` is a parameter of `RestOptions`.

## Model

| member | source | states |
|---|---|---|
| LogText.CharLen | main/log_ring.c:100-119 | a positive length is that of a multibyte character of RFC 3629 at the front |
| LogText.CharLenComplete | main/log_ring.c:100-119 | every multibyte character of RFC 3629 is recognised, with its length |
| LogText.Utf8Len | main/log_ring.c:100-119 | the octet tests compute exactly that length |
| LogText.AppendClean | main/log_ring.c:121-158 | the cleaning loop leaves in the buffer what `Appended` says, terminated; the lemmas below say what that is, octet by octet |
| LogText.AppendedWellFormed | main/log_ring.c:121-158 | whatever octets arrive, held text stays valid UTF-8, free of control octets and at most 179 octets |
| LogText.AppendedKeeps | main/log_ring.c:121-158 | well-formed text that fits is appended unchanged |
| LogText.CleaningIsIdempotent | main/log_ring.c:121-158 | stored text is a fixed point of cleaning |
| LogText.AppendedPrintable | main/log_ring.c:121-158 | for printable ASCII cleaning is concatenation cut at 179 octets |
| LogText.CutAppend | main/log_ring.c:121-158 | cutting while assembling or at the end gives the same line |
| LogText.ColourCodeIsSkipped | main/log_ring.c:127-133 | a colour code anywhere behind well-formed text, up to its final octet in 40 to 7E, leaves no trace and the text continues behind it |
| LogText.UnfinishedCodeIsSkipped | main/log_ring.c:127-133 | one the text breaks off in takes the rest of it |
| LogText.EscapeAndReturnAreDropped | main/log_ring.c:127-135 | any other escape octet, and a carriage return, is left out |
| LogText.ControlBecomesSpace | main/log_ring.c:136-138 | every other control octet is cleaned like a space |
| LogText.StrayOctetBecomesQuestion | main/log_ring.c:143-146 | an octet that starts no character of RFC 3629 is cleaned like a question mark |
| LogText.CharacterIsWhole | main/log_ring.c:139-155 | a character is kept whole, or the line ends before it |
| LogText.ColouredLineIsItsText | main/log_ring.c:121-158 | a line inside two colour codes is stored as its text |
| LogJson.WriteEscaped | main/log_ring.c:446-472 | the escaping loop keeps the longest run of whole pieces that fits |
| LogJson.WriteRow | main/log_ring.c:430-478 | the buffer holds the row and its NUL, or nothing is written when it is under 64 octets |
| LogJson.RowReadsBack | main/log_ring.c:430-478 | for any buffer of 64 or more the row fits, is closed and reads back (section 7 of RFC 8259) to whole leading characters of the text, all of them unless fewer than six octets were left |
| LogJson.PlainRow | main/log_ring.c:430-478 | the row of a text without quotes is written octet by octet as JSON with the names seq, uptime_ms and text |
| LogJson.RowIsClean | main/log_ring.c:446-472 | whatever octets a slot holds, DEL apart, its row is valid UTF-8 without control octets |
| LogJson.StoredRowIsExact | main/otbr_rest.c:533-538 | in the 448-octet buffer a stored line never truncates and reads back exactly |
| Fnv.HashLoop | main/log_ring.c:78-90 | the loop computes the recursive FNV-1a hash |
| Fnv.KnownAnswers | main/log_ring.c:78-90 | it is FNV-1a: its offset basis, and the known answer for one octet |
| Fnv.StepInjective | main/log_ring.c:78-90 | a step is injective in the 32-bit state and in the octet |
| Fnv.OneOctetDetected | main/log_ring.c:78-90 | inputs that differ in one octet hash differently |
| Fnv.CorruptSlotRejected | main/log_ring.c:78-98 | a sealed slot of which one covered octet changed does not validate |
| Fnv.TextChangeRejected | main/log_ring.c:78-98 | one text octet replaced, the length kept, is noticed |
| Fnv.SequenceChangeRejected | main/log_ring.c:78-98 | one octet of the sequence number changed is noticed |
| Fnv.UptimeChangeRejected | main/log_ring.c:78-98 | one octet of the uptime changed is noticed |
| Fnv.BootChangeRejected | main/log_ring.c:78-98 | a slot of a boot whose ID differs in one octet is not taken for this boot's |
| LogSlot.IndexInjective | main/log_ring.c:161-168 | within one window of 1024 numbers each slot belongs to one number |
| LogRing.LookupIsList | main/log_ring.c:406-428 | look-up succeeds for exactly oldest..latest and returns that line of the list |
| LogRing.AppendRepresents | main/log_ring.c:160-178 | storing the next line in its slot keeps the ring equal to the list of the newest 1024 |
| LogRing.LogHalf.Begin | main/log_ring.c:161-168 | the slot of the next number is invalidated before it is filled |
| LogRing.LogHalf.Commit | main/log_ring.c:206-221 | the list grows by exactly the cleaned, cut text; a blank line commits nothing |
| LogRing.LogHalf.Get | main/log_ring.c:406-428 | returns the line committed under the number, for exactly the readable range |
| LogRing.LogHalf.Info | main/log_ring.c:389-404 | reports the range that look-up covers and the newest line's uptime |
| LogCapture.Console.FindPending | main/log_ring.c:223-231 | finds the slot a task owns, if it owns one |
| LogCapture.Console.CommitPending | main/log_ring.c:206-221 | commits the pending text and the segment as one line, and frees the slot |
| LogCapture.Console.ClaimPending | main/log_ring.c:233-250 | a free slot, or the round-robin victim's, whose text is committed first |
| LogCapture.Console.Ingest | main/log_ring.c:252-287 | one call leaves exactly the specified slots, victim index and lines |
| LogCapture.Console.LogLine | main/log_ring.c:371-382 | a line handed over whole is committed past the pending slots, which stay as they are |
| LogCapture.ClaimValid | main/log_ring.c:233-250 | a claim keeps the pending slots of different tasks and their text clean and bounded |
| LogCapture.Ingested | main/log_ring.c:252-287 | after a call no task owns two pending slots, and pending text is clean and bounded |
| LogCapture.ClaimEvicts | main/log_ring.c:233-250 | a claim when every slot is taken commits what the slot held, under its task's name; otherwise it commits nothing |
| LogCapture.EvictionsTakeTurns | main/log_ring.c:244-245 | any four evictions in a row take four different slots |
| LogInterleaving.After | main/log_ring.c:206-287 | nor after any history of calls |
| LogInterleaving.AfterIsCounted | main/log_ring.c:244-245 | after any history of calls the victim index is the number of evictions so far |
| LogInterleaving.EveryTaskAssembled | main/log_ring.c:206-287 | for any tasks, chunks and interleaving, a task's lines are its own output assembled alone, broken only at newlines and its evictions |
| LogInterleaving.DirectMatches | main/log_ring.c:371-382 | such a line leaves every task's assembly alone |
| LogInterleaving.TraceSaysOutput | main/log_ring.c:233-250 | evictions drop no octet and move none |
| LogInterleaving.NoEvictions | main/log_ring.c:233-250 | with at most four tasks mid-line none is ever evicted |
| LogInterleaving.LinesAreTheOutputs | main/log_ring.c:206-287 | then a task's lines are the non-empty lines of its concatenated output cut at 179 octets |
| LogInterleaving.InterleavingDoesNotShow | main/log_ring.c:252-287 | two histories with the same output per task commit the same lines per task |
| LogMemory.RecoverPrevious | main/log_ring.c:321-334 | the scan finds the greatest valid number of the boot, and its uptime |
| LogMemory.TraceKeeps | main/log_ring.c:160-195 | the memory invariant holds between any two stores, write-backs, resets and power cuts |
| LogMemory.CrashSafety | main/log_ring.c:336-369 | after a crash anywhere, what the next init takes for PREVIOUS has a header one boot stored whole (LogBoots.RecoveredIsNewest says which) and serves only lines that boot sealed |
| LogMemory.PreviousIsTrue | main/log_ring.c:321-334 | the same at every moment of a running boot |
| LogMemory.PreviousIsStable | main/log_ring.c:336-369 | nothing the running boot does changes what PREVIOUS serves |
| LogMemory.CommitSeals | main/log_ring.c:170-178 | the last store of a commit seals the line with its visible text |
| LogMemory.WriteBackPushes | main/log_ring.c:180-195 | writing back one of the three cache lines of a sealed slot makes that part durable |
| LogMemory.RunningRecovers | main/log_ring.c:321-369 | a reset of a running boot recovers that boot, up to a number it reached |
| LogMemory.DurableServed | main/log_ring.c:180-195 | a durable line is served after a reset at that moment, with its text |
| LogBoots.RecoveredIsNewest | main/log_ring.c:336-369 | over every run, what a reset recovers stored its header whole with that count, in the half of that count; it is the boot that came to run last, or a later one, if and only if it counted under a later counter or no less under the same, and always unless the counter was restarted since it stored its header |
| LogBoots.TraceBooks | main/log_ring.c:336-369 | between any two stores, write-backs and losses: counts and halves alternate, never fall behind the last running boot's, and the half of that boot holds nothing older |
| LogBoots.StoredBootIsPassedOver | main/log_ring.c:358-369 | a boot that stored its header whole is passed over when none of it has reached RAM |
| LogBoots.OlderBootComesBack | main/log_ring.c:342-353 | a run from power-on in which boot b came to run after boot a and a reset recovers boot a: the counter was restarted |
| LogSurvival.WholeIsServed | main/log_ring.c:321-334 | whatever state memory was left in, a line whole in the recovered half counts towards the recovered latest and is served, as sealed, exactly when among the last 1024 up to it |
| LogSurvival.OnlyWholeIsServed | main/log_ring.c:406-428 | nothing else of that half is served |
| LogSurvival.IntactServed | main/log_ring.c:321-369 | the same for a line of the running boot, however far the boot itself has gone |
| LogSurvival.IntactKept | main/log_ring.c:161-195 | between losses only a write-back of its own slot takes a line out of RAM |
| LogSurvival.WrittenBackSurvives | main/log_ring.c:160-195 | a line once written back, its slot not written back after the ring came round, is served after a crash at any point exactly while among the last 1024 up to the recovered latest |
| LogSurvival.NothingDisturbsBefore | main/log_ring.c:160-195 | short of the ring coming round no write-back can disturb it |
| LogLife.EveryBootRuns | main/log_ring.c:336-369 | from any memory a boot may find, initialisation completes under its ID, serves as PREVIOUS exactly what was there, and takes the count one above what was recovered, in the other half, or 1 in the first; the other half's header in RAM stays |
| LogLife.NextInitRecovers | main/log_ring.c:336-369 | after a reset at any moment the next boot comes to run, serving exactly what the reset recovers and counting one from it |
| LogLife.AnyLineCommits | main/log_ring.c:161-178 | a running boot can store and seal any cleaned text as its next line, every other slot of both halves and every other sealed line unchanged |
| LogLife.NewestIsWrittenBack | main/log_ring.c:180-195 | writing back its three cache lines makes it durable |
| LogLife.LineOutlivesReset | main/log_ring.c:160-195 | logged, written back, reset: the next boot serves that text as PREVIOUS under its number |
| LogLife.PowerOnHappens | main/log_ring.c:336-369 | a power-on state that meets the invariant exists |
| LogPages.RunningLog | main/log_ring.c:389-428 | the running half offers exactly its newest 1024 lines |
| LogPages.Page | main/otbr_rest.c:622-643 | the request loop returns the specified page of the half's log |
| LogPages.PageSpec | main/otbr_rest.c:622-643 | a page is the next readable lines after the cursor, in order, at most the limit, skipping only unreadable ones |
| LogPages.ChainIsEverything | main/otbr_rest.c:622-643 | pages chained by last number enumerate the readable lines after the cursor once, in order |
| LogPages.ChainIsNewestLines | main/otbr_rest.c:622-643 | for the running boot that is the newest 1024 committed lines |
| LogPages.Batch.Send | main/otbr_rest.c:541-555 | chunks sent and buffer together are the stream so far; chunks stay within 1536 octets |
| LogPages.Batch.Flush | main/otbr_rest.c:647-649 | after the last chunk the transport holds the whole stream |
| LogTail.RepliesAreAcceptable | tools/logtail.py:45-53 | the device's pages meet the checks on line numbers: in order, beyond the cursor, up to the latest |
| LogTail.DrainKeeps | tools/logtail.py:89-101 | a drain writes true lines in order; one that completes has written all readable lines beyond its start |
| LogTail.BridgeWrites | tools/logtail.py:110-116 | exactly which lines of the old boot are out after bridging: those it had, and the retained ones beyond the cursor |
| LogTail.PollKeeps | tools/logtail.py:103-123 | one poll keeps all of it, whatever is logged or fails in between |
| LogTail.FollowSafety | tools/logtail.py:70-123 | over every run the output is strictly increasing in (boot, number), each line is what was committed there, and for an untorn boot written plus reported equals the cursor |
| LogTail.FollowCompleteness | tools/logtail.py:103-123 | a completed poll leaves nothing readable of the running boot unwritten |
| LogDelivery.PollCompletes | tools/logtail.py:103-123 | a poll whose requests are all answered completes, whatever is logged meanwhile |
| LogDelivery.AnsweredPollDelivers | tools/logtail.py:103-123 | so after any history an answered poll leaves nothing readable of the running boot unwritten |
| LogDelivery.PollBridges | tools/logtail.py:103-123 | exactly which lines of the old boot are out after a completed poll that found a reboot: those it had, and the retained ones beyond the cursor |
| LogDelivery.RebootLosesNothing | tools/logtail.py:110-121 | after a reset and a completed poll every retained line that was readable before, or lies beyond the cursor, is out |
| LogDelivery.ReturnedLineStaysUnread | tools/logtail.py:110-116 | a line behind the cursor that the reset made readable again stays unread |
| LogDelivery.AReturnedLineIsLost | tools/logtail.py:103-123 | a history from a clean start in which the device serves a retained line that a completed poll never writes |
| LogDelivery.RebootIsAnnounced | tools/logtail.py:110-121 | a completed poll that found the device rebooted announces the new boot, and that the old one was not retained if and only if the device does not have it |
| LogDelivery.QuietPollReportsGaps | tools/logtail.py:80-87 | a poll that finds no reboot reports nothing but gaps, each of at least one line |
| LogDelivery.OnePageIsEnough | tools/logtail.py:87-123 | a poll whose first page ends with the latest line makes that one request and ends there |
| LogReturn.FirstLineComesBack | main/log_ring.c:160-195 | store by store from power-on: line 1025 overwrites the first, and a reset before its write-back recovers lines 1 to 1024 |
| LogTailTool.Tail.Consume | tools/logtail.py:80-87 | changes cursor, output and notes exactly as the follower specification |
| LogTailTool.Tail.TakePage | tools/logtail.py:95-101 | one page adopts the boot, is consumed, and skips an unreadable tail |
| LogTailTool.Tail.Drain | tools/logtail.py:89-101 | the loop ends and leaves exactly the specified follower |
| LogTailTool.Tail.Poll | tools/logtail.py:103-123 | a poll leaves exactly the specified follower, failures included |
| LogTailTool.Tail.Bridge | tools/logtail.py:110-121 | the reboot branch leaves exactly the specified follower |
| LogSystem.RecoveredLogIsTrue | main/log_ring.c:321-369 | the log recovered after a crash at any moment holds true lines only, as the follower's safety needs |
| LogSystem.FirstBootIsTheStart | main/log_ring.c:336-369 | the first boot after power-on shows the world the follower's runs start from |
| LogSystem.RunningStepShows | main/log_ring.c:160-195 | each store or write-back of a running boot is no step of the follower's device, or, for the last store of a commit, its logging of that line |
| LogSystem.ResetMayReboot | main/log_ring.c:321-334 | what a reset at any moment leaves in RAM is a log the device may retain |
| LogSystem.ResetIsAReboot | main/log_ring.c:336-369 | a reset and the boot it leads to are a reboot of the device, with PREVIOUS the retained log |
| LogSystem.CommitIsLogged | main/log_ring.c:206-221 | a commit of the ring class is a logging of the device |
| LogFirmware.FirmwareIsFollowed | main/log_ring.c:160-369 | over every run of stores, write-backs, resets and power cuts, initialisation included, with polls in between, the follower sees the logs the memory serves, and writes in order and once lines that boots sealed under those numbers |
| LogFirmware.RetainedIsTrue | main/log_ring.c:321-334 | what a reset recovers, from any phase, is a log the follower's device may retain |
| LogSystem.NothingComesBack | main/log_ring.c:321-369 | a line served after the reset was readable before it unless a newer one in its slot was not written back |
| LogSystem.LastWordsSurvive | main/log_ring.c:180-195 | the last line, once written back, heads what the next boot serves |
| PowerLog.AppendRepresents | main/power_log.c:53-58 | storing the next sample keeps the ring equal to the newest 8640 of the history |
| PowerLog.Ring.Note | main/power_log.c:30-60 | the history grows by one sample that tells the time, the brightness up to 100 and, of a reading that succeeded, everything read: the reading can be read back from it |
| PowerLog.NotedTells | main/power_log.c:36-52 | the same of the sample alone, unless the temperature read is the value that stands for none |
| PowerLog.Ring.Get | main/power_log.c:76-88 | succeeds for exactly the newest 8640 numbers, with the sample noted under each |
| PowerLog.Ring.Info | main/power_log.c:62-74 | reports exactly the readable range |
| PowerLog.ReadingsAreMeasured | main/power_log.c:36-52 | what is noted of a chip reading has its measurements unknown or in range |
| PowerLog.PagesValidate | tools/battery_record.py:40-75 | pages of such samples, at any limit, pass the recorder's checks on bounds, count, order, times and measurements |
| PowerLog.Ring.Fetch | main/otbr_rest.c:489-510 | the request loop returns the next rows after the cursor, at most the limit |
| Recorder.RestartRecovers | tools/battery_record.py:92-122 | a restart cuts exactly the unfinished line and resumes after the last whole row |
| Recorder.PartialHeaderRefused | tools/battery_record.py:101-103 | a file ending inside its first line is refused |
| Recorder.PollKeeps | tools/battery_record.py:148-166 | a page of this device always makes progress, and leaves rows that follow on |
| Recorder.RefusedMeansNoProgress | tools/battery_record.py:157-166 | a page is refused if and only if it offers no row beyond the cursor although it says there are some, unless it was fetched with another boot's cursor |
| Recorder.RunKeeps | tools/battery_record.py:78-195 | the record invariant over samples, overwrites, reboots, fetches and deaths at any character |
| Recorder.SkippedIsReported | tools/battery_record.py:174-176 | a number passed over was reported missing and already overwritten |
| Recorder.RecordIsSound | tools/battery_record.py:148-195 | after every run the file holds, per boot and strictly ascending, the samples noted under their numbers, gaps only where reported |
| Recorder.RebootsAreReported | tools/battery_record.py:152-156 | after every run a reported reboot is from an earlier boot to a later one, what was reported missing had been overwritten, and where the rows pass to another boot a reboot into it was reported |
| Recorder.RestartSucceeds | tools/battery_record.py:94-111 | a restart succeeds if and only if the file is empty or its header is whole |
| RecorderTool.Tool.SaveRow | tools/battery_record.py:173-190 | event, text, then cursor: the disk gains exactly that row |
| RecorderTool.Tool.SaveAll | tools/battery_record.py:173-190 | the disk gains exactly the rows handed over, with their gap events |
| RecorderTool.Tool.Ingest | tools/battery_record.py:148-195 | a page leaves the specified disk, cursor and answer, refusing a page without progress |
| RecorderTool.Tool.CatchUp | tools/battery_record.py:268-289 | fetching until there is no more ends, at the newest sample, each one saved once |
| RecorderTool.PageTakesNext | main/otbr_rest.c:489-510 | a page of a stopped device holds the next samples, at least one while any is left |
| WifiTransaction.CallbackSpares | main/main.c:177-402 | no callback changes a configuration, the hold or the operation in progress |
| WifiTransaction.FlashKeepsWhatWorked | main/main.c:454-611 | at every point of a join, under any failures and interleaving, flash holds the old configuration or the candidate seen connected in this call; success means saved |
| WifiTransaction.LeaveErases | main/main.c:613-635 | a leave ends held down, with both copies erased or, on an error, neither |
| WifiTransaction.FlashIsEarned | main/main.c:454-635 | over every history flash holds the boot configuration, nothing, or one that was seen connected |
| WifiTransaction.OnlyWorkingConfigsAreRetried | main/main.c:177-402 | connects outside a trial go to configurations that worked, when no join under a hold starts from a rejected one |
| WifiTransaction.BootIsCareful | main/main.c:1707-1727 | a boot meets the invariants these histories start from |
| WifiTransaction.RollbackRestoresWhatItFound | main/main.c:559-595 | a rolled-back join that lifts the hold leaves in driver and flash exactly what it found |
| WifiSuccess.JoinVerdict | main/main.c:475-611 | a join that is over succeeded if and only if every driver call of it answered and the candidate was connected when its wait ended; then driver and flash hold it and the hold is off |
| WifiSuccess.LeaveVerdict | main/main.c:621-635 | a leave that is over succeeded if and only if both its driver calls answered |
| WifiSuccess.SeenUpIsNeverRestored | main/main.c:533-557 | a candidate connected when its wait ends is never rolled back, whatever fails afterwards |
| WifiSuccess.SuccessNeedsAnAddress | main/main.c:396-405 | no join sees its candidate connected, let alone succeeds, without an address arriving meanwhile |
| WifiSuccess.RejectedIsUndone | main/main.c:559-595 | a join that never saw its candidate connected leaves what it found, or restored it and connected to it, or held the station down with nothing to restore, when the driver takes the old configuration back |
| WifiSuccess.JoinCanSucceed | main/main.c:475-557 | wherever a join may begin there is a path on which it succeeds |
| WifiSuccess.JoinSucceedsFromBoot | main/main.c:475-557 | so from boot, whatever flash holds |
| WifiSuccess.FailureTakesSix | main/main.c:513-536 | whatever was pending before, a candidate fails before its wait is over only after six disconnects or retries of its own time |
| WifiSuccess.WaitEndsWithDisconnect | main/main.c:437-453 | the wait for the radio ends with a disconnect event raised since it was asked for, or when it has run out |
| WifiSuccess.JoiningTellsAlways | main/main.c:470-611 | over every history the flag that takes retries off the supervisor is set exactly while a join holds the lock |
| WifiSuccess.FlagFollowsDriver | main/main.c:553-635 | the flag for stored credentials tells what an operation has saved, erased or put back |
| WifiSuccess.RevivedStartsOver | main/main.c:574-580 | a configuration put back starts not connected, without a failure and with all its retries |
| WifiTransaction.WhatAJoinFindsMayComeBack | main/main.c:487-580 | whatever a join finds in the driver it may restore and reconnect to |
| WifiTransaction.RejectedCandidateComesBack | main/main.c:559-595 | the concrete history in which a rejected candidate is reconnected |
| WifiSupervisor.ConnectsUnderHold | main/main.c:819-823 | after boot a step connects under a hold if and only if it is `link retry` with no timer and retries left |
| WifiSupervisor.RetryConnectsAfterLeave | main/main.c:819-823 | from a boot without the timer, a leave and then `link retry` connect under the hold |
| WifiSupervisor.NoConnectUnderHold | main/main.c:143-402 | with the timer created, no history of joins, leaves and callbacks connects under a hold |
| WifiSupervisor.HoldLasts | main/main.c:565-572 | between operations a hold lasts, and nothing connects or changes a configuration |
| WifiSupervisor.AlwaysPunctual | main/main.c:154-175 | the timers are never further away than 15 s and 60 s plus 1 µs |
| WifiSupervisor.TriesAgain | main/main.c:177-238 | left alone, a disconnected station calls connect within 75 s and 1 µs, plus 15 s per watchdog run that failed |
| WifiSupervisor.TheBoundIsReached | main/main.c:154-238 | that bound is attained |
| WifiSupervisor.TheBoundIsReachedFromBoot | main/main.c:154-238 | from boot: eight disconnects climb the ladder, the ninth fails to arm, and that time passes without an attempt |
| WifiSupervisor.NextAttempt | main/main.c:97-175 | after an address the disconnects in a row are answered at once three times, then after 1, 2, 5, 15 and 30 s, then after a minute each |
| WifiSupervisor.ConsoleIsHeard | main/main.c:805-823 | `link retry` arms at once; `link supervisor off` cancels and stops the timers from connecting; a join cancels what is armed |
| WifiSupervisor.NothingIsForgotten | main/main.c:177-238 | a rejected call is made again; the watchdog arms for stored credentials it can read, when nothing is armed, and only then |
| WifiSupervisor.RetriesAreBounded | main/main.c:375-386 | during a join, or with the supervisor off, five disconnects connect again and the sixth fails |
| WifiSupervisor.RetriesStartOver | main/main.c:364-405 | so they are from boot, and again after every address, which clears a failure |
| WifiStation.Station.ScheduleReconnect | main/main.c:154-175 | arms, or connects within five retries, exactly as the machine |
| WifiStation.Station.ReconnectTimer | main/main.c:177-194 | the timer callback is the machine's step |
| WifiStation.Station.WatchdogRun | main/main.c:211-238 | the watchdog callback is the machine's step |
| WifiStation.Station.HandleDisconnected | main/main.c:364-395 | the disconnect event is the machine's step |
| WifiStation.Station.HandleGotIp | main/main.c:396-405 | the address event is the machine's step |
| WifiStation.Station.Disconnect | main/main.c:437-453 | holds, disconnects and waits, exactly as the machine does in the same world |
| WifiStation.Station.Rollback | main/main.c:559-595 | restores and revives, or stays held, exactly as the machine does in the same world |
| WifiStation.Station.Try | main/main.c:505-557 | stages, connects, judges, then saves or rolls back, exactly as the machine does when the world makes the same callbacks and gives the same answers |
| WifiStation.Station.JoinNetwork | main/main.c:454-611 | bad arguments and a missing or busy lock change nothing; otherwise the call settles as the machine does, it returns success if and only if the world granted every driver call and connected the candidate by the end of its wait, and then driver and flash hold the candidate and the hold is off |
| WifiStation.Station.LeaveNetwork | main/main.c:613-635 | the call ends idle and held, with the credentials erased if and only if the world granted it, or an error |
| MatterBattery.ConvertRange | main/matter_battery_model.h:22-43 | null or even percentages up to 200, null or 2500 to 4350 mV, and which level goes with which percentage |
| MatterBattery.Publisher.Update | main/matter_battery.cpp:33-41 | an accepted value is written and cached together, a refused one neither |
| MatterBattery.Publisher.Publish | main/matter_battery.cpp:51-79 | the run writes the attributes that are due and caches what was accepted, and afterwards each accepted attribute reads as the sample (PublishShows) |
| MatterBattery.PublishShows | main/matter_battery_model.h:22-43 | after a publication an accepted percentage halves back to the sample's or is null, an accepted voltage is the sample's or still within its minute, and status, charge state and level hold exactly the sample's conditions |
| MatterBattery.PublicationsShow | main/matter_battery.cpp:51-79 | the same of each publication of any history |
| MatterBattery.PublishingAgainWritesNothing | main/matter_battery.cpp:51-79 | a second publication of the same sample at the same moment writes nothing |
| MatterBattery.PublishKeeps | main/matter_battery.cpp:51-79 | one run keeps the cache equal to the last writes and the voltages spaced |
| MatterBattery.PublicationsAreSound | main/matter_battery.cpp:51-79 | over every history the cache is what was last written, percentages are null or even and at most 200, voltages in a row are a minute apart |
| MatterBattery.StaleIsNulled | main/matter_battery_model.h:22-50 | a minute after the last sample an accepted publication nulls percentage and voltage |
| MatterQueue.NewestIsPublished | main/matter_battery.cpp:43-112 | at most one job is queued, and once quiet the newest sample was published if and only if no failed request cleared the flag while it waited |
| MatterQueue.NextRequestRecovers | main/matter_battery.cpp:82-92 | the next request that can be scheduled publishes it |
| MatterQueue.EarlierFailureLosesLaterSample | main/matter_battery.cpp:82-112 | a history in which the schedule failed before the store and the sample is still not published |
| UiCalls.CallsRunOnce | main/ui.c:2881-2912 | a call that returned true ran once and to completion, one that returned false never runs |
| UiCalls.NoStaleCompletion | main/ui.c:2890-2891 | the completion a caller takes is its own |
| UiCalls.OneUiJob | main/ui.c:602-641 | the busy flag is set exactly while one UI job is being admitted, queued or running |
| UiCalls.QueueIsBounded | main/ui.c:602-641 | over every run the queue holds at most four jobs |
| UiCalls.CallCanSucceed | main/ui.c:2881-2912 | whenever the lock is free and the worker has nothing to do, a new call can be taken, run once and answered true |
| UiCalls.UiJobCanRun | main/ui.c:602-641 | then a UI job can be admitted and run, and the flag is down again |
| UiShare.ClosedMeansOff | main/ui.c:929-994 | once idle with no stop pending, a share screen last closed means its own key is off; a key is on if and only if a REST or console call opened it and nothing has ended it since |
| UiShare.StopSparesNewerKey | main/ui.c:1600-1605 | a delayed stop never stops a newer key of the screen; a call's key it stops if and only if its generation is the current one when compared |
| UiShare.AKeyIsOnAfterClose | main/otbr_rest.c:176-192 | a history that ends idle, closed, nothing pending, and with a call's key on |
| UiShare.ADelayedStopEndsACallsKey | main/ui.c:350-361 | a history in which a stop delayed by a full queue ends a key a call opened after the close |
| UiShare.LateOpenCancelled | main/ui.c:1572-1599 | a key whose screen closed while it was being opened is stopped by the same job |
| UiShare.OpenIsNotStopped | main/ui.c:941-994 | while the screen was opened last no stop is pending, and every stop on its way is of an older generation than the one it opened |
| UiShare.OneUiJob | main/ui.c:602-641 | over every run the flag is up exactly while one UI job is queued or running, and the queue holds at most four jobs |
| UiShare.FromRest | main/ui.c:1572-1605 | from rest, an open whose start succeeds leaves the screen's own key on, a close or a call's stop leaves none, a call's start leaves the call's |
| UiShare.Screen.QueueUiJob | main/ui.c:602-613 | admitted exactly when idle with room; the flag is taken back otherwise |
| UiShare.Screen.BeginShare | main/ui.c:929-968 | accepted if and only if attached, idle and with room; then it opens one generation later, else everything is as it was |
| UiShare.Screen.OnClose | main/ui.c:981-994 | a new generation, and its stop queued or left pending |
| UiShare.Screen.OnTimer | main/ui.c:350-361 | a pending stop is queued as soon as there is room |
| UiShare.Screen.WorkerTurn | main/ui.c:1572-1610 | a worker turn, calls that open or stop the key included, does what its steps do with nothing in between |
| Coap.FindPayload | main/meshcop_codec.h:21-64 | within bounds, returns where the payload starts, or nothing, as the scanner specification |
| Coap.EncodedPayloadIsFound | main/meshcop_codec.h:21-64 | scanning any encoded message (sections 3 and 3.1 of RFC 7252) gives its payload back |
| Coap.OnlyFramingsAreAccepted | main/meshcop_codec.h:21-64 | whatever the scanner accepts is what the encoder writes for that payload, an empty one included |
| Coap.AcceptedIsLegal | main/meshcop_codec.h:58-63 | what it accepts is a message of section 3 of RFC 7252 if and only if something follows the marker |
| Coap.LegalIsAccepted | main/meshcop_codec.h:21-64 | a legal message is accepted if and only if it carries a payload |
| Coap.BareMarkerIsAccepted | main/meshcop_codec.h:58-63 | 40 45 00 00 FF, a format error, is accepted with an empty payload |
| Coap.SuccessIsClassTwo | main/meshcop_codec.h:12-19 | the success test holds if and only if a whole header with a code of class 2 is at the front |
| Coap.RequestIsEncoded | main/meshcop.c:92-117 | the hand-built request is the encoding of its message if and only if the path is under 13 octets |
| Coap.RequestIsReadBack | main/meshcop.c:92-117 | its payload is scanned back; an empty one is not sent |
| Coap.Client.Post | main/meshcop.c:92-117 | writes the request octet for octet and bumps the 16-bit message ID |
| MeshTlv.AcceptedIsFirstState | main/meshcop_codec.h:66-91 | acceptance means: the first State TLV reached through whole TLVs has length 1 and value 1 |
| MeshTlv.PetitionAccepted | main/meshcop_codec.h:66-91 | true if and only if the message has a payload of that kind |
| MeshTlv.SummaryReadsBack | main/meshcop.c:170-207 | a dataset of whole TLVs yields its last name cut to the buffer, last channel and last PAN ID |
| MeshTlv.PetitionOctets | main/meshcop_codec.h:66-91 | 10 01 01 is accepted, 10 01 00 and 0B 01 01 are not |
| MeshTlv.DatasetOctets | main/meshcop.c:170-207 | a dataset with channel 15, PAN 0x1234 and network mesh, octet by octet, reads so |
| MeshTlv.Summarize | main/meshcop.c:170-207 | the loop leaves the specified summary, the name terminated |
| RestQuote.Quote | main/otbr_rest_wire.h:21-60 | succeeds if and only if the quoted string and its NUL fit, and then writes them |
| RestQuote.QuotedReadsBack | main/otbr_rest_wire.h:21-60 | the quoted string reads back (section 7 of RFC 8259) octet for octet |
| RestOptions.ParserIsGrammar | main/otbr_rest_wire.h:119-221 | the parser reads a body to a tree if and only if the tree is well formed and written as that body |
| RestOptions.ParseOptions | main/otbr_rest_wire.h:119-221 | true exactly for the bodies of the grammar: white space of isspace only, or an object with at most one lifetime and one port, JSON integers fitting `long`; fields not named keep their values |
| RestOptions.AcceptedIsJson | main/otbr_rest_wire.h:119-221 | an accepted object is an object of RFC 8259 if and only if it holds no vertical tab and no form feed |
| RestOptions.JsonIsAccepted | main/otbr_rest_wire.h:119-221 | every such object of RFC 8259, its names written without escapes, is accepted |
| RestOptions.VerticalTabIsAccepted | main/otbr_rest_wire.h:136-141 | 7B 0B 7D, which is not JSON, is accepted |
| RestOptions.OtherNamesAreRefused | main/otbr_rest_wire.h:187-195 | an object whose first name is not written octet for octet is refused |
| RestOptions.EscapedNameIsRefused | main/otbr_rest_wire.h:187-195 | an object naming the port with an escape, which is JSON, is refused |
| RestOptions.LoopMembers | main/otbr_rest_wire.h:134-216 | the loop accepts exactly distinct members separated by commas up to the brace, and takes their values |
| RestOptions.BothAreRead | main/otbr_rest_wire.h:187-213 | an object giving a lifetime and a port, written out, gives each field the number behind its own name |
| RestOptions.OptionsAreRead | main/otbr_rest_wire.h:187-213 | {"lifetime":-5,"port":49152} gives exactly those two |
| RestOptions.BlankOctets | main/otbr_rest_wire.h:119-130 | one octet that is not a brace is accepted if and only if it is white space of isspace |
| RestOptions.LongsFit | main/otbr_rest_wire.h:170-186 | a decimal is taken exactly up to LONG_MAX, and with a minus down to LONG_MIN |
| Discharge.History.NoteSample | main/power.c:270-299 | the ring's contents become what the specification keeps |
| Discharge.History.DischargeRate | main/power.c:301-328 | the answer is the rate of the kept samples, or withheld |
| Discharge.KeptIsLastOfRun | main/power.c:270-299 | over every history the ring is the last twelve samples of the current unbroken run |
| Discharge.KeptIsUnbroken | main/power.c:270-299 | they are 60 to 90 s apart and never rise |
| Discharge.EveryRunArises | main/power.c:270-299 | every such run of at most twelve is what some history keeps |
| Discharge.PollLeaves | main/power.c:270-299 | a poll on external power or without a percentage leaves nothing; any other leaves a newest sample less than a minute old and no lower than the poll, behind what was kept before or, after a gap, a rise or a clock gone back, alone |
| Discharge.EstimateIsBounded | main/power.c:301-328 | an estimate is the drop over its time, between 80/11 and 600 %/h and at most 808 minutes, and given exactly when the code's conditions hold |
| Discharge.RateIsTheProjection | main/power.c:301-328 | an estimate is given if and only if there are two samples, ten minutes and two points between the ends and no more than ninety seconds since the newest; its minutes are the whole minutes the newest percentage lasts at the pace between the ends |
| Discharge.BoundsAreReached | main/power.c:301-328 | those bounds are attained |
| GaugeCurve.PercentFromMv | main/power.c:133-152 | the loop finds the one segment of the curve and rounds on it |
| GaugeCurve.OnLineIsNear | main/power.c:145-149 | the answer is within half a point of the line and between its knots |
| GaugeCurve.KnotsAreRead | main/power.c:135-141 | every knot of the curve reads as its percentage |
| GaugeCurve.PercentIsMonotone | main/power.c:133-152 | a higher voltage never reads lower, and it is always a percentage |

## Left out

- WifiTransaction.OnlyWorkingConfigsAreRetried: one direction for whole histories; WhatAJoinFindsMayComeBack shows for each join why the condition is there.
- WifiSupervisor.TriesAgain: covers time, timer and watchdog steps; a new event starts the count again.
- LogTail.FollowSafety: the count of lines written and reported is for boots never retained with a torn line; an unreadable tail is jumped without a report (tools/logtail.py:98-100).
- WifiModel: a join is one step per driver call; variables set between two calls change together.
- UiCalls: calls and worker are a state machine over interleaved steps, on values; the contents of jobs other than calls and shares are not modelled.
- MatterQueue: the atomics are interleaved steps; weak memory ordering is not modelled.
- LogTail.RepliesAreAcceptable: field types and 32-bit ranges of a page are not modelled.
- LogFirmware.FirmwareIsFollowed: polls of this run find nothing logged between their own requests (LogTail.FollowSafety has that), and boot IDs are the boots' numbers.
- PowerLog.PagesValidate: the samples' measurements and times are assumed in range, as the chip's registers and the clock give them.
- LogRing.LogHalf.Commit: composes the text in a buffer of its own and stores the slot whole; LogMemory models the single stores.
- Recorder: CSV and JSON text are rows of some width; status file, time estimates and console output are not modelled.
- RestOptions: the request body is its octets before the NUL; `otbr_rest_terminate_body` and the dataset and toggle bodies are not part of the model.
- HTTP status codes, headers and query parsing around the paging loops.
- DTLS, OpenThread, CHIP, mDNS, LVGL, the PMIC and the QR scanner: libraries and hardware.
- `tools/autojoin.py`, `tools/mdns_watch.py` and the other tools: input and output only.
- Skipping empty acknowledgements before a CoAP response (main/meshcop.c:125-140): a retry loop around foreign calls.
