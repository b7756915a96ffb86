# A model of the outreach mailer's delivery core, with proofs

The mailer accepts outreach requests under an idempotency key, has a language model write the message
where none was supplied, sends it over SMTP, and records what became of it. All of that goes through one
database table, `external_dispatches`, which several processes work on at once. This project models that
protocol and the smaller algorithms around it, and proves what they guarantee on every input and every run.

## How the model is built

* `DispatchModel` holds the rows and the guarded updates, each as one atomic change of two tables.
* `DeliveryProtocol` is the whole protocol as a state machine. A step carries every choice of the
  environment: which task moves, what the clock reads, what SMTP does, and whether a commit takes effect,
  takes effect without being acknowledged, or fails. A crash is a step that any task can take at any point.
  `Apply` is total (a step that is not enabled changes nothing), so a run is any sequence of steps.
* `DeliveryInvariant`, `DeliverySteps` and `DeliveryTheorems` hold the invariant, one preservation lemma per
  step, and what follows in every reachable state. `DeliveryClocks` derives that fencing tokens do not repeat from
  clocks that move. `DeliveryProgress` says how a row may change along a run.
  `DeliveryEffects` says what each step does leave behind. `DeliveryWitnesses` gives runs that show where the
  guarantees stop.
* `SmtpSender` is the three-attempt SMTP wrapper over an arbitrary script of failures, including cleanup
  errors. The protocol's SMTP step uses it, so "sent once" is about `sendmail()` calls, not about claims. In the same
  way its grounding gate is the check of `Grounding`.
* `WorkClaiming` has the claim, sweep and outcome operations as methods on mutable tables. Between the tries of an
  outcome other actors may do anything that moves rows forward, and `DeliveryProgress.RunRowsLater` shows that every
  run of the protocol does.
* `DispatchShutdown` has the in-process monitor as a class, Transaction B call by call, and the whole process as
  a state machine: any number of dispatchers sharing the monitor, and the phases of a graceful shutdown.
* `Intake` lets any number of requests on both routes interleave with each other and with the workers.
* `LlmRouter`, `FactReconciliation`, `Grounding`, `MailboxInbound` and `MailboxPolling` are the model router,
  the fact fold, the grounding check and the IMAP drain.

SMTP servers, IMAP servers, the model provider, clocks and other processes are adversaries: what they do is a
parameter of a step or of a method. A request fingerprint is the request's canonical payload itself, so two
fingerprints are equal exactly when the payloads are. The Message-ID of a send is any value that no other
Message carries. Character classes and lower-casing are parameters of the grounding model.

## Where the code does less than its comments say

* `DispatchResult.persisted` is documented as false when the outcome could not be written
  (`mailer_agent/mail/external_dispatch_worker.py:140`). It is also false when the outcome was written and the
  acknowledgement was lost; `WorkClaiming.ReportedExactly` gives the exact condition and
  `WorkClaiming.WrittenButUnreported` an input. The same holds for a `False` from Transaction G2.
* "Drained" means that nothing is in flight only while a runtime serves one dispatcher. With two, a rollback
  followed by a late unregister erases the other dispatcher's entry; `DispatchShutdown.SoundExactly` shows that
  one dispatcher is exactly the limit. The scheduler's configuration keeps to it.
* A generation claim that was swept can match again if two workers share a worker name and a clock reading
  (`DeliveryWitnesses.TokenReuse`). Even then at most one Message is committed (`DeliveryTheorems.OneMessage`).
* A Seen message is described as never existing nowhere in the database. Its identity never does, but its
  content does when two different messages of a mailbox share a Message-ID: `MailboxInbound.ContentKeptExactly`.
* The grounding check is described as tracing each claim to at least one source. It accepts a claim whose numbers
  come from different sources; `Grounding.TraceableExactly` says for which claims that can happen, and
  `Grounding.SpreadSupport` gives one.
* A claim that Transaction B has committed is meant to be handed over for sending. If closing the session raises
  after an acknowledged commit, it is not, and stays registered as in flight (`DispatchShutdown.TransactionB`). The
  process can then no longer be recorded as stopped (`DispatchShutdown.AbandonedNeverStops`), and the row is left to
  the lease sweep.
* `send_email` answers SENT in a dry run (`SmtpSender.OutcomeHonest`); the protocol is honest because the live
  flag is one of the gates. An exception raised for a malformed Message-ID becomes UNKNOWN although nothing was
  transmitted; UNKNOWN promises nothing, so no theorem is affected.

## Model

| member | source | states |
|---|---|---|
| DeliveryTheorems.AtMostOneTransmission | mailer_agent/followup/work_claiming.py:464-706 | in every reachable state a dispatch has had at most one committed SENDING claim, at most one `sendmail()` call, and no more deliveries than calls |
| DeliveryTheorems.HonestStates | mailer_agent/mail/external_dispatch_worker.py:581-634 | QUEUED and GENERATING: SMTP never entered; FAILED: nothing was accepted; SENT: accepted exactly once |
| DeliveryEffects.OutcomeRecorded | mailer_agent/mail/external_dispatch_worker.py:581-634 | a live send whose claim holds is recorded SENT iff an attempt had `sendmail()` return, UNKNOWN iff one failed in it without a refusal, FAILED otherwise; row free, error text unless SENT, Message alike |
| DeliveryEffects.RaisedRecorded | mailer_agent/mail/external_dispatch_worker.py:585-592 | an exception out of `send_email` is recorded UNKNOWN, and nothing was called |
| DeliveryEffects.OutcomeTriedThrice | mailer_agent/mail/external_dispatch_worker.py:532-553 | a try of Transaction C that is not acknowledged leads to the next, the third to the late note |
| DeliveryEffects.LateOutcomeNoted | mailer_agent/mail/external_dispatch_worker.py:556-578 | an outcome whose claim is lost is put as a note behind the error text of the UNKNOWN row |
| DeliveryEffects.DrainRecorded | mailer_agent/mail/external_dispatch_worker.py:729-774 | the drain makes a row that its claim still holds UNKNOWN, with its Message |
| DeliveryEffects.SweepRecorded | mailer_agent/followup/work_claiming.py:545-646 | a sweep step resolves a row exactly if its claim has lapsed: a send to UNKNOWN with its Message, a generation to QUEUED |
| DeliveryTheorems.TransmittedAsStored | mailer_agent/mail/external_dispatch_worker.py:480-508 | the Message-ID, subject and body given to SMTP are those of the committed Message, at that moment and in every later state |
| DeliveryTheorems.TransmittedAsRequested | mailer_agent/api/integrations.py:489-493 | for an exact-message request the transmitted body is the one it asked for, and the subject its own or the empty one |
| DeliveryTheorems.DurableBeforeSmtp | mailer_agent/mail/external_dispatch_worker.py:581-602 | a task about to enter SMTP finds its Message-ID already committed and no earlier SMTP entry for the dispatch |
| DeliveryTheorems.MessageIdsDiffer | mailer_agent/models.py:361-375 | no Message-ID is transmitted for two dispatches |
| DeliveryTheorems.PreparedIsLive | mailer_agent/mail/external_dispatch_worker.py:418-525 | only a process with live sending on ever holds a prepared send |
| DeliveryTheorems.SendingPassedEveryGate | mailer_agent/mail/external_dispatch_worker.py:324-399 | a row that is or was SENDING passed wiring, mailbox, suppression, grounding, live-flag and credential gates in the very transaction that claimed it |
| DeliveryTheorems.TransmittedWasCleared | mailer_agent/mail/external_dispatch_worker.py:418-525 | what SMTP was given is what the gates cleared: an address found not suppressed, an active mailbox of the organization, the gated text, and every claim in it borne out by the approved sources |
| DeliverySteps.GatesExact | mailer_agent/mail/external_dispatch_worker.py:324-399 | the ordered chain of gates, grounding check included, passes exactly if every gate holds, and then the payload is the address, mailbox and text the gates looked at |
| DeliverySteps.PutOffExactly | mailer_agent/mail/external_dispatch_worker.py:382-399 | a missing encryption key leaves the dispatch queued, rather than failed, exactly when every other gate holds |
| DeliveryEffects.RefusalRecorded | mailer_agent/mail/external_dispatch_worker.py:402-415 | a refusing gate is recorded in the same commit as FAILED with its reason, Message included, and nothing goes on to SMTP |
| DeliveryEffects.PassRecorded | mailer_agent/mail/external_dispatch_worker.py:480-517 | a pass is recorded in one commit: SENDING under the claim, Message SENDING with the Message-ID and otherwise unchanged |
| DeliveryEffects.FirstGateDecides | mailer_agent/mail/external_dispatch_worker.py:324-399 | the first gate that fails, in the order listed, decides and names the reason |
| DeliveryEffects.GatesRunDry | mailer_agent/mail/external_dispatch_worker.py:441-500 | running the gates changes no table and ends in a pass, a refusal or a deferral, exactly when due |
| DeliveryEffects.FaultRefuses | mailer_agent/mail/external_dispatch_worker.py:496-503 | an internal error before the send is a refusal |
| DeliveryEffects.ClaimOpens | mailer_agent/followup/work_claiming.py:464-540 | an idle worker can open its transaction on any unlocked QUEUED row of its kind, under its name and time |
| DeliveryEffects.GenerationStarts | mailer_agent/mail/outreach_generation_worker.py:182-213 | Transaction G1 leaves the row GENERATING under the claim, or FAILED with the reason |
| DeliveryEffects.DraftHandedOn | mailer_agent/mail/outreach_generation_worker.py:297-331 | what the model wrote, or why it did not, is what is handed to Transaction G2 |
| DeliveryEffects.GenerationWritten | mailer_agent/mail/outreach_generation_worker.py:253-290 | Transaction G2 of the protocol writes what the store writes, and is tried three times |
| DeliveryTheorems.OneMessage | mailer_agent/mail/outreach_generation_worker.py:253-290 | at most one Message is ever committed for a dispatch, and the row links to exactly that one |
| DeliveryTheorems.NoOrphanMessage | mailer_agent/followup/work_claiming.py:785-806 | every integration Message is linked by exactly one dispatch |
| DeliveryTheorems.RowAndMessageAgree | mailer_agent/followup/work_claiming.py:677-706 | dispatch and Message have matching states, Message-IDs are present from SENDING on, and the claim columns are set exactly in GENERATING and SENDING |
| DeliveryTheorems.SendFenceExact | mailer_agent/followup/work_claiming.py:677-696 | on a SENDING row the outcome fence admits exactly the claim that made it SENDING |
| DeliveryTheorems.GenFenceExact | mailer_agent/followup/work_claiming.py:774-806 | on a GENERATING row an earlier claim passes the fence if and only if it carries the holder's worker name and time |
| DeliveryTheorems.SupersededNeverMatches | mailer_agent/followup/work_claiming.py:433-445 | if each worker name's clock moves on from claim to claim, a claim passes the generation fence iff it is the last on the row and the row is still GENERATING |
| DeliveryTheorems.TokensNeverRepeat | mailer_agent/followup/work_claiming.py:433-445 | under the same assumption no two claims of a worker name on a row carry the same token |
| DeliveryClocks.RunTimed | mailer_agent/followup/work_claiming.py:713-771 | why: the clock readings are per worker name over all rows, and the row lock from reading to commit keeps what is recorded on each row in increasing order, along every run |
| DeliverySteps.StepKeeps | mailer_agent/followup/work_claiming.py:464-907 | every step of every actor, crashes and lost acknowledgements included, keeps the protocol invariant |
| DeliverySteps.RunKeeps | mailer_agent/followup/work_claiming.py:464-907 | so does every run |
| DeliverySteps.CommitSendKeeps | mailer_agent/mail/external_dispatch_worker.py:418-525 | the one commit of Transaction B, refused or passed, acknowledged or not, keeps the invariant |
| DeliverySteps.RunSmtpKeeps | mailer_agent/mail/external_dispatch_worker.py:581-634 | running SMTP outside any transaction keeps it, whatever the server does |
| DeliverySteps.WriteOutcomeKeeps | mailer_agent/mail/external_dispatch_worker.py:532-553 | every retry of Transaction C keeps it |
| DeliverySteps.WriteGenerationKeeps | mailer_agent/mail/outreach_generation_worker.py:253-290 | every retry of Transaction G2 keeps it |
| DeliverySteps.CommitGenerationKeeps | mailer_agent/mail/outreach_generation_worker.py:182-213 | Transaction G1 keeps it, refusals included |
| DeliverySteps.DrainKeeps | mailer_agent/mail/external_dispatch_worker.py:729-774 | draining any claim at any moment keeps it, as the drain works on a list taken earlier |
| DeliveryProgress.StepForward | mailer_agent/followup/work_claiming.py:545-646 | no step lowers a row's rank, rewrites its identity or unlinks its Message; a terminal row changes only its error text |
| DeliveryProgress.RunForward | mailer_agent/followup/work_claiming.py:830-907 | the same along whole runs; Message text and a set Message-ID never change |
| DeliveryProgress.RunRowsLater | mailer_agent/followup/work_claiming.py:464-907 | between any two moments of any run rows only move forward, which is what the retries of an outcome are proved against |
| DeliveryProgress.OutcomeFindsRow | mailer_agent/mail/external_dispatch_worker.py:581-634 | a worker with an outcome to write finds its row SENDING or final, however late it is |
| DeliveryProgress.LostClaimWritesNothing | mailer_agent/followup/work_claiming.py:677-696 | once a send claim has lost its row, its outcome write changes neither table after any further run |
| DeliveryProgress.LostGenerationWritesNothing | mailer_agent/followup/work_claiming.py:774-827 | once a generation claim is off its row, superseded or merely swept, it never passes the fence again and its outcome write changes neither table, after any further run |
| DeliveryProgress.LockedRowStep | mailer_agent/followup/work_claiming.py:464-540 | a row claimed in an open transaction, and its Message, are changed by no other task, sweep, drain or request |
| DeliveryProgress.LockedRowFrozen | mailer_agent/mail/external_dispatch_worker.py:418-525 | abandoning Transaction B or G1 before its commit leaves the row and its Message as they were when it was claimed |
| DeliveryWitnesses.TokenReuse | mailer_agent/followup/work_claiming.py:774-784 | without the clock discipline a reachable state lets a superseded generation claim pass the fence |
| DeliveryWitnesses.SomeTaskIsPrepared | mailer_agent/mail/external_dispatch_worker.py:418-525 | a live task can reach SMTP, so the theorems about it are not empty |
| DeliveryWitnesses.CrashesIndistinguishable | mailer_agent/models.py:443-495 | a crash before SMTP and one after acceptance leave equal tables and tasks with zero and one delivery: a stale SENDING row can only become UNKNOWN |
| DeliveryWitnesses.BothCrashesHappen | mailer_agent/models.py:443-495 | both crashes are runs of the protocol |
| SmtpSender.SmtpAttempt | mailer_agent/mail/sender.py:266-348 | one attempt raises what its body decided; cleanup errors neither replace it nor undo an acceptance |
| SmtpSender.SmtpSendWithRetry | mailer_agent/mail/sender.py:266-348 | the loop stops at the first attempt that is final and counts `sendmail()` calls exactly |
| SmtpSender.RetriedExactly | mailer_agent/mail/sender.py:252-271 | the first attempt always runs; another one runs exactly after one that broke off before `sendmail()` with an error that may pass, listed by kind, and three at most do |
| SmtpSender.ReturnsExactly | mailer_agent/mail/sender.py:180-221 | a dry run and a malformed Message-ID run no attempt; a live call returns unless its last attempt is interrupted |
| SmtpSender.FinalDecides | mailer_agent/mail/sender.py:266-348 | only the last attempt can have called or delivered |
| SmtpSender.AtMostOneSendmail | mailer_agent/mail/sender.py:266-348 | one `send_email` makes at most one `sendmail()` call, for every pattern of failures |
| SmtpSender.OutcomeMeaning | mailer_agent/mail/sender.py:195-221 | SENT iff `sendmail()` returned, UNKNOWN iff it failed without one of the five refusals, FAILED iff every hand-off was so refused or never happened |
| SmtpSender.OutcomeHonest | mailer_agent/mail/sender.py:138-221 | FAILED means not delivered; SENT means delivered once if and only if live sending is on |
| WorkClaiming.DispatchStore.ClaimNextExternalDispatch | mailer_agent/followup/work_claiming.py:464-540 | claims the least unlocked QUEUED row with a Message, as SENDING under the worker and time, and changes nothing else; none is claimed only if all such rows are locked |
| WorkClaiming.DispatchStore.ClaimNextGeneration | mailer_agent/followup/work_claiming.py:713-771 | the same for QUEUED rows without a Message |
| WorkClaiming.DispatchStore.RecoverExpired | mailer_agent/followup/work_claiming.py:545-646 | picks the lowest unlocked rows that are SENDING (for generation, GENERATING without a Message) and claimed before now - lease, up to the limit; they become UNKNOWN with their Message, or QUEUED; every other row and Message is unchanged |
| WorkClaiming.SweepMeans | mailer_agent/followup/work_claiming.py:566-646 | the same for the sweep as a function, which the counts below are about |
| WorkClaiming.DispatchStore.TransactionC | mailer_agent/mail/external_dispatch_worker.py:532-553 | three tries with other actors between them write the outcome at most once, at the first commit that takes effect and under the fence as found there; success is reported iff that commit was acknowledged |
| WorkClaiming.DispatchStore.TransactionG2 | mailer_agent/mail/outreach_generation_worker.py:253-290 | three tries with other actors between them attach at most one Message, together with its link, and touch no Message that was there; success, lost fence and "database failed" are reported exactly when due |
| WorkClaiming.ResolveOne | mailer_agent/followup/work_claiming.py:598-626 | resolving an expired row removes that row, and only it, from the expired set |
| WorkClaiming.SweepExact | mailer_agent/followup/work_claiming.py:566-646 | a sweep moves exactly its selected rows to the recovered state and touches no other row |
| WorkClaiming.Selected | mailer_agent/followup/work_claiming.py:566-596 | the selection has min(limit, n) distinct expired rows |
| WorkClaiming.SweepShrinks | mailer_agent/followup/work_claiming.py:848-883 | one sweep takes min(limit, n) off the expired set |
| WorkClaiming.SweepsConverge | mailer_agent/followup/work_claiming.py:848-883 | k sweeps leave exactly max(0, n - k * limit) rows, hence ceil(n / limit) rounds |
| WorkClaiming.SweepIdle | mailer_agent/followup/work_claiming.py:566-596 | with nothing expired a sweep changes nothing |
| WorkClaiming.ReportedExactly | mailer_agent/mail/external_dispatch_worker.py:134-141 | "not persisted" means not written, except exactly when the claim held the row at the first commit that took effect and that commit was not acknowledged |
| WorkClaiming.WrittenButUnreported | mailer_agent/mail/external_dispatch_worker.py:134-141 | an input where the outcome is written and reported as not persisted |
| WorkClaiming.FinishOnce | mailer_agent/followup/work_claiming.py:677-696 | finishing twice is finishing once, and the claim no longer passes the fence |
| WorkClaiming.FinishWrites | mailer_agent/followup/work_claiming.py:677-706 | under the fence the row is final, free and carries the error, and its Message has the matching status; without it nothing changes |
| WorkClaiming.NoteAppends | mailer_agent/followup/work_claiming.py:886-907 | a note is put behind the error text of an UNKNOWN row of that organization and changes nothing else |
| WorkClaiming.GenerationOnce | mailer_agent/followup/work_claiming.py:785-827 | under the fence the row is QUEUED with a new DRAFT of the text, or FAILED with the reason, and the claim passes no more; without it nothing changes |
| DispatchShutdown.DispatchRuntime.Drain | mailer_agent/mail/external_dispatch_worker.py:231-240 | the waiting loop answers at its first look that finds the monitor quiet or the deadline past, and true exactly if quiet |
| DispatchShutdown.TransactionB | mailer_agent/mail/external_dispatch_worker.py:418-525 | call by call, with any exception anywhere and a stop request before either look at the flag: the attempt is released exactly once; the claim stays in flight iff the SENDING commit was acknowledged; it is then handed over unless closing the session raises; what is written, returned and raised is stated for the exits |
| DispatchShutdown.GracefulShutdown | worker.py:110-166 | as a history of the process with other threads at work: "stopped" is recorded iff no phase failed and the wait ended with nothing in flight; with one dispatcher everything is then at rest |
| DispatchShutdown.OneDispatcherSound | mailer_agent/followup/scheduler.py:405-408 | with one dispatcher, on every history: after an empty drain no SMTP runs or starts before a resume, and "stopped" implies drained, claiming closed and no dispatcher at work |
| DispatchShutdown.StoppedForGood | worker.py:110-166 | from a recorded "stopped" on, whatever follows short of a new start, nothing is claimed, running or sent |
| DispatchShutdown.AbandonedNeverStops | mailer_agent/mail/external_dispatch_worker.py:507-525 | once closing the session has raised after an acknowledged commit, no history of a process with one dispatcher drains empty, records "stopped" or resumes |
| DispatchShutdown.SoundExactly | mailer_agent/mail/external_dispatch_worker.py:155-240 | that holds for all histories if and only if there is at most one dispatcher; with two, a history records "stopped" and then enters SMTP |
| DispatchShutdown.HistoryApart | mailer_agent/followup/work_claiming.py:464-540 | no two dispatchers have one row open, on any history |
| DispatchShutdown.RowCanBeTaken | mailer_agent/followup/work_claiming.py:464-540 | an admitted dispatcher may take any queued row nobody has open |
| DispatchShutdown.WaysOut | mailer_agent/mail/external_dispatch_worker.py:641-658 | a refusal settles its row, and a finished send unregisters its claim |
| DispatchShutdown.ResumeExactly | mailer_agent/mail/external_dispatch_worker.py:210-216 | a new start reopens a quiet process that is not in the middle of a shutdown, and changes nothing otherwise |
| DispatchShutdown.ClosingStops | mailer_agent/mail/external_dispatch_worker.py:723-726 | claiming is closed by the first phase of a shutdown, if it does not fail, and by no later one |
| Intake.ServeKeeps | mailer_agent/api/integrations.py:440-555 | every interleaving of requests and workers keeps the intake invariant |
| Intake.OneDispatchPerKey | mailer_agent/models.py:552-558 | one dispatch per (organization, key), over both routes |
| Intake.AcceptedAgree | mailer_agent/api/integrations_generated.py:147-170 | accepted requests on one key carry one fingerprint and receive one reference |
| Intake.OneInserter | mailer_agent/api/integrations_generated.py:282-371 | at most one request per key inserts anything, and never one answered with a conflict |
| Intake.CommitExactly | mailer_agent/api/integrations.py:485-555 | the one commit inserts iff no row has the key or the reference and it takes effect: the dispatch under the request's own columns and, on the exact route, a DRAFT for its contact with subject and body verbatim; accepted iff also acknowledged |
| Intake.ReadExactly | mailer_agent/api/integrations_generated.py:147-170 | a known key is answered with its reference if the fingerprints agree and with a conflict if not; an unknown one goes on, or is an error after a lost race |
| Intake.ArrivalAndRejection | mailer_agent/api/integrations.py:132-168 | a request arrives unanswered, and one turned down before its commit leaves no row behind |
| Intake.CommitIsAccept | mailer_agent/api/integrations.py:485-512 | a commit that inserts is the acceptance step of the delivery protocol |
| Intake.LoserLeavesNothing | mailer_agent/api/integrations.py:496-555 | a commit that does not create its dispatch leaves both tables unchanged, its Message included |
| Intake.ProtocolKeepsIdentity | mailer_agent/followup/work_claiming.py:464-907 | every protocol step is one the intake machine allows for: workers never change what identifies a row |
| LlmRouter.ChatWithRetry | mailer_agent/llm/provider_v2.py:479-532 | every call before the last met a rate limit, a timeout or an outage, the last did not unless it was the third, and its answer is the result |
| LlmRouter.AttemptMeans | mailer_agent/llm/provider_v2.py:787-801 | an attempt is decided by its last call: JSON text, other text, or the error |
| LlmRouter.ModelsToTry | mailer_agent/llm/provider_v2.py:625-648 | first occurrences in order, at most three |
| LlmRouter.CandidatesExact | mailer_agent/llm/provider_v2.py:625-648 | the primary first, no repeats, only configured models, and all of them if fewer than three |
| LlmRouter.CandidatesInOrder | mailer_agent/llm/provider_v2.py:625-648 | the models asked keep the configured order, and one left out comes after all of them |
| LlmRouter.PlanExactly | mailer_agent/llm/provider_v2.py:776-780 | strict schema first, where there is one and the model takes it, then JSON object, then lenient |
| LlmRouter.TryModes | mailer_agent/llm/provider_v2.py:776-846 | asks the modes in order up to the first that is not malformed, under the cap |
| LlmRouter.AskModel | mailer_agent/llm/provider_v2.py:771-853 | one model: the run is settled by its contribution, cut short at the cap, or goes on with its failure remembered |
| LlmRouter.CallLlmJson | mailer_agent/llm/provider_v2.py:730-859 | the nested loops with break, continue and for-else compute the declarative routing, its trace and its number of provider calls; under any cap the trace is a prefix and the error raised is that of its last attempt |
| LlmRouter.Route | mailer_agent/llm/provider_v2.py:625-859 | as configured: at most 9 attempts and 27 raw calls, counted exactly, and the cap of 12 never decides |
| LlmRouter.NothingAskedTwice | mailer_agent/llm/provider_v2.py:730-859 | no (model, mode) pair is asked twice |
| LlmRouter.TraceExactly | mailer_agent/llm/provider_v2.py:771-846 | a pair is asked if and only if every earlier model was passed over and every earlier mode was malformed |
| LlmRouter.MovesOnExactly | mailer_agent/llm/provider_v2.py:802-853 | a model is passed over iff malformed in every mode, or transiently failing, or a missing fallback |
| LlmRouter.ReportedAsProduced | mailer_agent/llm/provider_v2.py:788-801 | the first attempt to succeed is the answer, reported with its own model, mode, attempt count and fallback flag |
| LlmRouter.AnsweredOnlySo | mailer_agent/llm/provider_v2.py:788-801 | there is an answer only if an attempt that takes place succeeds |
| LlmRouter.ExhaustedReportsLast | mailer_agent/llm/provider_v2.py:847-859 | when every model is passed over the error raised is that of the last attempt made |
| LlmRouter.FatalEndsRun | mailer_agent/llm/provider_v2.py:812-846 | nothing follows an authentication, validation or unclassified failure, or a missing primary |
| FactReconciliation.Supersede | mailer_agent/memory/store.py:260-263 | exactly the current entries with the named value become superseded |
| FactReconciliation.Hear | mailer_agent/memory/store.py:255-268 | hearing one fact takes the meaning of a history to the meaning of the longer history |
| FactReconciliation.ReconcileKnownFacts | mailer_agent/memory/store.py:236-281 | the in-place fold yields the declarative meaning: facts, last solution, earlier ones in order as superseded, last open items, all contradictions |
| FactReconciliation.ReconcileContact | mailer_agent/memory/store.py:224-281 | the whole function: analyzed inbound messages, sorted by time and id, folded to their declarative meaning |
| FactReconciliation.ChronologicalExact | mailer_agent/memory/store.py:224-225 | the sort yields the same messages, dated before undated, by time, then by id |
| FactReconciliation.LoadOrderIrrelevant | mailer_agent/memory/store.py:224-225 | two listings of the same messages give the same knowledge, provided different messages differ in time or id |
| FactReconciliation.ReadingOne | mailer_agent/memory/store.py:242-276 | what one message contributes: its usable facts, its solution if it has a value, its open items, its contradictions; nothing if it is no dictionary |
| FactReconciliation.HistoryJoins | mailer_agent/memory/store.py:242-276 | facts of two stretches of messages are those of each, in order |
| FactReconciliation.StatedJoins | mailer_agent/memory/store.py:255-258 | usable facts of two stretches of a message's facts are those of each, in order |
| FactReconciliation.StatedOne | mailer_agent/memory/store.py:255-258 | a fact is usable iff it has a value |
| FactReconciliation.SolutionsJoin | mailer_agent/memory/store.py:248-253 | the same for solutions |
| FactReconciliation.ContradictionsJoin | mailer_agent/memory/store.py:272-274 | the same for contradictions |
| FactReconciliation.LastOpenJoins | mailer_agent/memory/store.py:270-271 | the later stretch decides what is still open, if it says anything |
| FactReconciliation.EntryCarries | mailer_agent/memory/store.py:227-235 | an entry has the value and provenance of its statement, and "unknown" for a certainty not given |
| FactReconciliation.CurrentExactly | mailer_agent/memory/store.py:184-281 | a value is current iff some statement of it is named in `supersedes` by no later fact |
| FactReconciliation.CurrentValuesDistinct | mailer_agent/memory/store.py:264-268 | no value is current twice |
| FactReconciliation.Recorded | mailer_agent/memory/store.py:264-268 | a statement that is not a reaffirmation keeps its own entry with its own provenance |
| FactReconciliation.Origin | mailer_agent/memory/store.py:264-268 | every entry goes back to one statement, in order |
| FactReconciliation.NothingDropped | mailer_agent/memory/store.py:176-179 | every value ever stated has an entry |
| FactReconciliation.HistoryEvolves | mailer_agent/memory/store.py:176-179 | later facts keep every entry in place and can only turn current into superseded |
| Grounding.FoundExactly | mailer_agent/llm/grounding.py:163-178 | a token is in the joined corpus iff it is in one of the sources: no match crosses a join |
| Grounding.JoinSplitsSearch | mailer_agent/llm/grounding.py:163-178 | the same for one join, with word boundaries on both sides |
| Grounding.NumbersAreWords | mailer_agent/llm/grounding.py:181-183 | extracted numbers start and end with a digit, hold digits and points only, and no blank |
| Grounding.NumberIsLongest | mailer_agent/llm/grounding.py:181-183 | the number read at a digit is the longest text of digits, with at most one point between digits, that stands there |
| Grounding.NumbersRead | mailer_agent/llm/grounding.py:181-183 | reading goes from one number to the next digit, and ends when none is left |
| Grounding.CheckClaim | mailer_agent/llm/grounding.py:258-284 | the branches on corpus and numbers decide exactly: each number, and guarantee language, is in some source |
| Grounding.ValidateGrounding | mailer_agent/llm/grounding.py:258-294 | the loop splits the claims, in order, into borne out and not; it blocks iff some claim is not borne out |
| Grounding.SiftSharesOut | mailer_agent/llm/grounding.py:281-284 | the two lists share out the claims, none lost and none twice |
| Grounding.MoreSourcesHelp | mailer_agent/llm/grounding.py:163-168 | adding sources anywhere never makes a supported claim unsupported |
| Grounding.DroppedTranscriptBlocksMore | mailer_agent/mail/exact_message.py:265-307 | without the transcript the gate blocks everything the full check blocks |
| Grounding.TranscriptAdds | mailer_agent/mail/exact_message.py:265-307 | exactly what the transcript contributes to a claim |
| Grounding.TraceableExactly | mailer_agent/llm/grounding.py:19-34 | whatever the four sources, a supported claim is borne out by one of them iff it has no number, or makes no guarantee and has a number that holds all its others as tokens |
| Grounding.OneSourceServes | mailer_agent/llm/grounding.py:258-284 | the one direction: a whole token inside a whole token of a source is one of that source |
| Grounding.NumbersSpread | mailer_agent/llm/grounding.py:258-284 | the other direction, with two of the four sources: the longest number in one and the rest in the other support a claim neither bears out |
| Grounding.GuaranteeSpread | mailer_agent/llm/grounding.py:258-284 | the same for a guarantee with numbers: guarantee language in one source, the numbers in another |
| Grounding.SpreadSupport | mailer_agent/llm/grounding.py:119-124 | an instance: the claim extracted from the draft "2% of 3" is supported by two sources neither of which bears it out, in any alphabet that reads it as usual |
| MailboxInbound.HandleKeeps | mailer_agent/mail/mailbox_inbound.py:159-177 | every handler and STORE event of any poller keeps the inbox invariant and only adds rows |
| MailboxInbound.SeenIsDurable | mailer_agent/mail/imap_reader.py:153-215 | over any run of any pollers, a message marked Seen has its identity stored |
| MailboxInbound.StoredOnce | mailer_agent/models.py:361-375 | each (mailbox, identity) is stored at most once per table, from a received message, and no row is rewritten or dropped |
| MailboxInbound.ContentKeptExactly | mailer_agent/mail/reply_handler_v2.py:518-522 | the content of every Seen message is kept in all runs iff no mailbox holds two different messages under one identity |
| MailboxInbound.CollisionLoses | mailer_agent/mail/reply_handler_v2.py:545-551 | of two different messages under one identity, the second is marked Seen and stored nowhere |
| MailboxPolling.TakeOne | mailer_agent/mail/imap_reader.py:183-214 | fetch, parse, handler, STORE is a run of the machine; the bucket tells what the handler did, seen means handled and marked, and a "stored" report is a new row |
| MailboxPolling.DrainUnseen | mailer_agent/mail/imap_reader.py:153-215 | every listed message is counted once, seen never exceeds handled, the seen ones are marked, and classification counts never exceed stored ones |
| MailboxPolling.PollOne | mailer_agent/mail/mailbox_inbound.py:198-250 | each way a poll can end gives its own status, with consistent counts |
| MailboxPolling.PollAll | mailer_agent/mail/mailbox_inbound.py:265-286 | one outcome per listed mailbox, whatever the others did; a failed listing changes nothing |
| MailboxPolling.SummarizeMailboxCycle | mailer_agent/mail/mailbox_inbound.py:294-346 | every figure, buckets and classification counters included, is the sum over the mailboxes; completed iff all was well; the first error is named; seen never exceeds handled |

## Left out

- Native follow-up engine and contact claiming: they send inside an open transaction and release without a fence.
- Reply classification, correlation of inbound mail to contacts, and the planner: correlation is a free choice of the environment in `MailboxInbound`.
- SQL and locking internals: a guarded update or a unique insert is one atomic step; `FOR UPDATE SKIP LOCKED` is exclusive ownership of a row until commit or rollback. The SQLite candidate loop is not distinguished from the PostgreSQL path.
- A lease sweep of several rows: in the state machine it is a run of one-row steps; as one operation it is `WorkClaiming.DispatchStore.RecoverExpired`.
- MIME building, header decoding, prompts and the regular expressions that extract claims: a claim is any string, a parsed mail an identity with a content.
- Threading headers of generated replies: the reply's subject counts as the draft's, the header values are not modelled.
- Free-text completion (`call_llm_text`): a simpler loop of the same shape as the JSON router.
- Retry waiting times and timeouts, logging, metrics, operator views, HTTP schemas, authentication, mailbox management, migrations.
- Campaign and contact get-or-create during intake: a request carries their ids.
- Operators marking messages unseen and other clients setting flags: a poll may list any messages at any time, so neither adds a case.
- Deletion of rows (contacts, mailboxes): nothing in the modelled code deletes.
- Fairness and liveness, beyond the number of sweeps that empties the expired set.
- DeliveryTheorems.SupersededNeverMatches: assumes that the clock each worker name reads moves on from claim to claim, which the code relies on; `DeliveryTheorems.GenFenceExact` gives the exact condition without that assumption, and `DeliveryWitnesses.TokenReuse` a run where it fails.
