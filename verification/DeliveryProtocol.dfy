/**
 The delivery protocol as a state machine: intake, generation workers, send workers, the two lease
 sweeps, the shutdown drain, crashes, and commits whose acknowledgement is lost. A step carries every
 choice the environment makes, so Apply is a function, and a step that is not enabled changes nothing.
 A run is any sequence of steps.
 */
module DeliveryProtocol {
  import opened DispatchModel
  import Smtp = SmtpSender
  import Grounding

  // ---- everything Transaction B reads besides the two tables ---------------------------------

  datatype Contact = Contact(campaign: nat, email: string)

  datatype Mailbox = Mailbox(org: string, active: bool, decryptable: bool, address: string)

  /** How claims are taken from a draft and how text is read when they are looked up. */
  datatype Rules = Rules(alphabet: Grounding.Alphabet, extract: string -> seq<string>)

  /** `campaigns` gives the owning organization; `approved` the sources a dispatch's message may draw on. */
  datatype World = World(
    campaigns: map<nat, string>, contacts: map<nat, Contact>, mailboxes: map<nat, Mailbox>,
    suppressed: set<string>, approved: map<nat, seq<Option<string>>>, rules: Rules, keyAvailable: bool)

  datatype Payload = Payload(to: string, sender: string, subject: string, body: string)

  datatype Verdict = Pass(payload: Payload) | Refuse(reason: string) | Unavailable

  function ApprovedFor(w: World, d: nat): seq<Option<string>> { if d in w.approved then w.approved[d] else [] }

  /** The grounding gate: some claim of the body is not borne out by the approved sources. */
  predicate HardBlocked(w: World, d: nat, body: string) {
    Grounding.Blocked(w.rules.alphabet, ApprovedFor(w, d), w.rules.extract(body))
  }

  /** An absent subject is handed over as the empty string; nothing else is altered. */
  function SubjectText(subject: Option<string>): string {
    if subject.Some? then subject.value else ""
  }

  /** The pre-SMTP gates in the order the code applies them. */
  function RunGates(w: World, live: bool, d: nat, row: Dispatch, messages: map<nat, Message>): Verdict {
    if !(row.campaign in w.campaigns && w.campaigns[row.campaign] == row.org) then
      Refuse("tenant_mismatch: campaign")
    else if !(row.contact in w.contacts && w.contacts[row.contact].campaign == row.campaign) then
      Refuse("tenant_mismatch: contact")
    else if !(row.message.Some? && row.message.value in messages
              && messages[row.message.value].contact == row.contact) then
      Refuse("tenant_mismatch: message")
    else if !messages[row.message.value].status.MsgDraft? then
      Refuse("wiring_error")
    else if row.mailbox.None? then
      Refuse("no_mailbox")
    else if !(row.mailbox.value in w.mailboxes && w.mailboxes[row.mailbox.value].org == row.org) then
      Refuse("tenant_mismatch: mailbox")
    else if !w.mailboxes[row.mailbox.value].active then
      Refuse("mailbox_disabled")
    else if w.contacts[row.contact].email in w.suppressed then
      Refuse("suppressed")
    else if HardBlocked(w, d, messages[row.message.value].body) then
      Refuse("grounding hard block")
    else if !live then
      Refuse("live_sending_disabled")
    else if !w.keyAvailable then
      Unavailable
    else if !w.mailboxes[row.mailbox.value].decryptable then
      Refuse("mailbox_credentials_undecryptable")
    else
      var msg := messages[row.message.value];
      Pass(Payload(w.contacts[row.contact].email, w.mailboxes[row.mailbox.value].address,
                   SubjectText(msg.subject), msg.body))
  }

  // ---- workers -------------------------------------------------------------------------------

  datatype Pc =
    | Idle
    | GenOpen(claim: Claim)                                        // G1 open, row locked
    | Drafting(claim: Claim, serial: nat, contact: nat)            // G1 committed, LLM running
    | GenWriting(claim: Claim, serial: nat, contact: nat, draft: Option<Draft>, reason: string, tries: nat)
    | SendOpen(claim: Claim)                                       // B open, row locked
    | SendGated(claim: Claim, verdict: Verdict, seen: World)       // gates run, B still open
    | Prepared(claim: Claim, header: string, payload: Payload)     // B committed and acknowledged
    | Finishing(claim: Claim, header: string, outcome: DispatchState, error: Option<string>, tries: nat)
    | Annotating(claim: Claim)

  // ---- what is remembered about each dispatch, for stating properties of whole runs ------------

  datatype GatePass = GatePass(world: World, live: bool, row: Dispatch, content: Message)

  /** One execution of send_email(): what it carried, its sendmail() calls, the messages the server took. */
  datatype Entry = Entry(header: string, payload: Payload, calls: nat, deliveries: nat)

  datatype Trace = Trace(
    genClaims: seq<Claim>, created: seq<nat>, sendClaims: seq<Claim>, passes: seq<GatePass>, entries: seq<Entry>)

  datatype System = System(
    db: Db, world: World, clocks: map<string, Time>, tasks: map<nat, Pc>, traces: map<nat, Trace>, owner: map<nat, nat>)

  /**
   live: worker tasks of processes started with LIVE_SENDING_ENABLED (read once per process).
   monotone: a worker name never reads the same or an earlier time at a later claim, on whatever row.
   */
  datatype Config = Config(live: set<nat>, monotone: bool)

  datatype Step =
    | Accept(d: nat, a: Acceptance)
    | BeginGeneration(t: nat, d: nat, worker: string, at: Time)
    | CommitGeneration(t: nat, refusal: Option<string>, fate: Fate)
    | DraftReady(t: nat, draft: Option<Draft>, reason: string)
    | WriteGeneration(t: nat, m: nat, fate: Fate)
    | BeginSend(t: nat, d: nat, worker: string, at: Time)
    | CheckGates(t: nat, fault: bool)
    | CommitSend(t: nat, header: string, fate: Fate)
    | RunSmtp(t: nat, headerOk: bool, useTls: bool, script: Smtp.Script)
    | WriteOutcome(t: nat, fate: Fate)
    | WriteNote(t: nat, note: string, fate: Fate)
    | SweepSend(d: nat, cutoff: Time)
    | SweepGeneration(d: nat, cutoff: Time)
    | Drain(claim: Claim)
    | Abort(t: nat)
    | ChangeWorld(w: World)

  function PcOf(s: System, t: nat): Pc { if t in s.tasks then s.tasks[t] else Idle }

  function SetPc(s: System, t: nat, pc: Pc): System { s.(tasks := s.tasks[t := pc]) }

  const EMPTY_TRACE := Trace([], [], [], [], [])

  function TraceOf(s: System, d: nat): Trace { if d in s.traces then s.traces[d] else EMPTY_TRACE }

  predicate OpenOn(pc: Pc, d: nat) {
    (pc.GenOpen? || pc.SendOpen? || pc.SendGated?) && pc.claim.dispatch == d
  }

  /** FOR UPDATE SKIP LOCKED: a row some open transaction has claimed is invisible to other claims. */
  predicate Locked(s: System, d: nat) {
    exists t :: t in s.tasks && OpenOn(s.tasks[t], d)
  }

  predicate HeaderUsed(db: Db, m: nat, header: string) {
    exists k :: k in db.messages && k != m && db.messages[k].header == Some(header)
  }

  /** The clock a worker name has read moves on with the claim. */
  function Ticked(clocks: map<string, Time>, worker: string, at: Time): map<string, Time> {
    clocks[worker := if worker in clocks && at < clocks[worker] then clocks[worker] else at]
  }

  // ---- one function per step -----------------------------------------------------------------

  function ApplyAccept(s: System, d: nat, a: Acceptance): System {
    if !(Insertable(s.db, d, a) && AsAsked(a)) then s else
    s.(db := Insert(s.db, d, a),
       traces := s.traces[d := EMPTY_TRACE.(created := if a.content.Some? then [a.content.value.message] else [])],
       owner := if a.content.Some? then s.owner[a.content.value.message := d] else s.owner)
  }

  function ApplyBegin(cfg: Config, s: System, t: nat, d: nat, worker: string, at: Time, generation: bool): System {
    if !PcOf(s, t).Idle? || Locked(s, d) then s
    else if cfg.monotone && worker in s.clocks && at <= s.clocks[worker] then s
    else if generation && GenClaimable(s.db, d) then
      SetPc(s.(clocks := Ticked(s.clocks, worker, at)), t, GenOpen(Claim(d, s.db.dispatches[d].org, worker, at)))
    else if !generation && SendClaimable(s.db, d) then
      SetPc(s.(clocks := Ticked(s.clocks, worker, at)), t, SendOpen(Claim(d, s.db.dispatches[d].org, worker, at)))
    else s
  }

  function ApplyCommitGeneration(s: System, t: nat, refusal: Option<string>, fate: Fate): System {
    var pc := PcOf(s, t);
    if !(pc.GenOpen? && pc.claim.dispatch in s.db.dispatches) then s else
    var d := pc.claim.dispatch;
    var tr := TraceOf(s, d);
    if fate.NotApplied? then SetPc(s, t, Idle)
    else if refusal.Some? then
      SetPc(s.(db := FailGeneration(WithClaim(s.db, pc.claim, Generating), pc.claim, refusal.value)), t, Idle)
    else
      SetPc(s.(db := WithClaim(s.db, pc.claim, Generating),
               traces := s.traces[d := tr.(genClaims := tr.genClaims + [pc.claim])]),
            t, if fate.Acked? then Drafting(pc.claim, |tr.genClaims|, s.db.dispatches[d].contact) else Idle)
  }

  function ApplyDraftReady(s: System, t: nat, draft: Option<Draft>, reason: string): System {
    var pc := PcOf(s, t);
    if !pc.Drafting? then s else
    SetPc(s, t, GenWriting(pc.claim, pc.serial, pc.contact, draft, reason, 0))
  }

  function RetryGeneration(pc: Pc): Pc
    requires pc.GenWriting?
  {
    if pc.tries + 1 >= TRIES then Idle
    else GenWriting(pc.claim, pc.serial, pc.contact, pc.draft, pc.reason, pc.tries + 1)
  }

  /** Transaction G2: the Message insert and the fenced move are one commit, or neither happens. */
  function ApplyWriteGeneration(s: System, t: nat, m: nat, fate: Fate): System {
    var pc := PcOf(s, t);
    if !pc.GenWriting? || (pc.draft.Some? && m in s.db.messages) then s
    else if fate.NotApplied? then SetPc(s, t, RetryGeneration(pc))
    else if !GenFence(s.db, pc.claim) then SetPc(s, t, Idle)
    else
      var next := if fate.Acked? then Idle else RetryGeneration(pc);
      var d := pc.claim.dispatch;
      if pc.draft.None? then
        SetPc(s.(db := FailGeneration(s.db, pc.claim, pc.reason)), t, next)
      else
        var msg := DraftMessage(pc.contact, pc.draft.value.subject, pc.draft.value.body);
        var tr := TraceOf(s, d);
        SetPc(s.(db := CompleteGeneration(s.db.(messages := s.db.messages[m := msg]), pc.claim, m),
                 traces := s.traces[d := tr.(created := tr.created + [m])],
                 owner := s.owner[m := d]),
              t, next)
  }

  function ApplyCheckGates(cfg: Config, s: System, t: nat, fault: bool): System {
    var pc := PcOf(s, t);
    if !(pc.SendOpen? && pc.claim.dispatch in s.db.dispatches) then s else
    var d := pc.claim.dispatch;
    var v := if fault then Refuse("internal_error_before_send")
             else RunGates(s.world, t in cfg.live, d, s.db.dispatches[d], s.db.messages);
    SetPc(s, t, if v.Unavailable? then Idle else SendGated(pc.claim, v, s.world))
  }

  /** The single commit of Transaction B. */
  function ApplyCommitSend(cfg: Config, s: System, t: nat, header: string, fate: Fate): System {
    var pc := PcOf(s, t);
    if !(pc.SendGated? && pc.claim.dispatch in s.db.dispatches) then s else
    var d := pc.claim.dispatch;
    var row := s.db.dispatches[d];
    if fate.NotApplied? then SetPc(s, t, Idle)
    else if pc.verdict.Refuse? then
      SetPc(s.(db := Finish(WithClaim(s.db, pc.claim, Sending), pc.claim, Failed, Some(pc.verdict.reason))), t, Idle)
    else if !(pc.verdict.Pass? && row.message.Some? && row.message.value in s.db.messages)
            || HeaderUsed(s.db, row.message.value, header) then
      SetPc(s, t, Idle)
    else
      var m := row.message.value;
      var tr := TraceOf(s, d);
      var pass := GatePass(pc.seen, t in cfg.live, row, s.db.messages[m]);
      SetPc(s.(db := WithClaim(s.db, pc.claim, Sending).(
                       messages := s.db.messages[m := s.db.messages[m].(status := MsgSending, header := Some(header))]),
               traces := s.traces[d := tr.(sendClaims := tr.sendClaims + [pc.claim], passes := tr.passes + [pass])]),
            t, if fate.Acked? then Prepared(pc.claim, header, pc.verdict.payload) else Idle)
  }

  /** Outcome to final state; an exception out of send_email() is ambiguous. */
  function FinalState(v: Smtp.Verdict): DispatchState {
    match v
    case Returned(OutcomeSent) => Sent
    case Returned(OutcomeFailed) => Failed
    case _ => Unknown
  }

  function ApplyRunSmtp(cfg: Config, s: System, t: nat, headerOk: bool, useTls: bool, script: Smtp.Script): System {
    var pc := PcOf(s, t);
    if !pc.Prepared? then s else
    var d := pc.claim.dispatch;
    var call := Smtp.Call(t in cfg.live, headerOk, useTls, script);
    var tr := TraceOf(s, d);
    var entry := Entry(pc.header, pc.payload, Smtp.Calls(call), Smtp.Deliveries(call));
    var v := Smtp.SendEmail(call);
    var out := FinalState(v);
    SetPc(s.(traces := s.traces[d := tr.(entries := tr.entries + [entry])]), t,
          if v.RaisedInterrupt? then Idle
          else Finishing(pc.claim, pc.header, out, if out.Sent? then None else Some("smtp outcome"), 0))
  }

  function RetryOutcome(pc: Pc): Pc
    requires pc.Finishing?
  {
    if pc.tries + 1 >= TRIES then Annotating(pc.claim)
    else Finishing(pc.claim, pc.header, pc.outcome, pc.error, pc.tries + 1)
  }

  /** Transaction C, one attempt. */
  function ApplyWriteOutcome(s: System, t: nat, fate: Fate): System {
    var pc := PcOf(s, t);
    if !(pc.Finishing? && pc.outcome.Terminal()) then s
    else if fate.NotApplied? then SetPc(s, t, RetryOutcome(pc))
    else
      SetPc(s.(db := Finish(s.db, pc.claim, pc.outcome, pc.error)), t,
            if fate.AppliedUnacked? then RetryOutcome(pc)
            else if SendFence(s.db, pc.claim) then Idle else Annotating(pc.claim))
  }

  function ApplyWriteNote(s: System, t: nat, note: string, fate: Fate): System {
    var pc := PcOf(s, t);
    if !pc.Annotating? then s
    else if fate.NotApplied? then SetPc(s, t, Idle)
    else SetPc(s.(db := AnnotateUnknown(s.db, pc.claim.dispatch, pc.claim.org, note)), t, Idle)
  }

  /** The shutdown drain works on a list of claims taken earlier: any claim may be drained at any time. */
  function ApplyDrain(s: System, claim: Claim): System {
    s.(db := Finish(s.db, claim, Unknown, Some("worker_shutdown")))
  }

  function Apply(cfg: Config, s: System, step: Step): System {
    match step
    case Accept(d, a) => ApplyAccept(s, d, a)
    case BeginGeneration(t, d, worker, at) => ApplyBegin(cfg, s, t, d, worker, at, true)
    case CommitGeneration(t, refusal, fate) => ApplyCommitGeneration(s, t, refusal, fate)
    case DraftReady(t, draft, reason) => ApplyDraftReady(s, t, draft, reason)
    case WriteGeneration(t, m, fate) => ApplyWriteGeneration(s, t, m, fate)
    case BeginSend(t, d, worker, at) => ApplyBegin(cfg, s, t, d, worker, at, false)
    case CheckGates(t, fault) => ApplyCheckGates(cfg, s, t, fault)
    case CommitSend(t, header, fate) => ApplyCommitSend(cfg, s, t, header, fate)
    case RunSmtp(t, headerOk, useTls, script) => ApplyRunSmtp(cfg, s, t, headerOk, useTls, script)
    case WriteOutcome(t, fate) => ApplyWriteOutcome(s, t, fate)
    case WriteNote(t, note, fate) => ApplyWriteNote(s, t, note, fate)
    case SweepSend(d, cutoff) => s.(db := ResolveSend(s.db, d, cutoff))
    case SweepGeneration(d, cutoff) => s.(db := RequeueGeneration(s.db, d, cutoff))
    case Drain(claim) => ApplyDrain(s, claim)
    case Abort(t) => SetPc(s, t, Idle)
    case ChangeWorld(w) => s.(world := w)
  }

  function Start(w: World): System { System(Db(map[], map[]), w, map[], map[], map[], map[]) }

  function Run(cfg: Config, s: System, steps: seq<Step>): System
    decreases |steps|
  {
    if steps == [] then s else Run(cfg, Apply(cfg, s, steps[0]), steps[1..])
  }
}
