/**
 What each step of the delivery protocol leaves behind when it takes effect, column by column. The theorems say
 what never happens; these say what does.
 */
module DeliveryEffects {
  import opened DispatchModel
  import opened DeliveryProtocol
  import opened DeliveryInvariant
  import opened DeliverySteps
  import opened DeliveryTheorems
  import WorkClaiming
  import Smtp = SmtpSender

  // ---- SMTP and Transaction C ----------------------------------------------------------------------------

  function Row(s: System, t: nat): Option<Dispatch> {
    var pc := PcOf(s, t);
    if !pc.Idle? && pc.claim.dispatch in s.db.dispatches then Some(s.db.dispatches[pc.claim.dispatch]) else None
  }

  /** The row of d is final in that state, unclaimed, with an error text unless it was sent, and its Message agrees. */
  ghost predicate Recorded(s: System, d: nat, state: DispatchState, status: MessageStatus) {
    && d in s.db.dispatches
    && var row := s.db.dispatches[d];
       && row.state == state && row.claimedBy == None && row.claimedAt == None
       && (row.error == None <==> state == Sent)
       && row.message != None && row.message.value in s.db.messages
       && s.db.messages[row.message.value].status == status
  }

  /** The two steps that follow a Prepared send: SMTP, and Transaction C acknowledged at its first try. */
  function SentOff(cfg: Config, s: System, t: nat, headerOk: bool, useTls: bool, script: Smtp.Script): System {
    Apply(cfg, Apply(cfg, s, RunSmtp(t, headerOk, useTls, script)), WriteOutcome(t, Acked))
  }

  lemma RunsAsPrepared(cfg: Config, s: System, t: nat, headerOk: bool, useTls: bool, script: Smtp.Script)
    requires PcOf(s, t).Prepared?
    ensures var call := Smtp.Call(t in cfg.live, headerOk, useTls, script);
            var s1 := Apply(cfg, s, RunSmtp(t, headerOk, useTls, script));
            && s1.db == s.db
            && (Smtp.SendEmail(call).RaisedInterrupt? ==> PcOf(s1, t).Idle?)
            && (!Smtp.SendEmail(call).RaisedInterrupt? ==>
                  && PcOf(s1, t).Finishing? && PcOf(s1, t).claim == PcOf(s, t).claim
                  && PcOf(s1, t).outcome == FinalState(Smtp.SendEmail(call))
                  && (PcOf(s1, t).error == None <==> PcOf(s1, t).outcome == Sent))
  {}

  lemma WritesOutcome(cfg: Config, s: System, t: nat, status: MessageStatus)
    requires PcOf(s, t).Finishing? && PcOf(s, t).outcome.Terminal() && SendFence(s.db, PcOf(s, t).claim)
    requires PcOf(s, t).error == None <==> PcOf(s, t).outcome == Sent
    requires var m := s.db.dispatches[PcOf(s, t).claim.dispatch].message; m != None && m.value in s.db.messages
    requires match PcOf(s, t).outcome
             case Sent => status == MsgSent
             case Failed => status == MsgFailed
             case _ => status == MsgUnknown
    ensures Recorded(Apply(cfg, s, WriteOutcome(t, Acked)), PcOf(s, t).claim.dispatch, PcOf(s, t).outcome, status)
  {
    WorkClaiming.FinishWrites(s.db, PcOf(s, t).claim, PcOf(s, t).outcome, PcOf(s, t).error);
  }

  /**
   How a live send is recorded while its claim holds: SENT if an attempt had sendmail() return, UNKNOWN if one failed
   in it without the server saying no, FAILED otherwise; and on no other account. It is recorded unless interrupted.
   */
  lemma OutcomeRecorded(cfg: Config, s: System, t: nat, useTls: bool, script: Smtp.Script)
    requires Reachable(cfg, s) && PcOf(s, t).Prepared? && SendFence(s.db, PcOf(s, t).claim)
    requires var ran := Smtp.Executed(Smtp.Call(true, true, useTls, script));
             !Smtp.Interrupted(ran[|ran| - 1], useTls)
    ensures var ran := Smtp.Executed(Smtp.Call(true, true, useTls, script));
            var s', d := SentOff(cfg, s, t, true, useTls, script), PcOf(s, t).claim.dispatch;
            var accepted := exists a :: a in ran && Smtp.Reached(a, useTls) && a.handoff.Accepted?;
            var unclear := exists a :: a in ran && Smtp.Reached(a, useTls)
                                       && !a.handoff.Accepted? && !Smtp.SaidNo(a.handoff.error);
            && !(accepted && unclear)
            && (accepted ==> Recorded(s', d, Sent, MsgSent))
            && (unclear ==> Recorded(s', d, Unknown, MsgUnknown))
            && (!accepted && !unclear ==> Recorded(s', d, Failed, MsgFailed))
  {
    var call := Smtp.Call(true, true, useTls, script);
    var s1 := Apply(cfg, s, RunSmtp(t, true, useTls, script));
    PreparedIsLive(cfg, s, t);
    DurableBeforeSmtp(cfg, s, t);
    Smtp.ReturnsExactly(call);
    Smtp.OutcomeMeaning(call);
    RunsAsPrepared(cfg, s, t, true, useTls, script);
    WritesOutcome(cfg, s1, t, match PcOf(s1, t).outcome
                              case Sent => MsgSent
                              case Failed => MsgFailed
                              case _ => MsgUnknown);
  }

  /** A Message-ID that is refused before any network use raises; the row is UNKNOWN and nothing was called. */
  lemma RaisedRecorded(cfg: Config, s: System, t: nat, useTls: bool, script: Smtp.Script)
    requires Reachable(cfg, s) && PcOf(s, t).Prepared? && SendFence(s.db, PcOf(s, t).claim)
    ensures var s', d := SentOff(cfg, s, t, false, useTls, script), PcOf(s, t).claim.dispatch;
            Recorded(s', d, Unknown, MsgUnknown) && TotalCalls(TraceOf(s', d).entries) == 0
  {
    PreparedIsLive(cfg, s, t);
    DurableBeforeSmtp(cfg, s, t);
    Smtp.ReturnsExactly(Smtp.Call(true, false, useTls, script));
    RunsAsPrepared(cfg, s, t, false, useTls, script);
    var s1 := Apply(cfg, s, RunSmtp(t, false, useTls, script));
    WritesOutcome(cfg, s1, t, MsgUnknown);
    var entries := TraceOf(s1, PcOf(s, t).claim.dispatch).entries;
    assert |entries| == 1 && entries[1..] == [] && entries[0].calls == 0;
  }

  /** An outcome is tried three times: a try that is not acknowledged leads to the next, and the third to the note. */
  lemma OutcomeTriedThrice(s: System, t: nat, fate: Fate)
    requires PcOf(s, t).Finishing? && PcOf(s, t).outcome.Terminal() && fate != Acked
    ensures var pc, next := PcOf(s, t), PcOf(ApplyWriteOutcome(s, t, fate), t);
            if pc.tries < 2 then next == Finishing(pc.claim, pc.header, pc.outcome, pc.error, pc.tries + 1)
            else next == Annotating(pc.claim)
  {}

  /** A lost claim, once told, goes on to the note, and the note is put behind the error text of the UNKNOWN row. */
  lemma LateOutcomeNoted(s: System, t: nat, note: string, fate: Fate)
    ensures PcOf(s, t).Finishing? && PcOf(s, t).outcome.Terminal() && !SendFence(s.db, PcOf(s, t).claim) ==>
            PcOf(ApplyWriteOutcome(s, t, Acked), t) == Annotating(PcOf(s, t).claim)
    ensures PcOf(s, t).Annotating? && fate != NotApplied && Row(s, t).Some? && Row(s, t).value.state == Unknown
            && Row(s, t).value.org == PcOf(s, t).claim.org ==>
            var d, s' := PcOf(s, t).claim.dispatch, ApplyWriteNote(s, t, note, fate);
            && d in s'.db.dispatches && s'.db.messages == s.db.messages
            && var was := match Row(s, t).value.error case None => "" case Some(text) => text;
               s'.db.dispatches[d].error == Some(was + " | " + note)
  {
    WorkClaiming.NoteAppends(s.db, if PcOf(s, t).Annotating? then PcOf(s, t).claim.dispatch else 0,
                             if PcOf(s, t).Annotating? then PcOf(s, t).claim.org else "", note);
  }

  /** The drain makes the row it finds under the claim UNKNOWN, with its Message. */
  lemma DrainRecorded(cfg: Config, s: System, claim: Claim)
    requires Inv(cfg, s) && SendFence(s.db, claim)
    ensures Recorded(ApplyDrain(s, claim), claim.dispatch, Unknown, MsgUnknown)
  {
    KnownCell(cfg, s, claim.dispatch);
    WorkClaiming.FinishWrites(s.db, claim, Unknown, Some("worker_shutdown"));
  }

  /** A sweep step resolves a row whose claim has lapsed: a send to UNKNOWN with its Message, a generation to QUEUED. */
  lemma SweepRecorded(cfg: Config, s: System, d: nat, cutoff: Time)
    requires Inv(cfg, s) && d in s.db.dispatches
    ensures var row, s' := s.db.dispatches[d], Apply(cfg, s, SweepSend(d, cutoff));
            if row.state == Sending && row.claimedAt != None && row.claimedAt.value < cutoff
            then Recorded(s', d, Unknown, MsgUnknown) else s' == s
    ensures var row, s' := s.db.dispatches[d], Apply(cfg, s, SweepGeneration(d, cutoff));
            if row.state == Generating && row.claimedAt != None && row.claimedAt.value < cutoff
            then s'.db == s.db.(dispatches :=
                   s.db.dispatches[d := row.(state := Queued, claimedBy := None, claimedAt := None)])
            else s' == s
  {
    KnownCell(cfg, s, d);
  }

  // ---- Transaction B ----------------------------------------------------------------------------------------

  /** A gate that refuses is recorded in the same commit: FAILED with its reason, Message included, and no send. */
  lemma RefusalRecorded(cfg: Config, s: System, t: nat, header: string, fate: Fate)
    requires Inv(cfg, s) && PcOf(s, t).SendGated? && PcOf(s, t).verdict.Refuse? && fate != NotApplied
    ensures var s', d := ApplyCommitSend(cfg, s, t, header, fate), PcOf(s, t).claim.dispatch;
            && Recorded(s', d, Failed, MsgFailed) && s'.db.dispatches[d].error == Some(PcOf(s, t).verdict.reason)
            && PcOf(s', t) == Idle && s'.traces == s.traces
  {
    OpenSend(cfg, s, t);
    RefuseWrites(s, PcOf(s, t).claim, PcOf(s, t).verdict.reason);
  }

  /** A pass is recorded in one commit: SENDING under the claim, the Message-ID on a Message not otherwise changed. */
  lemma PassRecorded(cfg: Config, s: System, t: nat, header: string, fate: Fate)
    requires Inv(cfg, s) && PcOf(s, t).SendGated? && PcOf(s, t).verdict.Pass? && fate != NotApplied
    requires forall k :: k in s.db.messages ==> s.db.messages[k].header != Some(header)
    ensures var s', pc := ApplyCommitSend(cfg, s, t, header, fate), PcOf(s, t);
            && pc.claim.dispatch in s.db.dispatches && s.db.dispatches[pc.claim.dispatch].message.Some?
            && var row, m := s.db.dispatches[pc.claim.dispatch], s.db.dispatches[pc.claim.dispatch].message.value;
               && m in s.db.messages
               && s'.db.dispatches == s.db.dispatches[pc.claim.dispatch :=
                    row.(state := Sending, claimedBy := Some(pc.claim.worker), claimedAt := Some(pc.claim.at))]
               && s'.db.messages == s.db.messages[m := s.db.messages[m].(status := MsgSending, header := Some(header))]
               && PcOf(s', t) == if fate == Acked then Prepared(pc.claim, header, pc.verdict.payload) else Idle
  {
    OpenSend(cfg, s, t);
  }

  /** The gates in order, each with the reason it refuses with; the tenth, the encryption key, puts off instead. */
  function Gates(w: World, live: bool, d: nat, row: Dispatch, msg: Message): seq<(bool, string)> {
    var box := if row.mailbox.Some? && row.mailbox.value in w.mailboxes then Some(w.mailboxes[row.mailbox.value])
               else None;
    [(row.campaign in w.campaigns && w.campaigns[row.campaign] == row.org, "tenant_mismatch: campaign"),
     (row.contact in w.contacts && w.contacts[row.contact].campaign == row.campaign, "tenant_mismatch: contact"),
     (msg.contact == row.contact, "tenant_mismatch: message"),
     (msg.status == MsgDraft, "wiring_error"),
     (row.mailbox != None, "no_mailbox"),
     (box.Some? && box.value.org == row.org, "tenant_mismatch: mailbox"),
     (box.Some? && box.value.active, "mailbox_disabled"),
     (row.contact in w.contacts && w.contacts[row.contact].email !in w.suppressed, "suppressed"),
     (!HardBlocked(w, d, msg.body), "grounding hard block"),
     (live, "live_sending_disabled"),
     (w.keyAvailable, ""),
     (box.Some? && box.value.decryptable, "mailbox_credentials_undecryptable")]
  }

  /** The first gate that fails decides, and names its reason. */
  lemma FirstGateDecides(w: World, live: bool, d: nat, row: Dispatch, messages: map<nat, Message>, i: nat)
    requires row.message.Some? && row.message.value in messages
    requires var gates := Gates(w, live, d, row, messages[row.message.value]);
             i < |gates| && !gates[i].0 && forall j :: 0 <= j < i ==> gates[j].0
    ensures RunGates(w, live, d, row, messages)
            == if i == 10 then Unavailable else Refuse(Gates(w, live, d, row, messages[row.message.value])[i].1)
  {
    var gates := Gates(w, live, d, row, messages[row.message.value]);
    assert (i > 0 ==> gates[0].0) && (i > 1 ==> gates[1].0) && (i > 2 ==> gates[2].0) && (i > 3 ==> gates[3].0);
    assert (i > 4 ==> gates[4].0) && (i > 5 ==> gates[5].0) && (i > 6 ==> gates[6].0) && (i > 7 ==> gates[7].0);
    assert (i > 8 ==> gates[8].0) && (i > 9 ==> gates[9].0) && (i > 10 ==> gates[10].0);
  }

  /** Running the gates changes no table: it ends in a verdict, or puts the dispatch off. */
  lemma GatesRunDry(cfg: Config, s: System, t: nat)
    requires Inv(cfg, s) && PcOf(s, t).SendOpen?
    ensures var s', pc, d := ApplyCheckGates(cfg, s, t, false), PcOf(s, t), PcOf(s, t).claim.dispatch;
            && s'.db == s.db && d in s.db.dispatches && s.db.dispatches[d].message.Some?
            && s.db.dispatches[d].message.value in s.db.messages
            && var row := s.db.dispatches[d];
               var pass := GatePass(s.world, t in cfg.live, row, s.db.messages[row.message.value]);
               if EveryGate(d, pass) then PcOf(s', t).SendGated? && PcOf(s', t).verdict.Pass?
               else if !s.world.keyAvailable && EveryGate(d, pass.(world := Unlocked(s.world, row)))
               then PcOf(s', t) == Idle
               else PcOf(s', t).SendGated? && PcOf(s', t).verdict.Refuse?
  {
    KnownTask(cfg, s, t);
    KnownCell(cfg, s, PcOf(s, t).claim.dispatch);
    var row := s.db.dispatches[PcOf(s, t).claim.dispatch];
    GatesExact(s.world, t in cfg.live, PcOf(s, t).claim.dispatch, row, s.db.messages);
    PutOffExactly(s.world, t in cfg.live, PcOf(s, t).claim.dispatch, row, s.db.messages);
  }

  /** A fault of the code before the send is a refusal like any other. */
  lemma FaultRefuses(cfg: Config, s: System, t: nat)
    requires Inv(cfg, s) && PcOf(s, t).SendOpen?
    ensures var s' := ApplyCheckGates(cfg, s, t, true);
            s'.db == s.db && PcOf(s', t) == SendGated(PcOf(s, t).claim, Refuse("internal_error_before_send"), s.world)
  {
    KnownTask(cfg, s, t);
  }

  // ---- claiming ----------------------------------------------------------------------------------------------

  /** An idle worker opens its transaction on an unlocked QUEUED row of its kind, under its own name and time. */
  lemma ClaimOpens(cfg: Config, s: System, t: nat, d: nat, worker: string, at: Time, generation: bool)
    requires PcOf(s, t) == Idle && d in s.db.dispatches && s.db.dispatches[d].state == Queued
    requires s.db.dispatches[d].message == None <==> generation
    requires forall u :: u in s.tasks ==> !OpenOn(s.tasks[u], d)
    requires worker in s.clocks ==> s.clocks[worker] < at
    ensures var s' := ApplyBegin(cfg, s, t, d, worker, at, generation);
            var claim := Claim(d, s.db.dispatches[d].org, worker, at);
            && s'.db == s.db && s'.clocks == s.clocks[worker := at]
            && PcOf(s', t) == if generation then GenOpen(claim) else SendOpen(claim)
  {}

  // ---- generation ----------------------------------------------------------------------------------------------

  /** Transaction G1: the row is GENERATING under the claim and the worker goes on, or FAILED with the reason. */
  lemma GenerationStarts(cfg: Config, s: System, t: nat, refusal: Option<string>, fate: Fate)
    requires Inv(cfg, s) && PcOf(s, t).GenOpen? && fate != NotApplied
    ensures var s', pc := ApplyCommitGeneration(s, t, refusal, fate), PcOf(s, t);
            && pc.claim.dispatch in s.db.dispatches && s'.db.messages == s.db.messages
            && var row := s.db.dispatches[pc.claim.dispatch];
               && s'.db.dispatches == s.db.dispatches[pc.claim.dispatch :=
                    match refusal
                    case None =>
                      row.(state := Generating, claimedBy := Some(pc.claim.worker), claimedAt := Some(pc.claim.at))
                    case Some(reason) =>
                      row.(state := Failed, claimedBy := None, claimedAt := None, error := Some(reason))]
               && (PcOf(s', t).Drafting? <==> refusal == None && fate == Acked)
               && (PcOf(s', t).Drafting? ==> PcOf(s', t).claim == pc.claim && PcOf(s', t).contact == row.contact)
  {
    OpenGeneration(cfg, s, t);
    var s', d := ApplyCommitGeneration(s, t, refusal, fate), PcOf(s, t).claim.dispatch;
    assert s'.db.dispatches == s.db.dispatches[d := s'.db.dispatches[d]];
  }

  /** What the model wrote, or why it did not, is what is handed on to be written. */
  lemma DraftHandedOn(s: System, t: nat, draft: Option<Draft>, reason: string)
    requires PcOf(s, t).Drafting?
    ensures var s', pc := ApplyDraftReady(s, t, draft, reason), PcOf(s, t);
            s'.db == s.db && PcOf(s', t) == GenWriting(pc.claim, pc.serial, pc.contact, draft, reason, 0)
  {}

  /** Transaction G2 in the protocol is the outcome the store writes, and it is tried three times. */
  lemma GenerationWritten(s: System, t: nat, m: nat, fate: Fate)
    requires PcOf(s, t).GenWriting? && (PcOf(s, t).draft.Some? ==> m !in s.db.messages)
    ensures var s', pc := ApplyWriteGeneration(s, t, m, fate), PcOf(s, t);
            && s'.db == (if fate == NotApplied then s.db
                         else WorkClaiming.GenerationOutcome(s.db, pc.claim, pc.contact, pc.draft, pc.reason, m))
            && (fate == Acked ==> PcOf(s', t) == Idle)
            && (fate == NotApplied ==>
                  PcOf(s', t) == if pc.tries < 2 then
                                   GenWriting(pc.claim, pc.serial, pc.contact, pc.draft, pc.reason, pc.tries + 1)
                                 else Idle)
  {}
}
