/** Every step of the protocol keeps the invariant, so every run does. */
module DeliverySteps {
  import opened DispatchModel
  import opened DeliveryProtocol
  import opened DeliveryInvariant
  import Smtp = SmtpSender

  lemma KnownCell(cfg: Config, s: System, d: nat)
    requires Inv(cfg, s) && d in s.db.dispatches
    ensures CellOk(d, CellOf(s, d))
  {}

  lemma KnownTask(cfg: Config, s: System, t: nat)
    requires Inv(cfg, s) && t in s.tasks
    ensures TaskOk(cfg, s, t)
  {}

  // ---- gates -----------------------------------------------------------------------------------

  /** The gate sequence passes exactly when every gate holds, and then the payload is the stored text. */
  lemma GatesExact(w: World, live: bool, d: nat, row: Dispatch, messages: map<nat, Message>)
    requires row.message.Some? && row.message.value in messages
    ensures RunGates(w, live, d, row, messages).Pass? <==>
            EveryGate(d, GatePass(w, live, row, messages[row.message.value]))
    ensures var v := RunGates(w, live, d, row, messages);
            v.Pass? ==> Cleared(v.payload, GatePass(w, live, row, messages[row.message.value]))
  {}

  /** The same surroundings with the row's mailbox password readable. */
  function Unlocked(w: World, row: Dispatch): World {
    var box := row.mailbox;
    if box.Some? && box.value in w.mailboxes
    then w.(keyAvailable := true, mailboxes := w.mailboxes[box.value := w.mailboxes[box.value].(decryptable := true)])
    else w.(keyAvailable := true)
  }

  /** A missing encryption key puts a dispatch off, instead of failing it, exactly when nothing else is against it. */
  lemma PutOffExactly(w: World, live: bool, d: nat, row: Dispatch, messages: map<nat, Message>)
    requires row.message.Some? && row.message.value in messages
    ensures RunGates(w, live, d, row, messages).Unavailable? <==>
            !w.keyAvailable && EveryGate(d, GatePass(Unlocked(w, row), live, row, messages[row.message.value]))
  {}

  // ---- acceptance --------------------------------------------------------------------------------

  lemma AcceptOtherCell(s: System, d: nat, a: Acceptance, e: nat)
    requires Keyed(s) && Owners(s) && Insertable(s.db, d, a) && e in s.db.dispatches
    ensures CellOf(ApplyAccept(s, d, a), e) == CellOf(s, e)
  {}

  lemma AcceptOwners(s: System, d: nat, a: Acceptance)
    requires Keyed(s) && Owners(s) && HeadersDiffer(s.db) && Insertable(s.db, d, a)
    ensures Owners(ApplyAccept(s, d, a)) && HeadersDiffer(ApplyAccept(s, d, a).db)
  {
    AcceptLinks(s, d, a);
    AcceptHeaders(s, d, a);
  }

  lemma AcceptLinks(s: System, d: nat, a: Acceptance)
    requires Keyed(s) && Owners(s) && Insertable(s.db, d, a)
    ensures Owners(ApplyAccept(s, d, a))
  {}

  lemma AcceptHeaders(s: System, d: nat, a: Acceptance)
    requires HeadersDiffer(s.db) && Insertable(s.db, d, a)
    ensures HeadersDiffer(ApplyAccept(s, d, a).db)
  {}

  lemma AcceptCells(cfg: Config, s: System, d: nat, a: Acceptance)
    requires Keyed(s) && Owners(s) && CellsOk(s) && Insertable(s.db, d, a)
    ensures CellsOk(ApplyAccept(s, d, a))
  {
    var s' := ApplyAccept(s, d, a);
    forall e | e in s'.db.dispatches
      ensures CellOk(e, CellOf(s', e))
    {
      if e != d { AcceptOtherCell(s, d, a, e); }
    }
  }

  lemma AcceptTasks(cfg: Config, s: System, d: nat, a: Acceptance)
    requires Keyed(s) && Owners(s) && TasksOk(cfg, s) && Insertable(s.db, d, a)
    ensures TasksOk(cfg, ApplyAccept(s, d, a))
  {
    forall t | t in s.tasks
      ensures TaskOk(cfg, ApplyAccept(s, d, a), t)
    {
      assert TaskOk(cfg, s, t);
      if !s.tasks[t].Idle? { AcceptOtherCell(s, d, a, s.tasks[t].claim.dispatch); }
    }
  }

  lemma AcceptKeeps(cfg: Config, s: System, d: nat, a: Acceptance)
    requires Inv(cfg, s)
    ensures Inv(cfg, ApplyAccept(s, d, a))
  {
    if Insertable(s.db, d, a) {
      AcceptOwners(s, d, a);
      AcceptCells(cfg, s, d, a);
      AcceptTasks(cfg, s, d, a);
    }
  }

  ghost predicate Unheld(s: System, d: nat) {
    forall u :: u in s.tasks ==> !Holds(s.tasks[u], d)
  }

  // ---- steps that only move a program counter -----------------------------------------------------

  lemma IdleKeeps(cfg: Config, s: System, t: nat)
    requires Inv(cfg, s)
    ensures Inv(cfg, SetPc(s, t, Idle))
  {
    PcMoved(cfg, s, t, Idle);
  }

  /** A queued row that no open transaction has claimed is held by nobody. */
  lemma UnlockedUnheld(cfg: Config, s: System, d: nat, u: nat)
    requires Inv(cfg, s) && d in s.db.dispatches && s.db.dispatches[d].state.Queued? && !Locked(s, d)
    requires u in s.tasks
    ensures !Holds(s.tasks[u], d)
  {
    KnownTask(cfg, s, u);
    KnownCell(cfg, s, d);
    assert !OpenOn(s.tasks[u], d);
  }

  lemma BeginKeeps(cfg: Config, s: System, t: nat, d: nat, worker: string, at: Time, generation: bool)
    requires Inv(cfg, s)
    ensures Inv(cfg, ApplyBegin(cfg, s, t, d, worker, at, generation))
  {
    var s' := ApplyBegin(cfg, s, t, d, worker, at, generation);
    if s' != s {
      forall u | u in s.tasks
        ensures !Holds(s.tasks[u], d)
      {
        UnlockedUnheld(cfg, s, d, u);
      }
      KnownCell(cfg, s, d);
      assert CellOf(s', d) == CellOf(s, d);
      PcMoved(cfg, s, t, s'.tasks[t]);
      SurroundingsKeep(cfg, SetPc(s, t, s'.tasks[t]), s.world, s'.clocks);
    }
  }

  lemma DraftReadyKeeps(cfg: Config, s: System, t: nat, draft: Option<Draft>, reason: string)
    requires Inv(cfg, s)
    ensures Inv(cfg, ApplyDraftReady(s, t, draft, reason))
  {
    var s' := ApplyDraftReady(s, t, draft, reason);
    if s' != s {
      KnownTask(cfg, s, t);
      assert CellOf(s', s.tasks[t].claim.dispatch) == CellOf(s, s.tasks[t].claim.dispatch);
      PcMoved(cfg, s, t, s'.tasks[t]);
    }
  }

  lemma CheckGatesKeeps(cfg: Config, s: System, t: nat, fault: bool)
    requires Inv(cfg, s)
    ensures Inv(cfg, ApplyCheckGates(cfg, s, t, fault))
  {
    var s' := ApplyCheckGates(cfg, s, t, fault);
    var pc := PcOf(s, t);
    if pc.SendOpen? && pc.claim.dispatch in s.db.dispatches {
      KnownTask(cfg, s, t);
      var d := pc.claim.dispatch;
      var row := s.db.dispatches[d];
      GatesExact(s.world, t in cfg.live, d, row, s.db.messages);
      assert CellOf(s', d) == CellOf(s, d);
      forall u | u in s.tasks && u != t
        ensures !Holds(s.tasks[u], d)
      {
        assert Holds(s.tasks[t], d);
      }
      PcMoved(cfg, s, t, s'.tasks[t]);
    }
  }

  // ---- writes to a row and to the status of its Message ---------------------------------------------

  /** Only row d changed, not its link, and of the Messages only the one it links to, not its Message-ID. */
  ghost predicate RowWrite(s: System, s': System, d: nat) {
    && d in s.db.dispatches && s'.owner == s.owner
    && s'.traces.Keys == s.traces.Keys && (forall e :: e in s.traces && e != d ==> s'.traces[e] == s.traces[e])
    && s'.db.dispatches.Keys == s.db.dispatches.Keys
    && (forall e :: e in s.db.dispatches && e != d ==> s'.db.dispatches[e] == s.db.dispatches[e])
    && s'.db.dispatches[d].message == s.db.dispatches[d].message
    && s'.db.messages.Keys == s.db.messages.Keys
    && (forall m :: m in s.db.messages ==>
          && s'.db.messages[m].header == s.db.messages[m].header
          && (s.db.dispatches[d].message != Some(m) ==> s'.db.messages[m] == s.db.messages[m]))
  }

  lemma RowWriteOnly(s: System, s': System, d: nat)
    requires Keyed(s) && Owners(s) && RowWrite(s, s', d)
    ensures OnlyCell(s, s', d)
  {}

  lemma RowWriteOwners(s: System, s': System, d: nat)
    requires Owners(s) && RowWrite(s, s', d)
    ensures Owners(s')
  {}

  lemma RowWriteHeaders(s: System, s': System, d: nat)
    requires HeadersDiffer(s.db) && RowWrite(s, s', d)
    ensures HeadersDiffer(s'.db)
  {}

  lemma RowWriteFrame(s: System, s': System, d: nat)
    requires Keyed(s) && Owners(s) && HeadersDiffer(s.db) && RowWrite(s, s', d)
    ensures OnlyCell(s, s', d) && Owners(s') && HeadersDiffer(s'.db)
  {
    RowWriteOnly(s, s', d);
    RowWriteOwners(s, s', d);
    RowWriteHeaders(s, s', d);
  }

  /** Finish on a row the claim still owns, as a change of one cell. */
  function FinishedCell(c: Cell, state: DispatchState, error: Option<string>): Cell
    requires state.Terminal()
  {
    Cell(Released(c.row, state).(error := error),
         if c.msg.Some? then Some(c.msg.value.(status := StatusOf(state), error := error)) else None,
         c.trace)
  }

  lemma FinishCell(s: System, claim: Claim, state: DispatchState, error: Option<string>)
    requires Keyed(s) && state.Terminal() && SendFence(s.db, claim)
    ensures var s' := s.(db := Finish(s.db, claim, state, error));
            && RowWrite(s, s', claim.dispatch)
            && CellOf(s', claim.dispatch) == FinishedCell(CellOf(s, claim.dispatch), state, error)
  {}

  lemma FinishedOk(d: nat, c: Cell, state: DispatchState, error: Option<string>)
    requires CellOk(d, c) && c.row.state.Sending? && state.Terminal()
    requires state.Sent? ==> |c.trace.entries| == 1 && c.trace.entries[0].deliveries == 1
    requires state.Failed? ==> |c.trace.entries| == 1 && c.trace.entries[0].deliveries == 0
    ensures CellOk(d, FinishedCell(c, state, error))
    ensures Grown(c, FinishedCell(c, state, error)) && Undisturbed(c, FinishedCell(c, state, error))
  {}

  /** A write to one cell that moves no program counter and disturbs no task holding the dispatch. */
  lemma CellWritten(cfg: Config, s: System, s': System, d: nat)
    requires Inv(cfg, s) && OnlyCell(s, s', d) && s'.tasks == s.tasks
    requires Owners(s') && HeadersDiffer(s'.db)
    requires CellOk(d, CellOf(s', d)) && Grown(CellOf(s, d), CellOf(s', d))
    requires Undisturbed(CellOf(s, d), CellOf(s', d)) || Unheld(s, d)
    ensures Inv(cfg, s')
  {
    StillCells(s, s', d);
    forall u | u in s'.tasks
      ensures TaskOk(cfg, s', u)
    {
      KnownTask(cfg, s, u);
      OtherTask(cfg, s, s', d, u);
    }
  }

  /** The fenced outcome write, whoever issues it, provided that what it records is true. */
  lemma FinishKeeps(cfg: Config, s: System, claim: Claim, state: DispatchState, error: Option<string>)
    requires Inv(cfg, s) && state.Terminal()
    requires SendFence(s.db, claim) ==>
             var tr := TraceOf(s, claim.dispatch);
             && (state.Sent? ==> |tr.entries| == 1 && tr.entries[0].deliveries == 1)
             && (state.Failed? ==> |tr.entries| == 1 && tr.entries[0].deliveries == 0)
    ensures Inv(cfg, s.(db := Finish(s.db, claim, state, error)))
  {
    if SendFence(s.db, claim) {
      var d := claim.dispatch;
      var s' := s.(db := Finish(s.db, claim, state, error));
      KnownCell(cfg, s, d);
      FinishCell(s, claim, state, error);
      RowWriteFrame(s, s', d);
      FinishedOk(d, CellOf(s, d), state, error);
      CellWritten(cfg, s, s', d);
    }
  }

  lemma DrainKeeps(cfg: Config, s: System, claim: Claim)
    requires Inv(cfg, s)
    ensures Inv(cfg, ApplyDrain(s, claim))
  {
    FinishKeeps(cfg, s, claim, Unknown, Some("worker_shutdown"));
  }

  lemma LeaveFinishing(cfg: Config, s: System, t: nat, next: Pc)
    requires Inv(cfg, s) && t in s.tasks && s.tasks[t].Finishing?
    requires next.Idle? || next == Annotating(s.tasks[t].claim) || next == RetryOutcome(s.tasks[t])
    ensures Inv(cfg, SetPc(s, t, next))
  {
    var d := s.tasks[t].claim.dispatch;
    KnownTask(cfg, s, t);
    assert Holds(s.tasks[t], d);
    assert CellOf(SetPc(s, t, next), d) == CellOf(s, d);
    PcMoved(cfg, s, t, next);
  }

  lemma FinishingTells(cfg: Config, s: System, t: nat)
    requires Inv(cfg, s) && t in s.tasks && s.tasks[t].Finishing?
    ensures var tr := TraceOf(s, s.tasks[t].claim.dispatch);
            && |tr.entries| == 1
            && (s.tasks[t].outcome.Sent? ==> tr.entries[0].deliveries == 1)
            && (s.tasks[t].outcome.Failed? ==> tr.entries[0].deliveries == 0)
  {
    KnownTask(cfg, s, t);
  }

  lemma WriteOutcomeKeeps(cfg: Config, s: System, t: nat, fate: Fate)
    requires Inv(cfg, s)
    ensures Inv(cfg, ApplyWriteOutcome(s, t, fate))
  {
    var pc := PcOf(s, t);
    var s' := ApplyWriteOutcome(s, t, fate);
    if pc.Finishing? && pc.outcome.Terminal() {
      if fate.NotApplied? {
        LeaveFinishing(cfg, s, t, RetryOutcome(pc));
      } else {
        FinishingTells(cfg, s, t);
        FinishKeeps(cfg, s, pc.claim, pc.outcome, pc.error);
        var mid := s.(db := Finish(s.db, pc.claim, pc.outcome, pc.error));
        LeaveFinishing(cfg, mid, t, s'.tasks[t]);
      }
    }
  }

  lemma NoteCell(s: System, d: nat, org: string, note: string)
    requires Keyed(s) && d in s.db.dispatches && AnnotateUnknown(s.db, d, org, note) != s.db
    ensures var s' := s.(db := AnnotateUnknown(s.db, d, org, note));
            && RowWrite(s, s', d)
            && CellOf(s', d) == CellOf(s, d).(row := CellOf(s, d).row.(error := s'.db.dispatches[d].error))
  {}

  lemma NotedOk(d: nat, c: Cell, error: Option<string>)
    requires CellOk(d, c)
    ensures CellOk(d, c.(row := c.row.(error := error))) && Grown(c, c.(row := c.row.(error := error)))
  {}

  lemma NoteKeeps(cfg: Config, s: System, d: nat, org: string, note: string)
    requires Inv(cfg, s) && d in s.db.dispatches
    ensures Inv(cfg, s.(db := AnnotateUnknown(s.db, d, org, note)))
  {
    var s' := s.(db := AnnotateUnknown(s.db, d, org, note));
    if s'.db != s.db {
      KnownCell(cfg, s, d);
      NoteCell(s, d, org, note);
      RowWriteFrame(s, s', d);
      NotedOk(d, CellOf(s, d), s'.db.dispatches[d].error);
      CellWritten(cfg, s, s', d);
    }
  }

  lemma WriteNoteKeeps(cfg: Config, s: System, t: nat, note: string, fate: Fate)
    requires Inv(cfg, s)
    ensures Inv(cfg, ApplyWriteNote(s, t, note, fate))
  {
    var pc := PcOf(s, t);
    if pc.Annotating? {
      KnownTask(cfg, s, t);
      IdleKeeps(cfg, s, t);
      NoteKeeps(cfg, SetPc(s, t, Idle), pc.claim.dispatch, pc.claim.org, note);
    }
  }

  lemma SweepCell(s: System, d: nat, cutoff: Time)
    requires Keyed(s) && SendExpired(s.db, d, cutoff)
    requires var c := CellOf(s, d); c.msg.Some? && c.msg.value.status.MsgSending?
    ensures var s' := s.(db := ResolveSend(s.db, d, cutoff));
            && RowWrite(s, s', d)
            && CellOf(s', d) == FinishedCell(CellOf(s, d), Unknown, Some(LEASE_EXPIRED))
  {}

  lemma SweepSendKeeps(cfg: Config, s: System, d: nat, cutoff: Time)
    requires Inv(cfg, s)
    ensures Inv(cfg, s.(db := ResolveSend(s.db, d, cutoff)))
  {
    if SendExpired(s.db, d, cutoff) {
      var s' := s.(db := ResolveSend(s.db, d, cutoff));
      KnownCell(cfg, s, d);
      SweepCell(s, d, cutoff);
      RowWriteFrame(s, s', d);
      FinishedOk(d, CellOf(s, d), Unknown, Some(LEASE_EXPIRED));
      CellWritten(cfg, s, s', d);
    }
  }

  lemma SweepGenerationKeeps(cfg: Config, s: System, d: nat, cutoff: Time)
    requires Inv(cfg, s)
    ensures Inv(cfg, s.(db := RequeueGeneration(s.db, d, cutoff)))
  {
    if GenExpired(s.db, d, cutoff) {
      var s' := s.(db := RequeueGeneration(s.db, d, cutoff));
      KnownCell(cfg, s, d);
      RowWriteFrame(s, s', d);
      CellWritten(cfg, s, s', d);
    }
  }

  // ---- commits that change the history of a dispatch -------------------------------------------------

  /** The acting task lets go of its dispatch; afterwards nobody holds it. */
  lemma LetGo(cfg: Config, s: System, t: nat, d: nat)
    requires Inv(cfg, s) && t in s.tasks && Holds(s.tasks[t], d)
    ensures Inv(cfg, SetPc(s, t, Idle)) && Unheld(SetPc(s, t, Idle), d)
    ensures d in s.db.dispatches && CellOf(SetPc(s, t, Idle), d) == CellOf(s, d) && CellOk(d, CellOf(s, d))
  {
    KnownTask(cfg, s, t);
    KnownCell(cfg, s, d);
    IdleKeeps(cfg, s, t);
  }

  /** A task takes up the next phase of a dispatch that nobody holds. */
  lemma TakeUp(cfg: Config, s: System, t: nat, d: nat, pc: Pc)
    requires Inv(cfg, s) && d in s.db.dispatches && Unheld(s, d)
    requires !pc.Idle? && pc.claim.dispatch == d && PcOk(t in cfg.live, d, CellOf(s, d), pc)
    ensures Inv(cfg, SetPc(s, t, pc))
  {
    assert CellOf(SetPc(s, t, pc), d) == CellOf(s, d);
    PcMoved(cfg, s, t, pc);
  }

  function ClaimedCell(c: Cell, claim: Claim): Cell {
    c.(row := Claimed(c.row, Generating, claim.worker, claim.at),
       trace := c.trace.(genClaims := c.trace.genClaims + [claim]))
  }

  lemma ClaimedOk(d: nat, c: Cell, claim: Claim)
    requires CellOk(d, c) && c.row.state.Queued? && c.row.message.None?
    requires claim.dispatch == d && claim.org == c.row.org
    ensures CellOk(d, ClaimedCell(c, claim)) && Grown(c, ClaimedCell(c, claim))
  {}

  lemma GenerationClaimKeeps(cfg: Config, s: System, claim: Claim)
    requires Inv(cfg, s) && GenClaimable(s.db, claim.dispatch) && Unheld(s, claim.dispatch)
    requires claim.org == s.db.dispatches[claim.dispatch].org
    ensures var tr := TraceOf(s, claim.dispatch);
            var s' := s.(db := WithClaim(s.db, claim, Generating),
                         traces := s.traces[claim.dispatch := tr.(genClaims := tr.genClaims + [claim])]);
            Inv(cfg, s') && CellOf(s', claim.dispatch) == ClaimedCell(CellOf(s, claim.dispatch), claim)
  {
    var d := claim.dispatch;
    var tr := TraceOf(s, d);
    var s' := s.(db := WithClaim(s.db, claim, Generating),
                 traces := s.traces[d := tr.(genClaims := tr.genClaims + [claim])]);
    KnownCell(cfg, s, d);
    ClaimedOk(d, CellOf(s, d), claim);
    assert CellOf(s', d) == ClaimedCell(CellOf(s, d), claim);
    RowWriteFrame(s, s', d);
    CellWritten(cfg, s, s', d);
  }

  function FailedCell(c: Cell, error: string): Cell {
    c.(row := Released(c.row, Failed).(error := Some(error)))
  }

  lemma FailedOk(d: nat, c: Cell, error: string)
    requires CellOk(d, c) && c.row.message.None? && Unsent(c.row)
    ensures CellOk(d, FailedCell(c, error)) && Grown(c, FailedCell(c, error))
  {}

  /** GENERATING -> FAILED, or QUEUED -> GENERATING -> FAILED inside one transaction. */
  lemma FailKeeps(cfg: Config, s: System, d: nat, error: string)
    requires Inv(cfg, s) && d in s.db.dispatches && Unheld(s, d)
    requires s.db.dispatches[d].message.None? && Unsent(s.db.dispatches[d])
    ensures Inv(cfg, s.(db := s.db.(dispatches :=
              s.db.dispatches[d := Released(s.db.dispatches[d], Failed).(error := Some(error))])))
  {
    var s' := s.(db := s.db.(dispatches :=
                s.db.dispatches[d := Released(s.db.dispatches[d], Failed).(error := Some(error))]));
    KnownCell(cfg, s, d);
    FailedOk(d, CellOf(s, d), error);
    assert CellOf(s', d) == FailedCell(CellOf(s, d), error);
    RowWriteFrame(s, s', d);
    CellWritten(cfg, s, s', d);
  }

  /** What an open G1 transaction relies on: its row is still as it was when it took the lock. */
  lemma OpenGeneration(cfg: Config, s: System, t: nat)
    requires Inv(cfg, s) && t in s.tasks && s.tasks[t].GenOpen?
    ensures var c := s.tasks[t].claim;
            && GenClaimable(s.db, c.dispatch) && c.org == s.db.dispatches[c.dispatch].org
            && Inv(cfg, SetPc(s, t, Idle)) && Unheld(SetPc(s, t, Idle), c.dispatch)
  {
    KnownTask(cfg, s, t);
    LetGo(cfg, s, t, s.tasks[t].claim.dispatch);
  }

  lemma CommitClaimKeeps(cfg: Config, s: System, t: nat, claim: Claim)
    requires Inv(cfg, s) && GenClaimable(s.db, claim.dispatch) && Unheld(s, claim.dispatch)
    requires claim.org == s.db.dispatches[claim.dispatch].org
    ensures var tr := TraceOf(s, claim.dispatch);
            var s' := s.(db := WithClaim(s.db, claim, Generating),
                         traces := s.traces[claim.dispatch := tr.(genClaims := tr.genClaims + [claim])]);
            Inv(cfg, s') &&
            Inv(cfg, SetPc(s', t, Drafting(claim, |tr.genClaims|, s.db.dispatches[claim.dispatch].contact)))
  {
    var d := claim.dispatch;
    var tr := TraceOf(s, d);
    var s' := s.(db := WithClaim(s.db, claim, Generating),
                 traces := s.traces[d := tr.(genClaims := tr.genClaims + [claim])]);
    GenerationClaimKeeps(cfg, s, claim);
    TakeUp(cfg, s', t, d, Drafting(claim, |tr.genClaims|, s.db.dispatches[d].contact));
  }

  lemma CommitRefusalKeeps(cfg: Config, s: System, t: nat, reason: string, fate: Fate)
    requires Inv(cfg, s) && PcOf(s, t).GenOpen? && !fate.NotApplied?
    ensures Inv(cfg, ApplyCommitGeneration(s, t, Some(reason), fate))
  {
    var s', d := ApplyCommitGeneration(s, t, Some(reason), fate), PcOf(s, t).claim.dispatch;
    OpenGeneration(cfg, s, t);
    FailKeeps(cfg, SetPc(s, t, Idle), d, reason);
    assert s'.db.dispatches == s.db.dispatches[d := s'.db.dispatches[d]];
  }

  lemma CommitGenerationKeeps(cfg: Config, s: System, t: nat, refusal: Option<string>, fate: Fate)
    requires Inv(cfg, s)
    ensures Inv(cfg, ApplyCommitGeneration(s, t, refusal, fate))
  {
    var pc := PcOf(s, t);
    if pc.GenOpen? && refusal.Some? && !fate.NotApplied? {
      CommitRefusalKeeps(cfg, s, t, refusal.value, fate);
    } else if pc.GenOpen? {
      OpenGeneration(cfg, s, t);
      var s', free := ApplyCommitGeneration(s, t, refusal, fate), SetPc(s, t, Idle);
      if !fate.NotApplied? {
        CommitClaimKeeps(cfg, free, t, pc.claim);
        assert free.tasks[t := s'.tasks[t]] == s'.tasks;
      }
    }
  }

  // ---- Transaction G2 ----------------------------------------------------------------------------------

  /** While a row is GENERATING no task holds it: late generation workers own nothing. */
  lemma GeneratingUnheld(cfg: Config, s: System, d: nat)
    requires Inv(cfg, s) && d in s.db.dispatches && s.db.dispatches[d].state.Generating?
    ensures Unheld(s, d)
  {
    KnownCell(cfg, s, d);
    forall u | u in s.tasks
      ensures !Holds(s.tasks[u], d)
    {
      KnownTask(cfg, s, u);
    }
  }

  function AttachedCell(c: Cell, m: nat, msg: Message): Cell {
    Cell(Released(c.row, Queued).(message := Some(m)), Some(msg), c.trace.(created := c.trace.created + [m]))
  }

  lemma AttachedOk(d: nat, c: Cell, m: nat, draft: Draft)
    requires CellOk(d, c) && c.row.state.Generating?
    ensures var c' := AttachedCell(c, m, DraftMessage(c.row.contact, draft.subject, draft.body));
            CellOk(d, c') && Grown(c, c')
  {}

  function Attached(s: System, claim: Claim, m: nat, msg: Message): System {
    s.(db := CompleteGeneration(s.db.(messages := s.db.messages[m := msg]), claim, m),
       traces := var tr := TraceOf(s, claim.dispatch); s.traces[claim.dispatch := tr.(created := tr.created + [m])],
       owner := s.owner[m := claim.dispatch])
  }

  lemma AttachCells(s: System, claim: Claim, m: nat, msg: Message)
    requires Keyed(s) && Owners(s) && GenFence(s.db, claim) && m !in s.db.messages
    ensures var s' := Attached(s, claim, m, msg);
            && OnlyCell(s, s', claim.dispatch)
            && CellOf(s', claim.dispatch) == AttachedCell(CellOf(s, claim.dispatch), m, msg)
  {}

  lemma AttachOwners(s: System, claim: Claim, m: nat, msg: Message)
    requires Keyed(s) && Owners(s) && GenFence(s.db, claim) && m !in s.db.messages
    requires s.db.dispatches[claim.dispatch].message.None?
    ensures Owners(Attached(s, claim, m, msg))
  {
    var s', d := Attached(s, claim, m, msg), claim.dispatch;
    assert s'.db.messages.Keys == s.db.messages.Keys + {m};
    assert s'.db.dispatches == s.db.dispatches[d := s'.db.dispatches[d]] && s'.db.dispatches[d].message == Some(m);
    forall k | k in s'.owner
      ensures s'.owner[k] in s'.db.dispatches && s'.db.dispatches[s'.owner[k]].message == Some(k)
    {
      assert k != m ==> s.db.dispatches[s.owner[k]].message == Some(k);
    }
  }

  lemma AttachHeaders(s: System, claim: Claim, m: nat, msg: Message)
    requires HeadersDiffer(s.db) && GenFence(s.db, claim) && m !in s.db.messages && msg.header.None?
    ensures HeadersDiffer(Attached(s, claim, m, msg).db)
  {}

  lemma AttachKeeps(cfg: Config, s: System, claim: Claim, m: nat, draft: Draft)
    requires Inv(cfg, s) && GenFence(s.db, claim) && m !in s.db.messages
    ensures Inv(cfg, Attached(s, claim, m,
                              DraftMessage(s.db.dispatches[claim.dispatch].contact, draft.subject, draft.body)))
  {
    var d := claim.dispatch;
    var msg := DraftMessage(s.db.dispatches[d].contact, draft.subject, draft.body);
    KnownCell(cfg, s, d);
    AttachCells(s, claim, m, msg);
    AttachOwners(s, claim, m, msg);
    AttachHeaders(s, claim, m, msg);
    AttachedOk(d, CellOf(s, d), m, draft);
    GeneratingUnheld(cfg, s, d);
    CellWritten(cfg, s, Attached(s, claim, m, msg), d);
  }

  lemma LeaveGenWriting(cfg: Config, s: System, t: nat, next: Pc)
    requires Inv(cfg, s) && t in s.tasks && s.tasks[t].GenWriting?
    requires next.Idle? || next == RetryGeneration(s.tasks[t])
    ensures Inv(cfg, SetPc(s, t, next))
  {
    KnownTask(cfg, s, t);
    var d := s.tasks[t].claim.dispatch;
    assert CellOf(SetPc(s, t, next), d) == CellOf(s, d);
    PcMoved(cfg, s, t, next);
  }

  lemma WriteFailureKeeps(cfg: Config, s: System, t: nat, m: nat, fate: Fate)
    requires Inv(cfg, s) && PcOf(s, t).GenWriting? && PcOf(s, t).draft.None?
    requires !fate.NotApplied? && GenFence(s.db, PcOf(s, t).claim)
    ensures Inv(cfg, ApplyWriteGeneration(s, t, m, fate))
  {
    var s', pc := ApplyWriteGeneration(s, t, m, fate), PcOf(s, t);
    GeneratingUnheld(cfg, s, pc.claim.dispatch);
    FailKeeps(cfg, s, pc.claim.dispatch, pc.reason);
    LeaveGenWriting(cfg, s.(db := s'.db), t, s'.tasks[t]);
  }

  lemma WriteDraftKeeps(cfg: Config, s: System, t: nat, m: nat, fate: Fate)
    requires Inv(cfg, s) && PcOf(s, t).GenWriting? && PcOf(s, t).draft.Some? && m !in s.db.messages
    requires !fate.NotApplied? && GenFence(s.db, PcOf(s, t).claim)
    ensures Inv(cfg, ApplyWriteGeneration(s, t, m, fate))
  {
    var s', pc := ApplyWriteGeneration(s, t, m, fate), PcOf(s, t);
    WriterContact(cfg, s, t);
    AttachKeeps(cfg, s, pc.claim, m, pc.draft.value);
    LeaveGenWriting(cfg, s.(db := s'.db, traces := s'.traces, owner := s'.owner), t, s'.tasks[t]);
  }

  lemma WriteGenerationKeeps(cfg: Config, s: System, t: nat, m: nat, fate: Fate)
    requires Inv(cfg, s)
    ensures Inv(cfg, ApplyWriteGeneration(s, t, m, fate))
  {
    var pc := PcOf(s, t);
    if pc.GenWriting? && !(pc.draft.Some? && m in s.db.messages) {
      if fate.NotApplied? || !GenFence(s.db, pc.claim) {
        LeaveGenWriting(cfg, s, t, ApplyWriteGeneration(s, t, m, fate).tasks[t]);
      } else if pc.draft.None? {
        WriteFailureKeeps(cfg, s, t, m, fate);
      } else {
        WriteDraftKeeps(cfg, s, t, m, fate);
      }
    }
  }

  lemma WriterContact(cfg: Config, s: System, t: nat)
    requires Inv(cfg, s) && t in s.tasks && s.tasks[t].GenWriting?
    ensures var pc := s.tasks[t];
            pc.claim.dispatch in s.db.dispatches && pc.contact == s.db.dispatches[pc.claim.dispatch].contact
  {
    KnownTask(cfg, s, t);
  }

  // ---- Transaction B -----------------------------------------------------------------------------------

  lemma OpenSend(cfg: Config, s: System, t: nat)
    requires Inv(cfg, s) && t in s.tasks && s.tasks[t].SendGated?
    ensures var pc := s.tasks[t];
            var d := pc.claim.dispatch;
            && SendClaimable(s.db, d) && pc.claim.org == s.db.dispatches[d].org
            && CellOf(s, d).msg.Some? && GatedOk(t in cfg.live, d, CellOf(s, d), pc)
            && Inv(cfg, SetPc(s, t, Idle)) && Unheld(SetPc(s, t, Idle), d)
            && CellOf(SetPc(s, t, Idle), d) == CellOf(s, d)
  {
    KnownTask(cfg, s, t);
    LetGo(cfg, s, t, s.tasks[t].claim.dispatch);
  }

  function RefusedCell(c: Cell, reason: string): Cell {
    Cell(Released(c.row, Failed).(error := Some(reason)),
         if c.msg.Some? then Some(c.msg.value.(status := MsgFailed, error := Some(reason))) else None,
         c.trace)
  }

  lemma RefusedOk(d: nat, c: Cell, reason: string)
    requires CellOk(d, c) && c.row.state.Queued?
    ensures CellOk(d, RefusedCell(c, reason)) && Grown(c, RefusedCell(c, reason))
  {}

  lemma RefuseWrites(s: System, claim: Claim, reason: string)
    requires Keyed(s) && SendClaimable(s.db, claim.dispatch) && claim.org == s.db.dispatches[claim.dispatch].org
    ensures var s' := s.(db := Finish(WithClaim(s.db, claim, Sending), claim, Failed, Some(reason)));
            && RowWrite(s, s', claim.dispatch)
            && CellOf(s', claim.dispatch) == RefusedCell(CellOf(s, claim.dispatch), reason)
  {}

  lemma RefuseKeeps(cfg: Config, s: System, claim: Claim, reason: string)
    requires Inv(cfg, s) && SendClaimable(s.db, claim.dispatch) && Unheld(s, claim.dispatch)
    requires claim.org == s.db.dispatches[claim.dispatch].org
    ensures Inv(cfg, s.(db := Finish(WithClaim(s.db, claim, Sending), claim, Failed, Some(reason))))
  {
    var d := claim.dispatch;
    var s' := s.(db := Finish(WithClaim(s.db, claim, Sending), claim, Failed, Some(reason)));
    KnownCell(cfg, s, d);
    RefuseWrites(s, claim, reason);
    RowWriteFrame(s, s', d);
    RefusedOk(d, CellOf(s, d), reason);
    CellWritten(cfg, s, s', d);
  }

  function LaunchedCell(c: Cell, claim: Claim, header: string, pass: GatePass): Cell
    requires c.msg.Some?
  {
    Cell(Claimed(c.row, Sending, claim.worker, claim.at),
         Some(c.msg.value.(status := MsgSending, header := Some(header))),
         c.trace.(sendClaims := c.trace.sendClaims + [claim], passes := c.trace.passes + [pass]))
  }

  lemma LaunchedOk(d: nat, c: Cell, claim: Claim, header: string, pass: GatePass)
    requires CellOk(d, c) && c.row.state.Queued? && c.msg.Some?
    requires claim.dispatch == d && claim.org == c.row.org && EveryGate(d, pass)
    ensures CellOk(d, LaunchedCell(c, claim, header, pass)) && Grown(c, LaunchedCell(c, claim, header, pass))
  {}

  function Launched(s: System, claim: Claim, m: nat, header: string, pass: GatePass): System
    requires claim.dispatch in s.db.dispatches && m in s.db.messages
  {
    var tr := TraceOf(s, claim.dispatch);
    s.(db := WithClaim(s.db, claim, Sending).(
               messages := s.db.messages[m := s.db.messages[m].(status := MsgSending, header := Some(header))]),
       traces := s.traces[claim.dispatch := tr.(sendClaims := tr.sendClaims + [claim], passes := tr.passes + [pass])])
  }

  lemma LaunchOwners(s: System, claim: Claim, m: nat, header: string, pass: GatePass)
    requires Keyed(s) && Owners(s) && claim.dispatch in s.db.dispatches && m in s.db.messages
    ensures Owners(Launched(s, claim, m, header, pass))
  {}

  lemma LaunchCells(s: System, claim: Claim, m: nat, header: string, pass: GatePass)
    requires Keyed(s) && Owners(s) && claim.dispatch in s.db.dispatches && m in s.db.messages
    requires s.db.dispatches[claim.dispatch].message == Some(m)
    ensures var s' := Launched(s, claim, m, header, pass);
            && OnlyCell(s, s', claim.dispatch)
            && CellOf(s, claim.dispatch).msg.Some?
            && CellOf(s', claim.dispatch) == LaunchedCell(CellOf(s, claim.dispatch), claim, header, pass)
  {}

  lemma LaunchHeaders(s: System, claim: Claim, m: nat, header: string, pass: GatePass)
    requires HeadersDiffer(s.db) && claim.dispatch in s.db.dispatches && m in s.db.messages
    requires !HeaderUsed(s.db, m, header)
    ensures HeadersDiffer(Launched(s, claim, m, header, pass).db)
  {}

  lemma LaunchKeeps(cfg: Config, s: System, claim: Claim, m: nat, header: string, pass: GatePass)
    requires Inv(cfg, s) && SendClaimable(s.db, claim.dispatch) && Unheld(s, claim.dispatch)
    requires m in s.db.messages && s.db.dispatches[claim.dispatch].message == Some(m)
    requires claim.org == s.db.dispatches[claim.dispatch].org
    requires !HeaderUsed(s.db, m, header) && EveryGate(claim.dispatch, pass)
    ensures Inv(cfg, Launched(s, claim, m, header, pass))
    ensures TraceOf(s, claim.dispatch).sendClaims == [] && TraceOf(s, claim.dispatch).entries == []
    ensures TraceOf(s, claim.dispatch).passes == []
  {
    var d := claim.dispatch;
    KnownCell(cfg, s, d);
    LaunchOwners(s, claim, m, header, pass);
    LaunchCells(s, claim, m, header, pass);
    LaunchHeaders(s, claim, m, header, pass);
    LaunchedOk(d, CellOf(s, d), claim, header, pass);
    CellWritten(cfg, s, Launched(s, claim, m, header, pass), d);
  }

  lemma LaunchedPc(c: Cell, claim: Claim, header: string, pass: GatePass, p: Payload)
    requires c.msg.Some? && c.trace.sendClaims == [] && c.trace.entries == [] && c.trace.passes == []
    requires SamePayload(p, c.msg.value) && Cleared(p, pass)
    ensures PcOk(true, claim.dispatch, LaunchedCell(c, claim, header, pass), Prepared(claim, header, p))
  {}

  lemma HandOff(cfg: Config, s: System, t: nat, claim: Claim, m: nat, header: string, pass: GatePass, p: Payload)
    requires Inv(cfg, s) && SendClaimable(s.db, claim.dispatch) && Unheld(s, claim.dispatch)
    requires m in s.db.messages && s.db.dispatches[claim.dispatch].message == Some(m)
    requires claim.org == s.db.dispatches[claim.dispatch].org
    requires !HeaderUsed(s.db, m, header) && EveryGate(claim.dispatch, pass)
    requires SamePayload(p, s.db.messages[m]) && Cleared(p, pass) && t in cfg.live
    ensures Inv(cfg, SetPc(Launched(s, claim, m, header, pass), t, Prepared(claim, header, p)))
  {
    LaunchKeeps(cfg, s, claim, m, header, pass);
    LaunchCells(s, claim, m, header, pass);
    LaunchedPc(CellOf(s, claim.dispatch), claim, header, pass, p);
    TakeUp(cfg, Launched(s, claim, m, header, pass), t, claim.dispatch, Prepared(claim, header, p));
  }

  lemma PassLaunches(cfg: Config, s: System, t: nat, header: string, fate: Fate)
    requires PcOf(s, t).SendGated? && PcOf(s, t).verdict.Pass? && !fate.NotApplied?
    requires PcOf(s, t).claim.dispatch in s.db.dispatches && s.db.dispatches[PcOf(s, t).claim.dispatch].message.Some?
    requires var m := s.db.dispatches[PcOf(s, t).claim.dispatch].message.value;
             m in s.db.messages && !HeaderUsed(s.db, m, header)
    ensures var pc, free := PcOf(s, t), SetPc(s, t, Idle);
            var row := s.db.dispatches[pc.claim.dispatch];
            var pass := GatePass(pc.seen, t in cfg.live, row, s.db.messages[row.message.value]);
            var next := Launched(free, pc.claim, row.message.value, header, pass);
            ApplyCommitSend(cfg, s, t, header, fate)
            == if fate.Acked? then SetPc(next, t, Prepared(pc.claim, header, pc.verdict.payload)) else next
  {}

  /** A worker lets go of its open transaction; on an acknowledged commit it goes on to SMTP. */
  lemma PassKeeps(cfg: Config, s: System, t: nat, header: string, fate: Fate)
    requires Inv(cfg, s) && PcOf(s, t).SendGated? && PcOf(s, t).verdict.Pass? && !fate.NotApplied?
    ensures Inv(cfg, ApplyCommitSend(cfg, s, t, header, fate))
  {
    var pc, free := PcOf(s, t), SetPc(s, t, Idle);
    OpenSend(cfg, s, t);
    var row := s.db.dispatches[pc.claim.dispatch];
    var m := row.message.value;
    if m in s.db.messages && !HeaderUsed(s.db, m, header) {
      var pass := GatePass(pc.seen, t in cfg.live, row, s.db.messages[m]);
      PassLaunches(cfg, s, t, header, fate);
      if fate.Acked? {
        HandOff(cfg, free, t, pc.claim, m, header, pass, pc.verdict.payload);
      } else {
        LaunchKeeps(cfg, free, pc.claim, m, header, pass);
      }
    }
  }

  lemma CommitSendKeeps(cfg: Config, s: System, t: nat, header: string, fate: Fate)
    requires Inv(cfg, s)
    ensures Inv(cfg, ApplyCommitSend(cfg, s, t, header, fate))
  {
    var pc := PcOf(s, t);
    if pc.SendGated? && pc.verdict.Pass? && !fate.NotApplied? {
      PassKeeps(cfg, s, t, header, fate);
    } else if pc.SendGated? {
      OpenSend(cfg, s, t);
      if pc.verdict.Refuse? && !fate.NotApplied? {
        RefuseKeeps(cfg, SetPc(s, t, Idle), pc.claim, pc.verdict.reason);
      }
    }
  }

  // ---- SMTP --------------------------------------------------------------------------------------------

  lemma EntryKeeps(cfg: Config, s: System, claim: Claim, e: Entry)
    requires Inv(cfg, s) && claim.dispatch in s.db.dispatches && Unheld(s, claim.dispatch)
    requires var c := CellOf(s, claim.dispatch);
             c.trace.sendClaims == [claim] && c.trace.entries == [] && EntryOk(e, c.msg, c.trace.passes)
    ensures var tr := TraceOf(s, claim.dispatch);
            var s' := s.(traces := s.traces[claim.dispatch := tr.(entries := tr.entries + [e])]);
            Inv(cfg, s') && CellOf(s', claim.dispatch) ==
              CellOf(s, claim.dispatch).(trace := tr.(entries := [e]))
  {
    var d := claim.dispatch;
    var tr := TraceOf(s, d);
    var s' := s.(traces := s.traces[d := tr.(entries := tr.entries + [e])]);
    KnownCell(cfg, s, d);
    assert CellOf(s', d) == CellOf(s, d).(trace := tr.(entries := [e]));
    EnteredOk(d, CellOf(s, d), claim, e);
    RowWriteFrame(s, s', d);
    CellWritten(cfg, s, s', d);
  }

  lemma EnteredOk(d: nat, c: Cell, claim: Claim, e: Entry)
    requires CellOk(d, c) && c.trace.sendClaims == [claim] && c.trace.entries == [] && EntryOk(e, c.msg, c.trace.passes)
    requires c.row.state.Sending? || c.row.state.Unknown?
    ensures var c' := c.(trace := c.trace.(entries := [e])); CellOk(d, c') && Grown(c, c')
  {}

  /** The call a Prepared task makes, and the entry it leaves behind. */
  function CallOf(cfg: Config, t: nat, headerOk: bool, useTls: bool, script: Smtp.Script): Smtp.Call {
    Smtp.Call(t in cfg.live, headerOk, useTls, script)
  }

  lemma PreparedTells(cfg: Config, s: System, t: nat, e: Entry)
    requires Inv(cfg, s) && t in s.tasks && s.tasks[t].Prepared?
    requires e.header == s.tasks[t].header && e.payload == s.tasks[t].payload && e.deliveries <= e.calls <= 1
    ensures var pc := s.tasks[t];
            var free := SetPc(s, t, Idle);
            && t in cfg.live && pc.claim.dispatch in s.db.dispatches
            && Inv(cfg, free) && Unheld(free, pc.claim.dispatch)
            && var c := CellOf(free, pc.claim.dispatch);
               c.trace.sendClaims == [pc.claim] && c.trace.entries == [] && EntryOk(e, c.msg, c.trace.passes)
  {
    KnownTask(cfg, s, t);
    LetGo(cfg, s, t, s.tasks[t].claim.dispatch);
  }

  lemma ReportTrue(cfg: Config, t: nat, headerOk: bool, useTls: bool, script: Smtp.Script)
    requires t in cfg.live
    ensures var call := CallOf(cfg, t, headerOk, useTls, script);
            var out := FinalState(Smtp.SendEmail(call));
            && Smtp.Deliveries(call) <= Smtp.Calls(call) <= 1 && out.Terminal()
            && (out.Sent? ==> Smtp.Deliveries(call) == 1) && (out.Failed? ==> Smtp.Deliveries(call) == 0)
  {
    var call := CallOf(cfg, t, headerOk, useTls, script);
    Smtp.AtMostOneSendmail(call);
    if Smtp.SendEmail(call).Returned? { Smtp.OutcomeHonest(call); }
  }

  lemma RunSmtpKeeps(cfg: Config, s: System, t: nat, headerOk: bool, useTls: bool, script: Smtp.Script)
    requires Inv(cfg, s)
    ensures Inv(cfg, ApplyRunSmtp(cfg, s, t, headerOk, useTls, script))
  {
    var pc := PcOf(s, t);
    if pc.Prepared? {
      var s' := ApplyRunSmtp(cfg, s, t, headerOk, useTls, script);
      var call := CallOf(cfg, t, headerOk, useTls, script);
      var e := Entry(pc.header, pc.payload, Smtp.Calls(call), Smtp.Deliveries(call));
      Smtp.AtMostOneSendmail(call);
      PreparedTells(cfg, s, t, e);
      ReportTrue(cfg, t, headerOk, useTls, script);
      var free := SetPc(s, t, Idle);
      EntryKeeps(cfg, free, pc.claim, e);
      var logged := free.(traces := s'.traces);
      assert free.tasks[t := s'.tasks[t]] == s'.tasks;
      if !s'.tasks[t].Idle? {
        TakeUp(cfg, logged, t, pc.claim.dispatch, s'.tasks[t]);
      }
    }
  }

  // ---- every step, every run -------------------------------------------------------------------------------

  lemma StepKeeps(cfg: Config, s: System, step: Step)
    requires Inv(cfg, s)
    ensures Inv(cfg, Apply(cfg, s, step))
  {
    match step
    case Accept(d, a) => AcceptKeeps(cfg, s, d, a);
    case BeginGeneration(t, d, worker, at) => BeginKeeps(cfg, s, t, d, worker, at, true);
    case CommitGeneration(t, refusal, fate) => CommitGenerationKeeps(cfg, s, t, refusal, fate);
    case DraftReady(t, draft, reason) => DraftReadyKeeps(cfg, s, t, draft, reason);
    case WriteGeneration(t, m, fate) => WriteGenerationKeeps(cfg, s, t, m, fate);
    case BeginSend(t, d, worker, at) => BeginKeeps(cfg, s, t, d, worker, at, false);
    case CheckGates(t, fault) => CheckGatesKeeps(cfg, s, t, fault);
    case CommitSend(t, header, fate) => CommitSendKeeps(cfg, s, t, header, fate);
    case RunSmtp(t, headerOk, useTls, script) => RunSmtpKeeps(cfg, s, t, headerOk, useTls, script);
    case _ => LaterStepKeeps(cfg, s, step);
  }

  /** The steps after SMTP, the sweeps, and what else may happen. */
  lemma LaterStepKeeps(cfg: Config, s: System, step: Step)
    requires Inv(cfg, s)
    requires || step.WriteOutcome? || step.WriteNote? || step.SweepSend? || step.SweepGeneration?
             || step.Drain? || step.Abort? || step.ChangeWorld?
    ensures Inv(cfg, Apply(cfg, s, step))
  {
    match step
    case WriteOutcome(t, fate) => WriteOutcomeKeeps(cfg, s, t, fate);
    case WriteNote(t, note, fate) => WriteNoteKeeps(cfg, s, t, note, fate);
    case SweepSend(d, cutoff) => SweepSendKeeps(cfg, s, d, cutoff);
    case SweepGeneration(d, cutoff) => SweepGenerationKeeps(cfg, s, d, cutoff);
    case Drain(claim) => DrainKeeps(cfg, s, claim);
    case Abort(t) => IdleKeeps(cfg, s, t);
    case ChangeWorld(w) => SurroundingsKeep(cfg, s, w, s.clocks);
  }

  /** The invariant says nothing about the surroundings or the time. */
  lemma SurroundingsKeep(cfg: Config, s: System, w: World, clocks: map<string, Time>)
    requires Inv(cfg, s)
    ensures Inv(cfg, s.(world := w, clocks := clocks))
  {
    var s' := s.(world := w, clocks := clocks);
    forall d | d in s'.db.dispatches
      ensures CellOk(d, CellOf(s', d))
    {
      KnownCell(cfg, s, d);
      assert CellOf(s', d) == CellOf(s, d);
    }
    forall t | t in s'.tasks
      ensures TaskOk(cfg, s', t)
    {
      KnownTask(cfg, s, t);
      var pc := s.tasks[t];
      assert !pc.Idle? ==> CellOf(s', pc.claim.dispatch) == CellOf(s, pc.claim.dispatch);
    }
  }

  /** The invariant holds in every state of every run. */
  lemma {:induction false} RunKeeps(cfg: Config, s: System, steps: seq<Step>)
    requires Inv(cfg, s)
    ensures Inv(cfg, Run(cfg, s, steps))
    decreases |steps|
  {
    if steps != [] {
      StepKeeps(cfg, s, steps[0]);
      RunKeeps(cfg, Apply(cfg, s, steps[0]), steps[1..]);
    }
  }
}
