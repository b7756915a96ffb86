/** How one dispatch may change along a run: forward only, and never under a transaction that has it locked. */
module DeliveryProgress {
  import opened DispatchModel
  import opened DeliveryProtocol
  import opened DeliveryInvariant
  import opened DeliverySteps
  import opened DeliveryClocks
  import opened DeliveryTheorems
  import Smtp = SmtpSender

  /** b is a Message that a can become: text and, once set, Message-ID are fixed. */
  ghost predicate MessageLater(a: Message, b: Message) {
    && a.contact == b.contact && a.subject == b.subject && a.body == b.body
    && (a.header.Some? ==> b.header == a.header)
  }

  ghost predicate Later(c: Cell, c': Cell) {
    && RowLater(c.row, c'.row)
    && (c.msg.Some? ==> c'.msg.Some? && MessageLater(c.msg.value, c'.msg.value))
    && c.trace.sendClaims <= c'.trace.sendClaims && c.trace.entries <= c'.trace.entries
    && c.trace.genClaims <= c'.trace.genClaims && c.trace.created <= c'.trace.created
  }

  lemma LaterTransitive(a: Cell, b: Cell, c: Cell)
    requires Later(a, b) && Later(b, c)
    ensures Later(a, c)
  {}

  /** Every dispatch of s is still there in s' and has only moved forward. */
  ghost predicate Forward(s: System, s': System) {
    && s.db.dispatches.Keys <= s'.db.dispatches.Keys
    && (forall e {:trigger CellOf(s', e)} :: e in s.db.dispatches ==> Later(CellOf(s, e), CellOf(s', e)))
  }

  lemma SameTables(s: System, s': System)
    requires s'.db == s.db && s'.traces == s.traces
    ensures Forward(s, s')
  {}

  lemma OneForward(s: System, s': System, d: nat)
    requires Keyed(s) && Owners(s) && OnlyCell(s, s', d) && Later(CellOf(s, d), CellOf(s', d))
    ensures Forward(s, s')
  {}

  /** The part of the invariant that a write to one cell needs. */
  ghost predicate Framed(s: System, d: nat) {
    Keyed(s) && Owners(s) && HeadersDiffer(s.db) && d in s.db.dispatches && CellOk(d, CellOf(s, d))
  }

  lemma KnownFrame(cfg: Config, s: System, d: nat)
    requires Inv(cfg, s) && d in s.db.dispatches
    ensures Framed(s, d)
  {
    KnownCell(cfg, s, d);
  }

  lemma FinishForward(cfg: Config, s: System, s': System, claim: Claim, state: DispatchState, error: Option<string>)
    requires Inv(cfg, s) && state.Terminal()
    requires s'.db == Finish(s.db, claim, state, error) && s'.traces == s.traces
    ensures Forward(s, s')
  {
    if SendFence(s.db, claim) {
      var d := claim.dispatch;
      var mid := s.(db := s'.db);
      KnownCell(cfg, s, d);
      FinishCell(s, claim, state, error);
      RowWriteFrame(s, mid, d);
      FinishedForward(d, CellOf(s, d), state, error);
      assert CellOf(s', d) == CellOf(mid, d);
      OneForward(s, s', d);
    } else {
      SameTables(s, s');
    }
  }

  lemma FinishedForward(d: nat, c: Cell, state: DispatchState, error: Option<string>)
    requires CellOk(d, c) && c.row.state.Sending? && state.Terminal()
    ensures Later(c, FinishedCell(c, state, error))
  {}

  lemma AcceptForward(cfg: Config, s: System, d: nat, a: Acceptance)
    requires Inv(cfg, s)
    ensures Forward(s, ApplyAccept(s, d, a))
  {
    if Insertable(s.db, d, a) {
      forall e | e in s.db.dispatches
        ensures Later(CellOf(s, e), CellOf(ApplyAccept(s, d, a), e))
      {
        AcceptOtherCell(s, d, a, e);
      }
    } else {
      SameTables(s, s);
    }
  }

  lemma FailForward(s: System, s': System, d: nat, error: string)
    requires Framed(s, d)
    requires s.db.dispatches[d].message.None? && Unsent(s.db.dispatches[d])
    requires var row := Released(s.db.dispatches[d], Failed).(error := Some(error));
             s'.db == s.db.(dispatches := s.db.dispatches[d := row])
    requires s'.traces == s.traces
    ensures Forward(s, s')
  {}

  lemma CommitGenerationForward(cfg: Config, s: System, t: nat, refusal: Option<string>, fate: Fate)
    requires Inv(cfg, s)
    ensures Forward(s, ApplyCommitGeneration(s, t, refusal, fate))
  {
    var s' := ApplyCommitGeneration(s, t, refusal, fate);
    var pc := PcOf(s, t);
    if s'.db == s.db && s'.traces == s.traces {
      SameTables(s, s');
    } else {
      OpenGeneration(cfg, s, t);
      var d := pc.claim.dispatch;
      KnownCell(cfg, s, d);
      if refusal.Some? {
        assert s'.db.dispatches == s.db.dispatches[d := s'.db.dispatches[d]];
        FailForward(s, s', d, refusal.value);
      } else {
        ClaimForward(s, s', pc.claim);
      }
    }
  }

  lemma ClaimForward(s: System, s': System, claim: Claim)
    requires Framed(s, claim.dispatch) && GenClaimable(s.db, claim.dispatch)
    requires s'.db == WithClaim(s.db, claim, Generating)
    requires var tr := TraceOf(s, claim.dispatch);
             s'.traces == s.traces[claim.dispatch := tr.(genClaims := tr.genClaims + [claim])]
    ensures Forward(s, s')
  {}

  lemma AttachedForward(d: nat, c: Cell, m: nat, msg: Message)
    requires CellOk(d, c) && c.row.state.Generating?
    ensures Later(c, AttachedCell(c, m, msg))
  {}

  lemma AttachForward(s: System, s': System, claim: Claim, m: nat, msg: Message)
    requires Framed(s, claim.dispatch) && GenFence(s.db, claim) && m !in s.db.messages
    requires s'.db == Attached(s, claim, m, msg).db && s'.traces == Attached(s, claim, m, msg).traces
    ensures Forward(s, s')
  {
    var d := claim.dispatch;
    AttachCells(s, claim, m, msg);
    AttachedForward(d, CellOf(s, d), m, msg);
    assert CellOf(s', d) == CellOf(Attached(s, claim, m, msg), d);
    OneForward(s, s', d);
  }

  lemma GeneratedForward(s: System, t: nat, m: nat, fate: Fate)
    requires PcOf(s, t).GenWriting? && Framed(s, PcOf(s, t).claim.dispatch)
    ensures Forward(s, ApplyWriteGeneration(s, t, m, fate))
  {
    var s', pc := ApplyWriteGeneration(s, t, m, fate), PcOf(s, t);
    if s'.db == s.db && s'.traces == s.traces {
      SameTables(s, s');
    } else if pc.draft.None? {
      FailForward(s, s', pc.claim.dispatch, pc.reason);
    } else {
      AttachForward(s, s', pc.claim, m, DraftMessage(pc.contact, pc.draft.value.subject, pc.draft.value.body));
    }
  }

  lemma WriteGenerationForward(cfg: Config, s: System, t: nat, m: nat, fate: Fate)
    requires Inv(cfg, s)
    ensures Forward(s, ApplyWriteGeneration(s, t, m, fate))
  {
    if PcOf(s, t).GenWriting? {
      KnownTask(cfg, s, t);
      KnownFrame(cfg, s, PcOf(s, t).claim.dispatch);
      GeneratedForward(s, t, m, fate);
    } else {
      SameTables(s, s);
    }
  }

  lemma RefusedForward(d: nat, c: Cell, reason: string)
    requires CellOk(d, c) && c.row.state.Queued?
    ensures Later(c, RefusedCell(c, reason))
  {}

  lemma LaunchedForward(d: nat, c: Cell, claim: Claim, header: string, pass: GatePass)
    requires CellOk(d, c) && c.row.state.Queued? && c.msg.Some?
    ensures Later(c, LaunchedCell(c, claim, header, pass))
  {}

  lemma RefuseForward(cfg: Config, s: System, s': System, claim: Claim, reason: string)
    requires Inv(cfg, s) && SendClaimable(s.db, claim.dispatch) && claim.org == s.db.dispatches[claim.dispatch].org
    requires s'.db == Finish(WithClaim(s.db, claim, Sending), claim, Failed, Some(reason)) && s'.traces == s.traces
    ensures Forward(s, s')
  {
    var d := claim.dispatch;
    var mid := s.(db := s'.db);
    KnownCell(cfg, s, d);
    RefuseWrites(s, claim, reason);
    RowWriteFrame(s, mid, d);
    assert CellOf(s', d) == CellOf(mid, d);
    RefusedForward(d, CellOf(s, d), reason);
    OneForward(s, s', d);
  }

  lemma LaunchForward(cfg: Config, s: System, s': System, claim: Claim, m: nat, header: string, pass: GatePass)
    requires Inv(cfg, s) && SendClaimable(s.db, claim.dispatch)
    requires m in s.db.messages && s.db.dispatches[claim.dispatch].message == Some(m)
    requires s'.db == Launched(s, claim, m, header, pass).db && s'.traces == Launched(s, claim, m, header, pass).traces
    ensures Forward(s, s')
  {
    var d := claim.dispatch;
    KnownCell(cfg, s, d);
    LaunchCells(s, claim, m, header, pass);
    assert CellOf(s', d) == CellOf(Launched(s, claim, m, header, pass), d);
    LaunchedForward(d, CellOf(s, d), claim, header, pass);
    OneForward(s, s', d);
  }

  lemma CommitSendForward(cfg: Config, s: System, t: nat, header: string, fate: Fate)
    requires Inv(cfg, s)
    ensures Forward(s, ApplyCommitSend(cfg, s, t, header, fate))
  {
    var s' := ApplyCommitSend(cfg, s, t, header, fate);
    var pc := PcOf(s, t);
    if s'.db == s.db && s'.traces == s.traces {
      SameTables(s, s');
    } else {
      OpenSend(cfg, s, t);
      if pc.verdict.Refuse? {
        RefuseForward(cfg, s, s', pc.claim, pc.verdict.reason);
      } else {
        var row := s.db.dispatches[pc.claim.dispatch];
        var pass := GatePass(pc.seen, t in cfg.live, row, s.db.messages[row.message.value]);
        LaunchForward(cfg, s, s', pc.claim, row.message.value, header, pass);
      }
    }
  }

  lemma RunSmtpForward(cfg: Config, s: System, t: nat, headerOk: bool, useTls: bool, script: Smtp.Script)
    requires Inv(cfg, s)
    ensures Forward(s, ApplyRunSmtp(cfg, s, t, headerOk, useTls, script))
  {}

  lemma NotedForward(c: Cell, error: Option<string>)
    requires c.row.state.Unknown?
    ensures Later(c, c.(row := c.row.(error := error)))
  {}

  lemma NoteForward(s: System, s': System, d: nat)
    requires Framed(s, d) && s.db.dispatches[d].state.Unknown? && s'.traces == s.traces
    requires var mid := s.(db := s'.db);
             && RowWrite(s, mid, d)
             && CellOf(mid, d) == CellOf(s, d).(row := CellOf(s, d).row.(error := s'.db.dispatches[d].error))
    ensures Forward(s, s')
  {
    var mid := s.(db := s'.db);
    NotedForward(CellOf(s, d), s'.db.dispatches[d].error);
    RowWriteFrame(s, mid, d);
    assert CellOf(s', d) == CellOf(mid, d);
    OneForward(s, s', d);
  }

  lemma WriteNoteForward(cfg: Config, s: System, t: nat, note: string, fate: Fate)
    requires Inv(cfg, s)
    ensures Forward(s, ApplyWriteNote(s, t, note, fate))
  {
    var s', pc := ApplyWriteNote(s, t, note, fate), PcOf(s, t);
    if s'.db == s.db {
      SameTables(s, s');
    } else {
      KnownFrame(cfg, s, pc.claim.dispatch);
      NoteCell(s, pc.claim.dispatch, pc.claim.org, note);
      NoteForward(s, s', pc.claim.dispatch);
    }
  }

  lemma SweepForward(cfg: Config, s: System, d: nat, cutoff: Time)
    requires Inv(cfg, s)
    ensures Forward(s, s.(db := ResolveSend(s.db, d, cutoff)))
    ensures Forward(s, s.(db := RequeueGeneration(s.db, d, cutoff)))
  {
    SameTables(s, s);
    if SendExpired(s.db, d, cutoff) {
      var s' := s.(db := ResolveSend(s.db, d, cutoff));
      KnownCell(cfg, s, d);
      SweepCell(s, d, cutoff);
      RowWriteFrame(s, s', d);
      FinishedForward(d, CellOf(s, d), Unknown, Some(LEASE_EXPIRED));
      OneForward(s, s', d);
    }
    if GenExpired(s.db, d, cutoff) {
      var s' := s.(db := RequeueGeneration(s.db, d, cutoff));
      RowWriteFrame(s, s', d);
      OneForward(s, s', d);
    }
  }

  lemma WriteOutcomeForward(cfg: Config, s: System, t: nat, fate: Fate)
    requires Inv(cfg, s)
    ensures Forward(s, ApplyWriteOutcome(s, t, fate))
  {
    var pc := PcOf(s, t);
    if pc.Finishing? && pc.outcome.Terminal() && !fate.NotApplied? {
      FinishForward(cfg, s, ApplyWriteOutcome(s, t, fate), pc.claim, pc.outcome, pc.error);
    } else {
      SameTables(s, ApplyWriteOutcome(s, t, fate));
    }
  }

  lemma DrainForward(cfg: Config, s: System, claim: Claim)
    requires Inv(cfg, s)
    ensures Forward(s, ApplyDrain(s, claim))
  {
    FinishForward(cfg, s, ApplyDrain(s, claim), claim, Unknown, Some("worker_shutdown"));
  }

  /** Steps that write no row and remember nothing. */
  lemma ElsewhereForward(cfg: Config, s: System, step: Step)
    requires || step.BeginGeneration? || step.BeginSend? || step.DraftReady? || step.CheckGates?
             || step.Abort? || step.ChangeWorld?
    ensures Forward(s, Apply(cfg, s, step))
  {
    SameTables(s, Apply(cfg, s, step));
  }

  lemma StepForward(cfg: Config, s: System, step: Step)
    requires Inv(cfg, s)
    ensures Forward(s, Apply(cfg, s, step))
  {
    match step
    case Accept(d, a) => AcceptForward(cfg, s, d, a);
    case CommitGeneration(t, refusal, fate) => CommitGenerationForward(cfg, s, t, refusal, fate);
    case WriteGeneration(t, m, fate) => WriteGenerationForward(cfg, s, t, m, fate);
    case CommitSend(t, header, fate) => CommitSendForward(cfg, s, t, header, fate);
    case RunSmtp(t, headerOk, useTls, script) => RunSmtpForward(cfg, s, t, headerOk, useTls, script);
    case WriteOutcome(t, fate) => WriteOutcomeForward(cfg, s, t, fate);
    case WriteNote(t, note, fate) => WriteNoteForward(cfg, s, t, note, fate);
    case SweepSend(d, cutoff) => SweepForward(cfg, s, d, cutoff);
    case SweepGeneration(d, cutoff) => SweepForward(cfg, s, d, cutoff);
    case Drain(claim) => DrainForward(cfg, s, claim);
    case _ => ElsewhereForward(cfg, s, step);
  }

  /**
   Along every run no dispatch disappears, no row loses rank, a terminal row changes only its error
   text, a link to a Message, its text and its Message-ID are permanent, and nothing done is undone.
   */
  lemma {:induction false} RunForward(cfg: Config, s: System, steps: seq<Step>)
    requires Inv(cfg, s)
    ensures Forward(s, Run(cfg, s, steps))
    decreases |steps|
  {
    if steps == [] {
      SameTables(s, s);
    } else {
      var mid := Apply(cfg, s, steps[0]);
      var end := Run(cfg, s, steps);
      StepKeeps(cfg, s, steps[0]);
      StepForward(cfg, s, steps[0]);
      RunForward(cfg, mid, steps[1..]);
      forall e | e in s.db.dispatches
        ensures Later(CellOf(s, e), CellOf(end, e))
      {
        LaterTransitive(CellOf(s, e), CellOf(mid, e), CellOf(end, e));
      }
    }
  }

  /** A claim that a sweep or a drain has taken away stays lost: later, its outcome write changes no row. */
  lemma LostClaimWritesNothing(cfg: Config, s: System, c: Claim, steps: seq<Step>, state: DispatchState,
                               error: Option<string>)
    requires Reachable(cfg, s) && c.dispatch in s.db.dispatches && state.Terminal()
    requires c in TraceOf(s, c.dispatch).sendClaims && !SendFence(s.db, c)
    ensures var s' := Run(cfg, s, steps); Finish(s'.db, c, state, error) == s'.db
  {
    ReachableOk(cfg, s);
    var s' := Run(cfg, s, steps);
    KnownCell(cfg, s, c.dispatch);
    RunForward(cfg, s, steps);
    assert Later(CellOf(s, c.dispatch), CellOf(s', c.dispatch));
  }

  /** Row d is GENERATING after the change only if it was before. */
  ghost predicate NoneStarts(db: Db, db': Db, d: nat)
    requires d in db.dispatches
  {
    d in db'.dispatches && (db'.dispatches[d].state.Generating? ==> db.dispatches[d].state.Generating?)
  }

  lemma SendStartsNone(cfg: Config, s: System, t: nat, header: string, fate: Fate, d: nat)
    requires d in s.db.dispatches
    ensures NoneStarts(s.db, ApplyCommitSend(cfg, s, t, header, fate).db, d)
  {}

  lemma WriteStartsNone(s: System, t: nat, m: nat, fate: Fate, d: nat)
    requires d in s.db.dispatches
    ensures NoneStarts(s.db, ApplyWriteGeneration(s, t, m, fate).db, d)
  {}

  lemma OtherStartsNone(cfg: Config, s: System, step: Step, d: nat)
    requires d in s.db.dispatches && !step.CommitGeneration?
    ensures NoneStarts(s.db, Apply(cfg, s, step).db, d)
  {
    match step
    case CommitSend(t, header, fate) => SendStartsNone(cfg, s, t, header, fate, d);
    case WriteGeneration(t, m, fate) => WriteStartsNone(s, t, m, fate, d);
    case _ =>
  }

  /** A row enters GENERATING only by a new, recorded claim. */
  lemma GeneratingByClaim(cfg: Config, s: System, step: Step, d: nat)
    requires Inv(cfg, s) && d in s.db.dispatches
    ensures var s' := Apply(cfg, s, step);
            && d in s'.db.dispatches
            && (s'.db.dispatches[d].state.Generating? && |TraceOf(s', d).genClaims| <= |TraceOf(s, d).genClaims|
                ==> s.db.dispatches[d].state.Generating?)
  {
    if step.CommitGeneration? {
      CommitRecords(cfg, s, step.t, step.refusal, step.fate, d);
    } else {
      OtherStartsNone(cfg, s, step, d);
    }
  }

  lemma CommitRecords(cfg: Config, s: System, t: nat, refusal: Option<string>, fate: Fate, d: nat)
    requires Inv(cfg, s) && d in s.db.dispatches
    ensures var s' := ApplyCommitGeneration(s, t, refusal, fate);
            && d in s'.db.dispatches
            && (s'.db.dispatches[d].state.Generating? && |TraceOf(s', d).genClaims| <= |TraceOf(s, d).genClaims|
                ==> s.db.dispatches[d].state.Generating?)
  {
    if PcOf(s, t).GenOpen? {
      OpenGeneration(cfg, s, t);
    }
  }

  lemma {:induction false} GeneratingByClaims(cfg: Config, s: System, steps: seq<Step>, d: nat)
    requires Inv(cfg, s) && d in s.db.dispatches
    ensures var s' := Run(cfg, s, steps);
            && d in s'.db.dispatches
            && (s'.db.dispatches[d].state.Generating? && |TraceOf(s', d).genClaims| <= |TraceOf(s, d).genClaims|
                ==> s.db.dispatches[d].state.Generating?)
    decreases |steps|
  {
    if steps != [] {
      var mid := Apply(cfg, s, steps[0]);
      StepKeeps(cfg, s, steps[0]);
      GeneratingByClaim(cfg, s, steps[0], d);
      GeneratingByClaims(cfg, mid, steps[1..], d);
      ClaimsGrow(cfg, s, [steps[0]], d);
      ClaimsGrow(cfg, mid, steps[1..], d);
    }
  }

  lemma ClaimsGrow(cfg: Config, s: System, steps: seq<Step>, d: nat)
    requires Inv(cfg, s) && d in s.db.dispatches
    ensures var s' := Run(cfg, s, steps);
            d in s'.db.dispatches && TraceOf(s, d).genClaims <= TraceOf(s', d).genClaims
  {
    RunForward(cfg, s, steps);
    assert Later(CellOf(s, d), CellOf(Run(cfg, s, steps), d));
  }

  /**
   A generation claim that a sweep or its own outcome has taken off the row stays lost, whether or not another
   claim has followed: its outcome write changes neither table.
   */
  lemma LostGenerationWritesNothing(cfg: Config, s: System, c: Claim, steps: seq<Step>, t: nat, m: nat, fate: Fate)
    requires cfg.monotone && Reachable(cfg, s) && c.dispatch in s.db.dispatches
    requires c in TraceOf(s, c.dispatch).genClaims && !GenFence(s.db, c)
    ensures var s' := Run(cfg, s, steps);
            && !GenFence(s'.db, c)
            && (PcOf(s', t).GenWriting? && PcOf(s', t).claim == c ==> ApplyWriteGeneration(s', t, m, fate).db == s'.db)
  {
    var d, s' := c.dispatch, Run(cfg, s, steps);
    ReachableOk(cfg, s);
    RunKeeps(cfg, s, steps);
    KnownCell(cfg, s, d);
    GeneratingByClaims(cfg, s, steps, d);
    ClaimsGrow(cfg, s, steps, d);
    KnownCell(cfg, s', d);
    var claims := TraceOf(s, d).genClaims;
    var i :| 0 <= i < |claims| && claims[i] == c;
    assert TraceOf(s', d).genClaims[i] == c;
    ReachableTimed(cfg, s);
    RunTimed(cfg, s, steps);
    assert RowTimed(s, d) && RowTimed(s', d);
    FenceIsLast(d, s.db, CellOf(s, d), i);
    FenceIsLast(d, s'.db, CellOf(s', d), i);
  }

  // ---- isolation of the open transactions --------------------------------------------------------------

  /** The worker task performing a step; sweeps, drains and intake are performed by none of the modelled tasks. */
  function Actor(step: Step): Option<nat> {
    match step
    case BeginGeneration(t, _, _, _) => Some(t)
    case CommitGeneration(t, _, _) => Some(t)
    case DraftReady(t, _, _) => Some(t)
    case WriteGeneration(t, _, _) => Some(t)
    case BeginSend(t, _, _, _) => Some(t)
    case CheckGates(t, _) => Some(t)
    case CommitSend(t, _, _) => Some(t)
    case RunSmtp(t, _, _, _) => Some(t)
    case WriteOutcome(t, _) => Some(t)
    case WriteNote(t, _, _) => Some(t)
    case Abort(t) => Some(t)
    case _ => None
  }

  lemma OpenIsQueued(cfg: Config, s: System, t: nat)
    requires Inv(cfg, s) && (PcOf(s, t).GenOpen? || PcOf(s, t).SendOpen? || PcOf(s, t).SendGated?)
    ensures var d := PcOf(s, t).claim.dispatch; d in s.db.dispatches && s.db.dispatches[d].state.Queued?
  {
    KnownTask(cfg, s, t);
  }

  /** Another task's open transaction is on another row. */
  lemma OtherRow(cfg: Config, s: System, t: nat, u: nat)
    requires Inv(cfg, s) && t != u
    requires PcOf(s, t).GenOpen? || PcOf(s, t).SendOpen? || PcOf(s, t).SendGated?
    requires PcOf(s, u).GenOpen? || PcOf(s, u).SendOpen? || PcOf(s, u).SendGated?
    ensures PcOf(s, t).claim.dispatch != PcOf(s, u).claim.dispatch
  {
    assert Holds(s.tasks[t], s.tasks[t].claim.dispatch) && Holds(s.tasks[u], s.tasks[u].claim.dispatch);
  }

  lemma QueuedUnderSend(cfg: Config, s: System, t: nat, header: string, fate: Fate, d: nat)
    requires d in s.db.dispatches && (PcOf(s, t).SendGated? ==> PcOf(s, t).claim.dispatch != d)
    ensures var s' := ApplyCommitSend(cfg, s, t, header, fate);
            d in s'.db.dispatches && s'.db.dispatches[d] == s.db.dispatches[d]
  {}

  lemma QueuedUnderGeneration(cfg: Config, s: System, t: nat, refusal: Option<string>, fate: Fate, d: nat)
    requires d in s.db.dispatches && (PcOf(s, t).GenOpen? ==> PcOf(s, t).claim.dispatch != d)
    ensures var s' := ApplyCommitGeneration(s, t, refusal, fate);
            d in s'.db.dispatches && s'.db.dispatches[d] == s.db.dispatches[d]
  {}

  lemma QueuedUnderWrite(s: System, t: nat, m: nat, fate: Fate, d: nat)
    requires d in s.db.dispatches && s.db.dispatches[d].state.Queued?
    ensures var s' := ApplyWriteGeneration(s, t, m, fate);
            d in s'.db.dispatches && s'.db.dispatches[d] == s.db.dispatches[d]
  {}

  /** A QUEUED row is changed by nobody but the worker whose transaction has claimed it. */
  lemma QueuedRowStep(cfg: Config, s: System, step: Step, d: nat)
    requires d in s.db.dispatches && s.db.dispatches[d].state.Queued?
    requires step.CommitGeneration? && PcOf(s, step.t).GenOpen? ==> PcOf(s, step.t).claim.dispatch != d
    requires step.CommitSend? && PcOf(s, step.t).SendGated? ==> PcOf(s, step.t).claim.dispatch != d
    ensures var s' := Apply(cfg, s, step); d in s'.db.dispatches && s'.db.dispatches[d] == s.db.dispatches[d]
  {
    match step
    case CommitSend(t, header, fate) => QueuedUnderSend(cfg, s, t, header, fate, d);
    case CommitGeneration(t, refusal, fate) => QueuedUnderGeneration(cfg, s, t, refusal, fate, d);
    case WriteGeneration(t, m, fate) => QueuedUnderWrite(s, t, m, fate, d);
    case _ =>
  }

  lemma OtherPcSend(cfg: Config, s: System, u: nat, header: string, fate: Fate, t: nat)
    requires u != t
    ensures PcOf(ApplyCommitSend(cfg, s, u, header, fate), t) == PcOf(s, t)
  {}

  lemma OtherPcGeneration(s: System, u: nat, refusal: Option<string>, m: nat, fate: Fate, t: nat)
    requires u != t
    ensures PcOf(ApplyCommitGeneration(s, u, refusal, fate), t) == PcOf(s, t)
    ensures PcOf(ApplyWriteGeneration(s, u, m, fate), t) == PcOf(s, t)
  {}

  lemma OtherPc(cfg: Config, s: System, step: Step, t: nat)
    requires Actor(step) != Some(t)
    ensures PcOf(Apply(cfg, s, step), t) == PcOf(s, t)
  {
    match step
    case CommitSend(u, header, fate) => OtherPcSend(cfg, s, u, header, fate, t);
    case CommitGeneration(u, refusal, fate) => OtherPcGeneration(s, u, refusal, 0, fate, t);
    case WriteGeneration(u, m, fate) => OtherPcGeneration(s, u, None, m, fate, t);
    case _ =>
  }

  lemma LockedRowStep(cfg: Config, s: System, step: Step, t: nat)
    requires Inv(cfg, s) && Actor(step) != Some(t)
    requires PcOf(s, t).GenOpen? || PcOf(s, t).SendOpen? || PcOf(s, t).SendGated?
    ensures var s', d := Apply(cfg, s, step), PcOf(s, t).claim.dispatch;
            && PcOf(s', t) == PcOf(s, t)
            && d in s.db.dispatches && d in s'.db.dispatches && SameContent(CellOf(s, d), CellOf(s', d))
  {
    OpenIsQueued(cfg, s, t);
    OtherPc(cfg, s, step, t);
    if (step.CommitGeneration? && PcOf(s, step.t).GenOpen?) || (step.CommitSend? && PcOf(s, step.t).SendGated?) {
      OtherRow(cfg, s, t, step.t);
    }
    var s', d := Apply(cfg, s, step), PcOf(s, t).claim.dispatch;
    QueuedRowStep(cfg, s, step, d);
    StepKeeps(cfg, s, step);
    StepForward(cfg, s, step);
    KnownCell(cfg, s, d);
    KnownCell(cfg, s', d);
    QueuedMessageKept(d, CellOf(s, d), CellOf(s', d));
  }

  /** Row and Message alike. */
  ghost predicate SameContent(c: Cell, c': Cell) { c'.row == c.row && c'.msg == c.msg }

  /** The Message of a QUEUED row is an untouched draft, so while the row stays the Message does. */
  lemma QueuedMessageKept(d: nat, c: Cell, c': Cell)
    requires CellOk(d, c) && CellOk(d, c') && Later(c, c') && c'.row == c.row && c.row.state.Queued?
    ensures c'.msg == c.msg
  {}

  /**
   While a task has Transaction B or G1 open, nothing any other task, sweep, drain or request does
   changes the row it has claimed or its Message; when the transaction is abandoned both are what they were.
   */
  lemma {:induction false} LockedRowFrozen(cfg: Config, s: System, steps: seq<Step>, t: nat)
    requires Inv(cfg, s) && (forall i :: 0 <= i < |steps| ==> Actor(steps[i]) != Some(t))
    requires PcOf(s, t).GenOpen? || PcOf(s, t).SendOpen? || PcOf(s, t).SendGated?
    ensures var s', d := Apply(cfg, Run(cfg, s, steps), Abort(t)), PcOf(s, t).claim.dispatch;
            d in s.db.dispatches && d in s'.db.dispatches && SameContent(CellOf(s, d), CellOf(s', d))
    decreases |steps|
  {
    OpenIsQueued(cfg, s, t);
    if steps != [] {
      StepKeeps(cfg, s, steps[0]);
      LockedRowStep(cfg, s, steps[0], t);
      LockedRowFrozen(cfg, Apply(cfg, s, steps[0]), steps[1..], t);
    }
  }

  // ---- what the retries of an outcome may find --------------------------------------------------------------

  /** Whatever runs between two moments, rows only move forward. */
  lemma RunRowsLater(cfg: Config, s: System, steps: seq<Step>)
    requires Inv(cfg, s)
    ensures RowsLater(s.db, Run(cfg, s, steps).db)
  {
    RunForward(cfg, s, steps);
    var s' := Run(cfg, s, steps);
    forall d | d in s.db.dispatches
      ensures RowLater(s.db.dispatches[d], s'.db.dispatches[d])
    {
      assert Later(CellOf(s, d), CellOf(s', d));
    }
  }

  /** Every Message is linked, and links are permanent, so no Message disappears. */
  lemma MessagesStay(cfg: Config, s: System, step: Step)
    requires Inv(cfg, s)
    ensures s.db.messages.Keys <= Apply(cfg, s, step).db.messages.Keys
  {
    var s' := Apply(cfg, s, step);
    StepKeeps(cfg, s, step);
    StepForward(cfg, s, step);
    forall m | m in s.db.messages
      ensures m in s'.db.messages
    {
      LinkStays(s, s', m);
    }
  }

  lemma LinkStays(s: System, s': System, m: nat)
    requires Owners(s) && Owners(s') && Forward(s, s') && m in s.db.messages
    ensures m in s'.db.messages
  {
    assert Later(CellOf(s, s.owner[m]), CellOf(s', s.owner[m]));
  }

  /** A worker with an outcome to write, however long it waits, finds its row SENDING or final. */
  lemma OutcomeFindsRow(cfg: Config, s: System, t: nat)
    requires Inv(cfg, s) && PcOf(s, t).Finishing?
    ensures var d := PcOf(s, t).claim.dispatch; d in s.db.dispatches && Rank(s.db.dispatches[d]) >= 2
  {
    KnownTask(cfg, s, t);
    KnownCell(cfg, s, PcOf(s, t).claim.dispatch);
  }
}
