/**
 The inductive invariant of the delivery protocol. Most of it is local to one dispatch: its row, the
 Message it links to and what the run has done for it form a cell. The rest says that cells do not
 share Messages, that Message-IDs differ, and that at most one task is between claiming a dispatch
 and writing its outcome.
 */
module DeliveryInvariant {
  import opened DispatchModel
  import opened DeliveryProtocol

  datatype Cell = Cell(row: Dispatch, msg: Option<Message>, trace: Trace)

  function CellOf(s: System, d: nat): Cell
    requires d in s.db.dispatches
  {
    var row := s.db.dispatches[d];
    Cell(row,
         if row.message.Some? && row.message.value in s.db.messages then Some(s.db.messages[row.message.value])
         else None,
         TraceOf(s, d))
  }

  // ---- one dispatch --------------------------------------------------------------------------

  /** Foreign key, claim columns and message column by state. */
  ghost predicate Shape(c: Cell) {
    && (c.msg.Some? <==> c.row.message.Some?)
    && (c.msg.Some? ==> c.msg.value.contact == c.row.contact)
    && (c.row.state.Generating? ==> c.row.message.None?)
    && (c.row.state.Sending? || c.row.state.Sent? || c.row.state.Unknown? ==> c.row.message.Some?)
    && (c.row.state.Generating? || c.row.state.Sending? <==> c.row.claimedBy.Some?)
    && (c.row.claimedBy.Some? <==> c.row.claimedAt.Some?)
  }

  /** The Message of an exact request is the one that was asked for. */
  ghost predicate AsRequested(c: Cell) {
    c.row.fingerprint.ExactRequest? ==>
      c.msg.Some? && c.msg.value.subject == c.row.fingerprint.subject && c.msg.value.body == c.row.fingerprint.body
  }

  /** Dispatch and Message tell the same story. */
  ghost predicate Agreement(c: Cell) {
    c.msg.Some? ==>
      match c.row.state
      case Queued => c.msg.value.status.MsgDraft? && c.msg.value.header.None? && c.msg.value.error.None?
      case Generating => true
      case Sending => c.msg.value.status.MsgSending? && c.msg.value.header.Some?
      case Sent => c.msg.value.status.MsgSent? && c.msg.value.header.Some?
      case Failed => c.msg.value.status.MsgFailed?
      case Unknown => c.msg.value.status.MsgUnknown? && c.msg.value.header.Some?
  }

  ghost predicate Unsent(row: Dispatch) { row.state.Queued? || row.state.Generating? }

  ghost predicate SamePayload(p: Payload, msg: Message) {
    p.subject == SubjectText(msg.subject) && p.body == msg.body
  }

  /** Every gate, as a conjunction: what a committed SENDING row certifies. */
  ghost predicate EveryGate(d: nat, g: GatePass) {
    var row, w := g.row, g.world;
    && row.campaign in w.campaigns && w.campaigns[row.campaign] == row.org
    && row.contact in w.contacts && w.contacts[row.contact].campaign == row.campaign
    && g.content.contact == row.contact && g.content.status.MsgDraft?
    && row.mailbox.Some? && row.mailbox.value in w.mailboxes
    && w.mailboxes[row.mailbox.value].org == row.org
    && w.mailboxes[row.mailbox.value].active && w.mailboxes[row.mailbox.value].decryptable
    && w.contacts[row.contact].email !in w.suppressed
    && !HardBlocked(w, d, g.content.body)
    && g.live && w.keyAvailable
  }

  /** The payload is what the gates looked at: the address, the sending mailbox and the text. */
  ghost predicate Cleared(p: Payload, g: GatePass) {
    && g.row.contact in g.world.contacts && p.to == g.world.contacts[g.row.contact].email
    && g.row.mailbox.Some? && g.row.mailbox.value in g.world.mailboxes
    && p.sender == g.world.mailboxes[g.row.mailbox.value].address
    && SamePayload(p, g.content)
  }

  ghost predicate EntryOk(e: Entry, msg: Option<Message>, passes: seq<GatePass>) {
    && msg.Some? && msg.value.header == Some(e.header) && SamePayload(e.payload, msg.value)
    && passes != [] && Cleared(e.payload, passes[0])
    && e.deliveries <= e.calls <= 1
  }

  /** What the run has done for the dispatch. */
  ghost predicate Bookkeeping(d: nat, c: Cell) {
    && c.trace.created == (if c.row.message.Some? then [c.row.message.value] else [])
    && |c.trace.entries| <= |c.trace.sendClaims| <= 1
    && |c.trace.passes| == |c.trace.sendClaims|
    && (Unsent(c.row) ==> c.trace.sendClaims == [])
    && (c.row.state.Sending? ==> |c.trace.sendClaims| == 1 && HeldBy(c.row, c.trace.sendClaims[0]))
    && (forall i :: 0 <= i < |c.trace.sendClaims| ==> c.trace.sendClaims[i].dispatch == d)
    && (forall i :: 0 <= i < |c.trace.passes| ==> EveryGate(d, c.trace.passes[i]))
    && (forall i :: 0 <= i < |c.trace.entries| ==> EntryOk(c.trace.entries[i], c.msg, c.trace.passes))
  }

  /** SENT: taken exactly once. FAILED: never taken, and if it was ever claimed for sending, SMTP has run. */
  ghost predicate Honest(c: Cell) {
    && (c.row.state.Sent? ==> |c.trace.entries| == 1 && c.trace.entries[0].deliveries == 1)
    && (c.row.state.Failed? ==> forall i :: 0 <= i < |c.trace.entries| ==> c.trace.entries[i].deliveries == 0)
    && (c.row.state.Failed? ==> |c.trace.entries| == |c.trace.sendClaims|)
  }

  /** The holder of a GENERATING row is its last generation claim. */
  ghost predicate Tokens(d: nat, c: Cell) {
    && (forall i :: 0 <= i < |c.trace.genClaims| ==>
          c.trace.genClaims[i].dispatch == d && c.trace.genClaims[i].org == c.row.org)
    && (c.row.state.Generating? ==>
          |c.trace.genClaims| > 0 && HeldBy(c.row, c.trace.genClaims[|c.trace.genClaims| - 1]))
  }

  ghost predicate CellOk(d: nat, c: Cell) {
    Shape(c) && AsRequested(c) && Agreement(c) && Bookkeeping(d, c) && Honest(c) && Tokens(d, c)
  }

  // ---- one task ------------------------------------------------------------------------------

  /** Between taking the claim and knowing that its outcome is written or lost. */
  ghost predicate Holds(pc: Pc, d: nat) {
    (pc.GenOpen? || pc.SendOpen? || pc.SendGated? || pc.Prepared? || pc.Finishing?) && pc.claim.dispatch == d
  }

  ghost predicate GatedOk(live: bool, d: nat, c: Cell, pc: Pc)
    requires pc.SendGated? && c.msg.Some?
  {
    pc.verdict.Pass? ==>
      var pass := GatePass(pc.seen, live, c.row, c.msg.value);
      EveryGate(d, pass) && Cleared(pc.verdict.payload, pass)
  }

  /** What a task's local variables say about the cell of its dispatch; rows are quoted as they are committed. */
  ghost predicate PcOk(live: bool, d: nat, c: Cell, pc: Pc)
  {
    match pc
    case Idle => true
    case GenOpen(claim) => c.row.state.Queued? && c.row.message.None? && claim.org == c.row.org
    case Drafting(claim, serial, contact) =>
      serial < |c.trace.genClaims| && c.trace.genClaims[serial] == claim && contact == c.row.contact
    case GenWriting(claim, serial, contact, _, _, _) =>
      serial < |c.trace.genClaims| && c.trace.genClaims[serial] == claim && contact == c.row.contact
    case SendOpen(claim) => c.row.state.Queued? && c.msg.Some? && claim.org == c.row.org
    case SendGated(claim, verdict, seen) =>
      c.row.state.Queued? && c.msg.Some? && claim.org == c.row.org && !verdict.Unavailable? && GatedOk(live, d, c, pc)
    case Prepared(claim, header, payload) =>
      && c.trace.sendClaims == [claim] && c.trace.entries == [] && live
      && c.msg.Some? && c.msg.value.header == Some(header) && SamePayload(payload, c.msg.value)
      && c.trace.passes != [] && Cleared(payload, c.trace.passes[0])
    case Finishing(claim, header, outcome, _, _) =>
      && c.trace.sendClaims == [claim] && |c.trace.entries| == 1 && outcome.Terminal()
      && (outcome.Sent? ==> c.trace.entries[0].deliveries == 1)
      && (outcome.Failed? ==> c.trace.entries[0].deliveries == 0)
    case Annotating(claim) => c.trace.sendClaims == [claim]
  }

  ghost predicate TaskOk(cfg: Config, s: System, t: nat)
    requires t in s.tasks
  {
    var pc := s.tasks[t];
    !pc.Idle? ==> pc.claim.dispatch in s.db.dispatches
                  && PcOk(t in cfg.live, pc.claim.dispatch, CellOf(s, pc.claim.dispatch), pc)
  }

  ghost predicate Exclusive(tasks: map<nat, Pc>) {
    forall t, u, d :: t in tasks && u in tasks && Holds(tasks[t], d) && Holds(tasks[u], d) ==> t == u
  }

  // ---- the whole system ------------------------------------------------------------------------

  /** Every Message was inserted for one dispatch, which links to it: no sharing and no orphans. */
  ghost predicate Owners(s: System) {
    && s.db.messages.Keys == s.owner.Keys
    && (forall m :: m in s.owner ==>
          s.owner[m] in s.db.dispatches && s.db.dispatches[s.owner[m]].message == Some(m))
    && (forall d :: d in s.db.dispatches && s.db.dispatches[d].message.Some? ==>
          s.db.dispatches[d].message.value in s.owner && s.owner[s.db.dispatches[d].message.value] == d)
  }

  ghost predicate HeadersDiffer(db: Db) {
    forall m, k :: m in db.messages && k in db.messages && m != k && db.messages[m].header.Some?
      ==> db.messages[m].header != db.messages[k].header
  }

  ghost predicate CellsOk(s: System) {
    forall d {:trigger CellOk(d, CellOf(s, d))} :: d in s.db.dispatches ==> CellOk(d, CellOf(s, d))
  }

  ghost predicate TasksOk(cfg: Config, s: System) {
    forall t {:trigger TaskOk(cfg, s, t)} :: t in s.tasks ==> TaskOk(cfg, s, t)
  }

  ghost predicate Inv(cfg: Config, s: System) {
    && s.traces.Keys == s.db.dispatches.Keys
    && Owners(s) && HeadersDiffer(s.db)
    && CellsOk(s) && TasksOk(cfg, s) && Exclusive(s.tasks)
  }

  // ---- frames ----------------------------------------------------------------------------------

  ghost predicate Keyed(s: System) {
    s.traces.Keys == s.db.dispatches.Keys && s.db.messages.Keys == s.owner.Keys
  }

  /** Among dispatches, s' differs from s only in the cell of d: nothing another one links to changed. */
  ghost predicate OnlyCell(s: System, s': System, d: nat)
    requires Keyed(s)
  {
    && d in s.db.dispatches
    && s'.db.dispatches.Keys == s.db.dispatches.Keys && s'.traces.Keys == s.traces.Keys
    && (forall e :: e in s.db.dispatches && e != d ==>
          s'.db.dispatches[e] == s.db.dispatches[e] && s'.traces[e] == s.traces[e])
    && (forall m :: m in s.db.messages && s.owner[m] != d ==>
          m in s'.db.messages && s'.db.messages[m] == s.db.messages[m])
  }

  lemma OtherCell(s: System, s': System, d: nat, e: nat)
    requires Keyed(s) && Owners(s) && OnlyCell(s, s', d) && e in s.db.dispatches && e != d
    ensures CellOf(s', e) == CellOf(s, e)
  {}

  /** How a cell may change under another task that holds the dispatch. */
  ghost predicate Undisturbed(c: Cell, c': Cell) {
    && c'.trace.sendClaims == c.trace.sendClaims && c'.trace.entries == c.trace.entries
    && c'.trace.passes == c.trace.passes
    && !c.row.state.Queued?
    && (c.msg.Some? ==> c'.msg.Some? && c'.msg.value.header == c.msg.value.header
                        && c'.msg.value.subject == c.msg.value.subject && c'.msg.value.body == c.msg.value.body)
  }

  ghost predicate Grown(c: Cell, c': Cell) {
    && c.trace.genClaims <= c'.trace.genClaims && c'.row.contact == c.row.contact
    && c.trace.sendClaims <= c'.trace.sendClaims && |c'.trace.sendClaims| <= 1
  }

  lemma PcKept(live: bool, d: nat, c: Cell, c': Cell, pc: Pc)
    requires PcOk(live, d, c, pc) && Grown(c, c')
    requires !pc.Idle? ==> pc.claim.dispatch == d
    requires Holds(pc, d) ==> Undisturbed(c, c')
    ensures PcOk(live, d, c', pc)
  {}

  /** Tasks other than t are the same in both states. */
  ghost predicate SameOthers(s: System, s': System, t: nat) {
    forall u :: u != t ==> (u in s.tasks <==> u in s'.tasks) && (u in s.tasks ==> s'.tasks[u] == s.tasks[u])
  }

  lemma OtherTask(cfg: Config, s: System, s': System, d: nat, u: nat)
    requires Keyed(s) && Owners(s) && OnlyCell(s, s', d) && Grown(CellOf(s, d), CellOf(s', d))
    requires u in s.tasks && u in s'.tasks && s'.tasks[u] == s.tasks[u] && TaskOk(cfg, s, u)
    requires Holds(s.tasks[u], d) ==> Undisturbed(CellOf(s, d), CellOf(s', d))
    ensures TaskOk(cfg, s', u)
  {
    var pc := s.tasks[u];
    if !pc.Idle? {
      var e := pc.claim.dispatch;
      if e == d {
        PcKept(u in cfg.live, d, CellOf(s, d), CellOf(s', d), pc);
      } else {
        OtherCell(s, s', d, e);
      }
    }
  }

  lemma StillExclusive(s: System, s': System, t: nat)
    requires Exclusive(s.tasks) && SameOthers(s, s', t)
    requires forall e, u :: t in s'.tasks && Holds(s'.tasks[t], e) && u in s.tasks && u != t ==> !Holds(s.tasks[u], e)
    ensures Exclusive(s'.tasks)
  {}

  lemma StillCells(s: System, s': System, d: nat)
    requires Keyed(s) && Owners(s) && OnlyCell(s, s', d) && CellsOk(s)
    requires CellOk(d, CellOf(s', d))
    ensures CellsOk(s')
  {
    forall e | e in s'.db.dispatches
      ensures CellOk(e, CellOf(s', e))
    {
      if e != d {
        OtherCell(s, s', d, e);
      }
    }
  }

  /** A step that only moves one task's program counter. */
  lemma PcMoved(cfg: Config, s: System, t: nat, pc: Pc)
    requires Inv(cfg, s)
    requires TaskOk(cfg, SetPc(s, t, pc), t)
    requires forall e, u :: Holds(pc, e) && u in s.tasks && u != t ==> !Holds(s.tasks[u], e)
    ensures Inv(cfg, SetPc(s, t, pc))
  {
    var s' := SetPc(s, t, pc);
    forall d | d in s.db.dispatches
      ensures CellOk(d, CellOf(s', d))
    {
      assert CellOf(s', d) == CellOf(s, d);
    }
    forall u | u in s'.tasks && u != t
      ensures TaskOk(cfg, s', u)
    {
      assert TaskOk(cfg, s, u);
      var held := s.tasks[u];
      assert !held.Idle? ==> CellOf(s', held.claim.dispatch) == CellOf(s, held.claim.dispatch);
    }
    StillExclusive(s, s', t);
  }
}
