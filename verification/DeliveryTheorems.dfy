/** What the delivery protocol guarantees, over every run. */
module DeliveryTheorems {
  import opened DispatchModel
  import opened DeliveryProtocol
  import opened DeliveryInvariant
  import opened DeliverySteps
  import opened DeliveryClocks
  import Grounding

  /** A state some run reaches from an empty database. */
  ghost predicate Reachable(cfg: Config, s: System) {
    exists w, steps :: s == Run(cfg, Start(w), steps)
  }

  lemma ReachableOk(cfg: Config, s: System)
    requires Reachable(cfg, s)
    ensures Inv(cfg, s)
  {
    var w, steps :| s == Run(cfg, Start(w), steps);
    RunKeeps(cfg, Start(w), steps);
  }

  // ---- transmission ------------------------------------------------------------------------------

  function TotalCalls(entries: seq<Entry>): nat {
    if entries == [] then 0 else entries[0].calls + TotalCalls(entries[1..])
  }

  function TotalDeliveries(entries: seq<Entry>): nat {
    if entries == [] then 0 else entries[0].deliveries + TotalDeliveries(entries[1..])
  }

  /** Over every interleaving, sendmail() is called at most once for a dispatch. */
  lemma AtMostOneTransmission(cfg: Config, s: System, d: nat)
    requires Reachable(cfg, s) && d in s.db.dispatches
    ensures |TraceOf(s, d).sendClaims| <= 1
    ensures TotalCalls(TraceOf(s, d).entries) <= 1
    ensures TotalDeliveries(TraceOf(s, d).entries) <= TotalCalls(TraceOf(s, d).entries)
  {
    ReachableOk(cfg, s);
    KnownCell(cfg, s, d);
    var entries := TraceOf(s, d).entries;
    if |entries| == 1 { assert entries[1..] == []; }
  }

  /** What each state says about SMTP. Only SENDING and UNKNOWN say nothing about delivery. */
  lemma HonestStates(cfg: Config, s: System, d: nat)
    requires Reachable(cfg, s) && d in s.db.dispatches
    ensures var state, entries := s.db.dispatches[d].state, TraceOf(s, d).entries;
            && (state.Queued? || state.Generating? ==> entries == [])
            && (state.Failed? ==> TotalDeliveries(entries) == 0)
            && (state.Sent? ==> TotalDeliveries(entries) == 1)
  {
    ReachableOk(cfg, s);
    KnownCell(cfg, s, d);
    var entries := TraceOf(s, d).entries;
    if |entries| == 1 { assert entries[1..] == []; }
  }

  /** The Message-ID and the text that went to SMTP are the ones on the committed Message, then and ever after. */
  lemma TransmittedAsStored(cfg: Config, s: System, d: nat, i: nat)
    requires Reachable(cfg, s) && d in s.db.dispatches && i < |TraceOf(s, d).entries|
    ensures var e, key := TraceOf(s, d).entries[i], s.db.dispatches[d].message;
            && key.Some? && key.value in s.db.messages
            && s.db.messages[key.value].header == Some(e.header)
            && e.payload.subject == SubjectText(s.db.messages[key.value].subject)
            && e.payload.body == s.db.messages[key.value].body
  {
    ReachableOk(cfg, s);
    KnownCell(cfg, s, d);
    assert EntryOk(CellOf(s, d).trace.entries[i], CellOf(s, d).msg, CellOf(s, d).trace.passes);
  }

  /** What is transmitted for an exact request is the body it asked for, and its subject or the empty one. */
  lemma TransmittedAsRequested(cfg: Config, s: System, d: nat, i: nat)
    requires Reachable(cfg, s) && d in s.db.dispatches && i < |TraceOf(s, d).entries|
    requires s.db.dispatches[d].fingerprint.ExactRequest?
    ensures var e, asked := TraceOf(s, d).entries[i], s.db.dispatches[d].fingerprint;
            && e.payload.body == asked.body
            && e.payload.subject == match asked.subject case None => "" case Some(text) => text
  {
    TransmittedAsStored(cfg, s, d, i);
    ReachableOk(cfg, s);
    KnownCell(cfg, s, d);
    assert AsRequested(CellOf(s, d));
  }

  /** A Message-ID is never transmitted for two dispatches. */
  lemma MessageIdsDiffer(cfg: Config, s: System, d: nat, e: nat, i: nat, j: nat)
    requires Reachable(cfg, s) && d in s.db.dispatches && e in s.db.dispatches && d != e
    requires i < |TraceOf(s, d).entries| && j < |TraceOf(s, e).entries|
    ensures TraceOf(s, d).entries[i].header != TraceOf(s, e).entries[j].header
  {
    TransmittedAsStored(cfg, s, d, i);
    TransmittedAsStored(cfg, s, e, j);
    ReachableOk(cfg, s);
    var m, k := s.db.dispatches[d].message.value, s.db.dispatches[e].message.value;
    assert s.owner[m] == d && s.owner[k] == e;
    assert m != k;
  }

  /** Whoever is about to call send_email() finds its Message-ID already committed, and no entry before its own. */
  lemma DurableBeforeSmtp(cfg: Config, s: System, t: nat)
    requires Reachable(cfg, s) && PcOf(s, t).Prepared?
    ensures var pc := PcOf(s, t);
            && pc.claim.dispatch in s.db.dispatches && TraceOf(s, pc.claim.dispatch).entries == []
            && var key := s.db.dispatches[pc.claim.dispatch].message;
               key.Some? && key.value in s.db.messages && s.db.messages[key.value].header == Some(pc.header)
  {
    ReachableOk(cfg, s);
    KnownTask(cfg, s, t);
  }

  lemma PreparedIsLive(cfg: Config, s: System, t: nat)
    requires Reachable(cfg, s) && PcOf(s, t).Prepared?
    ensures t in cfg.live
  {
    ReachableOk(cfg, s);
    KnownTask(cfg, s, t);
  }

  /** A row that is, or ever was, SENDING passed every gate inside the transaction that made it so. */
  lemma SendingPassedEveryGate(cfg: Config, s: System, d: nat)
    requires Reachable(cfg, s) && d in s.db.dispatches
    requires s.db.dispatches[d].state.Sending? || TraceOf(s, d).sendClaims != []
    ensures |TraceOf(s, d).passes| == 1 && EveryGate(d, TraceOf(s, d).passes[0])
  {
    ReachableOk(cfg, s);
    KnownCell(cfg, s, d);
  }

  /**
   What went to SMTP is what the gates cleared: to the address that was found not suppressed, from an active
   mailbox of the same organization, and with every claim of its body borne out by the approved sources.
   */
  lemma TransmittedWasCleared(cfg: Config, s: System, d: nat, i: nat)
    requires Reachable(cfg, s) && d in s.db.dispatches && i < |TraceOf(s, d).entries|
    ensures var p, passes := TraceOf(s, d).entries[i].payload, TraceOf(s, d).passes;
            && |passes| == 1 && EveryGate(d, passes[0]) && Cleared(p, passes[0])
            && p.to !in passes[0].world.suppressed
            && (exists b :: b in passes[0].world.mailboxes
                            && passes[0].world.mailboxes[b] == Mailbox(passes[0].row.org, true, true, p.sender))
            && forall c :: c in passes[0].world.rules.extract(p.body) ==>
                 Grounding.BorneOut(passes[0].world.rules.alphabet, ApprovedFor(passes[0].world, d), c)
  {
    ReachableOk(cfg, s);
    KnownCell(cfg, s, d);
    var c := CellOf(s, d);
    assert EntryOk(c.trace.entries[i], c.msg, c.trace.passes);
    var pass := c.trace.passes[0];
    assert EveryGate(d, pass);
    assert !HardBlocked(pass.world, d, pass.content.body);
    var b := pass.world.mailboxes[pass.row.mailbox.value];
    assert b == Mailbox(pass.row.org, true, true, b.address);
  }

  // ---- Messages ------------------------------------------------------------------------------------

  /** At most one Message is ever committed for a dispatch, and the row links to it. */
  lemma OneMessage(cfg: Config, s: System, d: nat)
    requires Reachable(cfg, s) && d in s.db.dispatches
    ensures |TraceOf(s, d).created| <= 1
    ensures forall m :: m in TraceOf(s, d).created <==> s.db.dispatches[d].message == Some(m)
  {
    ReachableOk(cfg, s);
    KnownCell(cfg, s, d);
  }

  /** Every Message in the table is linked by one dispatch and by no other: no orphans, no sharing. */
  lemma NoOrphanMessage(cfg: Config, s: System, m: nat)
    requires Reachable(cfg, s) && m in s.db.messages
    ensures exists d :: d in s.db.dispatches && s.db.dispatches[d].message == Some(m)
                        && forall e :: e in s.db.dispatches && s.db.dispatches[e].message == Some(m) ==> e == d
  {
    ReachableOk(cfg, s);
    var d := s.owner[m];
    assert s.db.dispatches[d].message == Some(m);
  }

  /** Dispatch and Message agree, and claim columns are set exactly while a worker owns the row. */
  lemma RowAndMessageAgree(cfg: Config, s: System, d: nat)
    requires Reachable(cfg, s) && d in s.db.dispatches
    ensures var row := s.db.dispatches[d];
            && (row.claimedBy.Some? <==> row.state.Generating? || row.state.Sending?)
            && (row.message.None? ==> row.state.Queued? || row.state.Generating? || row.state.Failed?)
            && (row.message.Some? ==> row.message.value in s.db.messages)
            && (row.message.Some? ==>
                  var msg := s.db.messages[row.message.value];
                  && (row.state.Queued? ==> msg.status.MsgDraft? && msg.header.None?)
                  && (row.state.Sending? ==> msg.status.MsgSending? && msg.header.Some?)
                  && (row.state.Terminal() ==> msg.status == StatusOf(row.state)))
  {
    ReachableOk(cfg, s);
    KnownCell(cfg, s, d);
  }

  // ---- fencing ---------------------------------------------------------------------------------------

  /** On a SENDING row only the claim that made it SENDING matches the fence. */
  lemma SendFenceExact(cfg: Config, s: System, d: nat)
    requires Reachable(cfg, s) && d in s.db.dispatches && s.db.dispatches[d].state.Sending?
    ensures forall c: Claim :: c.dispatch == d ==> (SendFence(s.db, c) <==> [c] == TraceOf(s, d).sendClaims)
  {
    ReachableOk(cfg, s);
    KnownCell(cfg, s, d);
    forall c: Claim | c.dispatch == d
      ensures SendFence(s.db, c) <==> [c] == TraceOf(s, d).sendClaims
    {
      var only := TraceOf(s, d).sendClaims[0];
      assert only.dispatch == d && HeldBy(s.db.dispatches[d], only);
    }
  }

  /**
   On a GENERATING row an earlier generation claim matches the fence exactly when the current holder
   was given the same (worker, claimed_at) token again.
   */
  lemma GenFenceExact(cfg: Config, s: System, d: nat, i: nat)
    requires Reachable(cfg, s) && d in s.db.dispatches && s.db.dispatches[d].state.Generating?
    requires i < |TraceOf(s, d).genClaims|
    ensures var claims := TraceOf(s, d).genClaims;
            var holder := claims[|claims| - 1];
            GenFence(s.db, claims[i]) <==> claims[i].worker == holder.worker && claims[i].at == holder.at
  {
    ReachableOk(cfg, s);
    KnownCell(cfg, s, d);
  }

  /** On a row whose tokens increase only the last claim passes the fence, and only while the row is GENERATING. */
  lemma FenceIsLast(d: nat, db: Db, c: Cell, i: nat)
    requires CellOk(d, c) && Increasing(c.trace.genClaims) && i < |c.trace.genClaims|
    requires d in db.dispatches && db.dispatches[d] == c.row
    ensures GenFence(db, c.trace.genClaims[i]) <==> c.row.state.Generating? && i == |c.trace.genClaims| - 1
  {}

  /**
   With clocks that move on from claim to claim, a claim passes the fence exactly if it is the last one on the
   row and the row is still GENERATING: neither a superseded nor a swept claim ever does.
   */
  lemma SupersededNeverMatches(cfg: Config, s: System, d: nat, i: nat)
    requires cfg.monotone && Reachable(cfg, s) && d in s.db.dispatches
    requires i < |TraceOf(s, d).genClaims|
    ensures GenFence(s.db, TraceOf(s, d).genClaims[i]) <==>
            s.db.dispatches[d].state.Generating? && i == |TraceOf(s, d).genClaims| - 1
  {
    ReachableOk(cfg, s);
    ReachableTimed(cfg, s);
    KnownCell(cfg, s, d);
    assert RowTimed(s, d);
    FenceIsLast(d, s.db, CellOf(s, d), i);
  }

  /** No two claims of one worker name on a row carry the same time: tokens never repeat. */
  lemma TokensNeverRepeat(cfg: Config, s: System, d: nat, i: nat, j: nat)
    requires cfg.monotone && Reachable(cfg, s) && i < j < |TraceOf(s, d).genClaims|
    ensures var a, b := TraceOf(s, d).genClaims[i], TraceOf(s, d).genClaims[j]; a.worker == b.worker ==> a.at < b.at
  {
    ReachableTimed(cfg, s);
    assert RowTimed(s, d);
  }

  lemma ReachableTimed(cfg: Config, s: System)
    requires cfg.monotone && Reachable(cfg, s)
    ensures Timed(s)
  {
    var w, steps :| s == Run(cfg, Start(w), steps);
    RunTimed(cfg, Start(w), steps);
  }
}
