/** Runs that show where the guarantees stop: what is left open is really open. */
module DeliveryWitnesses {
  import opened DispatchModel
  import opened DeliveryProtocol
  import opened DeliveryTheorems
  import Smtp = SmtpSender
  import Grounding

  lemma {:induction false} RunExtend(cfg: Config, s: System, steps: seq<Step>, step: Step)
    ensures Run(cfg, s, steps + [step]) == Apply(cfg, Run(cfg, s, steps), step)
    decreases |steps|
  {
    if steps == [] {
      assert steps + [step] == [step];
      assert [step][1..] == [];
    } else {
      assert (steps + [step])[0] == steps[0] && (steps + [step])[1..] == steps[1..] + [step];
      RunExtend(cfg, Apply(cfg, s, steps[0]), steps[1..], step);
    }
  }

  lemma Next(cfg: Config, s: System, step: Step)
    requires Reachable(cfg, s)
    ensures Reachable(cfg, Apply(cfg, s, step))
  {
    var w, steps :| s == Run(cfg, Start(w), steps);
    RunExtend(cfg, Start(w), steps, step);
  }

  lemma Started(cfg: Config, w: World)
    ensures Reachable(cfg, Start(w))
  {
    assert Start(w) == Run(cfg, Start(w), []);
  }

  const PLAIN := Rules(Grounding.Alphabet(_ => false, _ => false, s => s), _ => [])

  const QUIET := World(map[], map[], map[], {}, map[], PLAIN, true)

  const REQUEST := Acceptance("org", "key", GeneratedRequest(None, "a@b", None), "ref", 0, 0, None, None)

  /** The dispatch of REQUEST claimed for generation by a given task, always under the same token. */
  function ClaimedBy(cfg: Config, s: System, t: nat): System {
    Apply(cfg, Apply(cfg, s, BeginGeneration(t, 0, "worker", 5)), CommitGeneration(t, None, Acked))
  }

  lemma NextTwo(cfg: Config, s: System, one: Step, two: Step)
    requires Reachable(cfg, s)
    ensures Reachable(cfg, Apply(cfg, Apply(cfg, s, one), two))
  {
    Next(cfg, s, one);
    Next(cfg, Apply(cfg, s, one), two);
  }

  lemma ClaimHappens(cfg: Config, s: System, t: nat)
    requires !cfg.monotone && PcOf(s, t).Idle? && GenClaimable(s.db, 0)
    requires forall u :: u in s.tasks ==> !OpenOn(s.tasks[u], 0)
    ensures var s' := ClaimedBy(cfg, s, t);
            var claim := Claim(0, s.db.dispatches[0].org, "worker", 5);
            && s'.db == WithClaim(s.db, claim, Generating)
            && TraceOf(s', 0).genClaims == TraceOf(s, 0).genClaims + [claim]
            && s'.tasks == s.tasks[t := Drafting(claim, |TraceOf(s, 0).genClaims|, s.db.dispatches[0].contact)]
  {}

  lemma AcceptHappens(cfg: Config)
    ensures var s := Apply(cfg, Start(QUIET), Accept(0, REQUEST));
            && Reachable(cfg, s) && s.tasks == map[] && GenClaimable(s.db, 0) && TraceOf(s, 0).genClaims == []
  {
    Started(cfg, QUIET);
    Next(cfg, Start(QUIET), Accept(0, REQUEST));
  }

  lemma SweepHappens(cfg: Config, s: System)
    requires Reachable(cfg, s) && GenExpired(s.db, 0, 10)
    ensures var s' := Apply(cfg, s, SweepGeneration(0, 10));
            && Reachable(cfg, s') && GenClaimable(s'.db, 0) && s'.tasks == s.tasks && s'.traces == s.traces
            && s'.db.dispatches[0].org == s.db.dispatches[0].org
  {
    Next(cfg, s, SweepGeneration(0, 10));
  }

  /**
   Without the clock discipline a superseded generation claim can match again: two workers under one
   WORKER_ID claim the same row at the same instant, before and after a sweep.
   */
  lemma TokenReuse(cfg: Config)
    requires !cfg.monotone
    ensures exists s: System :: Reachable(cfg, s) && |TraceOf(s, 0).genClaims| == 2
                                && GenFence(s.db, TraceOf(s, 0).genClaims[0])
  {
    AcceptHappens(cfg);
    var s1 := Apply(cfg, Start(QUIET), Accept(0, REQUEST));
    ClaimHappens(cfg, s1, 1);
    NextTwo(cfg, s1, BeginGeneration(1, 0, "worker", 5), CommitGeneration(1, None, Acked));
    var s2 := ClaimedBy(cfg, s1, 1);
    SweepHappens(cfg, s2);
    var s3 := Apply(cfg, s2, SweepGeneration(0, 10));
    ClaimHappens(cfg, s3, 2);
    NextTwo(cfg, s3, BeginGeneration(2, 0, "worker", 5), CommitGeneration(2, None, Acked));
    var s4 := ClaimedBy(cfg, s3, 2);
    assert GenFence(s4.db, TraceOf(s4, 0).genClaims[0]);
  }

  // ---- a stale SENDING row cannot be read ----------------------------------------------------------------

  const READY := World(map[0 := "org"], map[0 := Contact(0, "a@b")], map[0 := Mailbox("org", true, true, "m@b")],
                        {}, map[], PLAIN, true)

  const EXACT := Acceptance("org", "key", ExactRequest(None, "a@b", None, None, "body"), "ref", 0, 0, Some(0),
                            Some(Content(0, None, "body")))

  lemma ExactAccepted(cfg: Config)
    ensures var s := Apply(cfg, Start(READY), Accept(0, EXACT));
            && Reachable(cfg, s) && s.tasks == map[] && s.world == READY
            && s.db == ACCEPTED
  {
    Started(cfg, READY);
    Next(cfg, Start(READY), Accept(0, EXACT));
  }

  const ACCEPTED := Db(map[0 := AcceptedRow(EXACT)], map[0 := DraftMessage(0, None, "body")])

  lemma ExactBegun(cfg: Config, s: System, t: nat)
    requires s.tasks == map[] && s.clocks == map[] && s.db == ACCEPTED
    ensures Apply(cfg, s, BeginSend(t, 0, "worker", 5))
            == SetPc(s.(clocks := map["worker" := 5]), t, SendOpen(Claim(0, "org", "worker", 5)))
  {}

  lemma ExactGated(cfg: Config, s: System, t: nat)
    requires t in cfg.live && s.world == READY && s.db == ACCEPTED
    ensures var claim := Claim(0, "org", "worker", 5);
            var s' := Apply(cfg, SetPc(s, t, SendOpen(claim)), CheckGates(t, false));
            && s'.db == s.db
            && PcOf(s', t).SendGated? && PcOf(s', t).claim == claim && PcOf(s', t).verdict.Pass?
  {}

  lemma ExactLaunched(cfg: Config, s: System, t: nat)
    requires s.db == ACCEPTED
    requires PcOf(s, t).SendGated? && PcOf(s, t).claim.dispatch == 0 && PcOf(s, t).verdict.Pass?
    ensures PcOf(Apply(cfg, s, CommitSend(t, "<id>", Acked)), t).Prepared?
  {}

  /** Some run of a live task hands a message over to SMTP. */
  lemma SomeTaskIsPrepared(cfg: Config, t: nat)
    requires t in cfg.live
    ensures exists s: System :: Reachable(cfg, s) && PcOf(s, t).Prepared?
  {
    var s1 := Apply(cfg, Start(READY), Accept(0, EXACT));
    ExactAccepted(cfg);
    ExactBegun(cfg, s1, t);
    ExactGated(cfg, s1.(clocks := map["worker" := 5]), t);
    var s2 := Apply(cfg, Apply(cfg, s1, BeginSend(t, 0, "worker", 5)), CheckGates(t, false));
    NextTwo(cfg, s1, BeginSend(t, 0, "worker", 5), CheckGates(t, false));
    ExactLaunched(cfg, s2, t);
    Next(cfg, s2, CommitSend(t, "<id>", Acked));
  }

  const ACCEPTING := Smtp.Attempt(None, None, None, Smtp.Accepted, None)

  lemma AcceptingDelivers(cfg: Config, t: nat)
    requires t in cfg.live
    ensures Smtp.Deliveries(Smtp.Call(true, true, true, [ACCEPTING, ACCEPTING, ACCEPTING])) == 1
  {
    Smtp.FinalDecides(Smtp.Call(true, true, true, [ACCEPTING, ACCEPTING, ACCEPTING]));
  }

  const DELIVERING: Smtp.Script := [ACCEPTING, ACCEPTING, ACCEPTING]

  /** Crashing at once, and crashing after an accepted hand-off. */
  ghost predicate Alike(cfg: Config, s: System, t: nat, d: nat) {
    var before := Apply(cfg, s, Abort(t));
    var after := Apply(cfg, Apply(cfg, s, RunSmtp(t, true, true, DELIVERING)), Abort(t));
    && before.db == after.db && before.tasks == after.tasks && before.world == after.world
    && TotalDeliveries(TraceOf(before, d).entries) == 0
    && TotalDeliveries(TraceOf(after, d).entries) == 1
  }

  lemma SentThenCrashed(cfg: Config, s: System, t: nat)
    requires t in cfg.live && PcOf(s, t).Prepared? && TraceOf(s, PcOf(s, t).claim.dispatch).entries == []
    ensures Alike(cfg, s, t, PcOf(s, t).claim.dispatch)
  {
    AcceptingDelivers(cfg, t);
    var sent := Apply(cfg, s, RunSmtp(t, true, true, DELIVERING));
    assert sent.tasks[t := Idle] == s.tasks[t := Idle];
    var entries := TraceOf(sent, PcOf(s, t).claim.dispatch).entries;
    assert |entries| == 1 && entries[1..] == [];
  }

  /**
   A crash just before SMTP and a crash just after the server accepted the message leave the same
   database and the same surviving tasks. No recovery rule that reads them can tell the two apart,
   so a stale SENDING row can only become UNKNOWN.
   */
  lemma CrashesIndistinguishable(cfg: Config, s: System, t: nat)
    requires Reachable(cfg, s) && PcOf(s, t).Prepared?
    ensures Alike(cfg, s, t, PcOf(s, t).claim.dispatch)
  {
    DurableBeforeSmtp(cfg, s, t);
    PreparedIsLive(cfg, s, t);
    SentThenCrashed(cfg, s, t);
  }

  /** Both continuations are runs of the protocol. */
  lemma BothCrashesHappen(cfg: Config, s: System, t: nat)
    requires Reachable(cfg, s)
    ensures Reachable(cfg, Apply(cfg, s, Abort(t)))
    ensures Reachable(cfg, Apply(cfg, Apply(cfg, s, RunSmtp(t, true, true, DELIVERING)), Abort(t)))
  {
    Next(cfg, s, Abort(t));
    Next(cfg, s, RunSmtp(t, true, true, DELIVERING));
    Next(cfg, Apply(cfg, s, RunSmtp(t, true, true, DELIVERING)), Abort(t));
  }
}
