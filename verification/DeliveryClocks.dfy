/**
 Why fencing tokens do not repeat. Each worker name reads a clock that moves on from claim to claim, on whatever
 rows; a row is locked from the reading to the commit that records it. So the claims recorded on a row carry
 increasing times for each worker name.
 */
module DeliveryClocks {
  import opened DispatchModel
  import opened DeliveryProtocol
  import opened DeliveryInvariant
  import opened DeliverySteps
  import Smtp = SmtpSender

  /** The claim was read off the worker's clock. */
  ghost predicate Behind(clocks: map<string, Time>, c: Claim) {
    c.worker in clocks && c.at <= clocks[c.worker]
  }

  /** Later than every recorded claim of the same worker name. */
  ghost predicate FreshToken(claims: seq<Claim>, c: Claim) {
    forall i :: 0 <= i < |claims| && claims[i].worker == c.worker ==> claims[i].at < c.at
  }

  ghost predicate Increasing(claims: seq<Claim>) {
    forall i, j :: (0 <= i < j < |claims| && claims[i].worker == claims[j].worker) ==> claims[i].at < claims[j].at
  }

  ghost predicate AllBehind(clocks: map<string, Time>, claims: seq<Claim>) {
    forall i :: 0 <= i < |claims| ==> Behind(clocks, claims[i])
  }

  ghost predicate RowTimed(s: System, d: nat) {
    AllBehind(s.clocks, TraceOf(s, d).genClaims) && Increasing(TraceOf(s, d).genClaims)
  }

  /** A claim not yet committed is newer than all that are recorded on its row. */
  ghost predicate OpenTimed(s: System, pc: Pc) {
    pc.GenOpen? ==> Behind(s.clocks, pc.claim) && FreshToken(TraceOf(s, pc.claim.dispatch).genClaims, pc.claim)
  }

  ghost predicate Timed(s: System) {
    && (forall d {:trigger RowTimed(s, d)} :: RowTimed(s, d))
    && (forall t {:trigger OpenTimed(s, s.tasks[t])} :: t in s.tasks ==> OpenTimed(s, s.tasks[t]))
  }

  /** Nothing new was read or recorded. */
  ghost predicate SameClaims(s: System, s': System) {
    && s'.clocks == s.clocks
    && (forall d :: TraceOf(s', d).genClaims == TraceOf(s, d).genClaims)
    && (forall t :: t in s'.tasks && s'.tasks[t].GenOpen? ==> t in s.tasks && s'.tasks[t] == s.tasks[t])
  }

  lemma SameStaysTimed(s: System, s': System)
    requires Timed(s) && SameClaims(s, s')
    ensures Timed(s')
  {
    forall d ensures RowTimed(s', d) {
      assert RowTimed(s, d);
    }
    forall t | t in s'.tasks ensures OpenTimed(s', s'.tasks[t]) {
      if s'.tasks[t].GenOpen? {
        assert OpenTimed(s, s.tasks[t]);
      }
    }
  }

  lemma AcceptSame(s: System, d: nat, a: Acceptance)
    requires s.traces.Keys == s.db.dispatches.Keys
    ensures SameClaims(s, ApplyAccept(s, d, a))
  {}

  lemma WriteGenerationSame(s: System, t: nat, m: nat, fate: Fate)
    ensures SameClaims(s, ApplyWriteGeneration(s, t, m, fate))
  {}

  lemma CommitSendSame(cfg: Config, s: System, t: nat, header: string, fate: Fate)
    ensures SameClaims(s, ApplyCommitSend(cfg, s, t, header, fate))
  {}

  lemma RunSmtpSame(cfg: Config, s: System, t: nat, headerOk: bool, useTls: bool, script: Smtp.Script)
    ensures SameClaims(s, ApplyRunSmtp(cfg, s, t, headerOk, useTls, script))
  {}

  lemma OutcomeSame(s: System, t: nat, note: string, fate: Fate)
    ensures SameClaims(s, ApplyWriteOutcome(s, t, fate)) && SameClaims(s, ApplyWriteNote(s, t, note, fate))
  {}

  lemma OtherStepsSame(cfg: Config, s: System, step: Step)
    requires !step.BeginGeneration? && !step.BeginSend? && !step.CommitGeneration?
    requires s.traces.Keys == s.db.dispatches.Keys
    ensures SameClaims(s, Apply(cfg, s, step))
  {
    match step
    case Accept(d, a) => AcceptSame(s, d, a);
    case WriteGeneration(t, m, fate) => WriteGenerationSame(s, t, m, fate);
    case CommitSend(t, header, fate) => CommitSendSame(cfg, s, t, header, fate);
    case RunSmtp(t, headerOk, useTls, script) => RunSmtpSame(cfg, s, t, headerOk, useTls, script);
    case WriteOutcome(t, fate) => OutcomeSame(s, t, "", fate);
    case WriteNote(t, note, fate) => OutcomeSame(s, t, note, fate);
    case _ =>
  }

  lemma TickKeeps(clocks: map<string, Time>, worker: string, at: Time, claims: seq<Claim>)
    requires AllBehind(clocks, claims)
    ensures AllBehind(Ticked(clocks, worker, at), claims)
  {}

  lemma BeginTimed(cfg: Config, s: System, t: nat, d: nat, worker: string, at: Time, generation: bool)
    requires Timed(s) && cfg.monotone
    ensures Timed(ApplyBegin(cfg, s, t, d, worker, at, generation))
  {
    var s' := ApplyBegin(cfg, s, t, d, worker, at, generation);
    if s'.clocks == s.clocks && s'.tasks == s.tasks {
      SameStaysTimed(s, s');
    } else {
      forall e ensures RowTimed(s', e) {
        assert RowTimed(s, e);
        TickKeeps(s.clocks, worker, at, TraceOf(s, e).genClaims);
      }
      forall u | u in s'.tasks ensures OpenTimed(s', s'.tasks[u]) {
        if u == t {
          assert RowTimed(s, d);
        } else {
          assert OpenTimed(s, s.tasks[u]);
        }
      }
    }
  }

  lemma Appended(clocks: map<string, Time>, claims: seq<Claim>, c: Claim)
    requires AllBehind(clocks, claims) && Increasing(claims) && Behind(clocks, c) && FreshToken(claims, c)
    ensures AllBehind(clocks, claims + [c]) && Increasing(claims + [c])
  {}

  /** The row is locked from reading to commit, so nothing was recorded on it meanwhile, nor is another claim open. */
  lemma CommitTimed(cfg: Config, s: System, t: nat, refusal: Option<string>, fate: Fate)
    requires Inv(cfg, s) && Timed(s)
    ensures Timed(ApplyCommitGeneration(s, t, refusal, fate))
  {
    var s', pc := ApplyCommitGeneration(s, t, refusal, fate), PcOf(s, t);
    if s'.traces == s.traces {
      SameStaysTimed(s, s');
    } else {
      var d := pc.claim.dispatch;
      assert OpenTimed(s, s.tasks[t]);
      forall e ensures RowTimed(s', e) {
        assert RowTimed(s, e);
        if e == d {
          Appended(s.clocks, TraceOf(s, d).genClaims, pc.claim);
        }
      }
      forall u | u in s'.tasks ensures OpenTimed(s', s'.tasks[u]) {
        if u != t && s.tasks[u].GenOpen? {
          assert OpenTimed(s, s.tasks[u]);
          assert Holds(s.tasks[t], d) && Holds(s.tasks[u], s.tasks[u].claim.dispatch);
        }
      }
    }
  }

  lemma StepTimed(cfg: Config, s: System, step: Step)
    requires cfg.monotone && Inv(cfg, s) && Timed(s)
    ensures Timed(Apply(cfg, s, step))
  {
    match step
    case BeginGeneration(t, d, worker, at) => BeginTimed(cfg, s, t, d, worker, at, true);
    case BeginSend(t, d, worker, at) => BeginTimed(cfg, s, t, d, worker, at, false);
    case CommitGeneration(t, refusal, fate) => CommitTimed(cfg, s, t, refusal, fate);
    case _ =>
      OtherStepsSame(cfg, s, step);
      SameStaysTimed(s, Apply(cfg, s, step));
  }

  lemma {:induction false} RunTimed(cfg: Config, s: System, steps: seq<Step>)
    requires cfg.monotone && Inv(cfg, s) && Timed(s)
    ensures Timed(Run(cfg, s, steps))
    decreases |steps|
  {
    if steps != [] {
      StepKeeps(cfg, s, steps[0]);
      StepTimed(cfg, s, steps[0]);
      RunTimed(cfg, Apply(cfg, s, steps[0]), steps[1..]);
    }
  }
}
