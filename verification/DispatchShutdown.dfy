/**
 DispatchRuntime, the process-local monitor behind graceful shutdown; Transaction B's bookkeeping on
 every exit path; graceful_shutdown; and the monitor under any number of concurrent dispatchers.
 */
module DispatchShutdown {
  import opened DispatchModel

  datatype Monitor = Monitor(inflight: map<nat, Claim>, attempts: nat, stopping: bool) {
    predicate Quiet() { inflight == map[] && attempts == 0 }
  }

  /** The monitor at one moment of a wait. */
  datatype Sight = Sight(monitor: Monitor, clock: int)

  function Without(inflight: map<nat, Claim>, d: nat): map<nat, Claim> { inflight - {d} }

  // ---- the monitor -----------------------------------------------------------------------------------

  class DispatchRuntime {
    var inflight: map<nat, Claim>
    var claimAttempts: nat
    var stopping: bool

    function View(): Monitor
      reads this
    {
      Monitor(inflight, claimAttempts, stopping)
    }

    constructor ()
      ensures View() == Monitor(map[], 0, false)
    {
      inflight, claimAttempts, stopping := map[], 0, false;
    }

    method RequestShutdown()
      modifies this
      ensures View() == old(View()).(stopping := true)
    {
      stopping := true;
    }

    /** Admission is atomic with respect to shutdown: after RequestShutdown nobody is admitted. */
    method BeginClaimAttempt() returns (admitted: bool)
      modifies this
      ensures admitted == !old(stopping)
      ensures View() == if admitted then old(View()).(attempts := old(claimAttempts) + 1) else old(View())
    {
      admitted := !stopping;
      if admitted {
        claimAttempts := claimAttempts + 1;
      }
    }

    method EndClaimAttempt() returns (raised: bool)
      modifies this
      ensures raised == (old(claimAttempts) == 0)
      ensures View() == if raised then old(View()) else old(View()).(attempts := old(claimAttempts) - 1)
    {
      raised := claimAttempts == 0;
      if !raised {
        claimAttempts := claimAttempts - 1;
      }
    }

    /** One attempt becomes one in-flight claim; at no moment is it neither. */
    method RegisterClaimAttempt(c: Claim) returns (raised: bool)
      modifies this
      ensures raised == (old(claimAttempts) == 0)
      ensures View() == if raised then old(View())
                        else Monitor(old(inflight)[c.dispatch := c], old(claimAttempts) - 1, old(stopping))
    {
      raised := claimAttempts == 0;
      if !raised {
        inflight := inflight[c.dispatch := c];
        claimAttempts := claimAttempts - 1;
      }
    }

    method Unregister(d: nat)
      modifies this
      ensures View() == old(View()).(inflight := Without(old(inflight), d))
    {
      inflight := inflight - {d};
    }

    /**
     drain(): test, wait, test again. `found` lists the monitor as each test finds it, other threads having
     worked meanwhile, and the clock. The answer is that of the first test that is idle or past the deadline.
     */
    method Drain(found: seq<Sight>, deadline: int) returns (idle: bool, ghost k: nat)
      requires found != [] && found[0].monitor == View() && found[|found| - 1].clock >= deadline
      modifies this
      ensures k < |found| && View() == found[k].monitor && idle == View().Quiet()
      ensures !idle ==> found[k].clock >= deadline
      ensures forall j :: 0 <= j < k ==> !found[j].monitor.Quiet() && found[j].clock < deadline
    {
      var i := 0;
      while inflight != map[] || claimAttempts != 0
        invariant i < |found| && View() == found[i].monitor
        invariant forall j :: 0 <= j < i ==> !found[j].monitor.Quiet() && found[j].clock < deadline
        decreases |found| - i
      {
        if deadline - found[i].clock <= 0 {
          return false, i;
        }
        i := i + 1;
        var m := found[i].monitor;
        inflight, claimAttempts, stopping := m.inflight, m.attempts, m.stopping;
      }
      return true, i;
    }
  }

  // ---- Transaction B's exit paths ------------------------------------------------------------------------

  datatype Exc =
    | GateRefusal       // a gate says no
    | KeyUnavailable    // no key to decrypt the mailbox password with
    | DeferredByStop
    | DatabaseError
    | OtherError        // any other Exception
    | Interrupt         // a BaseException that no handler here catches

  datatype ClaimAnswer = ClaimRaises(e: Exc) | NoRow | Row(c: Claim)

  /**
   What everything Transaction B calls does, call by call; None is a normal return. stopFirst, stopSecond:
   another thread requests shutdown just before B reads the flag for the first, the second time.
   */
  datatype Surroundings = Surroundings(
    factory: Option<Exc>, stopFirst: bool, claim: ClaimAnswer, noRow: Option<Exc>, load: Option<Exc>,
    tenant: Option<Exc>, wiring: Option<Exc>, mailbox: Option<Exc>, suppression: Option<Exc>,
    grounding: Option<Exc>, live: bool, credential: Option<Exc>, header: Option<Exc>,
    stopSecond: bool, flush: Option<Exc>, refusal: Fate, commit: Fate, undo: Option<Exc>, close: Option<Exc>)

  datatype Exit = ReturnsNone | ReturnsResult | ReturnsPrepared(claim: Claim) | Raises(e: Exc)

  /** What the transaction left in the database. */
  datatype Wrote = Nothing | AsFailed | AsSending

  /** The guarded section in order; its first exception is what it raises. */
  function Section(s: Surroundings): seq<Option<Exc>> {
    [s.tenant, s.wiring, s.mailbox, s.suppression, s.grounding, if s.live then None else Some(GateRefusal),
     s.credential, s.header, if s.stopSecond then Some(DeferredByStop) else None, s.flush]
  }

  function First(answers: seq<Option<Exc>>): Option<Exc> {
    if answers == [] then None else if answers[0].Some? then answers[0] else First(answers[1..])
  }

  lemma {:induction false} FirstAfter(answers: seq<Option<Exc>>, k: nat)
    requires k <= |answers| && forall j :: 0 <= j < k ==> answers[j].None?
    ensures First(answers) == if k == |answers| then None else First(answers[k..])
    decreases |answers|
  {
    if k > 0 {
      FirstAfter(answers[1..], k - 1);
      assert answers[1..][k - 1..] == answers[k..];
    } else {
      assert answers[0..] == answers;
    }
  }

  /** A row is claimed and read. */
  predicate Takes(stopping: bool, s: Surroundings) {
    !stopping && s.factory.None? && !s.stopFirst && s.claim.Row?
  }

  /** Every gate, the second look at the stop flag and the flush let it through. */
  predicate Clears(stopping: bool, s: Surroundings) {
    Takes(stopping, s) && s.load.None? && First(Section(s)).None?
  }

  predicate Refuses(stopping: bool, s: Surroundings) {
    && Takes(stopping, s) && s.load.None?
    && (First(Section(s)) == Some(GateRefusal) || First(Section(s)) == Some(OtherError))
  }

  /** A deferral or a missing key is swallowed by its rollback, which may itself raise; everything else goes through. */
  function Through(e: Exc, undo: Option<Exc>): Option<Exc> {
    if e == DeferredByStop || e == KeyUnavailable then undo else Some(e)
  }

  /** The exception that leaves the transaction, closing apart; an unacknowledged commit is a database error. */
  function Breaks(stopping: bool, s: Surroundings): Option<Exc> {
    if stopping then None
    else if s.factory.Some? then
      if s.factory == Some(DeferredByStop) || s.factory == Some(KeyUnavailable) then Some(OtherError) else s.factory
    else if s.stopFirst then None
    else match s.claim
         case ClaimRaises(e) => Through(e, s.undo)
         case NoRow => if s.noRow.Some? then Through(s.noRow.value, s.undo) else None
         case Row(_) =>
           if s.load.Some? then Through(s.load.value, s.undo)
           else match First(Section(s))
                case None => if s.commit == Acked then None else Some(DatabaseError)
                case Some(GateRefusal) => if s.refusal == Acked then None else Some(DatabaseError)
                case Some(OtherError) => if s.refusal == Acked then None else Some(DatabaseError)
                case Some(e) => Through(e, s.undo)
  }

  /** The guarded section; the second read of the stop flag is its last step but one. */
  method GuardedSection(rt: DispatchRuntime, s: Surroundings) returns (raised: Option<Exc>)
    requires !rt.stopping
    modifies rt
    ensures raised == First(Section(s))
    ensures rt.inflight == old(rt.inflight) && rt.claimAttempts == old(rt.claimAttempts)
    ensures rt.stopping ==> s.stopSecond
  {
    ghost var k := if s.tenant.Some? then 0 else if s.wiring.Some? then 1 else if s.mailbox.Some? then 2
                   else if s.suppression.Some? then 3 else if s.grounding.Some? then 4 else if !s.live then 5
                   else if s.credential.Some? then 6 else if s.header.Some? then 7 else if s.stopSecond then 8 else 9;
    FirstAfter(Section(s), k);
    if s.tenant.Some? { return s.tenant; }
    if s.wiring.Some? { return s.wiring; }
    if s.mailbox.Some? { return s.mailbox; }
    if s.suppression.Some? { return s.suppression; }
    if s.grounding.Some? { return s.grounding; }
    if !s.live { return Some(GateRefusal); }
    if s.credential.Some? { return s.credential; }
    if s.header.Some? { return s.header; }
    if s.stopSecond {
      rt.RequestShutdown();
    }
    if rt.stopping { return Some(DeferredByStop); }
    assert Section(s)[9..] == [s.flush];
    return s.flush;
  }

  /** commit(), which may take effect and still raise. */
  method CommitTo(fate: Fate, effect: Wrote) returns (raised: Option<Exc>, wrote: Wrote)
    ensures wrote == if fate.NotApplied? then Nothing else effect
    ensures raised == if fate.Acked? then None else Some(DatabaseError)
  {
    wrote := if fate.NotApplied? then Nothing else effect;
    raised := if fate.Acked? then None else Some(DatabaseError);
  }

  /**
   Whatever is raised and wherever, the admitted attempt is released or transferred exactly once, and the
   claim stays in flight exactly if its SENDING row was committed and the commit acknowledged. It is then
   also handed over, unless closing the session raises.
   */
  method TransactionB(rt: DispatchRuntime, s: Surroundings) returns (exit: Exit, wrote: Wrote)
    modifies rt
    ensures rt.claimAttempts == old(rt.claimAttempts)
    ensures old(rt.stopping) ==> rt.stopping
    ensures rt.stopping ==> old(rt.stopping) || s.stopFirst || s.stopSecond
    ensures rt.inflight == if !Takes(old(rt.stopping), s) then old(rt.inflight)
                           else if Clears(old(rt.stopping), s) && s.commit.Acked?
                           then old(rt.inflight)[s.claim.c.dispatch := s.claim.c]
                           else Without(old(rt.inflight), s.claim.c.dispatch)
    ensures exit.ReturnsPrepared? <==> Clears(old(rt.stopping), s) && s.commit.Acked? && s.close.None?
    ensures exit.ReturnsPrepared? ==> exit.claim == s.claim.c && wrote == AsSending
    ensures exit.ReturnsResult? <==> Refuses(old(rt.stopping), s) && s.refusal.Acked? && s.close.None?
    ensures wrote == AsSending <==> Clears(old(rt.stopping), s) && !s.commit.NotApplied?
    ensures wrote == AsFailed <==> Refuses(old(rt.stopping), s) && !s.refusal.NotApplied?
    ensures old(rt.stopping) ==> exit == ReturnsNone
    ensures !old(rt.stopping) && s.factory.None? && s.close.Some? ==> exit == Raises(s.close.value)
    ensures s.close.None? ==> (exit.Raises? <==> Breaks(old(rt.stopping), s).Some?)
    ensures s.close.None? && exit.Raises? ==> exit.e == Breaks(old(rt.stopping), s).value
  {
    var claim: Option<Claim> := None;
    var handedOff, attemptOpen, sessionOpen := false, false, false;
    var raised: Option<Exc> := None;
    exit, wrote := ReturnsNone, Nothing;
    label Try: {
      var admitted := rt.BeginClaimAttempt();
      if !admitted { break Try; }
      attemptOpen := true;
      if s.factory.Some? {
        raised := s.factory;
        break Try;
      }
      sessionOpen := true;
      if s.stopFirst {
        rt.RequestShutdown();
      }
      if rt.stopping { break Try; }
      if s.claim.ClaimRaises? {
        raised := Some(s.claim.e);
        break Try;
      }
      if s.claim.NoRow? {
        raised := s.noRow;
        break Try;
      }
      claim := Some(s.claim.c);
      var refused := rt.RegisterClaimAttempt(s.claim.c);
      if refused {
        raised := Some(OtherError);
        break Try;
      }
      attemptOpen := false;
      if s.load.Some? {
        raised := s.load;
        break Try;
      }
      raised := GuardedSection(rt, s);
      if raised == Some(GateRefusal) || raised == Some(OtherError) {
        raised, wrote := CommitTo(s.refusal, AsFailed);
        if raised.None? {
          exit := ReturnsResult;
        }
        break Try;
      }
      if raised.Some? { break Try; }
      raised, wrote := CommitTo(s.commit, AsSending);
      if raised.None? {
        handedOff := true;
        exit := ReturnsPrepared(s.claim.c);
      }
    }
    // a deferral or a missing key is rolled back and swallowed
    if raised == Some(DeferredByStop) || raised == Some(KeyUnavailable) {
      raised := if !sessionOpen then Some(OtherError) else s.undo;
    }
    // finally
    if attemptOpen {
      var unbalanced := rt.EndClaimAttempt();
      assert !unbalanced;
    }
    if claim.Some? && !handedOff {
      rt.Unregister(claim.value.dispatch);
    }
    if sessionOpen && s.close.Some? {
      raised := s.close;
    }
    if raised.Some? {
      exit := Raises(raised.value);
    }
  }

  // ---- the monitor under concurrent dispatchers ------------------------------------------------------------------

  /** Where one dispatcher thread is in process_next_external_dispatch. */
  datatype Thread =
    | Away
    | Admitted
    | RowTaken(c: Claim)     // row claimed in an open transaction, not yet registered
    | Registered(c: Claim)   // Transaction B running its gates
    | RolledBack(c: Claim)   // the transaction is over, the claim not yet unregistered
    | HandedOff(c: Claim)    // SENDING committed
    | InSmtp(c: Claim)

  /** How far graceful_shutdown is. ready: no phase has failed so far. empty: the drain found nothing in flight. */
  datatype Closing =
    | Serving
    | Begun(ready: bool)
    | SchedulerStopped(ready: bool)
    | DrainOver(ready: bool, empty: bool)
    | ClaimsReleased(ready: bool, empty: bool)
    | Over

  /**
   queued: rows any claim may take. settled: rows that are SENDING or final, and stay so. drained: a drain has
   come back empty with claiming closed, and nothing resumed since. stopped: the process is recorded as stopped.
   lateSmtp: SMTP was entered after either.
   */
  datatype Process = Process(
    monitor: Monitor, threads: seq<Thread>, queued: set<nat>, settled: set<nat>, closing: Closing,
    drained: bool, stopped: bool, lateSmtp: bool)

  datatype Move =
    | Begin(i: nat) | GiveUp(i: nat) | TakeRow(i: nat, c: Claim) | Register(i: nat)
    | Commit(i: nat) | Refuse(i: nat) | RollBack(i: nat) | Unregister(i: nat)
    | EnterSmtp(i: nat) | Leave(i: nat) | Abandon(i: nat)
    | Shutdown | DrainReturns
    | BeginClosing(fault: bool) | StopScheduler(fault: bool) | EndDrain(fault: bool)
    | ReleaseClaims(fault: bool) | MarkStopped(fault: bool)
    | Resume
    | RowArrives(d: nat) | RowTakenElsewhere(d: nat)

  predicate RowOpen(p: Process, d: nat) {
    exists i :: 0 <= i < |p.threads| && (p.threads[i].RowTaken? || p.threads[i].Registered?)
                && p.threads[i].c.dispatch == d
  }

  function At(p: Process, i: nat, th: Thread): Process
    requires i < |p.threads|
  {
    p.(threads := p.threads[i := th])
  }

  function Forget(p: Process, d: nat): Process {
    p.(monitor := p.monitor.(inflight := Without(p.monitor.inflight, d)))
  }

  function Settle(p: Process, d: nat): Process { p.(queued := p.queued - {d}, settled := p.settled + {d}) }

  function ThreadMove(p: Process, move: Move, i: nat): Process
    requires i < |p.threads|
  {
    var th := p.threads[i];
    match move
    case Begin(_) =>
      if th.Away? && !p.monitor.stopping
      then At(p, i, Admitted).(monitor := p.monitor.(attempts := p.monitor.attempts + 1)) else p
    case GiveUp(_) =>
      if th.Admitted? && p.monitor.attempts > 0
      then At(p, i, Away).(monitor := p.monitor.(attempts := p.monitor.attempts - 1)) else p
    case TakeRow(_, c) =>
      if th.Admitted? && c.dispatch in p.queued && !RowOpen(p, c.dispatch) then At(p, i, RowTaken(c)) else p
    case Register(_) =>
      if th.RowTaken? && p.monitor.attempts > 0
      then At(p, i, Registered(th.c)).(monitor := p.monitor.(attempts := p.monitor.attempts - 1,
                                                             inflight := p.monitor.inflight[th.c.dispatch := th.c]))
      else p
    case Commit(_) => if th.Registered? then Settle(At(p, i, HandedOff(th.c)), th.c.dispatch) else p
    case Refuse(_) => if th.Registered? then Settle(At(p, i, RolledBack(th.c)), th.c.dispatch) else p
    case RollBack(_) => if th.Registered? then At(p, i, RolledBack(th.c)) else p
    case Unregister(_) => if th.RolledBack? then Forget(At(p, i, Away), th.c.dispatch) else p
    case EnterSmtp(_) =>
      if th.HandedOff? then At(p, i, InSmtp(th.c)).(lateSmtp := p.lateSmtp || p.drained || p.stopped) else p
    case Leave(_) => if th.InSmtp? then Forget(At(p, i, Away), th.c.dispatch) else p
    case Abandon(_) => if th.HandedOff? then At(p, i, Away) else p  // closing the session raised
    case _ => p
  }

  /** The phases of graceful_shutdown, run by one thread in this order. */
  function NextClosing(c: Closing, move: Move, quiet: bool): Closing {
    match move
    case BeginClosing(fault) => if c.Serving? then Begun(!fault) else c
    case StopScheduler(fault) => if c.Begun? then SchedulerStopped(c.ready && !fault) else c
    case EndDrain(fault) =>
      if c.SchedulerStopped? then DrainOver(c.ready && !fault && quiet, !fault && quiet) else c
    case ReleaseClaims(fault) => if c.DrainOver? then ClaimsReleased(c.ready && !fault, c.empty) else c
    case MarkStopped(_) => if c.ClaimsReleased? then Over else c
    case _ => c
  }

  predicate Records(c: Closing, move: Move) {
    c.ClaimsReleased? && move.MarkStopped? && c.ready && c.empty && !move.fault
  }

  function ClosingMove(p: Process, move: Move): Process {
    var quiet := p.monitor.Quiet();
    p.(closing := NextClosing(p.closing, move, quiet),
       monitor := p.monitor.(stopping := p.monitor.stopping || (p.closing.Serving? && move == BeginClosing(false))),
       drained := p.drained || (p.closing.SchedulerStopped? && move == EndDrain(false) && quiet && p.monitor.stopping),
       stopped := p.stopped || Records(p.closing, move))
  }

  /** A new start, which waits for the last phase of a shutdown under way. */
  function Resumed(p: Process): Process {
    if p.monitor.Quiet() && (p.closing.Serving? || p.closing.Over?)
    then p.(monitor := p.monitor.(stopping := false), closing := Serving, drained := false, stopped := false) else p
  }

  predicate IsClosing(move: Move) {
    || move.BeginClosing? || move.StopScheduler? || move.EndDrain? || move.ReleaseClaims? || move.MarkStopped?
    || move.Resume?
  }

  function Moved(p: Process, move: Move): Process {
    match move
    case BeginClosing(_) => ClosingMove(p, move)
    case StopScheduler(_) => ClosingMove(p, move)
    case EndDrain(_) => ClosingMove(p, move)
    case ReleaseClaims(_) => ClosingMove(p, move)
    case MarkStopped(_) => ClosingMove(p, move)
    case Resume => Resumed(p)
    case Shutdown => p.(monitor := p.monitor.(stopping := true))
    case DrainReturns => if p.monitor.stopping && p.monitor.Quiet() then p.(drained := true) else p
    case RowArrives(d) => if d in p.settled then p else p.(queued := p.queued + {d})
    case RowTakenElsewhere(d) => p.(queued := p.queued - {d})
    case _ => if move.i < |p.threads| then ThreadMove(p, move, move.i) else p
  }

  function History(p: Process, moves: seq<Move>): Process
    decreases |moves|
  {
    if moves == [] then p else History(Moved(p, moves[0]), moves[1..])
  }

  function Booted(n: nat): Process {
    Process(Monitor(map[], 0, false), seq(n, _ => Away), {}, {}, Serving, false, false, false)
  }

  /**
   After a drain that came back empty, SMTP is neither running nor entered before the next resume; and a
   process recorded as stopped has drained, admits no claim and has no dispatcher at work.
   */
  ghost predicate Sound(p: Process) {
    && !p.lateSmtp
    && (p.drained ==> forall i :: 0 <= i < |p.threads| ==> !p.threads[i].HandedOff? && !p.threads[i].InSmtp?)
    && (p.stopped ==> p.drained && p.monitor.stopping && forall i :: 0 <= i < |p.threads| ==> p.threads[i].Away?)
  }

  /** With at most one dispatcher the monitor never misses what that dispatcher is doing. */
  ghost predicate Counted(p: Process) {
    && |p.threads| <= 1
    && (|p.threads| == 0 ==> p.monitor.Quiet())
    && (|p.threads| == 1 ==>
          var th := p.threads[0];
          && p.monitor.attempts == (if th.Admitted? || th.RowTaken? then 1 else 0)
          && (th.Away? || th.Admitted? || th.RowTaken? || th.c.dispatch in p.monitor.inflight))
  }

  /** What the phases of a shutdown have established so far. */
  ghost predicate Closed(p: Process) {
    && !p.lateSmtp
    && (p.drained ==> p.monitor.stopping && p.monitor.Quiet())
    && (p.stopped ==> p.drained)
    && (p.closing.Begun? || p.closing.SchedulerStopped? ==> p.closing.ready ==> p.monitor.stopping)
    && (p.closing.DrainOver? || p.closing.ClaimsReleased? ==> p.closing.ready ==> p.drained)
  }

  lemma QuietIsAway(p: Process)
    requires Counted(p) && p.monitor.Quiet()
    ensures forall i :: 0 <= i < |p.threads| ==> p.threads[i].Away?
  {}

  lemma MoveCounted(p: Process, move: Move)
    requires Counted(p) && Closed(p)
    ensures Counted(Moved(p, move)) && Closed(Moved(p, move))
  {
    if p.monitor.Quiet() {
      QuietIsAway(p);
    }
  }

  lemma {:induction false} HistoryCounted(p: Process, moves: seq<Move>)
    requires Counted(p) && Closed(p)
    ensures Counted(History(p, moves)) && Closed(History(p, moves))
    decreases |moves|
  {
    if moves != [] {
      MoveCounted(p, moves[0]);
      HistoryCounted(Moved(p, moves[0]), moves[1..]);
    }
  }

  lemma OneDispatcherSound(n: nat, moves: seq<Move>)
    requires n <= 1
    ensures Sound(History(Booted(n), moves))
  {
    HistoryCounted(Booted(n), moves);
    var p := History(Booted(n), moves);
    if p.monitor.Quiet() {
      QuietIsAway(p);
    }
  }

  lemma {:induction false} StoppedStays(p: Process, moves: seq<Move>)
    requires p.stopped && forall i :: 0 <= i < |moves| ==> !moves[i].Resume?
    ensures History(p, moves).stopped
    decreases |moves|
  {
    if moves != [] {
      StoppedStays(Moved(p, moves[0]), moves[1..]);
    }
  }

  lemma {:induction false} HistoryJoins(p: Process, a: seq<Move>, b: seq<Move>)
    ensures History(History(p, a), b) == History(p, a + b)
    decreases |a|
  {
    if a == [] {
      assert a + b == b;
    } else {
      assert (a + b)[1..] == a[1..] + b;
      HistoryJoins(Moved(p, a[0]), a[1..], b);
    }
  }

  /** Once a process with one dispatcher is recorded as stopped, it is at rest until it is started again. */
  lemma StoppedForGood(n: nat, moves: seq<Move>, more: seq<Move>)
    requires n <= 1 && History(Booted(n), moves).stopped
    requires forall i :: 0 <= i < |more| ==> !more[i].Resume?
    ensures var p := History(Booted(n), moves + more);
            && p.stopped && p.drained && p.monitor.stopping && !p.lateSmtp
            && forall i :: 0 <= i < |p.threads| ==> p.threads[i].Away?
  {
    HistoryJoins(Booted(n), moves, more);
    StoppedStays(History(Booted(n), moves), more);
    OneDispatcherSound(n, moves + more);
  }

  // ---- what the moves do -------------------------------------------------------------------------------------

  /** A row stays with the one dispatcher that has it claimed in an open transaction. */
  ghost predicate RowsApart(p: Process) {
    forall i, j :: 0 <= i < j < |p.threads| && Holding(p.threads[i]) && Holding(p.threads[j]) ==>
      p.threads[i].c.dispatch != p.threads[j].c.dispatch
  }

  predicate Holding(th: Thread) { th.RowTaken? || th.Registered? }

  lemma MoveApart(p: Process, move: Move)
    requires RowsApart(p)
    ensures RowsApart(Moved(p, move))
  {}

  lemma {:induction false} HistoryApart(p: Process, moves: seq<Move>)
    requires RowsApart(p)
    ensures RowsApart(History(p, moves))
    decreases |moves|
  {
    if moves != [] {
      MoveApart(p, moves[0]);
      HistoryApart(Moved(p, moves[0]), moves[1..]);
    }
  }

  /** Any dispatcher admitted may take any queued row that nobody has open. */
  lemma RowCanBeTaken(p: Process, i: nat, c: Claim)
    requires i < |p.threads| && p.threads[i] == Admitted && c.dispatch in p.queued
    requires forall j :: 0 <= j < |p.threads| && Holding(p.threads[j]) ==> p.threads[j].c.dispatch != c.dispatch
    ensures Moved(p, TakeRow(i, c)) == p.(threads := p.threads[i := RowTaken(c)])
  {}

  /** The way out: a refusal settles the row, SMTP done with unregisters the claim. */
  lemma WaysOut(p: Process, i: nat)
    requires i < |p.threads|
    ensures p.threads[i].Registered? ==>
            var d, q := p.threads[i].c.dispatch, Moved(p, Refuse(i));
            && d !in q.queued && d in q.settled && q.monitor == p.monitor
            && q.threads == p.threads[i := RolledBack(p.threads[i].c)]
    ensures p.threads[i].InSmtp? ==>
            var d, q := p.threads[i].c.dispatch, Moved(p, Leave(i));
            q.threads == p.threads[i := Away] && q.monitor.inflight == p.monitor.inflight - {d} && q.queued == p.queued
  {}

  /** A new start reopens a quiet process that is not in the middle of a shutdown, and nothing else does. */
  lemma ResumeExactly(p: Process)
    ensures var q := Moved(p, Resume);
            if p.monitor.inflight == map[] && p.monitor.attempts == 0 && (p.closing == Serving || p.closing == Over)
            then q == p.(monitor := Monitor(map[], 0, false), closing := Serving, drained := false, stopped := false)
            else q == p
  {}

  /** Claiming is closed by the first phase of a shutdown, if it does not fail, and by no later one. */
  lemma ClosingStops(p: Process, move: Move)
    requires IsClosing(move) && move != Resume
    ensures Moved(p, move).monitor.stopping
            == (p.monitor.stopping || (p.closing == Serving && move == BeginClosing(false)))
    ensures Moved(p, Shutdown) == p.(monitor := p.monitor.(stopping := true))
  {}

  // ---- a claim that is committed but never handed over ---------------------------------------------------------

  /** A committed row is not queued again. */
  ghost predicate Placed(p: Process) {
    && p.queued !! p.settled
    && forall i :: 0 <= i < |p.threads| && (p.threads[i].HandedOff? || p.threads[i].InSmtp?) ==>
         p.threads[i].c.dispatch in p.settled
  }

  lemma MovePlaced(p: Process, move: Move)
    requires Placed(p)
    ensures Placed(Moved(p, move))
  {}

  /** Row d is registered as in flight and nobody is left to unregister it; no shutdown has got past its drain. */
  ghost predicate Stuck(p: Process, d: nat) {
    && |p.threads| <= 1 && d in p.monitor.inflight && d in p.settled && d !in p.queued
    && (forall i :: 0 <= i < |p.threads| && !p.threads[i].Away? && !p.threads[i].Admitted? ==>
          p.threads[i].c.dispatch != d)
    && !p.drained && !p.stopped
    && (p.closing.DrainOver? || p.closing.ClaimsReleased? ==> !p.closing.ready)
  }

  lemma MoveStuck(p: Process, move: Move, d: nat)
    requires Stuck(p, d)
    ensures Stuck(Moved(p, move), d)
  {
    assert !p.monitor.Quiet();
  }

  lemma {:induction false} HistoryStuck(p: Process, moves: seq<Move>, d: nat)
    requires Stuck(p, d)
    ensures Stuck(History(p, moves), d)
    decreases |moves|
  {
    if moves != [] {
      MoveStuck(p, moves[0], d);
      HistoryStuck(Moved(p, moves[0]), moves[1..], d);
    }
  }

  lemma {:induction false} HistoryPlaced(p: Process, moves: seq<Move>)
    requires Placed(p)
    ensures Placed(History(p, moves))
    decreases |moves|
  {
    if moves != [] {
      MovePlaced(p, moves[0]);
      HistoryPlaced(Moved(p, moves[0]), moves[1..]);
    }
  }

  /**
   If closing the session raises after the commit, the one dispatcher of a process leaves its claim registered for
   good: no drain comes back empty, "stopped" is never recorded and the process never resumes.
   */
  lemma AbandonedNeverStops(n: nat, moves: seq<Move>, more: seq<Move>)
    requires n <= 1
    requires var threads := History(Booted(n), moves).threads; threads != [] && threads[0].HandedOff?
    ensures var p := History(Moved(History(Booted(n), moves), Abandon(0)), more);
            !p.stopped && !p.drained && !p.monitor.Quiet()
  {
    var p := History(Booted(n), moves);
    HistoryCounted(Booted(n), moves);
    HistoryPlaced(Booted(n), moves);
    var d := p.threads[0].c.dispatch;
    assert !p.monitor.Quiet();
    HistoryStuck(Moved(p, Abandon(0)), more, d);
  }

  // ---- graceful_shutdown -------------------------------------------------------------------------------------

  /** Which phases raise. */
  datatype Faults = Faults(begin: bool, scheduler: bool, drain: bool, release: bool, mark: bool)

  /** What the other threads do before each phase; for the drain, while it waits. */
  datatype Meanwhile = Meanwhile(scheduler: seq<Move>, drain: seq<Move>, release: seq<Move>, mark: seq<Move>)

  predicate Aside(moves: seq<Move>) { forall i :: 0 <= i < |moves| ==> !IsClosing(moves[i]) }

  lemma {:induction false} AsideKeeps(p: Process, moves: seq<Move>)
    requires Aside(moves)
    ensures History(p, moves).closing == p.closing && History(p, moves).stopped == p.stopped
    decreases |moves|
  {
    if moves != [] {
      AsideKeeps(Moved(p, moves[0]), moves[1..]);
    }
  }

  lemma OneMore(p: Process, moves: seq<Move>, move: Move)
    ensures History(p, moves + [move]) == Moved(History(p, moves), move)
  {
    HistoryJoins(p, moves, [move]);
    assert [move][1..] == [];
  }

  ghost predicate Reaches(p: Process, q: Process) {
    exists moves :: q == History(p, moves)
  }

  /** Some history of a process with n dispatchers leads here. */
  ghost predicate Possible(n: nat, p: Process) { Reaches(Booted(n), p) }

  lemma PossibleIsSound(n: nat, p: Process)
    requires n <= 1 && Possible(n, p)
    ensures Sound(p)
  {
    var moves :| p == History(Booted(n), moves);
    OneDispatcherSound(n, moves);
  }

  lemma ReachesOn(p: Process, q: Process, moves: seq<Move>)
    requires Reaches(p, q)
    ensures Reaches(p, History(q, moves))
  {
    var before :| q == History(p, before);
    HistoryJoins(p, before, moves);
  }

  lemma ReachesNext(p: Process, q: Process, move: Move)
    requires Reaches(p, q)
    ensures Reaches(p, Moved(q, move))
  {
    var before :| q == History(p, before);
    OneMore(p, before, move);
  }

  /** What a phase does to the process. */
  ghost predicate ClosedBy(q: Process, move: Move, r: Process) {
    && r.closing == NextClosing(q.closing, move, q.monitor.Quiet())
    && r.stopped == (q.stopped || Records(q.closing, move))
    && r.threads == q.threads && r.monitor.inflight == q.monitor.inflight && r.monitor.attempts == q.monitor.attempts
  }

  /** One phase, after what the others did before it. */
  method Phase(ghost p: Process, q: Process, others: seq<Move>, move: Move) returns (mid: Process, r: Process)
    requires Reaches(p, q) && Aside(others) && IsClosing(move) && !move.Resume?
    ensures Reaches(p, mid) && mid.closing == q.closing && mid.stopped == q.stopped
    ensures Reaches(p, r) && ClosedBy(mid, move, r)
  {
    AsideKeeps(q, others);
    ReachesOn(p, q, others);
    mid := History(q, others);
    ReachesNext(p, mid, move);
    r := Moved(mid, move);
  }

  /**
   graceful_shutdown is a history of the process, so with one dispatcher what it records is what Sound says.
   It records "stopped" exactly if no phase failed and the wait ended with nothing in flight, whatever was in
   flight when it began. `waited` is the process at the end of the wait, where the drain looks for the last time.
   */
  method GracefulShutdown(ghost n: nat, p: Process, f: Faults, others: Meanwhile)
    returns (after: Process, stopped: bool, ghost waited: Process)
    requires Possible(n, p) && p.closing.Serving? && !p.stopped
    requires Aside(others.scheduler) && Aside(others.drain) && Aside(others.release) && Aside(others.mark)
    ensures Possible(n, after) && stopped == after.stopped && after.closing == Over
    ensures Possible(n, waited) && waited.closing.SchedulerStopped?
    ensures stopped <==> f == Faults(false, false, false, false, false) && waited.monitor.Quiet()
    ensures n <= 1 && stopped ==>
              after.drained && after.monitor.stopping && forall th :: th in after.threads ==> th.Away?
  {
    var ready, drained, mid;
    ghost var start := Booted(n);
    ready, after := BeginAndStop(start, p, f, others);
    mid, after := Phase(start, after, others.drain, EndDrain(f.drain));
    waited := mid;
    drained := !f.drain && mid.monitor.Quiet();
    if !drained {
      ready := false;
    }
    assert after.closing == DrainOver(ready, drained) && !after.stopped;
    stopped, after := ReleaseAndMark(start, after, ready, drained, f, others);
    if n <= 1 {
      PossibleIsSound(n, after);
    }
  }

  /** The first two phases. */
  method BeginAndStop(ghost start: Process, p: Process, f: Faults, others: Meanwhile)
    returns (ready: bool, after: Process)
    requires Reaches(start, p) && p.closing.Serving? && !p.stopped && Aside(others.scheduler)
    ensures Reaches(start, after) && after.closing == SchedulerStopped(ready) && !after.stopped
    ensures ready <==> !f.begin && !f.scheduler
  {
    var mid;
    ready := true;
    mid, after := Phase(start, p, [], BeginClosing(f.begin));
    if f.begin {
      ready := false;
    }
    assert after.closing == Begun(ready);
    mid, after := Phase(start, after, others.scheduler, StopScheduler(f.scheduler));
    if f.scheduler {
      ready := false;
    }
  }

  /** The last two phases. */
  method ReleaseAndMark(ghost start: Process, q: Process, ready: bool, drained: bool, f: Faults, others: Meanwhile)
    returns (stopped: bool, after: Process)
    requires Reaches(start, q) && q.closing == DrainOver(ready, drained) && !q.stopped
    requires Aside(others.release) && Aside(others.mark)
    ensures Reaches(start, after) && stopped == after.stopped && after.closing == Over
    ensures stopped <==> ready && drained && !f.release && !f.mark
  {
    var mid;
    mid, after := Phase(start, q, others.release, ReleaseClaims(f.release));
    assert after.closing == ClaimsReleased(ready && !f.release, drained) && !after.stopped;
    mid, after := Phase(start, after, others.mark, MarkStopped(f.mark));
    stopped := ready && !f.release && drained && !f.mark;
  }

  // ---- two dispatchers break it -----------------------------------------------------------------------------

  const CLAIM := Claim(7, "org", "worker", 0)

  lemma Then(n: nat, p: Process, move: Move)
    requires Possible(n, p)
    ensures Possible(n, Moved(p, move))
  {
    ReachesNext(Booted(n), p, move);
  }

  lemma Closes(n: nat, q: Process, move: Move) returns (r: Process)
    requires Possible(n, q) && IsClosing(move) && !move.Resume?
    ensures Possible(n, r) && ClosedBy(q, move, r)
  {
    Then(n, q, move);
    r := Moved(q, move);
  }

  /** Two busy threads, the others away. */
  ghost predicate Pair(n: nat, p: Process, a: Thread, b: Thread) {
    && |p.threads| == n >= 2 && p.threads[0] == a && p.threads[1] == b
    && (forall i :: 2 <= i < n ==> p.threads[i].Away?)
  }

  /** Dispatcher 0 has rolled back the claim on row 7, which is queued again, but not yet unregistered it. */
  lemma RolledBackFirst(n: nat) returns (p: Process)
    requires n >= 2
    ensures Possible(n, p) && Pair(n, p, RolledBack(CLAIM), Away) && 7 in p.queued
    ensures Fresh(p) && p.monitor == Monitor(map[7 := CLAIM], 0, false)
  {
    p := Booted(n);
    assert p == History(p, []);
    Then(n, p, RowArrives(7));
    p := Moved(p, RowArrives(7));
    Then(n, p, Begin(0));
    p := Moved(p, Begin(0));
    Then(n, p, TakeRow(0, CLAIM));
    p := Moved(p, TakeRow(0, CLAIM));
    assert Pair(n, p, RowTaken(CLAIM), Away);
    Then(n, p, Register(0));
    p := Moved(p, Register(0));
    Then(n, p, RollBack(0));
    p := Moved(p, RollBack(0));
  }

  ghost predicate Fresh(p: Process) { p.closing.Serving? && !p.drained && !p.stopped }

  lemma Single(c: Claim)
    ensures Without(map[c.dispatch := c], c.dispatch) == map[]
  {}

  /** Dispatcher 1 claims row 7 meanwhile; dispatcher 0's late unregister then erases the new entry. */
  lemma EntryErased(n: nat, first: Process) returns (p: Process)
    requires Possible(n, first) && Pair(n, first, RolledBack(CLAIM), Away) && 7 in first.queued
    requires Fresh(first) && first.monitor == Monitor(map[7 := CLAIM], 0, false)
    ensures Possible(n, p) && Pair(n, p, Away, Registered(CLAIM)) && Fresh(p)
    ensures p.monitor == Monitor(map[], 0, false)
  {
    p := first;
    Then(n, p, Begin(1));
    p := Moved(p, Begin(1));
    Then(n, p, TakeRow(1, CLAIM));
    p := Moved(p, TakeRow(1, CLAIM));
    assert Pair(n, p, RolledBack(CLAIM), RowTaken(CLAIM));
    Then(n, p, Register(1));
    p := Moved(p, Register(1));
    assert p.monitor.inflight == map[7 := CLAIM];
    Then(n, p, Unregister(0));
    p := Moved(p, Unregister(0));
    Single(CLAIM);
  }

  lemma ClosesAtOnce(n: nat, quiet: Process) returns (p: Process)
    requires Possible(n, quiet) && Fresh(quiet) && quiet.monitor == Monitor(map[], 0, false)
    ensures Possible(n, p) && p.stopped && p.threads == quiet.threads
  {
    p := Closes(n, quiet, BeginClosing(false));
    p := Closes(n, p, StopScheduler(false));
    p := Closes(n, p, EndDrain(false));
    p := Closes(n, p, ReleaseClaims(false));
    p := Closes(n, p, MarkStopped(false));
  }

  /** The shutdown finds nothing in flight and records "stopped" while dispatcher 1 is about to enter SMTP. */
  lemma StoppedTooEarly(n: nat, erased: Process) returns (p: Process)
    requires Possible(n, erased) && Pair(n, erased, Away, Registered(CLAIM)) && Fresh(erased)
    requires erased.monitor == Monitor(map[], 0, false)
    ensures Possible(n, p) && p.stopped && p.lateSmtp
  {
    Then(n, erased, Commit(1));
    var closed := ClosesAtOnce(n, Moved(erased, Commit(1)));
    Then(n, closed, EnterSmtp(1));
    p := Moved(closed, EnterSmtp(1));
  }

  /**
   Shutdown is sound for every history exactly when a runtime serves at most one dispatcher: with two, a
   rollback before the late unregister lets "stopped" be recorded while a send is still to come.
   */
  lemma SoundExactly(n: nat)
    ensures (forall moves: seq<Move> :: Sound(History(Booted(n), moves))) <==> n <= 1
  {
    if n <= 1 {
      forall moves: seq<Move>
        ensures Sound(History(Booted(n), moves))
      {
        OneDispatcherSound(n, moves);
      }
    } else {
      var first := RolledBackFirst(n);
      var erased := EntryErased(n, first);
      var p := StoppedTooEarly(n, erased);
      var moves :| p == History(Booted(n), moves);
      assert !Sound(History(Booted(n), moves));
    }
  }
}
