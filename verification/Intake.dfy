/**
 The two intake endpoints under concurrency. Each request looks its key up, prepares, commits once and,
 if it lost the race on the unique key, rolls back and reads the winner. Requests interleave freely with
 each other and with the workers, which may change anything about a row but what identifies it.
 */
module Intake {
  import opened DispatchModel
  import WorkClaiming
  import DeliveryProtocol
  import DeliveryInvariant
  import DeliveryProgress

  /** The fingerprint is what the request asks for; on the exact-message route its commit also inserts the Message. */
  datatype Request = Request(
    org: string, key: string, fingerprint: Fingerprint, campaign: nat, contact: nat, mailbox: Option<nat>)

  datatype Answer = Accepted(reference: string) | Conflict | Rejected | ServerError

  datatype Stage = Arrived | Preparing | Lost | Answered(answer: Answer)

  /** `inserted` remembers which request's commit created which dispatch. */
  datatype Front = Front(db: Db, requests: map<nat, Request>, stages: map<nat, Stage>, inserted: map<nat, nat>)

  datatype Event =
    | Arrive(r: nat, req: Request)
    | Lookup(r: nat)
    | Reject(r: nat)
    | Commit(r: nat, d: nat, m: nat, reference: string, fate: Fate)
    | Reread(r: nat)
    | Elsewhere(db: Db)

  function Matching(db: Db, org: string, key: string): set<nat> {
    set d | d in db.dispatches && db.dispatches[d].org == org && db.dispatches[d].key == key
  }

  function Find(db: Db, org: string, key: string): Option<nat> {
    var found := Matching(db, org, key);
    if found == {} then None else Some(WorkClaiming.Least(found))
  }

  /** Replay of the existing operation, or conflict; the row is only read. */
  function ReplayOrConflict(row: Dispatch, fingerprint: Fingerprint): Answer {
    if row.fingerprint == fingerprint then Accepted(row.reference) else Conflict
  }

  function ContentOf(fingerprint: Fingerprint, m: nat): Option<Content> {
    if fingerprint.ExactRequest? then Some(Content(m, fingerprint.subject, fingerprint.body)) else None
  }

  function AcceptanceOf(req: Request, m: nat, reference: string): Acceptance {
    Acceptance(req.org, req.key, req.fingerprint, reference, req.campaign, req.contact, req.mailbox,
               ContentOf(req.fingerprint, m))
  }

  /** What everyone else does: rows keep what identifies them, and neither rows nor Messages disappear. */
  ghost predicate IdentityKept(db: Db, db': Db) {
    && db'.dispatches.Keys == db.dispatches.Keys && db.messages.Keys <= db'.messages.Keys
    && (forall d :: d in db.dispatches ==> SameIdentity(db.dispatches[d], db'.dispatches[d]))
  }

  predicate At(f: Front, r: nat, stage: Stage) { r in f.requests && r in f.stages && f.stages[r] == stage }

  function Move(f: Front, r: nat, stage: Stage): Front { f.(stages := f.stages[r := stage]) }

  function Reading(f: Front, r: nat, absent: Stage): Front
    requires r in f.requests
  {
    var req := f.requests[r];
    var found := Find(f.db, req.org, req.key);
    Move(f, r, if found.None? then absent
               else Answered(ReplayOrConflict(f.db.dispatches[found.value], req.fingerprint)))
  }

  /** The one commit. A unique violation rolls everything back, the Message included. */
  function Committing(f: Front, r: nat, d: nat, m: nat, reference: string, fate: Fate): Front
    requires r in f.requests
  {
    var a := AcceptanceOf(f.requests[r], m, reference);
    if d in f.db.dispatches || m in f.db.messages then f
    else if KeyTaken(f.db, a.org, a.key) || ReferenceTaken(f.db, a.reference) then Move(f, r, Lost)
    else if fate.NotApplied? then Move(f, r, Answered(ServerError))
    else Move(f.(db := Insert(f.db, d, a), inserted := f.inserted[r := d]), r,
              Answered(if fate.Acked? then Accepted(reference) else ServerError))
  }

  ghost function Handle(f: Front, e: Event): Front {
    match e
    case Arrive(r, req) =>
      if r in f.requests then f else f.(requests := f.requests[r := req], stages := f.stages[r := Arrived])
    case Lookup(r) => if At(f, r, Arrived) then Reading(f, r, Preparing) else f
    case Reject(r) => if At(f, r, Preparing) then Move(f, r, Answered(Rejected)) else f
    case Commit(r, d, m, reference, fate) => if At(f, r, Preparing) then Committing(f, r, d, m, reference, fate) else f
    case Reread(r) => if At(f, r, Lost) then Reading(f, r, Answered(ServerError)) else f
    case Elsewhere(db) => if IdentityKept(f.db, db) then f.(db := db) else f
  }

  ghost function Serve(f: Front, events: seq<Event>): Front
    decreases |events|
  {
    if events == [] then f else Serve(Handle(f, events[0]), events[1..])
  }

  // ---- invariant -------------------------------------------------------------------------------------

  ghost predicate UniqueKeys(db: Db) {
    forall d, e :: d in db.dispatches && e in db.dispatches && d != e ==>
      !(db.dispatches[d].org == db.dispatches[e].org && db.dispatches[d].key == db.dispatches[e].key)
  }

  ghost predicate Serves(row: Dispatch, req: Request) {
    row.org == req.org && row.key == req.key && row.fingerprint == req.fingerprint
  }

  ghost predicate Backed(db: Db, req: Request, reference: string) {
    exists d :: d in db.dispatches && Serves(db.dispatches[d], req) && db.dispatches[d].reference == reference
  }

  ghost predicate Refuted(db: Db, req: Request) {
    exists d :: d in db.dispatches && db.dispatches[d].org == req.org && db.dispatches[d].key == req.key
                && db.dispatches[d].fingerprint != req.fingerprint
  }

  ghost predicate StageOk(f: Front, r: nat)
    requires r in f.requests && r in f.stages
  {
    match f.stages[r]
    case Answered(Accepted(reference)) => Backed(f.db, f.requests[r], reference)
    case Answered(Conflict) => Refuted(f.db, f.requests[r]) && r !in f.inserted
    case Answered(ServerError) => true
    case _ => r !in f.inserted
  }

  ghost predicate FrontOk(f: Front) {
    && UniqueKeys(f.db) && f.stages.Keys == f.requests.Keys
    && (forall r {:trigger StageOk(f, r)} :: r in f.requests ==> StageOk(f, r))
    && Recorded(f)
  }

  /** Every remembered insertion is there, serves its request, and is that request's own. */
  ghost predicate Recorded(f: Front) {
    && (forall r :: r in f.inserted ==> r in f.requests && f.inserted[r] in f.db.dispatches
                                        && Serves(f.db.dispatches[f.inserted[r]], f.requests[r]))
    && (forall r, q :: r in f.inserted && q in f.inserted && r != q ==> f.inserted[r] != f.inserted[q])
  }

  /** What a request was told stays true of a database that has only grown or kept identities. */
  ghost predicate Keeps(db: Db, db': Db) {
    forall d :: d in db.dispatches ==>
      d in db'.dispatches && SameIdentity(db.dispatches[d], db'.dispatches[d])
  }

  lemma StageKept(f: Front, f': Front, r: nat)
    requires r in f.requests && r in f.stages && r in f'.requests && r in f'.stages
    requires f'.requests[r] == f.requests[r] && f'.stages[r] == f.stages[r]
    requires r in f'.inserted ==> r in f.inserted
    requires Keeps(f.db, f'.db) && StageOk(f, r)
    ensures StageOk(f', r)
  {}

  lemma ReadingKeeps(f: Front, r: nat, absent: Stage)
    requires FrontOk(f) && r in f.requests && r !in f.inserted
    requires absent.Preparing? || absent == Answered(ServerError)
    ensures FrontOk(Reading(f, r, absent))
  {
    var f' := Reading(f, r, absent);
    forall q | q in f'.requests
      ensures StageOk(f', q)
    {
      if q != r { StageKept(f, f', q); }
    }
  }

  function Inserted(f: Front, r: nat, d: nat, a: Acceptance, answer: Answer): Front {
    Move(f.(db := Insert(f.db, d, a), inserted := f.inserted[r := d]), r, Answered(answer))
  }

  lemma InsertUnique(db: Db, d: nat, a: Acceptance)
    requires UniqueKeys(db) && d !in db.dispatches && !KeyTaken(db, a.org, a.key)
    ensures UniqueKeys(Insert(db, d, a)) && Keeps(db, Insert(db, d, a))
    ensures Insert(db, d, a).dispatches == db.dispatches[d := AcceptedRow(a)]
  {}

  lemma InsertRecorded(f: Front, r: nat, d: nat, a: Acceptance, answer: Answer)
    requires Recorded(f) && r in f.requests && r !in f.inserted && d !in f.db.dispatches
    requires Serves(AcceptedRow(a), f.requests[r])
    ensures Recorded(Inserted(f, r, d, a, answer))
  {}

  lemma InsertKeeps(f: Front, r: nat, d: nat, m: nat, reference: string, answer: Answer)
    requires FrontOk(f) && r in f.requests && r !in f.inserted && d !in f.db.dispatches
    requires !KeyTaken(f.db, f.requests[r].org, f.requests[r].key)
    requires answer == Accepted(reference) || answer.ServerError?
    ensures FrontOk(Inserted(f, r, d, AcceptanceOf(f.requests[r], m, reference), answer))
  {
    var a := AcceptanceOf(f.requests[r], m, reference);
    var f' := Inserted(f, r, d, a, answer);
    InsertUnique(f.db, d, a);
    InsertRecorded(f, r, d, a, answer);
    assert f'.db.dispatches[d] == AcceptedRow(a);
    forall q | q in f'.requests
      ensures StageOk(f', q)
    {
      if q != r { StageKept(f, f', q); }
    }
  }

  lemma CommitKeeps(f: Front, r: nat, d: nat, m: nat, reference: string, fate: Fate)
    requires FrontOk(f) && At(f, r, Preparing)
    ensures FrontOk(Committing(f, r, d, m, reference, fate))
  {
    var f' := Committing(f, r, d, m, reference, fate);
    var a := AcceptanceOf(f.requests[r], m, reference);
    assert StageOk(f, r);
    if d in f.db.dispatches || m in f.db.messages {
    } else if !KeyTaken(f.db, a.org, a.key) && !ReferenceTaken(f.db, a.reference) && !fate.NotApplied? {
      InsertKeeps(f, r, d, m, reference, f'.stages[r].answer);
    } else {
      SameDb(f, f');
    }
  }

  lemma HandleKeeps(f: Front, e: Event)
    requires FrontOk(f)
    ensures FrontOk(Handle(f, e))
  {
    var f' := Handle(f, e);
    match e
    case Lookup(r) => if At(f, r, Arrived) { assert StageOk(f, r); ReadingKeeps(f, r, Preparing); }
    case Reread(r) => if At(f, r, Lost) { assert StageOk(f, r); ReadingKeeps(f, r, Answered(ServerError)); }
    case Commit(r, d, m, reference, fate) => if At(f, r, Preparing) { CommitKeeps(f, r, d, m, reference, fate); }
    case Elsewhere(db) => SameRequests(f, f');
    case Arrive(r, req) => if r !in f.requests { SameDb(f, f'); }
    case Reject(r) => if At(f, r, Preparing) { assert StageOk(f, r); SameDb(f, f'); }
  }

  lemma SameDb(f: Front, f': Front)
    requires FrontOk(f) && f'.db == f.db && f'.inserted == f.inserted && f'.stages.Keys == f'.requests.Keys
    requires forall r :: r in f.requests ==> r in f'.requests && f'.requests[r] == f.requests[r]
    requires forall r :: r in f'.requests && !(r in f.stages && f'.stages[r] == f.stages[r]) ==>
               StageOk(f', r) && (r in f.inserted ==> r in f.requests)
    ensures FrontOk(f')
  {
    forall q | q in f'.requests
      ensures StageOk(f', q)
    {
      if q in f.stages && f'.stages[q] == f.stages[q] { StageKept(f, f', q); }
    }
  }

  lemma SameRequests(f: Front, f': Front)
    requires FrontOk(f) && f' == f.(db := f'.db) && (f'.db == f.db || IdentityKept(f.db, f'.db))
    ensures FrontOk(f')
  {
    forall q | q in f'.requests
      ensures StageOk(f', q)
    {
      StageKept(f, f', q);
    }
  }

  lemma {:induction false} ServeKeeps(f: Front, events: seq<Event>)
    requires FrontOk(f)
    ensures FrontOk(Serve(f, events))
    decreases |events|
  {
    if events != [] {
      HandleKeeps(f, events[0]);
      ServeKeeps(Handle(f, events[0]), events[1..]);
    }
  }

  // ---- what every request can rely on ------------------------------------------------------------------

  ghost predicate Opened(f: Front) {
    UniqueKeys(f.db) && f.requests == map[] && f.stages == map[] && f.inserted == map[]
  }

  /** However requests interleave on both routes, one (organization, key) has at most one dispatch. */
  lemma OneDispatchPerKey(f: Front, events: seq<Event>, d: nat, e: nat)
    requires Opened(f)
    requires var db := Serve(f, events).db;
             && d in db.dispatches && e in db.dispatches
             && db.dispatches[d].org == db.dispatches[e].org && db.dispatches[d].key == db.dispatches[e].key
    ensures d == e
  {
    ServeKeeps(f, events);
  }

  /** Two accepted requests on one key asked for the same operation and were given the same reference. */
  lemma AcceptedAgree(f: Front, events: seq<Event>, r: nat, q: nat, x: string, y: string)
    requires Opened(f)
    requires var g := Serve(f, events);
             At(g, r, Answered(Accepted(x))) && At(g, q, Answered(Accepted(y)))
             && g.requests[r].org == g.requests[q].org && g.requests[r].key == g.requests[q].key
    ensures x == y && Serve(f, events).requests[r].fingerprint == Serve(f, events).requests[q].fingerprint
  {
    ServeKeeps(f, events);
    var g := Serve(f, events);
    assert StageOk(g, r) && StageOk(g, q);
    var d :| d in g.db.dispatches && Serves(g.db.dispatches[d], g.requests[r]) && g.db.dispatches[d].reference == x;
    var e :| e in g.db.dispatches && Serves(g.db.dispatches[e], g.requests[q]) && g.db.dispatches[e].reference == y;
    assert d == e;
  }

  /** At most one request per key ever inserted anything, and it was not one that was answered 409. */
  lemma OneInserter(f: Front, events: seq<Event>, r: nat, q: nat)
    requires Opened(f)
    requires var g := Serve(f, events);
             && r in g.inserted && q in g.inserted && r in g.requests && q in g.requests
             && g.requests[r].org == g.requests[q].org && g.requests[r].key == g.requests[q].key
    ensures r == q && !At(Serve(f, events), r, Answered(Conflict))
  {
    ServeKeeps(f, events);
    var g := Serve(f, events);
    assert StageOk(g, r);
    assert g.inserted[r] == g.inserted[q];
  }

  /** A commit that does not create its dispatch leaves both tables exactly as they were. */
  lemma LoserLeavesNothing(f: Front, r: nat, d: nat, m: nat, reference: string, fate: Fate)
    requires At(f, r, Preparing)
    ensures var f' := Committing(f, r, d, m, reference, fate);
            f'.db == f.db || (f'.inserted == f.inserted[r := d] && d in f'.db.dispatches && d !in f.db.dispatches
                              && Serves(f'.db.dispatches[d], f.requests[r]))
  {}

  /** Some row has this key, or this reference. */
  ghost predicate Clashes(db: Db, req: Request, reference: string) {
    exists e :: e in db.dispatches && (|| (db.dispatches[e].org == req.org && db.dispatches[e].key == req.key)
                                       || db.dispatches[e].reference == reference)
  }

  /** The dispatch a request asks for: QUEUED, unclaimed, under its own columns. */
  ghost predicate Asked(row: Dispatch, req: Request, reference: string, message: Option<nat>) {
    row == Dispatch(req.org, req.key, req.fingerprint, reference, req.campaign, req.contact, req.mailbox, message,
                    Queued, None, None, None)
  }

  /**
   The one commit, column by column. It inserts exactly if nothing clashes and it takes effect: the dispatch asked
   for and, on the exact-message route, a DRAFT for the same contact with subject and body verbatim. The request is
   accepted exactly if it is also acknowledged; a clash is told as a lost race, a failure as an error.
   */
  lemma CommitExactly(f: Front, r: nat, d: nat, m: nat, reference: string, fate: Fate)
    requires At(f, r, Preparing) && d !in f.db.dispatches && m !in f.db.messages
    ensures var req, db, f' := f.requests[r], f.db, Committing(f, r, d, m, reference, fate);
            if Clashes(db, req, reference) then f' == Move(f, r, Lost)
            else if fate == NotApplied then f' == Move(f, r, Answered(ServerError))
            else
              && f'.stages == f.stages[r := Answered(if fate == Acked then Accepted(reference) else ServerError)]
              && f'.requests == f.requests && f'.inserted == f.inserted[r := d]
              && d in f'.db.dispatches && f'.db.dispatches == db.dispatches[d := f'.db.dispatches[d]]
              && match req.fingerprint
                 case ExactRequest(_, _, _, subject, body) =>
                   && Asked(f'.db.dispatches[d], req, reference, Some(m))
                   && f'.db.messages == db.messages[m := Message(req.contact, subject, body, MsgDraft, None, None)]
                 case GeneratedRequest(_, _, _) =>
                   Asked(f'.db.dispatches[d], req, reference, None) && f'.db.messages == db.messages
  {
    var req := f.requests[r];
    assert Clashes(f.db, req, reference) <==> KeyTaken(f.db, req.org, req.key) || ReferenceTaken(f.db, reference);
  }

  /**
   A look-up, before the commit or after a lost race, answers a known key with its reference if the fingerprints
   agree and with a conflict if they differ; an unknown key goes on to the commit, or is an error after a lost race.
   */
  lemma ReadExactly(f: Front, r: nat)
    requires FrontOk(f) && r in f.requests && (f.stages[r] == Arrived || f.stages[r] == Lost)
    ensures var req, f' := f.requests[r], if f.stages[r] == Arrived then Handle(f, Lookup(r)) else Handle(f, Reread(r));
            && f'.db == f.db && r in f'.stages
            && (forall d :: d in Matching(f.db, req.org, req.key) ==>
                  f'.stages[r] == Answered(if f.db.dispatches[d].fingerprint == req.fingerprint
                                           then Accepted(f.db.dispatches[d].reference) else Conflict))
            && (Matching(f.db, req.org, req.key) == {} ==>
                  f'.stages[r] == if f.stages[r] == Arrived then Preparing else Answered(ServerError))
  {
    var req := f.requests[r];
    MatchingExactly(f.db, req.org, req.key);
    forall d | d in Matching(f.db, req.org, req.key)
      ensures Find(f.db, req.org, req.key) == Some(d)
    {}
  }

  /** A request arrives unanswered, and one that is turned down before its commit leaves no row behind. */
  lemma ArrivalAndRejection(f: Front, r: nat, req: Request)
    ensures r !in f.requests ==>
            Handle(f, Arrive(r, req)) == f.(requests := f.requests[r := req], stages := f.stages[r := Arrived])
    ensures At(f, r, Preparing) ==> Handle(f, Reject(r)) == f.(stages := f.stages[r := Answered(Rejected)])
  {}

  lemma MatchingExactly(db: Db, org: string, key: string)
    ensures forall d :: d in Matching(db, org, key) <==>
              d in db.dispatches && db.dispatches[d].org == org && db.dispatches[d].key == key
  {}

  /** A commit that inserts is the acceptance step of the delivery protocol on the same tables. */
  lemma CommitIsAccept(f: Front, r: nat, d: nat, m: nat, reference: string, fate: Fate, s: DeliveryProtocol.System)
    requires At(f, r, Preparing) && s.db == f.db && d !in f.db.dispatches && m !in f.db.messages
    requires Committing(f, r, d, m, reference, fate).db != f.db
    ensures DeliveryProtocol.ApplyAccept(s, d, AcceptanceOf(f.requests[r], m, reference)).db
            == Committing(f, r, d, m, reference, fate).db
  {}

  // ---- the workers keep their side ------------------------------------------------------------------------

  lemma SendKeepsRows(cfg: DeliveryProtocol.Config, s: DeliveryProtocol.System, t: nat, header: string, fate: Fate)
    ensures DeliveryProtocol.ApplyCommitSend(cfg, s, t, header, fate).db.dispatches.Keys == s.db.dispatches.Keys
  {}

  lemma ClaimKeepsRows(s: DeliveryProtocol.System, t: nat, refusal: Option<string>, fate: Fate)
    ensures DeliveryProtocol.ApplyCommitGeneration(s, t, refusal, fate).db.dispatches.Keys == s.db.dispatches.Keys
  {}

  lemma GenerationKeepsRows(s: DeliveryProtocol.System, t: nat, m: nat, fate: Fate)
    ensures DeliveryProtocol.ApplyWriteGeneration(s, t, m, fate).db.dispatches.Keys == s.db.dispatches.Keys
  {}

  lemma SameRowKeys(cfg: DeliveryProtocol.Config, s: DeliveryProtocol.System, step: DeliveryProtocol.Step)
    requires !step.Accept?
    ensures DeliveryProtocol.Apply(cfg, s, step).db.dispatches.Keys == s.db.dispatches.Keys
  {
    match step
    case CommitSend(t, header, fate) => SendKeepsRows(cfg, s, t, header, fate);
    case CommitGeneration(t, refusal, fate) => ClaimKeepsRows(s, t, refusal, fate);
    case WriteGeneration(t, m, fate) => GenerationKeepsRows(s, t, m, fate);
    case _ =>
  }

  /** Every worker, sweep and drain step of the delivery protocol is one that intake tolerates. */
  lemma ProtocolKeepsIdentity(cfg: DeliveryProtocol.Config, s: DeliveryProtocol.System, step: DeliveryProtocol.Step)
    requires DeliveryInvariant.Inv(cfg, s) && !step.Accept?
    ensures IdentityKept(s.db, DeliveryProtocol.Apply(cfg, s, step).db)
  {
    var s' := DeliveryProtocol.Apply(cfg, s, step);
    SameRowKeys(cfg, s, step);
    DeliveryProgress.StepForward(cfg, s, step);
    DeliveryProgress.MessagesStay(cfg, s, step);
    forall d | d in s.db.dispatches
      ensures SameIdentity(s.db.dispatches[d], s'.db.dispatches[d])
    {
      assert DeliveryProgress.Later(DeliveryInvariant.CellOf(s, d), DeliveryInvariant.CellOf(s', d));
    }
  }
}
