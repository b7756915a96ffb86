/**
 followup/work_claiming.py and the two retrying outcome transactions, as methods on the tables they
 update in place. `locked` is the set of rows other open transactions hold, which SKIP LOCKED passes over.
 */
module WorkClaiming {
  import opened DispatchModel

  // ---- ORDER BY id -------------------------------------------------------------------------------

  /** Going down from any element reaches the least one. */
  lemma {:induction false} LeastBelow(s: set<nat>, a: nat) returns (m: nat)
    requires a in s
    ensures m in s && forall x :: x in s ==> m <= x
    decreases a
  {
    if b :| b in s && b < a {
      m := LeastBelow(s, b);
    } else {
      m := a;
    }
  }

  lemma LeastExists(s: set<nat>)
    requires s != {}
    ensures exists m :: m in s && forall x :: x in s ==> m <= x
  {
    var a :| a in s;
    var m := LeastBelow(s, a);
  }

  function Least(s: set<nat>): (m: nat)
    requires s != {}
    ensures m in s && forall x :: x in s ==> m <= x
  {
    LeastExists(s);
    var m :| m in s && forall x :: x in s ==> m <= x;
    m
  }

  function Ascending(s: set<nat>): seq<nat>
    decreases |s|
  {
    if s == {} then [] else [Least(s)] + Ascending(s - {Least(s)})
  }

  lemma {:induction false} AscendingExact(s: set<nat>)
    ensures |Ascending(s)| == |s|
    ensures forall x :: x in Ascending(s) <==> x in s
    ensures forall i, j :: 0 <= i < j < |Ascending(s)| ==> Ascending(s)[i] < Ascending(s)[j]
    decreases |s|
  {
    if s != {} {
      var m := Least(s);
      AscendingExact(s - {m});
      assert |s - {m}| == |s| - 1;
      forall i, j | 0 <= i < j < |Ascending(s)|
        ensures Ascending(s)[i] < Ascending(s)[j]
      {
        assert Ascending(s)[j] in Ascending(s - {m});
      }
    }
  }

  function FirstN(ids: seq<nat>, limit: nat): seq<nat> {
    if |ids| <= limit then ids else ids[..limit]
  }

  function Members(ids: seq<nat>): set<nat> { set x | x in ids }

  // ---- the two sweeps ------------------------------------------------------------------------------

  datatype Sweep = SendSweep | GenerationSweep

  predicate Expired(k: Sweep, db: Db, d: nat, cutoff: Time) {
    match k
    case SendSweep => SendExpired(db, d, cutoff)
    case GenerationSweep => GenExpired(db, d, cutoff)
  }

  function ExpiredIds(k: Sweep, db: Db, cutoff: Time): set<nat> {
    set d | d in db.dispatches && Expired(k, db, d, cutoff)
  }

  function Resolve(k: Sweep, db: Db, d: nat, cutoff: Time): Db {
    match k
    case SendSweep => ResolveSend(db, d, cutoff)
    case GenerationSweep => RequeueGeneration(db, d, cutoff)
  }

  function ResolveAll(k: Sweep, db: Db, ids: seq<nat>, cutoff: Time): Db {
    if ids == [] then db else Resolve(k, ResolveAll(k, db, ids[..|ids| - 1], cutoff), ids[|ids| - 1], cutoff)
  }

  /** SENDING recovers to UNKNOWN and GENERATING to QUEUED. */
  function RecoveredState(k: Sweep): DispatchState {
    if k.SendSweep? then Unknown else Queued
  }

  lemma ResolveOne(k: Sweep, db: Db, d: nat, cutoff: Time)
    requires Expired(k, db, d, cutoff)
    ensures var db' := Resolve(k, db, d, cutoff);
            && db'.dispatches.Keys == db.dispatches.Keys
            && (forall e :: e in db.dispatches && e != d ==> db'.dispatches[e] == db.dispatches[e])
            && db'.dispatches[d].state == RecoveredState(k) && db'.dispatches[d].claimedBy.None?
            && db'.dispatches[d].message == db.dispatches[d].message
            && ExpiredIds(k, db', cutoff) == ExpiredIds(k, db, cutoff) - {d}
  {}

  /** A sweep over distinct expired rows moves those rows, and no row besides them. */
  lemma {:induction false} SweepExact(k: Sweep, db: Db, ids: seq<nat>, cutoff: Time)
    requires forall i :: 0 <= i < |ids| ==> ids[i] in ExpiredIds(k, db, cutoff)
    requires forall i, j :: 0 <= i < j < |ids| ==> ids[i] != ids[j]
    ensures var db' := ResolveAll(k, db, ids, cutoff);
            && db'.dispatches.Keys == db.dispatches.Keys
            && (forall e :: e in db.dispatches && e !in ids ==> db'.dispatches[e] == db.dispatches[e])
            && (forall e :: e in ids ==> e in db.dispatches && db'.dispatches[e].state == RecoveredState(k)
                                         && db'.dispatches[e].claimedBy.None?)
            && ExpiredIds(k, db', cutoff) == ExpiredIds(k, db, cutoff) - Members(ids)
  {
    if ids != [] {
      var n := |ids| - 1;
      var last, init := ids[n], ids[..n];
      PrefixApart(ids, n);
      SweepExact(k, db, init, cutoff);
      var mid := ResolveAll(k, db, init, cutoff);
      assert last in ExpiredIds(k, mid, cutoff);
      ResolveOne(k, mid, last, cutoff);
      OneMember(init, last);
      assert ids == init + [last];
    }
  }

  /** Whatever the sweep has resolved so far, the next selected row still satisfies its re-check. */
  lemma SweepNext(k: Sweep, db: Db, rows: seq<nat>, i: nat, cutoff: Time)
    requires i < |rows|
    requires forall j :: 0 <= j < |rows| ==> rows[j] in ExpiredIds(k, db, cutoff)
    requires forall a, b :: 0 <= a < b < |rows| ==> rows[a] != rows[b]
    ensures Expired(k, ResolveAll(k, db, rows[..i], cutoff), rows[i], cutoff)
    ensures rows[..i + 1] == rows[..i] + [rows[i]]
    ensures ResolveAll(k, db, rows[..i + 1], cutoff)
            == Resolve(k, ResolveAll(k, db, rows[..i], cutoff), rows[i], cutoff)
  {
    var init := rows[..i];
    PrefixApart(rows, i);
    SweepExact(k, db, init, cutoff);
    assert rows[i] in ExpiredIds(k, ResolveAll(k, db, init, cutoff), cutoff);
    assert rows[..i + 1][..i] == init;
  }

  lemma OneMember(init: seq<nat>, last: nat)
    ensures Members(init + [last]) == Members(init) + {last}
  {}

  lemma PrefixApart(rows: seq<nat>, i: nat)
    requires i < |rows| && forall a, b :: 0 <= a < b < |rows| ==> rows[a] != rows[b]
    ensures rows[i] !in rows[..i] && rows[i] !in Members(rows[..i])
    ensures forall j :: 0 <= j < i ==> rows[..i][j] == rows[j]
    ensures rows[..i + 1] == rows[..i] + [rows[i]]
  {}

  /** One sweep with nothing locked, and n of them in a row at one instant. */
  function SweepOnce(k: Sweep, db: Db, cutoff: Time, limit: nat): Db {
    ResolveAll(k, db, FirstN(Ascending(ExpiredIds(k, db, cutoff)), limit), cutoff)
  }

  function SweepTimes(k: Sweep, db: Db, cutoff: Time, limit: nat, n: nat): Db {
    if n == 0 then db else SweepOnce(k, SweepTimes(k, db, cutoff, limit, n - 1), cutoff, limit)
  }

  lemma {:induction false} Distinct(ids: seq<nat>)
    requires forall i, j :: 0 <= i < j < |ids| ==> ids[i] != ids[j]
    ensures |Members(ids)| == |ids|
  {
    if ids == [] {
      assert Members(ids) == {};
    } else {
      var n := |ids| - 1;
      Distinct(ids[..n]);
      assert ids == ids[..n] + [ids[n]];
      assert ids[n] !in ids[..n];
      assert Members(ids) == Members(ids[..n]) + {ids[n]};
    }
  }

  /** The rows a sweep selects: distinct, expired, and as many as there are up to the limit. */
  lemma Selected(s: set<nat>, limit: nat)
    ensures var ids := FirstN(Ascending(s), limit);
            && (forall i :: 0 <= i < |ids| ==> ids[i] in s)
            && (forall i, j :: 0 <= i < j < |ids| ==> ids[i] != ids[j])
            && |ids| == if |s| <= limit then |s| else limit
  {
    var all := Ascending(s);
    var ids := FirstN(all, limit);
    AscendingExact(s);
    assert forall i :: 0 <= i < |ids| ==> ids[i] == all[i];
  }

  lemma Removed(all: set<nat>, ids: seq<nat>)
    requires forall i :: 0 <= i < |ids| ==> ids[i] in all
    requires forall i, j :: 0 <= i < j < |ids| ==> ids[i] != ids[j]
    ensures |all - Members(ids)| == |all| - |ids|
  {
    Distinct(ids);
    var gone := Members(ids);
    assert gone <= all;
    assert all == gone + (all - gone) && gone !! all - gone;
  }

  lemma SweepShrinks(k: Sweep, db: Db, cutoff: Time, limit: nat)
    ensures var n, n' := |ExpiredIds(k, db, cutoff)|, |ExpiredIds(k, SweepOnce(k, db, cutoff, limit), cutoff)|;
            n' == if n <= limit then 0 else n - limit
  {
    var expired := ExpiredIds(k, db, cutoff);
    var ids := FirstN(Ascending(expired), limit);
    Selected(expired, limit);
    SweepExact(k, db, ids, cutoff);
    Removed(expired, ids);
  }

  /** Repeated sweeps empty the expired set in exactly ceil(n / limit) rounds; limit = 0 never does. */
  lemma {:induction false} SweepsConverge(k: Sweep, db: Db, cutoff: Time, limit: nat, n: nat)
    ensures |ExpiredIds(k, SweepTimes(k, db, cutoff, limit, n), cutoff)|
            == if |ExpiredIds(k, db, cutoff)| <= n * limit then 0 else |ExpiredIds(k, db, cutoff)| - n * limit
  {
    if n > 0 {
      SweepsConverge(k, db, cutoff, limit, n - 1);
      SweepShrinks(k, SweepTimes(k, db, cutoff, limit, n - 1), cutoff, limit);
      assert n * limit == (n - 1) * limit + limit;
    }
  }

  /** With nothing expired a sweep changes nothing at all. */
  lemma SweepIdle(k: Sweep, db: Db, cutoff: Time, limit: nat)
    requires ExpiredIds(k, db, cutoff) == {}
    ensures SweepOnce(k, db, cutoff, limit) == db
  {}

  // ---- one sweep, in terms of columns ------------------------------------------------------------------

  /** A claimed row of the sweep's kind whose claim carries no time, or one before the cutoff. */
  predicate Lapsed(k: Sweep, row: Dispatch, cutoff: Time) {
    && (match k
        case SendSweep => row.state == Sending
        case GenerationSweep => row.state == Generating && row.message == None)
    && (match row.claimedAt
        case None => true
        case Some(at) => at < cutoff)
  }

  /** Lowest ids first, none locked, and none left over unless the limit was reached. */
  ghost predicate Picked(k: Sweep, db: Db, ids: seq<nat>, cutoff: Time, limit: nat, locked: set<nat>) {
    && |ids| <= limit
    && (forall i, j :: 0 <= i < j < |ids| ==> ids[i] < ids[j])
    && (forall d :: d in ids ==> d in db.dispatches && d !in locked && Lapsed(k, db.dispatches[d], cutoff))
    && (forall d :: d in db.dispatches && d !in locked && Lapsed(k, db.dispatches[d], cutoff) && d !in ids ==>
          |ids| == limit && forall i :: 0 <= i < |ids| ==> ids[i] < d)
  }

  /** A picked row is UNKNOWN, or QUEUED again, and free; every other row, and so every live claim, is as it was. */
  ghost predicate RowsMoved(k: Sweep, db: Db, db': Db, ids: seq<nat>) {
    && db'.dispatches.Keys == db.dispatches.Keys
    && (forall d :: d in db.dispatches && d !in ids ==> db'.dispatches[d] == db.dispatches[d])
    && (forall d :: d in ids && d in db.dispatches ==>
          db'.dispatches[d] == match k
                               case SendSweep =>
                                 db.dispatches[d].(state := Unknown, claimedBy := None, claimedAt := None,
                                                   error := Some(LEASE_EXPIRED))
                               case GenerationSweep =>
                                 db.dispatches[d].(state := Queued, claimedBy := None, claimedAt := None))
  }

  predicate LinkedBy(db: Db, ids: seq<nat>, m: nat) {
    exists i :: 0 <= i < |ids| && ids[i] in db.dispatches && db.dispatches[ids[i]].message == Some(m)
  }

  /** The Message of a picked send is UNKNOWN too, if it was still SENDING or a DRAFT; no other Message changes. */
  ghost predicate MessagesMoved(k: Sweep, db: Db, db': Db, ids: seq<nat>) {
    && db'.messages.Keys == db.messages.Keys
    && forall m :: m in db.messages ==>
         db'.messages[m] ==
         if k == SendSweep && LinkedBy(db, ids, m)
            && (db.messages[m].status == MsgSending || db.messages[m].status == MsgDraft)
         then db.messages[m].(status := MsgUnknown, error := Some(LEASE_EXPIRED))
         else db.messages[m]
  }

  lemma LapsedIsExpired(k: Sweep, db: Db, d: nat, cutoff: Time)
    ensures Expired(k, db, d, cutoff) <==> d in db.dispatches && Lapsed(k, db.dispatches[d], cutoff)
  {}

  /** The lowest ones, in order. */
  lemma LowestFirst(s: set<nat>, limit: nat)
    ensures var ids := FirstN(Ascending(s), limit);
            && |ids| <= limit
            && (forall i, j :: 0 <= i < j < |ids| ==> ids[i] < ids[j])
            && (forall d :: d in ids ==> d in s)
            && (forall d :: d in s && d !in ids ==> |ids| == limit && forall i :: 0 <= i < |ids| ==> ids[i] < d)
  {
    var all, ids := Ascending(s), FirstN(Ascending(s), limit);
    AscendingExact(s);
    assert forall i :: 0 <= i < |ids| ==> ids[i] == all[i] && all[i] in ids;
    forall d | d in s && d !in ids ensures |ids| == limit && forall i :: 0 <= i < |ids| ==> ids[i] < d {
      var j :| 0 <= j < |all| && all[j] == d;
      assert |ids| <= j;
    }
  }

  lemma PickedExactly(k: Sweep, db: Db, cutoff: Time, limit: nat, locked: set<nat>)
    ensures Picked(k, db, FirstN(Ascending(ExpiredIds(k, db, cutoff) - locked), limit), cutoff, limit, locked)
  {
    var s := ExpiredIds(k, db, cutoff) - locked;
    LowestFirst(s, limit);
    forall d ensures d in s <==> d in db.dispatches && d !in locked && Lapsed(k, db.dispatches[d], cutoff) {
      LapsedIsExpired(k, db, d, cutoff);
    }
  }

  lemma ResolvedRow(k: Sweep, db: Db, d: nat, cutoff: Time)
    requires Expired(k, db, d, cutoff)
    ensures RowsMoved(k, db, Resolve(k, db, d, cutoff), [d]) && MessagesMoved(k, db, Resolve(k, db, d, cutoff), [d])
  {
    assert [d][0] == d;
  }

  lemma {:induction false} RowsMovedAll(k: Sweep, db: Db, ids: seq<nat>, cutoff: Time)
    requires forall i :: 0 <= i < |ids| ==> ids[i] in ExpiredIds(k, db, cutoff)
    requires forall i, j :: 0 <= i < j < |ids| ==> ids[i] != ids[j]
    ensures RowsMoved(k, db, ResolveAll(k, db, ids, cutoff), ids)
    ensures MessagesMoved(k, db, ResolveAll(k, db, ids, cutoff), ids)
  {
    if ids != [] {
      var n := |ids| - 1;
      var init, last := ids[..n], ids[n];
      RowsMovedAll(k, db, init, cutoff);
      PrefixApart(ids, n);
      SweepExact(k, db, init, cutoff);
      var mid := ResolveAll(k, db, init, cutoff);
      assert last in ExpiredIds(k, mid, cutoff);
      ResolvedRow(k, mid, last, cutoff);
      assert ids == init + [last];
      MovedOn(k, db, mid, Resolve(k, mid, last, cutoff), init, last);
    }
  }

  lemma MovedOn(k: Sweep, db: Db, mid: Db, db': Db, init: seq<nat>, last: nat)
    requires RowsMoved(k, db, mid, init) && MessagesMoved(k, db, mid, init) && last !in init && last in db.dispatches
    requires RowsMoved(k, mid, db', [last]) && MessagesMoved(k, mid, db', [last])
    ensures RowsMoved(k, db, db', init + [last]) && MessagesMoved(k, db, db', init + [last])
  {
    RowsMovedOn(k, db, mid, db', init, last);
    var ids := init + [last];
    assert mid.dispatches[last] == db.dispatches[last];
    forall m | m in db.messages
      ensures m in db'.messages && (LinkedBy(db, ids, m) <==> LinkedBy(db, init, m) || LinkedBy(mid, [last], m))
    {
      LinkedMore(db, init, last, m);
      LinkedMore(mid, [], last, m);
    }
  }

  lemma RowsMovedOn(k: Sweep, db: Db, mid: Db, db': Db, init: seq<nat>, last: nat)
    requires RowsMoved(k, db, mid, init) && last !in init && last in db.dispatches && RowsMoved(k, mid, db', [last])
    ensures RowsMoved(k, db, db', init + [last])
  {}

  lemma LinkedMore(db: Db, init: seq<nat>, last: nat, m: nat)
    requires last in db.dispatches
    ensures LinkedBy(db, init + [last], m) <==> LinkedBy(db, init, m) || db.dispatches[last].message == Some(m)
    ensures LinkedBy(db, [last], m) <==> db.dispatches[last].message == Some(m)
  {
    var ids := init + [last];
    assert ids[|init|] == last && [last][0] == last;
    assert forall i :: 0 <= i < |init| ==> ids[i] == init[i];
  }

  lemma SweepMeans(k: Sweep, db: Db, db': Db, ids: seq<nat>, cutoff: Time, limit: nat, locked: set<nat>)
    requires ids == FirstN(Ascending(ExpiredIds(k, db, cutoff) - locked), limit)
    requires db' == ResolveAll(k, db, ids, cutoff)
    ensures Swept(k, db, db', ids, cutoff, limit, locked)
  {
    PickedExactly(k, db, cutoff, limit, locked);
    Selected(ExpiredIds(k, db, cutoff) - locked, limit);
    RowsMovedAll(k, db, ids, cutoff);
  }

  ghost predicate Swept(k: Sweep, db: Db, db': Db, ids: seq<nat>, cutoff: Time, limit: nat, locked: set<nat>) {
    Picked(k, db, ids, cutoff, limit, locked) && RowsMoved(k, db, db', ids) && MessagesMoved(k, db, db', ids)
  }

  // ---- retried commits ----------------------------------------------------------------------------------

  type Fates = f: seq<Fate> | |f| == TRIES witness [Acked, Acked, Acked]

  /** The first attempt whose commit reached the database; TRIES if none did. */
  function FirstApplied(fates: Fates, i: nat): (k: nat)
    requires i <= TRIES
    ensures i <= k <= TRIES && (k < TRIES ==> !fates[k].NotApplied?)
    ensures forall j :: i <= j < k ==> fates[j].NotApplied?
    decreases TRIES - i
  {
    if i == TRIES || !fates[i].NotApplied? then i else FirstApplied(fates, i + 1)
  }

  /** Whether a retried write reached the table, given the fence at the first commit that did, and what is reported. */
  predicate Written(fates: Fates, fence: bool) {
    fence && FirstApplied(fates, 0) < TRIES
  }

  predicate Reported(fates: Fates, fence: bool) {
    Written(fates, fence) && fates[FirstApplied(fates, 0)].Acked?
  }

  /** Some commit took effect, was not acknowledged, and was the first to take effect. */
  predicate LostAck(fates: Fates) {
    exists i :: 0 <= i < TRIES && fates[i].AppliedUnacked? && forall j :: 0 <= j < i ==> fates[j].NotApplied?
  }

  /**
   A reported write happened. The converse, that an unreported write did not happen, fails exactly when
   the claim still held the row and an acknowledgement was lost before any commit was acknowledged.
   */
  lemma ReportedExactly(fates: Fates, fence: bool)
    ensures Reported(fates, fence) ==> Written(fates, fence)
    ensures (Written(fates, fence) ==> Reported(fates, fence)) <==> !(fence && LostAck(fates))
  {}

  /** The input on which "not persisted" is reported for an outcome that is in the database. */
  lemma WrittenButUnreported()
    ensures var fates: Fates := [AppliedUnacked, Acked, Acked];
            Written(fates, true) && !Reported(fates, true)
  {}

  /** The tables as each try finds them, other actors having worked meanwhile. */
  type Found = f: seq<Db> | |f| == TRIES witness [Db(map[], map[]), Db(map[], map[]), Db(map[], map[])]

  /** From SENDING on, a claim that has lost its row does not get it back. */
  lemma RankKept(db: Db, db': Db, c: Claim)
    requires RowsLater(db, db') && c.dispatch in db.dispatches && Rank(db.dispatches[c.dispatch]) >= 2
    ensures c.dispatch in db'.dispatches && Rank(db'.dispatches[c.dispatch]) >= 2
    ensures !SendFence(db, c) ==> !SendFence(db', c)
  {}

  /** The row has its Message or its final state. */
  predicate Decided(db: Db, d: nat) {
    d in db.dispatches && (db.dispatches[d].message.Some? || db.dispatches[d].state.Terminal())
  }

  lemma DecidedKept(db: Db, db': Db, d: nat)
    requires RowsLater(db, db')
    ensures Decided(db, d) ==> Decided(db', d)
  {}

  lemma FinishOnce(db: Db, c: Claim, state: DispatchState, error: Option<string>)
    requires state.Terminal()
    ensures Finish(Finish(db, c, state, error), c, state, error) == Finish(db, c, state, error)
    ensures !SendFence(Finish(db, c, state, error), c)
  {}

  /** The effect of one applied Transaction G2: the Message and the fenced move together, or a fenced failure. */
  function GenerationOutcome(db: Db, c: Claim, contact: nat, draft: Option<Draft>, failure: string, m: nat): Db {
    if !GenFence(db, c) then db
    else if draft.None? then FailGeneration(db, c, failure)
    else CompleteGeneration(
           db.(messages := db.messages[m := DraftMessage(contact, draft.value.subject, draft.value.body)]), c, m)
  }

  /** No try of Transaction G2 ends in an acknowledged commit or a failed fence: all it can say is "database failed". */
  predicate Undecided(fates: Fates, fence: bool) {
    var k := FirstApplied(fates, 0);
    k == TRIES || (fence && fates[k].AppliedUnacked? && forall j :: k < j < TRIES ==> fates[j].NotApplied?)
  }

  /**
   Under the fence the row is QUEUED with a new DRAFT of the text, or FAILED with the reason, and free; its claim
   passes no more. Without the fence nothing happens.
   */
  lemma GenerationOnce(db: Db, c: Claim, contact: nat, draft: Option<Draft>, failure: string, m: nat)
    ensures var db' := GenerationOutcome(db, c, contact, draft, failure, m);
            && !GenFence(db', c)
            && (!GenFence(db, c) ==> db' == db)
            && (GenFence(db, c) && draft.None? ==>
                  && db'.messages == db.messages
                  && db'.dispatches == db.dispatches[c.dispatch := db.dispatches[c.dispatch].(
                       state := Failed, claimedBy := None, claimedAt := None, error := Some(failure))])
            && (GenFence(db, c) && draft.Some? ==>
                  && db'.messages == db.messages[m :=
                       Message(contact, draft.value.subject, draft.value.body, MsgDraft, None, None)]
                  && db'.dispatches == db.dispatches[c.dispatch := db.dispatches[c.dispatch].(
                       state := Queued, claimedBy := None, claimedAt := None, message := Some(m))])
  {}

  /** Under the fence the row is final and free and its Message says the same; without it nothing happens. */
  lemma FinishWrites(db: Db, c: Claim, state: DispatchState, error: Option<string>)
    requires state.Terminal()
    ensures var db' := Finish(db, c, state, error);
            && (!SendFence(db, c) ==> db' == db)
            && (SendFence(db, c) ==>
                  && db'.dispatches == db.dispatches[c.dispatch := db.dispatches[c.dispatch].(
                       state := state, claimedBy := None, claimedAt := None, error := error)]
                  && db'.messages.Keys == db.messages.Keys
                  && forall m :: m in db.messages ==>
                       db'.messages[m] == if db.dispatches[c.dispatch].message != Some(m) then db.messages[m]
                                          else db.messages[m].(error := error, status := match state
                                                                                         case Sent => MsgSent
                                                                                         case Failed => MsgFailed
                                                                                         case _ => MsgUnknown))
  {}

  /** A late note is put behind the error text of an UNKNOWN row, and changes nothing else. */
  lemma NoteAppends(db: Db, d: nat, org: string, note: string)
    ensures var db' := AnnotateUnknown(db, d, org, note);
            if d in db.dispatches && db.dispatches[d].org == org && db.dispatches[d].state == Unknown then
              var was := match db.dispatches[d].error case None => "" case Some(text) => text;
              db' == db.(dispatches := db.dispatches[d := db.dispatches[d].(error := Some(was + " | " + note))])
            else db' == db
  {}

  lemma FinishSettles(db: Db, c: Claim, state: DispatchState, error: Option<string>)
    requires state.Terminal()
    ensures var db' := Finish(db, c, state, error);
            && !SendFence(db', c) && (!SendFence(db, c) ==> db' == db)
            && (c.dispatch in db.dispatches && Rank(db.dispatches[c.dispatch]) >= 2 ==>
                  c.dispatch in db'.dispatches && Rank(db'.dispatches[c.dispatch]) >= 2)
  {}

  lemma OutcomeDecides(db: Db, g: Generated, m: nat)
    ensures var db' := GenerationOutcome(db, g.claim, g.contact, g.draft, g.failure, m);
            && (GenFence(db, g.claim) ==> Decided(db', g.claim.dispatch)) && (!GenFence(db, g.claim) ==> db' == db)
            && (m !in db.messages ==> MessagesKept(db, db'))
    ensures Decided(db, g.claim.dispatch) ==> !GenFence(db, g.claim)
  {}

  // ---- what the tries of Transaction C add up to ----------------------------------------------------------------

  datatype Report = Report(claim: Claim, state: DispatchState, error: Option<string>)

  /** The tables after one try. */
  function AfterReport(db: Db, fate: Fate, r: Report): Db
    requires r.state.Terminal()
  {
    if fate.NotApplied? then db else Finish(db, r.claim, r.state, r.error)
  }

  /** Between two tries rows only move forward. */
  ghost predicate ReportFollows(found: Found, fates: Fates, r: Report, i: nat)
    requires r.state.Terminal() && 0 < i < TRIES
  {
    RowsLater(AfterReport(found[i - 1], fates[i - 1], r), found[i])
  }

  ghost predicate ReportChain(start: Db, found: Found, fates: Fates, r: Report)
    requires r.state.Terminal()
  {
    && RowsLater(start, found[0])
    && forall i {:trigger ReportFollows(found, fates, r, i)} :: 0 < i < TRIES ==> ReportFollows(found, fates, r, i)
  }

  predicate Committed(db: Db, c: Claim) { c.dispatch in db.dispatches && Rank(db.dispatches[c.dispatch]) >= 2 }

  /** At try i the claim's row is SENDING or final; after the first commit to take effect the claim has lost it. */
  lemma {:induction false} ReportTryAt(start: Db, found: Found, fates: Fates, r: Report, i: nat)
    requires r.state.Terminal() && ReportChain(start, found, fates, r) && Committed(start, r.claim) && i < TRIES
    ensures Committed(found[i], r.claim)
    ensures FirstApplied(fates, 0) < i ==> !SendFence(found[i], r.claim)
  {
    if i == 0 {
      RankKept(start, found[0], r.claim);
    } else {
      ReportTryAt(start, found, fates, r, i - 1);
      FinishSettles(found[i - 1], r.claim, r.state, r.error);
      assert ReportFollows(found, fates, r, i);
      RankKept(AfterReport(found[i - 1], fates[i - 1], r), found[i], r.claim);
    }
  }

  /**
   Of n tries only the first whose commit takes effect changes anything, and what it does is decided by the fence
   as it finds it; success means that this commit was acknowledged under the fence.
   */
  ghost predicate ReportedOnce(found: Found, fates: Fates, r: Report, n: nat, persisted: bool)
    requires r.state.Terminal() && n <= TRIES
  {
    var k := FirstApplied(fates, 0);
    && (k < TRIES <==> k < n)
    && (forall i :: 0 <= i < n && i != k ==> AfterReport(found[i], fates[i], r) == found[i])
    && persisted == (k < TRIES && Reported(fates, SendFence(found[k], r.claim)))
  }

  lemma ReportTriesMean(start: Db, found: Found, fates: Fates, r: Report, n: nat)
    requires r.state.Terminal() && ReportChain(start, found, fates, r) && Committed(start, r.claim) && 0 < n <= TRIES
    requires forall i :: 0 <= i < n - 1 ==> !fates[i].Acked?
    requires n == TRIES || fates[n - 1].Acked?
    ensures ReportedOnce(found, fates, r, n, fates[n - 1].Acked? && SendFence(found[n - 1], r.claim))
  {
    var k := FirstApplied(fates, 0);
    forall i | 0 <= i < n && i != k
      ensures AfterReport(found[i], fates[i], r) == found[i] && (k < i ==> !SendFence(found[i], r.claim))
    {
      ReportTryAt(start, found, fates, r, i);
      FinishSettles(found[i], r.claim, r.state, r.error);
    }
  }

  // ---- what the tries of Transaction G2 add up to -----------------------------------------------------------------

  datatype Generated = Generated(claim: Claim, contact: nat, draft: Option<Draft>, failure: string)

  /** Message numbers, one per try, none of which is in use where it is tried. */
  ghost predicate Unused(keys: seq<nat>, found: Found) {
    |keys| == TRIES && forall i :: 0 <= i < TRIES ==> keys[i] !in found[i].messages
  }

  function AfterGenerated(db: Db, fate: Fate, g: Generated, key: nat): Db {
    if fate.NotApplied? then db else GenerationOutcome(db, g.claim, g.contact, g.draft, g.failure, key)
  }

  ghost predicate GeneratedFollows(found: Found, fates: Fates, g: Generated, keys: seq<nat>, i: nat)
    requires |keys| == TRIES && 0 < i < TRIES
  {
    RowsLater(AfterGenerated(found[i - 1], fates[i - 1], g, keys[i - 1]), found[i])
  }

  ghost predicate GeneratedChain(found: Found, fates: Fates, g: Generated, keys: seq<nat>)
    requires |keys| == TRIES
  {
    forall i {:trigger GeneratedFollows(found, fates, g, keys, i)} ::
      0 < i < TRIES ==> GeneratedFollows(found, fates, g, keys, i)
  }

  /** After this try there is another. */
  predicate GoesOn(fate: Fate, db: Db, c: Claim) {
    fate.NotApplied? || (fate.AppliedUnacked? && GenFence(db, c))
  }

  lemma {:induction false} GeneratedTryAt(found: Found, fates: Fates, g: Generated, keys: seq<nat>, i: nat)
    requires |keys| == TRIES && GeneratedChain(found, fates, g, keys) && i < TRIES
    requires forall j :: 0 <= j < i ==> GoesOn(fates[j], found[j], g.claim)
    ensures FirstApplied(fates, 0) < i ==> Decided(found[i], g.claim.dispatch)
  {
    if i > 0 {
      GeneratedTryAt(found, fates, g, keys, i - 1);
      OutcomeDecides(found[i - 1], g, keys[i - 1]);
      assert GeneratedFollows(found, fates, g, keys, i);
      DecidedKept(AfterGenerated(found[i - 1], fates[i - 1], g, keys[i - 1]), found[i], g.claim.dispatch);
    }
  }

  /**
   The same for Transaction G2, which also tells a lost fence from a database that never answered. The one
   change adds a Message together with its link, or fails the row; no Message that was there is touched.
   */
  ghost predicate GeneratedOnce(found: Found, fates: Fates, g: Generated, keys: seq<nat>, n: nat,
                                written: bool, undecided: bool)
    requires |keys| == TRIES && n <= TRIES
  {
    var k := FirstApplied(fates, 0);
    && (k < TRIES <==> k < n)
    && (forall i :: 0 <= i < n && i != k ==> AfterGenerated(found[i], fates[i], g, keys[i]) == found[i])
    && (k < TRIES ==> MessagesKept(found[k], AfterGenerated(found[k], fates[k], g, keys[k])))
    && written == (k < TRIES && Reported(fates, GenFence(found[k], g.claim)))
    && undecided == (k == TRIES || Undecided(fates, GenFence(found[k], g.claim)))
  }

  ghost predicate MessagesKept(db: Db, db': Db) {
    forall m :: m in db.messages ==> m in db'.messages && db'.messages[m] == db.messages[m]
  }

  /** A commit after the first to take effect finds the fence gone and ends the tries. */
  lemma GeneratedTriesMean(found: Found, fates: Fates, g: Generated, keys: seq<nat>, n: nat)
    requires Unused(keys, found) && GeneratedChain(found, fates, g, keys) && 0 < n <= TRIES
    requires forall i :: 0 <= i < n - 1 ==> GoesOn(fates[i], found[i], g.claim)
    requires n == TRIES || !GoesOn(fates[n - 1], found[n - 1], g.claim)
    ensures GeneratedOnce(found, fates, g, keys, n, fates[n - 1].Acked? && GenFence(found[n - 1], g.claim),
                          GoesOn(fates[n - 1], found[n - 1], g.claim))
  {
    var k := FirstApplied(fates, 0);
    forall i | 0 <= i < n && i != k
      ensures AfterGenerated(found[i], fates[i], g, keys[i]) == found[i] && (k < i ==> !GenFence(found[i], g.claim))
    {
      GeneratedTryAt(found, fates, g, keys, i);
      OutcomeDecides(found[i], g, keys[i]);
    }
    if k < TRIES {
      OutcomeDecides(found[k], g, keys[k]);
    }
  }

  /** A QUEUED row, with or without its Message. */
  predicate Awaits(dispatches: map<nat, Dispatch>, d: nat, withMessage: bool) {
    d in dispatches && dispatches[d].state == Queued && (dispatches[d].message != None <==> withMessage)
  }

  // ---- the tables ------------------------------------------------------------------------------------------

  class DispatchStore {
    var dispatches: map<nat, Dispatch>
    var messages: map<nat, Message>

    function View(): Db
      reads this
    {
      Db(dispatches, messages)
    }

    constructor (db: Db)
      ensures View() == db
    {
      dispatches, messages := db.dispatches, db.messages;
    }

    /** Oldest claimable row no other transaction holds, moved to SENDING under this worker's token. */
    method ClaimNextExternalDispatch(worker: string, now: Time, locked: set<nat>) returns (claim: Option<Claim>)
      modifies this
      ensures messages == old(messages)
      ensures claim.None? ==> dispatches == old(dispatches) && forall d :: Awaits(dispatches, d, true) ==> d in locked
      ensures claim.Some? ==>
                var d := claim.value.dispatch;
                && Awaits(old(dispatches), d, true) && d !in locked
                && (forall e :: Awaits(old(dispatches), e, true) && e !in locked ==> d <= e)
                && claim.value == Claim(d, old(dispatches)[d].org, worker, now)
                && dispatches == old(dispatches)[d := old(dispatches)[d].(
                     state := Sending, claimedBy := Some(worker), claimedAt := Some(now))]
    {
      var candidates := set d | d in dispatches && SendClaimable(View(), d) && d !in locked;
      assert forall d :: SendClaimable(View(), d) && d !in locked ==> d in candidates;
      if candidates == {} {
        return None;
      }
      var d := Least(candidates);
      var c := Claim(d, dispatches[d].org, worker, now);
      dispatches := dispatches[d := Claimed(dispatches[d], Sending, worker, now)];
      claim := Some(c);
    }

    /** The same shape for rows that still await their Message. */
    method ClaimNextGeneration(worker: string, now: Time, locked: set<nat>) returns (claim: Option<Claim>)
      modifies this
      ensures messages == old(messages)
      ensures claim.None? ==> dispatches == old(dispatches) && forall d :: Awaits(dispatches, d, false) ==> d in locked
      ensures claim.Some? ==>
                var d := claim.value.dispatch;
                && Awaits(old(dispatches), d, false) && d !in locked
                && (forall e :: Awaits(old(dispatches), e, false) && e !in locked ==> d <= e)
                && claim.value == Claim(d, old(dispatches)[d].org, worker, now)
                && dispatches == old(dispatches)[d := old(dispatches)[d].(
                     state := Generating, claimedBy := Some(worker), claimedAt := Some(now))]
    {
      var candidates := set d | d in dispatches && GenClaimable(View(), d) && d !in locked;
      assert forall d :: GenClaimable(View(), d) && d !in locked ==> d in candidates;
      if candidates == {} {
        return None;
      }
      var d := Least(candidates);
      var c := Claim(d, dispatches[d].org, worker, now);
      dispatches := dispatches[d := Claimed(dispatches[d], Generating, worker, now)];
      claim := Some(c);
    }

    /** The sweep, in terms of what was in the tables before. */
    method RecoverExpired(k: Sweep, now: Time, lease: nat, limit: nat, locked: set<nat>) returns (recovered: seq<nat>)
      modifies this
      ensures Swept(k, old(View()), View(), recovered, now - lease, limit, locked)
    {
      ghost var start := View();
      recovered := SelectAndUpdate(k, now - lease, limit, locked);
      SweepMeans(k, start, View(), recovered, now - lease, limit, locked);
    }

    /** SELECT expired ORDER BY id LIMIT limit SKIP LOCKED, then one re-checked UPDATE per row. */
    method SelectAndUpdate(k: Sweep, cutoff: Time, limit: nat, locked: set<nat>) returns (recovered: seq<nat>)
      modifies this
      ensures recovered == FirstN(Ascending(ExpiredIds(k, old(View()), cutoff) - locked), limit)
      ensures View() == ResolveAll(k, old(View()), recovered, cutoff)
    {
      ghost var start := View();
      var rows := FirstN(Ascending(ExpiredIds(k, View(), cutoff) - locked), limit);
      Selected(ExpiredIds(k, View(), cutoff) - locked, limit);
      recovered := [];
      for i := 0 to |rows|
        invariant recovered == rows[..i]
        invariant View() == ResolveAll(k, start, rows[..i], cutoff)
      {
        SweepNext(k, start, rows, i, cutoff);
        if Expired(k, View(), rows[i], cutoff) {
          UpdateExpired(k, rows[i], cutoff);
          recovered := recovered + [rows[i]];
        }
      }
      assert rows[..|rows|] == rows;
    }

    method UpdateExpired(k: Sweep, d: nat, cutoff: Time)
      requires Expired(k, View(), d, cutoff)
      modifies this
      ensures View() == Resolve(k, old(View()), d, cutoff)
    {
      var row := dispatches[d];
      match k
      case SendSweep =>
        dispatches := dispatches[d := Released(row, Unknown).(error := Some(LEASE_EXPIRED))];
        if row.message.Some? && row.message.value in messages
           && (messages[row.message.value].status.MsgSending? || messages[row.message.value].status.MsgDraft?) {
          messages := WithStatus(messages, row.message, MsgUnknown, Some(LEASE_EXPIRED));
        }
      case GenerationSweep =>
        dispatches := dispatches[d := Released(row, Queued)];
    }

    /** The fenced outcome write; a target that is not terminal is refused with nothing written. */
    method FinishExternalDispatch(c: Claim, state: DispatchState, error: Option<string>)
      returns (refused: bool, won: bool)
      modifies this
      ensures refused == !state.Terminal()
      ensures refused ==> View() == old(View()) && !won
      ensures !refused ==> won == SendFence(old(View()), c) && View() == Finish(old(View()), c, state, error)
    {
      refused, won := !state.Terminal(), false;
      if !refused && SendFence(View(), c) {
        var row := dispatches[c.dispatch];
        dispatches := dispatches[c.dispatch := Released(row, state).(error := error)];
        messages := WithStatus(messages, row.message, StatusOf(state), error);
        won := true;
      }
    }

    /** The tables as other actors have left them. */
    method Find(db: Db)
      modifies this
      ensures View() == db
    {
      dispatches, messages := db.dispatches, db.messages;
    }

    /** One try of the fenced outcome write. */
    method TryReport(r: Report, fate: Fate) returns (won: bool)
      requires r.state.Terminal()
      modifies this
      ensures View() == AfterReport(old(View()), fate, r)
      ensures won == (!fate.NotApplied? && SendFence(old(View()), r.claim))
    {
      won := false;
      if !fate.NotApplied? {
        var refused;
        refused, won := FinishExternalDispatch(r.claim, r.state, r.error);
      }
    }

    /**
     Transaction C: up to three tries of the fenced write, each commit with its own fate, sweeps and drains
     acting before each. It is entered for a claim that Transaction B has committed.
     */
    method TransactionC(r: Report, fates: Fates, found: Found) returns (persisted: bool, n: nat)
      requires r.state.Terminal() && Committed(View(), r.claim) && ReportChain(View(), found, fates, r)
      modifies this
      ensures 0 < n <= TRIES && View() == AfterReport(found[n - 1], fates[n - 1], r)
      ensures ReportedOnce(found, fates, r, n, persisted)
    {
      ghost var start := View();
      persisted, n := RetryReport(r, fates, found);
      ReportTriesMean(start, found, fates, r, n);
    }

    /** The loop: it ends with the first acknowledged commit, or with the last try. */
    method RetryReport(r: Report, fates: Fates, found: Found) returns (persisted: bool, n: nat)
      requires r.state.Terminal()
      modifies this
      ensures 0 < n <= TRIES && View() == AfterReport(found[n - 1], fates[n - 1], r)
      ensures forall i :: 0 <= i < n - 1 ==> !fates[i].Acked?
      ensures n == TRIES || fates[n - 1].Acked?
      ensures persisted == (fates[n - 1].Acked? && SendFence(found[n - 1], r.claim))
    {
      n := 0;
      while true
        invariant n < TRIES && forall i :: 0 <= i < n ==> !fates[i].Acked?
        decreases TRIES - n
      {
        Find(found[n]);
        persisted := TryReport(r, fates[n]);
        n := n + 1;
        if fates[n - 1].Acked? {
          return;
        }
        if n == TRIES {
          persisted := false;
          return;
        }
      }
    }

    /** One try of the generation outcome; `fence` tells whether the claim still held the row. */
    method TryGenerated(g: Generated, key: nat, fate: Fate) returns (fence: bool)
      modifies this
      ensures fence == GenFence(old(View()), g.claim)
      ensures View() == AfterGenerated(old(View()), fate, g, key)
    {
      fence := GenFence(View(), g.claim);
      if !fate.NotApplied? && fence {
        var row := dispatches[g.claim.dispatch];
        if g.draft.None? {
          dispatches := dispatches[g.claim.dispatch := Released(row, Failed).(error := Some(g.failure))];
        } else {
          messages := messages[key := DraftMessage(g.contact, g.draft.value.subject, g.draft.value.body)];
          dispatches := dispatches[g.claim.dispatch := Released(row, Queued).(message := Some(key))];
        }
      }
    }

    /**
     Transaction G2. Whatever happens to the commits and between them, at most one of the freshly numbered
     Messages is kept, and only together with the row that links to it; Some(true) is never reported otherwise.
     */
    method TransactionG2(g: Generated, keys: seq<nat>, fates: Fates, found: Found)
      returns (written: Option<bool>, n: nat)
      requires Unused(keys, found) && GeneratedChain(found, fates, g, keys)
      modifies this
      ensures 0 < n <= TRIES && View() == AfterGenerated(found[n - 1], fates[n - 1], g, keys[n - 1])
      ensures GeneratedOnce(found, fates, g, keys, n, written == Some(true), written.None?)
    {
      written, n := RetryGenerated(g, keys, fates, found);
      GeneratedTriesMean(found, fates, g, keys, n);
    }

    /** The loop: it ends with the first acknowledged commit or failed fence, or with the last try. */
    method RetryGenerated(g: Generated, keys: seq<nat>, fates: Fates, found: Found)
      returns (written: Option<bool>, n: nat)
      requires |keys| == TRIES
      modifies this
      ensures 0 < n <= TRIES && View() == AfterGenerated(found[n - 1], fates[n - 1], g, keys[n - 1])
      ensures forall i :: 0 <= i < n - 1 ==> GoesOn(fates[i], found[i], g.claim)
      ensures n == TRIES || !GoesOn(fates[n - 1], found[n - 1], g.claim)
      ensures written.None? <==> GoesOn(fates[n - 1], found[n - 1], g.claim)
      ensures written == Some(true) <==> fates[n - 1].Acked? && GenFence(found[n - 1], g.claim)
    {
      n := 0;
      while true
        invariant n < TRIES && forall i :: 0 <= i < n ==> GoesOn(fates[i], found[i], g.claim)
        decreases TRIES - n
      {
        Find(found[n]);
        var fence := TryGenerated(g, keys[n], fates[n]);
        n := n + 1;
        if !fates[n - 1].NotApplied? && !fence {
          return Some(false), n;  // the insert is rolled back with the lost fence
        }
        if fates[n - 1].Acked? {
          return Some(true), n;
        }
        if n == TRIES {
          return None, n;
        }
      }
    }
  }
}
