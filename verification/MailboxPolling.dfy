/**
 The polling loops of mail/imap_reader.py and mail/mailbox_inbound.py. Each loop is a run of the machine of
 MailboxInbound, interleaved with any events of other pollers, so what holds after every run holds after it.
 */
module MailboxPolling {
  import opened DispatchModel
  import opened MailboxInbound

  datatype Bucket = Stored | Duplicate | Unmatched | Ambiguous | Unrecognized

  /** Handler results by bucket, and how many of the stored ones were classified successfully or not. */
  datatype Tally = Tally(stored: nat, duplicate: nat, unmatched: nat, ambiguous: nat, unrecognized: nat,
                         classified: nat, unclassified: nat)

  const NO_TALLY := Tally(0, 0, 0, 0, 0, 0, 0)

  function Total(t: Tally): nat { t.stored + t.duplicate + t.unmatched + t.ambiguous + t.unrecognized }

  function InTally(t: Tally, b: Bucket): nat {
    match b
    case Stored => t.stored
    case Duplicate => t.duplicate
    case Unmatched => t.unmatched
    case Ambiguous => t.ambiguous
    case Unrecognized => t.unrecognized
  }

  /** The classification counters never outrun the stored messages they are about. */
  predicate Coherent(t: Tally) { t.classified + t.unclassified <= t.stored }

  /** flag: the handler's classification_success, looked at only for a stored message. */
  function Tallied(t: Tally, b: Bucket, flag: Option<bool>): (r: Tally)
    ensures Total(r) == Total(t) + 1 && (Coherent(t) ==> Coherent(r))
    ensures forall x :: InTally(r, x) == InTally(t, x) + if x == b then 1 else 0
    ensures r.classified == t.classified + if b == Stored && flag == Some(true) then 1 else 0
    ensures r.unclassified == t.unclassified + if b == Stored && flag == Some(false) then 1 else 0
  {
    match b
    case Stored =>
      t.(stored := t.stored + 1,
         classified := t.classified + if flag == Some(true) then 1 else 0,
         unclassified := t.unclassified + if flag == Some(false) then 1 else 0)
    case Duplicate => t.(duplicate := t.duplicate + 1)
    case Unmatched => t.(unmatched := t.unmatched + 1)
    case Ambiguous => t.(ambiguous := t.ambiguous + 1)
    case Unrecognized => t.(unrecognized := t.unrecognized + 1)
  }

  function Sum(a: Tally, b: Tally): (r: Tally)
    ensures Total(r) == Total(a) + Total(b)
  {
    Tally(a.stored + b.stored, a.duplicate + b.duplicate, a.unmatched + b.unmatched, a.ambiguous + b.ambiguous,
          a.unrecognized + b.unrecognized, a.classified + b.classified, a.unclassified + b.unclassified)
  }

  /** What happens to one message, and what other pollers do while this one handles it. */
  datatype Luck = Luck(fetched: bool, contact: Contact, classified: Option<bool>, commit: Fate, store: Fate,
                       whileHandling: seq<Event>, beforeStore: seq<Event>)

  datatype Contact = Found | NoMatch | SeveralMatch

  predicate Foreign(events: seq<Event>, p: nat) { forall i :: 0 <= i < |events| ==> events[i].p != p }

  lemma {:induction false} ForeignKeeps(mail: Mail, box: Inbox, events: seq<Event>, p: nat)
    requires Foreign(events, p)
    ensures PcOf(Run(mail, box, events), p) == PcOf(box, p)
    decreases |events|
  {
    if events != [] {
      ForeignKeeps(mail, box, events[..|events| - 1], p);
    }
  }

  /** Rows and marks are only ever added. */
  lemma {:induction false} RunGrows(mail: Mail, box: Inbox, events: seq<Event>)
    ensures Grown(box, Run(mail, box, events)) && box.marked <= Run(mail, box, events).marked
    decreases |events|
  {
    if events != [] {
      RunGrows(mail, box, events[..|events| - 1]);
    }
  }

  lemma RunThen(mail: Mail, box: Inbox, events: seq<Event>, e: Event)
    ensures Run(mail, box, events + [e]) == Handle(mail, Run(mail, box, events), e)
  {}

  /** The bucket the handler reports on return. */
  function BucketOf(mail: Mail, box: Inbox, slot: Slot, found: bool, contact: Contact): Bucket
    requires Usable(mail, slot)
  {
    if found then Duplicate
    else match contact
         case Found => if Has(box.messages, slot.mailbox, mail[slot].value.identity) then Duplicate else Stored
         case NoMatch => Unmatched
         case SeveralMatch => Ambiguous
  }

  /** fetch, parse, handler, STORE for one message; `bucket` is present if the handler returned. */
  method TakeOne(mail: Mail, box: Inbox, p: nat, slot: Slot, luck: Luck)
    returns (after: Inbox, bucket: Option<Bucket>, seen: bool, ghost events: seq<Event>)
    requires PcOf(box, p).Idle? && Foreign(luck.whileHandling, p) && Foreign(luck.beforeStore, p)
    ensures after == Run(mail, box, events) && PcOf(after, p).Idle?
    ensures seen ==> bucket.Some? && slot in after.marked
    ensures bucket.Some? <==> luck.fetched && Usable(mail, slot) && luck.commit == Acked
    ensures seen <==> bucket.Some? && luck.store == Acked
    ensures bucket == Some(Stored) ==> luck.contact == Found
    ensures bucket == Some(Unmatched) ==> luck.contact == NoMatch
    ensures bucket == Some(Ambiguous) ==> luck.contact == SeveralMatch
    ensures bucket == Some(Duplicate) ==> Has(after.messages, slot.mailbox, mail[slot].value.identity)
    ensures bucket.Some? && !Has(after.messages, slot.mailbox, mail[slot].value.identity) ==>
              bucket == Some(if luck.contact == NoMatch then Unmatched else Ambiguous)
    ensures bucket != Some(Unrecognized)
    ensures bucket == Some(Stored) ==> |after.messages| > |box.messages|
  {
    after, bucket, seen, events := box, None, false, [];
    if !luck.fetched || !Usable(mail, slot) {
      return;
    }
    // the handler's duplicate look-up
    events := [Offer(p, slot)];
    RunThen(mail, box, [], Offer(p, slot));
    after := Handle(mail, after, Offer(p, slot));
    var found := PcOf(after, p).found;

    ForeignKeeps(mail, after, luck.whileHandling, p);
    RunJoins(mail, box, events, luck.whileHandling);
    RunGrows(mail, after, luck.whileHandling);
    after := Run(mail, after, luck.whileHandling);
    events := events + luck.whileHandling;

    // its writes and its commit
    var result := BucketOf(mail, after, slot, found, luck.contact);
    var write := Write(p, luck.contact.Found?, luck.commit);
    RunThen(mail, box, events, write);
    if found {
      HasGrows(box.messages, after.messages, slot.mailbox, mail[slot].value.identity);
    }
    after := Handle(mail, after, write);
    events := events + [write];
    if !luck.commit.Acked? {
      return;
    }
    if result == Stored {
      assert after.messages[|after.messages| - 1] == RowOf(mail, slot);
    }
    bucket := Some(result);
    assert result == Stored ==> |after.messages| > |box.messages|;
    ghost var written := after;

    ForeignKeeps(mail, after, luck.beforeStore, p);
    RunJoins(mail, box, events, luck.beforeStore);
    RunGrows(mail, after, luck.beforeStore);
    after := Run(mail, after, luck.beforeStore);
    events := events + luck.beforeStore;

    var store := Store(p, !luck.store.NotApplied?);
    RunThen(mail, box, events, store);
    after := Handle(mail, after, store);
    events := events + [store];
    seen := luck.store.Acked?;
    if Has(written.messages, slot.mailbox, mail[slot].value.identity) {
      HasGrows(written.messages, after.messages, slot.mailbox, mail[slot].value.identity);
    }
  }

  lemma HasGrows(rows: seq<Row>, rows': seq<Row>, mailbox: nat, identity: string)
    requires rows <= rows' && Has(rows, mailbox, identity)
    ensures Has(rows', mailbox, identity)
  {}

  datatype DrainStats = DrainStats(seenMarked: nat, leftUnseen: nat)

  function Trues(flags: seq<bool>): nat {
    if flags == [] then 0 else Trues(flags[..|flags| - 1]) + if flags[|flags| - 1] then 1 else 0
  }

  /**
   Every listed message is counted once, as seen or as left unseen. Seen ones are marked on the server and
   were handled; the messages reported as stored are that many new rows.
   */
  method DrainUnseen(mail: Mail, box: Inbox, p: nat, mailbox: nat, uids: seq<nat>, luck: seq<Luck>)
    returns (after: Inbox, stats: DrainStats, handled: Tally, ghost events: seq<Event>, ghost seen: seq<bool>)
    requires PcOf(box, p).Idle? && |luck| == |uids|
    requires forall k :: 0 <= k < |luck| ==> Foreign(luck[k].whileHandling, p) && Foreign(luck[k].beforeStore, p)
    ensures after == Run(mail, box, events) && PcOf(after, p).Idle?
    ensures stats.seenMarked + stats.leftUnseen == |uids|
    ensures stats.seenMarked <= Total(handled) <= |uids| && Coherent(handled) && handled.unrecognized == 0
    ensures |seen| == |uids| && stats.seenMarked == Trues(seen)
    ensures forall k :: 0 <= k < |uids| && seen[k] ==> Slot(mailbox, uids[k]) in after.marked
    ensures |after.messages| >= |box.messages| + handled.stored
  {
    after, stats, handled, events, seen := box, DrainStats(0, 0), NO_TALLY, [], [];
    for k := 0 to |uids|
      invariant after == Run(mail, box, events) && PcOf(after, p).Idle?
      invariant stats.seenMarked + stats.leftUnseen == k
      invariant stats.seenMarked <= Total(handled) <= k && Coherent(handled) && handled.unrecognized == 0
      invariant |seen| == k && stats.seenMarked == Trues(seen)
      invariant forall i :: 0 <= i < k && seen[i] ==> Slot(mailbox, uids[i]) in after.marked
      invariant |after.messages| >= |box.messages| + handled.stored
    {
      ghost var was := after;
      var bucket, marked;
      ghost var steps;
      after, bucket, marked, steps := TakeOne(mail, after, p, Slot(mailbox, uids[k]), luck[k]);
      RunJoins(mail, box, events, steps);
      RunGrows(mail, was, steps);
      events := events + steps;
      if bucket.Some? {
        handled := Tallied(handled, bucket.value, luck[k].classified);
      }
      if marked {
        stats := stats.(seenMarked := stats.seenMarked + 1);
      } else {
        stats := stats.(leftUnseen := stats.leftUnseen + 1);
      }
      seen := seen + [marked];
      assert seen[..k] + [marked] == seen;
    }
  }

  // ---- a cycle over all mailboxes ------------------------------------------------------------------------

  datatype Status = Polled | Skipped | CredentialUnavailable | ImapError | UnexpectedError

  /** error: the type name of what went wrong. */
  datatype Outcome = Outcome(
    mailbox: nat, status: Status, processed: nat, leftUnseen: nat, error: Option<string>, handled: Tally)

  /** How far a poll gets: Crashes before it starts, Refused by LOGIN, SELECT or SEARCH, or down to the listing. */
  datatype Visit =
    | Crashes(mailbox: nat, error: string)
    | Ineligible(mailbox: nat)
    | NoCredential(mailbox: nat, error: string)
    | Refused(mailbox: nat, error: string)
    | Lists(mailbox: nat, uids: seq<nat>, luck: seq<Luck>)

  predicate Proper(v: Visit, p: nat) {
    v.Lists? ==>
      && |v.luck| == |v.uids|
      && forall k :: 0 <= k < |v.luck| ==> Foreign(v.luck[k].whileHandling, p) && Foreign(v.luck[k].beforeStore, p)
  }

  predicate Faulty(o: Outcome) { o.status != Polled && o.status != Skipped }

  predicate WellCounted(o: Outcome, v: Visit) {
    && o.mailbox == v.mailbox && o.processed <= Total(o.handled) && Coherent(o.handled)
    && (Faulty(o) <==> o.error.Some?)
    && o.processed + o.leftUnseen == (if v.Lists? then |v.uids| else 0)
    && o.status == match v
                   case Lists(_, _, _) => Polled
                   case Ineligible(_) => Skipped
                   case NoCredential(_, _) => CredentialUnavailable
                   case Refused(_, _) => ImapError
                   case Crashes(_, _) => UnexpectedError
  }

  method PollOne(mail: Mail, box: Inbox, p: nat, v: Visit)
    returns (after: Inbox, outcome: Outcome, ghost events: seq<Event>)
    requires PcOf(box, p).Idle? && Proper(v, p)
    ensures after == Run(mail, box, events) && PcOf(after, p).Idle?
    ensures WellCounted(outcome, v)
  {
    after, events := box, [];
    match v
    case Crashes(m, error) => outcome := Outcome(m, UnexpectedError, 0, 0, Some(error), NO_TALLY);
    case Ineligible(m) => outcome := Outcome(m, Skipped, 0, 0, None, NO_TALLY);
    case NoCredential(m, error) => outcome := Outcome(m, CredentialUnavailable, 0, 0, Some(error), NO_TALLY);
    case Refused(m, error) => outcome := Outcome(m, ImapError, 0, 0, Some(error), NO_TALLY);
    case Lists(m, uids, luck) =>
      after, outcome, events := PollListed(mail, box, p, m, uids, luck);
  }

  /** A poll that gets as far as the listing. */
  method PollListed(mail: Mail, box: Inbox, p: nat, mailbox: nat, uids: seq<nat>, luck: seq<Luck>)
    returns (after: Inbox, outcome: Outcome, ghost events: seq<Event>)
    requires PcOf(box, p).Idle? && Proper(Lists(mailbox, uids, luck), p)
    ensures after == Run(mail, box, events) && PcOf(after, p).Idle?
    ensures WellCounted(outcome, Lists(mailbox, uids, luck))
  {
    var stats, handled;
    ghost var seen;
    after, stats, handled, events, seen := DrainUnseen(mail, box, p, mailbox, uids, luck);
    outcome := Outcome(mailbox, Polled, stats.seenMarked, stats.leftUnseen, None, handled);
  }

  datatype Report = Report(outcomes: seq<Outcome>, listingFailed: bool)

  /** None: the mailboxes could not be listed. */
  method PollAll(mail: Mail, box: Inbox, p: nat, visits: Option<seq<Visit>>)
    returns (after: Inbox, report: Report, ghost events: seq<Event>)
    requires PcOf(box, p).Idle?
    requires visits.Some? ==> forall i :: 0 <= i < |visits.value| ==> Proper(visits.value[i], p)
    ensures after == Run(mail, box, events) && PcOf(after, p).Idle?
    ensures report.listingFailed == visits.None?
    ensures visits.None? ==> report.outcomes == [] && after == box
    ensures visits.Some? ==>
              && |report.outcomes| == |visits.value|
              && forall i :: 0 <= i < |visits.value| ==> WellCounted(report.outcomes[i], visits.value[i])
  {
    after, report, events := box, Report([], visits.None?), [];
    if visits.None? {
      return;
    }
    for k := 0 to |visits.value|
      invariant after == Run(mail, box, events) && PcOf(after, p).Idle?
      invariant !report.listingFailed && |report.outcomes| == k
      invariant forall i :: 0 <= i < k ==> WellCounted(report.outcomes[i], visits.value[i])
    {
      var outcome;
      ghost var steps;
      after, outcome, steps := PollOne(mail, after, p, visits.value[k]);
      RunJoins(mail, box, events, steps);
      events := events + steps;
      report := report.(outcomes := report.outcomes + [outcome]);
    }
  }

  datatype Cycle = Failed | Degraded | Completed

  datatype Counters = Counters(
    listed: nat, ok: nat, skipped: nat, credential: nat, refused: nat, unexpected: nat,
    seen: nat, left: nat, handled: Tally)

  const NO_COUNTERS := Counters(0, 0, 0, 0, 0, 0, 0, 0, NO_TALLY)

  function Added(c: Counters, o: Outcome): Counters {
    var d := c.(listed := c.listed + 1, seen := c.seen + o.processed, left := c.left + o.leftUnseen,
                handled := Sum(c.handled, o.handled));
    match o.status
    case Polled => d.(ok := d.ok + 1)
    case Skipped => d.(skipped := d.skipped + 1)
    case CredentialUnavailable => d.(credential := d.credential + 1)
    case ImapError => d.(refused := d.refused + 1)
    case UnexpectedError => d.(unexpected := d.unexpected + 1)
  }

  /** The figures of a cycle, what one outcome adds to each, and where the record shows each. */
  datatype Figure =
    | WithStatus(status: Status) | SeenFigure | LeftFigure | InBucket(bucket: Bucket) | Classified(well: bool)

  function Value(o: Outcome, f: Figure): nat {
    match f
    case WithStatus(status) => if o.status == status then 1 else 0
    case SeenFigure => o.processed
    case LeftFigure => o.leftUnseen
    case InBucket(b) => InTally(o.handled, b)
    case Classified(well) => if well then o.handled.classified else o.handled.unclassified
  }

  function Shown(c: Counters, f: Figure): nat {
    match f
    case WithStatus(Polled) => c.ok
    case WithStatus(Skipped) => c.skipped
    case WithStatus(CredentialUnavailable) => c.credential
    case WithStatus(ImapError) => c.refused
    case WithStatus(UnexpectedError) => c.unexpected
    case SeenFigure => c.seen
    case LeftFigure => c.left
    case InBucket(b) => InTally(c.handled, b)
    case Classified(well) => if well then c.handled.classified else c.handled.unclassified
  }

  function SumOf(outcomes: seq<Outcome>, f: Figure): nat {
    if outcomes == [] then 0 else SumOf(outcomes[..|outcomes| - 1], f) + Value(outcomes[|outcomes| - 1], f)
  }

  lemma AddedShows(c: Counters, outcomes: seq<Outcome>, k: nat, f: Figure)
    requires k < |outcomes| && Shown(c, f) == SumOf(outcomes[..k], f)
    ensures Shown(Added(c, outcomes[k]), f) == SumOf(outcomes[..k + 1], f)
  {
    assert outcomes[..k + 1][..k] == outcomes[..k];
  }

  predicate Healthy(o: Outcome) { !Faulty(o) && o.leftUnseen == 0 }

  /** The error of the first faulty mailbox that has one. */
  ghost predicate FirstError(outcomes: seq<Outcome>, error: Option<string>) {
    if error.None? then forall i :: 0 <= i < |outcomes| ==> !Faulty(outcomes[i]) || outcomes[i].error.None?
    else exists i :: 0 <= i < |outcomes| && Faulty(outcomes[i]) && outcomes[i].error == error
                     && forall j :: 0 <= j < i ==> !Faulty(outcomes[j]) || outcomes[j].error.None?
  }

  lemma FirstErrorNext(outcomes: seq<Outcome>, k: nat, error: Option<string>)
    requires k < |outcomes| && FirstError(outcomes[..k], error)
    ensures FirstError(outcomes[..k + 1], if error.None? && Faulty(outcomes[k]) then outcomes[k].error else error)
  {
    var before, after := outcomes[..k], outcomes[..k + 1];
    assert forall i :: 0 <= i < k ==> after[i] == before[i];
    assert after[k] == outcomes[k];
  }

  const LISTING_FAILED := "MailboxListingFailed"

  ghost predicate SeenHandled(outcomes: seq<Outcome>) {
    forall i :: 0 <= i < |outcomes| ==> outcomes[i].processed <= Total(outcomes[i].handled)
  }

  /**
   The cycle record: every figure is the sum over the mailboxes, every mailbox falls under one status, the
   cycle is completed exactly if all went well, the first error is named, and if no poll reports more messages
   seen than handled, neither does the cycle.
   */
  method SummarizeMailboxCycle(report: Report) returns (cycle: Cycle, c: Counters, error: Option<string>)
    ensures forall f :: Shown(c, f) == SumOf(report.outcomes, f)
    ensures c.listed == |report.outcomes| == c.ok + c.skipped + c.credential + c.refused + c.unexpected
    ensures cycle == Cycle.Failed <==> report.listingFailed
    ensures cycle == Completed <==>
            !report.listingFailed && forall i :: 0 <= i < |report.outcomes| ==> Healthy(report.outcomes[i])
    ensures if report.listingFailed then error == Some(LISTING_FAILED) else FirstError(report.outcomes, error)
    ensures SeenHandled(report.outcomes) ==> c.seen <= Total(c.handled)
  {
    c, error := NO_COUNTERS, None;
    for k := 0 to |report.outcomes|
      invariant forall f :: Shown(c, f) == SumOf(report.outcomes[..k], f)
      invariant c.listed == k == c.ok + c.skipped + c.credential + c.refused + c.unexpected
      invariant c.credential + c.refused + c.unexpected + c.left == 0
                <==> forall i :: 0 <= i < k ==> Healthy(report.outcomes[i])
      invariant FirstError(report.outcomes[..k], error)
      invariant SeenHandled(report.outcomes) ==> c.seen <= Total(c.handled)
    {
      forall f ensures Shown(Added(c, report.outcomes[k]), f) == SumOf(report.outcomes[..k + 1], f) {
        AddedShows(c, report.outcomes, k, f);
      }
      FirstErrorNext(report.outcomes, k, error);
      c := Added(c, report.outcomes[k]);
      if error.None? && Faulty(report.outcomes[k]) {
        error := report.outcomes[k].error;
      }
    }
    assert report.outcomes[..|report.outcomes|] == report.outcomes;
    if report.listingFailed {
      cycle, error := Cycle.Failed, Some(LISTING_FAILED);
    } else {
      cycle := if c.credential + c.refused + c.unexpected + c.left > 0 then Degraded else Completed;
    }
  }
}
