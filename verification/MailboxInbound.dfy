/**
 mail/imap_reader.py (drain_unseen), mail/mailbox_inbound.py and the two tables their handler writes.
 Any number of pollers work on the same mailboxes at once. Every fetch, parse, commit and STORE may fail,
 and a commit or a STORE may take effect although its caller is told that it failed.
 */
module MailboxInbound {
  import opened DispatchModel

  datatype Slot = Slot(mailbox: nat, uid: nat)

  /** identity: the Message-ID, or the digest that stands in for it. */
  datatype Email = Email(identity: string, content: string)

  /** Everything the servers ever hold; None is a message that cannot be parsed. */
  type Mail = map<Slot, Option<Email>>

  datatype Row = Row(mailbox: nat, identity: string, content: string)

  /** Where a poller stands with one message: after the duplicate look-up, or after the handler returned. */
  datatype Pc = Idle | Looked(slot: Slot, found: bool) | Persisted(slot: Slot)

  /** marked: the messages this program has set \Seen on. */
  datatype Inbox = Inbox(messages: seq<Row>, retained: seq<Row>, marked: set<Slot>, pollers: map<nat, Pc>)

  datatype Event =
    | Offer(p: nat, slot: Slot)
    | Write(p: nat, correlated: bool, fate: Fate)
    | Store(p: nat, applied: bool)
    | Crash(p: nat)

  function PcOf(box: Inbox, p: nat): Pc { if p in box.pollers then box.pollers[p] else Idle }

  function At(box: Inbox, p: nat, pc: Pc): Inbox { box.(pollers := box.pollers[p := pc]) }

  predicate Has(rows: seq<Row>, mailbox: nat, identity: string) {
    exists i :: 0 <= i < |rows| && rows[i].mailbox == mailbox && rows[i].identity == identity
  }

  /** INSERT ... ON CONFLICT DO NOTHING on (mailbox, identity). */
  function InsertAbsent(rows: seq<Row>, row: Row): seq<Row> {
    if Has(rows, row.mailbox, row.identity) then rows else rows + [row]
  }

  predicate Usable(mail: Mail, slot: Slot) { slot in mail && mail[slot].Some? }

  function RowOf(mail: Mail, slot: Slot): Row
    requires Usable(mail, slot)
  {
    Row(slot.mailbox, mail[slot].value.identity, mail[slot].value.content)
  }

  /** The handler's transaction: a message found stored is left alone, one with no contact is retained. */
  function Written(mail: Mail, box: Inbox, slot: Slot, found: bool, correlated: bool): Inbox
    requires Usable(mail, slot)
  {
    var row := RowOf(mail, slot);
    if found then box
    else if correlated then box.(messages := InsertAbsent(box.messages, row))
    else box.(retained := InsertAbsent(box.retained, row))
  }

  /** One event; one that does not apply changes nothing. */
  function Handle(mail: Mail, box: Inbox, e: Event): Inbox {
    var pc := PcOf(box, e.p);
    match e
    case Offer(p, slot) =>
      if pc.Idle? && Usable(mail, slot) then
        At(box, p, Looked(slot, Has(box.messages, slot.mailbox, mail[slot].value.identity)))
      else box
    case Write(p, correlated, fate) =>
      if pc.Looked? && Usable(mail, pc.slot) then
        var box' := if fate.NotApplied? then box else Written(mail, box, pc.slot, pc.found, correlated);
        At(box', p, if fate.Acked? then Persisted(pc.slot) else Idle)
      else box
    case Store(p, applied) =>
      if pc.Persisted? then
        At(if applied then box.(marked := box.marked + {pc.slot}) else box, p, Idle)
      else box
    case Crash(p) => At(box, p, Idle)
  }

  function Run(mail: Mail, box: Inbox, events: seq<Event>): Inbox
    decreases |events|
  {
    if events == [] then box
    else Handle(mail, Run(mail, box, events[..|events| - 1]), events[|events| - 1])
  }

  const EMPTY := Inbox([], [], {}, map[])

  // ---- invariant -------------------------------------------------------------------------------------

  ghost predicate OncePerKey(rows: seq<Row>) {
    forall i, j :: 0 <= i < j < |rows| ==> !(rows[i].mailbox == rows[j].mailbox && rows[i].identity == rows[j].identity)
  }

  /** A stored row is the content of some message offered by that mailbox under that identity. */
  ghost predicate Received(mail: Mail, row: Row) {
    exists slot :: Usable(mail, slot) && RowOf(mail, slot) == row
  }

  ghost predicate Genuine(mail: Mail, rows: seq<Row>) {
    forall i :: 0 <= i < |rows| ==> Received(mail, rows[i])
  }

  predicate Durable(mail: Mail, box: Inbox, slot: Slot)
    requires Usable(mail, slot)
  {
    || Has(box.messages, slot.mailbox, mail[slot].value.identity)
    || Has(box.retained, slot.mailbox, mail[slot].value.identity)
  }

  ghost predicate PcOk(mail: Mail, box: Inbox, pc: Pc) {
    match pc
    case Idle => true
    case Looked(slot, found) =>
      Usable(mail, slot) && (found ==> Has(box.messages, slot.mailbox, mail[slot].value.identity))
    case Persisted(slot) => Usable(mail, slot) && Durable(mail, box, slot)
  }

  ghost predicate TablesOk(mail: Mail, box: Inbox) {
    OncePerKey(box.messages) && OncePerKey(box.retained) && Genuine(mail, box.messages) && Genuine(mail, box.retained)
  }

  ghost predicate MarksOk(mail: Mail, box: Inbox) {
    forall slot :: slot in box.marked ==> Usable(mail, slot) && Durable(mail, box, slot)
  }

  ghost predicate PcsOk(mail: Mail, box: Inbox) {
    forall p :: p in box.pollers ==> PcOk(mail, box, box.pollers[p])
  }

  ghost predicate Ok(mail: Mail, box: Inbox) { TablesOk(mail, box) && MarksOk(mail, box) && PcsOk(mail, box) }

  lemma InsertKeeps(mail: Mail, rows: seq<Row>, slot: Slot)
    requires Usable(mail, slot) && OncePerKey(rows) && Genuine(mail, rows)
    ensures var rows' := InsertAbsent(rows, RowOf(mail, slot));
            && OncePerKey(rows') && Genuine(mail, rows') && rows <= rows'
            && Has(rows', slot.mailbox, mail[slot].value.identity)
  {
    var row := RowOf(mail, slot);
    var rows' := InsertAbsent(rows, row);
    assert Received(mail, row);
    if !Has(rows, row.mailbox, row.identity) {
      assert rows'[|rows|] == row;
    }
  }

  predicate Grown(box: Inbox, box': Inbox) { box.messages <= box'.messages && box.retained <= box'.retained }

  /** Nothing but one poller's place changes, tables grow, marks are kept: the rest stays in order. */
  lemma Moved(mail: Mail, box: Inbox, box': Inbox, p: nat, pc: Pc)
    requires Ok(mail, box) && Grown(box, box') && TablesOk(mail, box')
    requires box'.marked == box.marked && box'.pollers == box.pollers[p := pc] && PcOk(mail, box', pc)
    ensures Ok(mail, box')
  {}

  lemma WrittenKeeps(mail: Mail, box: Inbox, slot: Slot, found: bool, correlated: bool)
    requires TablesOk(mail, box) && PcOk(mail, box, Looked(slot, found))
    ensures var box' := Written(mail, box, slot, found, correlated);
            TablesOk(mail, box') && Grown(box, box') && Durable(mail, box', slot)
  {
    InsertKeeps(mail, box.messages, slot);
    InsertKeeps(mail, box.retained, slot);
  }

  lemma HandleKeeps(mail: Mail, box: Inbox, e: Event)
    requires Ok(mail, box)
    ensures Ok(mail, Handle(mail, box, e)) && Grown(box, Handle(mail, box, e))
  {
    var pc, box' := PcOf(box, e.p), Handle(mail, box, e);
    match e
    case Offer(p, slot) =>
      if box' != box {
        Moved(mail, box, box', p, box'.pollers[p]);
      }
    case Write(p, correlated, fate) =>
      if pc.Looked? && Usable(mail, pc.slot) {
        WrittenKeeps(mail, box, pc.slot, pc.found, correlated);
        Moved(mail, box, box', p, box'.pollers[p]);
      }
    case Store(p, applied) =>
      if pc.Persisted? {
        Moved(mail, box, At(box, p, Idle), p, Idle);
        assert PcOk(mail, box, pc);
      }
    case Crash(p) => Moved(mail, box, box', p, Idle);
  }

  lemma {:induction false} RunKeeps(mail: Mail, box: Inbox, events: seq<Event>)
    requires Ok(mail, box)
    ensures Ok(mail, Run(mail, box, events)) && Grown(box, Run(mail, box, events))
    decreases |events|
  {
    if events != [] {
      var init := events[..|events| - 1];
      RunKeeps(mail, box, init);
      HandleKeeps(mail, Run(mail, box, init), events[|events| - 1]);
    }
  }

  // ---- what holds after any run ---------------------------------------------------------------------------

  /** Whatever fails, and whoever else polls: a message marked Seen has its identity stored. */
  lemma SeenIsDurable(mail: Mail, events: seq<Event>, slot: Slot)
    requires slot in Run(mail, EMPTY, events).marked
    ensures Usable(mail, slot) && Durable(mail, Run(mail, EMPTY, events), slot)
  {
    RunKeeps(mail, EMPTY, events);
  }

  /** Each table holds a (mailbox, identity) at most once, only what was received, and never rewrites or drops a row. */
  lemma StoredOnce(mail: Mail, events: seq<Event>, more: seq<Event>)
    ensures var box, later := Run(mail, EMPTY, events), Run(mail, EMPTY, events + more);
            && OncePerKey(later.messages) && OncePerKey(later.retained)
            && Genuine(mail, later.messages) && Genuine(mail, later.retained)
            && box.messages <= later.messages && box.retained <= later.retained
  {
    RunKeeps(mail, EMPTY, events);
    RunKeeps(mail, Run(mail, EMPTY, events), more);
    RunJoins(mail, EMPTY, events, more);
  }

  lemma {:induction false} RunJoins(mail: Mail, box: Inbox, a: seq<Event>, b: seq<Event>)
    ensures Run(mail, Run(mail, box, a), b) == Run(mail, box, a + b)
    decreases |b|
  {
    if b == [] {
      assert a + b == a;
    } else {
      RunJoins(mail, box, a, b[..|b| - 1]);
      assert (a + b)[..|a + b| - 1] == a + b[..|b| - 1];
    }
  }

  // ---- content, as opposed to identity ------------------------------------------------------------------------

  /** No mailbox ever holds two different messages under one identity. */
  ghost predicate Distinguishes(mail: Mail) {
    forall s, t ::
      (Usable(mail, s) && Usable(mail, t) && s.mailbox == t.mailbox && mail[s].value.identity == mail[t].value.identity)
      ==> mail[s] == mail[t]
  }

  /** Every message marked Seen can be read back from a table. */
  ghost predicate ContentKept(mail: Mail, box: Inbox) {
    forall slot :: slot in box.marked ==>
      Usable(mail, slot) && (RowOf(mail, slot) in box.messages || RowOf(mail, slot) in box.retained)
  }

  lemma KeptIfDistinguished(mail: Mail, events: seq<Event>)
    requires Distinguishes(mail)
    ensures ContentKept(mail, Run(mail, EMPTY, events))
  {
    RunKeeps(mail, EMPTY, events);
    var box := Run(mail, EMPTY, events);
    forall slot | slot in box.marked
      ensures Usable(mail, slot) && (RowOf(mail, slot) in box.messages || RowOf(mail, slot) in box.retained)
    {
      if Has(box.messages, slot.mailbox, mail[slot].value.identity) {
        StoredIsThis(mail, box.messages, slot);
      } else {
        StoredIsThis(mail, box.retained, slot);
      }
    }
  }

  lemma StoredIsThis(mail: Mail, rows: seq<Row>, slot: Slot)
    requires Distinguishes(mail) && Genuine(mail, rows) && Usable(mail, slot)
    requires Has(rows, slot.mailbox, mail[slot].value.identity)
    ensures RowOf(mail, slot) in rows
  {}

  function Taken(slot: Slot): seq<Event> { [Offer(0, slot), Write(0, true, Acked), Store(0, true)] }

  lemma TakenRuns(mail: Mail, box: Inbox, slot: Slot)
    requires PcOf(box, 0).Idle? && Usable(mail, slot)
    ensures var found, row := Has(box.messages, slot.mailbox, mail[slot].value.identity), RowOf(mail, slot);
            Run(mail, box, Taken(slot))
            == Inbox(if found then box.messages else box.messages + [row], box.retained,
                     box.marked + {slot}, box.pollers[0 := Idle])
  {
    var e := Taken(slot);
    var one := Handle(mail, box, e[0]);
    var two := Handle(mail, one, e[1]);
    assert e[..0] == [] && e[..1][..0] == [] && e[..2][..1] == e[..1];
    assert Run(mail, box, e[..1]) == one;
    assert Run(mail, box, e[..2]) == two;
    assert two.pollers[0 := Idle] == box.pollers[0 := Idle];
  }

  /** The second of two messages under one identity is marked Seen and stored nowhere. */
  lemma CollisionLoses(mail: Mail, s: Slot, t: Slot)
    requires Usable(mail, s) && Usable(mail, t) && s.mailbox == t.mailbox
    requires mail[s].value.identity == mail[t].value.identity && mail[s] != mail[t]
    ensures !ContentKept(mail, Run(mail, EMPTY, Taken(s) + Taken(t)))
  {
    RunJoins(mail, EMPTY, Taken(s), Taken(t));
    TakenRuns(mail, EMPTY, s);
    var one := Run(mail, EMPTY, Taken(s));
    assert one.messages == [RowOf(mail, s)];
    assert one.messages[0].identity == mail[t].value.identity;
    TakenRuns(mail, one, t);
    assert t in Run(mail, one, Taken(t)).marked;
  }

  /** No content is lost in any run exactly if each mailbox tells different messages apart by identity. */
  lemma ContentKeptExactly(mail: Mail)
    ensures Distinguishes(mail) <==> forall events :: ContentKept(mail, Run(mail, EMPTY, events))
  {
    if Distinguishes(mail) {
      forall events ensures ContentKept(mail, Run(mail, EMPTY, events)) {
        KeptIfDistinguished(mail, events);
      }
    } else {
      var s, t :| Usable(mail, s) && Usable(mail, t) && s.mailbox == t.mailbox
                  && mail[s].value.identity == mail[t].value.identity && mail[s] != mail[t];
      CollisionLoses(mail, s, t);
    }
  }
}
