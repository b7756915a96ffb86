/**
 The two tables the delivery protocol works on, external_dispatches and messages, and the guarded
 UPDATE statements issued against them. Each guarded UPDATE is one atomic function on the pair of
 tables: when its WHERE clause matches no row the tables come back unchanged.
 */
module DispatchModel {
  datatype Option<+T> = None | Some(value: T)

  type Time = int

  datatype DispatchState = Queued | Generating | Sending | Sent | Failed | Unknown {
    predicate Terminal() { Sent? || Failed? || Unknown? }
  }

  datatype MessageStatus = MsgDraft | MsgSending | MsgSent | MsgFailed | MsgUnknown

  /** The canonical request payload a fingerprint hashes; SHA-256 is taken to be injective on it. */
  datatype Fingerprint =
    | ExactRequest(action: Option<string>, email: string, name: Option<string>,
                   subject: Option<string>, body: string)
    | GeneratedRequest(action: Option<string>, email: string, replyTo: Option<string>)

  datatype Dispatch = Dispatch(
    org: string, key: string, fingerprint: Fingerprint, reference: string,
    campaign: nat, contact: nat, mailbox: Option<nat>, message: Option<nat>,
    state: DispatchState, claimedBy: Option<string>, claimedAt: Option<Time>, error: Option<string>)

  datatype Message = Message(
    contact: nat, subject: Option<string>, body: string,
    status: MessageStatus, header: Option<string>, error: Option<string>)

  datatype Db = Db(dispatches: map<nat, Dispatch>, messages: map<nat, Message>)

  /** One successful claim; (worker, at) is the fencing token. */
  datatype Claim = Claim(dispatch: nat, org: string, worker: string, at: Time)

  // ---- claiming --------------------------------------------------------------------------

  predicate SendClaimable(db: Db, d: nat) {
    d in db.dispatches && db.dispatches[d].state.Queued? && db.dispatches[d].message.Some?
  }

  predicate GenClaimable(db: Db, d: nat) {
    d in db.dispatches && db.dispatches[d].state.Queued? && db.dispatches[d].message.None?
  }

  function Claimed(row: Dispatch, state: DispatchState, worker: string, at: Time): Dispatch {
    row.(state := state, claimedBy := Some(worker), claimedAt := Some(at))
  }

  function Released(row: Dispatch, state: DispatchState): Dispatch {
    row.(state := state, claimedBy := None, claimedAt := None)
  }

  /** The claim's UPDATE on the row it finds. */
  function WithClaim(db: Db, c: Claim, state: DispatchState): Db
    requires c.dispatch in db.dispatches
  {
    db.(dispatches := db.dispatches[c.dispatch := Claimed(db.dispatches[c.dispatch], state, c.worker, c.at)])
  }

  // ---- fences ----------------------------------------------------------------------------

  predicate HeldBy(row: Dispatch, c: Claim) {
    row.org == c.org && row.claimedBy == Some(c.worker) && row.claimedAt == Some(c.at)
  }

  predicate SendFence(db: Db, c: Claim) {
    c.dispatch in db.dispatches
    && db.dispatches[c.dispatch].state.Sending? && HeldBy(db.dispatches[c.dispatch], c)
  }

  predicate GenFence(db: Db, c: Claim) {
    c.dispatch in db.dispatches
    && db.dispatches[c.dispatch].state.Generating? && HeldBy(db.dispatches[c.dispatch], c)
    && db.dispatches[c.dispatch].message.None?
  }

  /** What happened to a COMMIT: acknowledged, applied with the acknowledgement lost, or not applied. */
  datatype Fate = Acked | AppliedUnacked | NotApplied

  /** Transactions C and G2 are each tried this often. */
  const TRIES := 3

  // ---- outcome writes --------------------------------------------------------------------

  function StatusOf(state: DispatchState): MessageStatus
    requires state.Terminal()
  {
    match state
    case Sent => MsgSent
    case Failed => MsgFailed
    case Unknown => MsgUnknown
  }

  /** UPDATE messages SET status, error WHERE id = key; an absent key or row matches nothing. */
  function WithStatus(messages: map<nat, Message>, key: Option<nat>, status: MessageStatus, error: Option<string>)
    : map<nat, Message>
  {
    if key.Some? && key.value in messages
    then messages[key.value := messages[key.value].(status := status, error := error)]
    else messages
  }

  function Finish(db: Db, c: Claim, state: DispatchState, error: Option<string>): Db
    requires state.Terminal()
  {
    if !SendFence(db, c) then db else
    var row := db.dispatches[c.dispatch];
    Db(db.dispatches[c.dispatch := Released(row, state).(error := error)],
       WithStatus(db.messages, row.message, StatusOf(state), error))
  }

  function CompleteGeneration(db: Db, c: Claim, m: nat): Db {
    if !GenFence(db, c) then db else
    db.(dispatches := db.dispatches[c.dispatch := Released(db.dispatches[c.dispatch], Queued).(message := Some(m))])
  }

  function FailGeneration(db: Db, c: Claim, error: string): Db {
    if !GenFence(db, c) then db else
    db.(dispatches := db.dispatches[c.dispatch := Released(db.dispatches[c.dispatch], Failed).(error := Some(error))])
  }

  function AnnotateUnknown(db: Db, d: nat, org: string, note: string): Db {
    if !(d in db.dispatches && db.dispatches[d].org == org && db.dispatches[d].state.Unknown?) then db else
    var row := db.dispatches[d];
    var text := if row.error.Some? then row.error.value else "";
    db.(dispatches := db.dispatches[d := row.(error := Some(text + " | " + note))])
  }

  // ---- lease recovery --------------------------------------------------------------------

  const LEASE_EXPIRED := "lease_expired"

  predicate StaleClaim(row: Dispatch, cutoff: Time) {
    row.claimedAt.None? || row.claimedAt.value < cutoff
  }

  predicate SendExpired(db: Db, d: nat, cutoff: Time) {
    d in db.dispatches && db.dispatches[d].state.Sending? && StaleClaim(db.dispatches[d], cutoff)
  }

  predicate GenExpired(db: Db, d: nat, cutoff: Time) {
    d in db.dispatches && db.dispatches[d].state.Generating?
    && db.dispatches[d].message.None? && StaleClaim(db.dispatches[d], cutoff)
  }

  /** SENDING -> UNKNOWN, with its Message when that is still SENDING or DRAFT. */
  function ResolveSend(db: Db, d: nat, cutoff: Time): Db {
    if !SendExpired(db, d, cutoff) then db else
    var row := db.dispatches[d];
    Db(db.dispatches[d := Released(row, Unknown).(error := Some(LEASE_EXPIRED))],
       if row.message.Some? && row.message.value in db.messages
          && (db.messages[row.message.value].status.MsgSending? || db.messages[row.message.value].status.MsgDraft?)
       then WithStatus(db.messages, row.message, MsgUnknown, Some(LEASE_EXPIRED))
       else db.messages)
  }

  /** GENERATING -> QUEUED; nothing else on the row changes but the claim. */
  function RequeueGeneration(db: Db, d: nat, cutoff: Time): Db {
    if !GenExpired(db, d, cutoff) then db else
    db.(dispatches := db.dispatches[d := Released(db.dispatches[d], Queued)])
  }

  // ---- acceptance ------------------------------------------------------------------------

  predicate KeyTaken(db: Db, org: string, key: string) {
    exists d :: d in db.dispatches && db.dispatches[d].org == org && db.dispatches[d].key == key
  }

  predicate ReferenceTaken(db: Db, reference: string) {
    exists d :: d in db.dispatches && db.dispatches[d].reference == reference
  }

  datatype Content = Content(message: nat, subject: Option<string>, body: string)

  datatype Acceptance = Acceptance(
    org: string, key: string, fingerprint: Fingerprint, reference: string,
    campaign: nat, contact: nat, mailbox: Option<nat>, content: Option<Content>)

  /** An exact request comes with its Message, verbatim; a generated one comes without. */
  predicate AsAsked(a: Acceptance) {
    match a.fingerprint
    case ExactRequest(_, _, _, subject, body) =>
      a.content.Some? && a.content.value.subject == subject && a.content.value.body == body
    case GeneratedRequest(_, _, _) => a.content.None?
  }

  /** A generated subject and body. */
  datatype Draft = Draft(subject: Option<string>, body: string)

  function DraftMessage(contact: nat, subject: Option<string>, body: string): Message {
    Message(contact, subject, body, MsgDraft, None, None)
  }

  /** The two unique constraints, plus primary keys drawn from sequences that never repeat. */
  predicate Insertable(db: Db, d: nat, a: Acceptance) {
    d !in db.dispatches && !KeyTaken(db, a.org, a.key) && !ReferenceTaken(db, a.reference)
    && (a.content.Some? ==> a.content.value.message !in db.messages)
  }

  function AcceptedRow(a: Acceptance): Dispatch {
    Dispatch(a.org, a.key, a.fingerprint, a.reference, a.campaign, a.contact, a.mailbox,
             if a.content.Some? then Some(a.content.value.message) else None,
             Queued, None, None, None)
  }

  /** The one commit of an intake request: the dispatch, together with its Message on the exact route. */
  function Insert(db: Db, d: nat, a: Acceptance): Db {
    Db(db.dispatches[d := AcceptedRow(a)],
       if a.content.Some?
       then db.messages[a.content.value.message :=
                        DraftMessage(a.contact, a.content.value.subject, a.content.value.body)]
       else db.messages)
  }

  // ---- what a row may become -----------------------------------------------------------------

  /** {QUEUED without Message, GENERATING} < QUEUED with Message < SENDING < terminal. */
  function Rank(row: Dispatch): nat {
    if row.state.Terminal() then 3
    else if row.state.Sending? then 2
    else if row.message.Some? then 1
    else 0
  }

  ghost predicate SameIdentity(a: Dispatch, b: Dispatch) {
    && a.org == b.org && a.key == b.key && a.fingerprint == b.fingerprint && a.reference == b.reference
    && a.campaign == b.campaign && a.contact == b.contact && a.mailbox == b.mailbox
  }

  /** b is a row that a can become. */
  ghost predicate RowLater(a: Dispatch, b: Dispatch) {
    && SameIdentity(a, b)
    && Rank(a) <= Rank(b)
    && (Rank(a) == Rank(b) && 0 < Rank(a) < 3 ==> a == b)
    && (Rank(a) == 3 ==> b == a.(error := b.error))
    && (a.message.Some? ==> b.message == a.message)
  }

  ghost predicate RowsLater(db: Db, db': Db) {
    forall d :: d in db.dispatches ==> d in db'.dispatches && RowLater(db.dispatches[d], db'.dispatches[d])
  }
}
