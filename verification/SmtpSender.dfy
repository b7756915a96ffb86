/**
 mail/sender.py: one SMTP session with its cleanup, the three-attempt retry wrapper around it, and
 the classification of the result. The network is an adversary: a script fixes what each step of each
 attempt would do, and whether a server that dropped the connection had in fact taken the message.
 */
module SmtpSender {
  import opened DispatchModel

  /** The exception classes the code tells apart. Interrupt stands for a BaseException that is no Exception. */
  datatype SmtpError =
    | ServerDisconnected | ConnectError | ResponseError | DataError | OtherSmtpError
    | RecipientsRefused | SenderRefused | HeloError | AuthenticationError | NotSupported
    | NetworkError | OtherError | AmbiguousSend | Interrupt

  predicate ExplicitRefusal(e: SmtpError) {
    e.RecipientsRefused? || e.SenderRefused? || e.HeloError? || e.AuthenticationError? || e.NotSupported?
  }

  /** Every smtplib error is an OSError, so the transient tuple catches all of them. */
  predicate Transient(e: SmtpError) {
    !e.OtherError? && !e.AmbiguousSend? && !e.Interrupt?
  }

  predicate Retryable(e: SmtpError) {
    Transient(e) && !ExplicitRefusal(e)
  }

  /** What smtplib and the network can raise: AmbiguousSendError is raised by the wrapper alone. */
  type WireError = e: SmtpError | !e.AmbiguousSend? witness NetworkError

  /** What sendmail(), or rendering its argument, does; `taken` is the server's side of a failed call. */
  datatype Handoff = Accepted | Raised(error: WireError, taken: bool) | Unrendered(error: WireError)

  datatype Attempt = Attempt(
    connect: Option<WireError>, tls: Option<WireError>, login: Option<WireError>,
    handoff: Handoff, quit: Option<WireError>)

  const MAX_ATTEMPTS := 3

  type Script = s: seq<Attempt> | |s| == MAX_ATTEMPTS
    witness [Attempt(None, None, None, Accepted, None), Attempt(None, None, None, Accepted, None),
             Attempt(None, None, None, Accepted, None)]

  // ---- facts about one attempt, stated without the code ------------------------------------

  /** The server answered and said no. */
  predicate SaidNo(e: SmtpError) {
    match e
    case RecipientsRefused => true
    case SenderRefused => true
    case HeloError => true
    case AuthenticationError => true
    case NotSupported => true
    case _ => false
  }

  /** A failure of the network or of the server that may pass. */
  predicate MayPass(e: SmtpError) {
    match e
    case ServerDisconnected => true
    case ConnectError => true
    case ResponseError => true
    case DataError => true
    case OtherSmtpError => true
    case NetworkError => true
    case _ => false
  }

  /** The sendmail() statement is executed. */
  predicate Reached(a: Attempt, useTls: bool) {
    a.connect.None? && (useTls ==> a.tls.None?) && a.login.None?
  }

  predicate Called(a: Attempt, useTls: bool) {
    Reached(a, useTls) && !a.handoff.Unrendered?
  }

  /** The server has the message. An explicit refusal is the server saying that it has not. */
  predicate Delivered(a: Attempt, useTls: bool) {
    Reached(a, useTls)
    && (a.handoff.Accepted? || (a.handoff.Raised? && a.handoff.taken && !SaidNo(a.handoff.error)))
  }

  function BodyError(a: Attempt, useTls: bool): Option<SmtpError> {
    if useTls && a.tls.Some? then a.tls
    else if a.login.Some? then a.login
    else if a.handoff.Accepted? then None
    else if ExplicitRefusal(a.handoff.error) || a.handoff.error.Interrupt? then Some(a.handoff.error)
    else Some(AmbiguousSend)
  }

  /** The exception that leaves one attempt: a cleanup error never replaces what the body decided. */
  function Escapes(a: Attempt, useTls: bool): Option<SmtpError> {
    if a.connect.Some? then a.connect
    else if a.quit == Some(Interrupt) then a.quit
    else BodyError(a, useTls)
  }

  predicate Stops(a: Attempt, useTls: bool) {
    Escapes(a, useTls).None? || !Retryable(Escapes(a, useTls).value)
  }

  /** Index of the attempt whose result is final, counting from i. */
  function FinalFrom(script: Script, useTls: bool, i: nat): (k: nat)
    requires i < MAX_ATTEMPTS
    ensures i <= k < MAX_ATTEMPTS
    ensures forall j :: i <= j < k ==> !Stops(script[j], useTls)
    ensures k == MAX_ATTEMPTS - 1 || Stops(script[k], useTls)
    decreases MAX_ATTEMPTS - i
  {
    if Stops(script[i], useTls) || i == MAX_ATTEMPTS - 1 then i else FinalFrom(script, useTls, i + 1)
  }

  function Final(script: Script, useTls: bool): nat {
    FinalFrom(script, useTls, 0)
  }

  /** sendmail() calls, and messages taken by the server, in attempts 0..n. */
  function CallsIn(script: seq<Attempt>, useTls: bool): nat {
    if script == [] then 0
    else CallsIn(script[..|script| - 1], useTls) + (if Called(script[|script| - 1], useTls) then 1 else 0)
  }

  function DeliveriesIn(script: seq<Attempt>, useTls: bool): nat {
    if script == [] then 0
    else DeliveriesIn(script[..|script| - 1], useTls) + (if Delivered(script[|script| - 1], useTls) then 1 else 0)
  }

  // ---- send_email --------------------------------------------------------------------------

  datatype SendOutcome = OutcomeSent | OutcomeFailed | OutcomeUnknown

  datatype Verdict = Returned(outcome: SendOutcome) | RaisedException | RaisedInterrupt

  /** `live` is LIVE_SENDING_ENABLED; a malformed Message-ID is refused before any network use. */
  datatype Call = Call(live: bool, headerOk: bool, useTls: bool, script: Script)

  function Classify(escaped: Option<SmtpError>): Verdict {
    match escaped
    case None => Returned(OutcomeSent)
    case Some(AmbiguousSend) => Returned(OutcomeUnknown)
    case Some(Interrupt) => RaisedInterrupt
    case Some(_) => Returned(OutcomeFailed)
  }

  function SendEmail(c: Call): Verdict {
    if !c.headerOk then RaisedException
    else if !c.live then Returned(OutcomeSent)
    else Classify(Escapes(c.script[Final(c.script, c.useTls)], c.useTls))
  }

  /** The attempts that run. */
  function Executed(c: Call): seq<Attempt> {
    if c.headerOk && c.live then c.script[..Final(c.script, c.useTls) + 1] else []
  }

  function Calls(c: Call): nat { CallsIn(Executed(c), c.useTls) }

  function Deliveries(c: Call): nat { DeliveriesIn(Executed(c), c.useTls) }

  // ---- the code ------------------------------------------------------------------------------

  /** One pass of _smtp_send_with_retry's body, exception by exception. */
  method SmtpAttempt(a: Attempt, useTls: bool) returns (escaped: Option<SmtpError>, called: bool)
    ensures escaped == Escapes(a, useTls)
    ensures called == Called(a, useTls)
  {
    called := false;
    var accepted := false;
    var bodyError: Option<SmtpError> := None;
    if a.connect.Some? {
      return a.connect, called;
    }
    if useTls && a.tls.Some? {
      bodyError := a.tls;
    } else if a.login.Some? {
      bodyError := a.login;
    } else {
      called := !a.handoff.Unrendered?;
      if a.handoff.Accepted? {
        accepted := true;
      } else if ExplicitRefusal(a.handoff.error) || a.handoff.error.Interrupt? {
        bodyError := Some(a.handoff.error);
      } else {
        bodyError := Some(AmbiguousSend);
      }
    }
    // __exit__ runs next and its own error, if any, replaces the one in flight.
    var err := if a.quit.Some? then a.quit else bodyError;
    if err.Some? && !err.value.Interrupt? {
      if bodyError.Some? {
        err := bodyError;
      } else if accepted {
        err := None;
      }
    }
    escaped := err;
  }

  /** The retry wrapper; `ran` is the number of attempts made and `calls` the sendmail() calls among them. */
  method SmtpSendWithRetry(script: Script, useTls: bool) returns (escaped: Option<SmtpError>, ran: nat, calls: nat)
    ensures ran == Final(script, useTls) + 1
    ensures escaped == Escapes(script[Final(script, useTls)], useTls)
    ensures calls == CallsIn(script[..ran], useTls)
  {
    ran, calls := 0, 0;
    while true
      invariant 0 <= ran < MAX_ATTEMPTS
      invariant FinalFrom(script, useTls, ran) == Final(script, useTls)
      invariant calls == CallsIn(script[..ran], useTls)
      decreases MAX_ATTEMPTS - ran
    {
      var called;
      escaped, called := SmtpAttempt(script[ran], useTls);
      assert script[..ran + 1][..ran] == script[..ran];
      ran := ran + 1;
      calls := calls + if called then 1 else 0;
      if escaped.None? || !Retryable(escaped.value) || ran == MAX_ATTEMPTS {
        return;
      }
    }
  }

  // ---- what the wrapper guarantees -----------------------------------------------------------

  /** An attempt that executed sendmail() is never retried, whatever its cleanup did afterwards. */
  lemma ReachedStops(a: Attempt, useTls: bool)
    requires Reached(a, useTls)
    ensures Stops(a, useTls)
  {}

  lemma {:induction false} NoneReached(script: seq<Attempt>, useTls: bool)
    requires forall j :: 0 <= j < |script| ==> !Reached(script[j], useTls)
    ensures CallsIn(script, useTls) == 0 && DeliveriesIn(script, useTls) == 0
  {
    if script != [] {
      NoneReached(script[..|script| - 1], useTls);
    }
  }

  /** Only the final attempt can have reached sendmail(), so its facts are the facts of the whole call. */
  lemma FinalDecides(c: Call)
    requires c.headerOk && c.live
    ensures var k := Final(c.script, c.useTls);
            && (forall j :: 0 <= j < k ==> !Reached(c.script[j], c.useTls))
            && Calls(c) == (if Called(c.script[k], c.useTls) then 1 else 0)
            && Deliveries(c) == (if Delivered(c.script[k], c.useTls) then 1 else 0)
  {
    var k := Final(c.script, c.useTls);
    forall j | 0 <= j < k
      ensures !Reached(c.script[j], c.useTls)
    {
      if Reached(c.script[j], c.useTls) { ReachedStops(c.script[j], c.useTls); }
    }
    NoneReached(c.script[..k], c.useTls);
    assert Executed(c)[..k] == c.script[..k];
  }

  /** Whatever fails and in whatever order, one send_email() call makes at most one sendmail() call. */
  lemma AtMostOneSendmail(c: Call)
    ensures Calls(c) <= 1 && Deliveries(c) <= Calls(c)
  {
    if c.headerOk && c.live { FinalDecides(c); }
  }

  /** The step that ran sendmail() failed, and the server did not explicitly say no. */
  predicate AmbiguousHandoff(a: Attempt, useTls: bool) {
    Reached(a, useTls) && !a.handoff.Accepted? && !SaidNo(a.handoff.error)
  }

  /**
   The three outcomes of a live call that returns, each in terms of what happened on the wire in some
   attempt that ran. No fourth case exists, and cleanup errors appear nowhere.
   */
  lemma OutcomeMeaning(c: Call)
    requires c.headerOk && c.live && SendEmail(c).Returned?
    ensures SendEmail(c).outcome.OutcomeSent? <==>
            exists a :: a in Executed(c) && Reached(a, c.useTls) && a.handoff.Accepted?
    ensures SendEmail(c).outcome.OutcomeUnknown? <==>
            exists a :: a in Executed(c) && AmbiguousHandoff(a, c.useTls)
    ensures SendEmail(c).outcome.OutcomeFailed? <==>
            forall a :: a in Executed(c) && Reached(a, c.useTls) ==>
              !a.handoff.Accepted? && SaidNo(a.handoff.error)
  {
    var k := Final(c.script, c.useTls);
    FinalDecides(c);
    assert c.script[k] == Executed(c)[k];
    forall a | a in Executed(c) && Reached(a, c.useTls)
      ensures a == c.script[k]
    {
      var j :| 0 <= j < |Executed(c)| && Executed(c)[j] == a;
      assert Executed(c)[j] == c.script[j];
    }
    var last := c.script[k];
    assert Escapes(last, c.useTls) == Some(AmbiguousSend) ==> AmbiguousHandoff(last, c.useTls);
  }

  /**
   FAILED means not taken. SENT means taken, exactly once, if and only if live sending is on: the
   dry run answers SENT without transmitting, which is why callers must refuse before reaching it.
   */
  lemma OutcomeHonest(c: Call)
    requires SendEmail(c).Returned?
    ensures SendEmail(c).outcome.OutcomeFailed? ==> Deliveries(c) == 0
    ensures SendEmail(c).outcome.OutcomeSent? ==> (Deliveries(c) == 1 <==> c.live)
    ensures !c.live ==> Calls(c) == 0
  {
    if c.live { FinalDecides(c); }
  }

  /** The attempt broke off before sendmail() with an error that may pass, and its QUIT was not interrupted. */
  predicate BrokeOff(a: Attempt, useTls: bool) {
    if a.connect.Some? then MayPass(a.connect.value)
    else if a.quit == Some(Interrupt) then false
    else if useTls && a.tls.Some? then MayPass(a.tls.value)
    else a.login.Some? && MayPass(a.login.value)
  }

  /** The first attempt always runs; another one runs exactly after one that broke off, and three at most do. */
  lemma RetriedExactly(c: Call, j: nat)
    requires c.headerOk && c.live
    ensures 1 <= |Executed(c)| <= 3 && Executed(c) <= c.script
    ensures j < |Executed(c)| ==> (j + 1 < |Executed(c)| <==> j + 1 < 3 && BrokeOff(c.script[j], c.useTls))
  {
    var k := Final(c.script, c.useTls);
    assert forall a :: !Stops(a, c.useTls) <==> BrokeOff(a, c.useTls);
  }

  /** A dry run and a malformed Message-ID run nothing; only an interrupt keeps a live call from returning. */
  lemma ReturnsExactly(c: Call)
    ensures !c.headerOk ==> SendEmail(c) == RaisedException && Executed(c) == []
    ensures c.headerOk && !c.live ==> SendEmail(c) == Returned(OutcomeSent) && Executed(c) == []
    ensures c.headerOk && c.live ==>
            (SendEmail(c).RaisedInterrupt? <==> Interrupted(Executed(c)[|Executed(c)| - 1], c.useTls))
            && (SendEmail(c).RaisedInterrupt? || SendEmail(c).Returned?)
  {}

  predicate Interrupted(a: Attempt, useTls: bool) {
    if a.connect.Some? then a.connect.value.Interrupt?
    else || a.quit == Some(Interrupt)
         || (if useTls && a.tls.Some? then a.tls.value.Interrupt?
             else if a.login.Some? then a.login.value.Interrupt?
             else !a.handoff.Accepted? && a.handoff.error.Interrupt?)
  }
}
