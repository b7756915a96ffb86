/**
 llm/provider_v2.py: which model and response mode is asked next, against a provider that may answer
 each call in any way. A call is identified by model, mode and its number within the retry wrapper.
 */
module LlmRouter {
  datatype Failure =
    | RateLimited | TimedOut | ProviderDown           // transient
    | Malformed | ModelMissing
    | AuthFailed | Invalid | Unclassified             // never worth another model

  datatype Raw = Content(text: string, isJson: bool) | Error(failure: Failure)

  datatype Mode = StrictSchema | JsonObject | Lenient

  type Provider = (string, Mode, nat) -> Raw

  predicate IsTransient(f: Failure) { f.RateLimited? || f.TimedOut? || f.ProviderDown? }

  // ---- one model, one mode -------------------------------------------------------------------------------

  const RAW_TRIES := 3

  predicate RetriesRaw(r: Raw) { r.Error? && IsTransient(r.failure) }

  /** Number of raw calls _chat_with_retry makes: up to and including the first it does not retry. */
  function RawCalls(p: Provider, model: string, mode: Mode, i: nat): (n: nat)
    requires i < RAW_TRIES
    ensures i < n <= RAW_TRIES
    ensures n == RAW_TRIES || !RetriesRaw(p(model, mode, n - 1))
    decreases RAW_TRIES - i
  {
    if RetriesRaw(p(model, mode, i)) && i + 1 < RAW_TRIES then RawCalls(p, model, mode, i + 1) else i + 1
  }

  lemma {:induction false} RetriedBefore(p: Provider, model: string, mode: Mode, i: nat)
    requires i < RAW_TRIES
    ensures forall k :: i <= k < RawCalls(p, model, mode, i) - 1 ==> RetriesRaw(p(model, mode, k))
    decreases RAW_TRIES - i
  {
    if RetriesRaw(p(model, mode, i)) && i + 1 < RAW_TRIES {
      RetriedBefore(p, model, mode, i + 1);
    }
  }

  datatype Outcome = Success(text: string) | Failed(failure: Failure)

  function Attempt(p: Provider, model: string, mode: Mode): Outcome {
    match p(model, mode, RawCalls(p, model, mode, 0) - 1)
    case Content(text, isJson) => if isJson then Success(text) else Failed(Malformed)
    case Error(f) => Failed(f)
  }

  /** Rate limit, timeout or outage. */
  predicate ComesBack(r: Raw) { r == Error(RateLimited) || r == Error(TimedOut) || r == Error(ProviderDown) }

  /** Every call before the last met a rate limit, a timeout or an outage; the last did not, unless it was the third. */
  method ChatWithRetry(p: Provider, model: string, mode: Mode) returns (raw: Raw, calls: nat)
    ensures calls == RawCalls(p, model, mode, 0) && raw == p(model, mode, calls - 1)
    ensures 1 <= calls <= 3 && (ComesBack(raw) ==> calls == 3)
    ensures forall k :: 0 <= k < calls - 1 ==> ComesBack(p(model, mode, k))
  {
    RetriedBefore(p, model, mode, 0);
    calls := 0;
    while true
      invariant calls < RAW_TRIES && RawCalls(p, model, mode, calls) == RawCalls(p, model, mode, 0)
      decreases RAW_TRIES - calls
    {
      raw := p(model, mode, calls);
      calls := calls + 1;
      if !RetriesRaw(raw) || calls == RAW_TRIES {
        return;
      }
    }
  }

  /** An attempt is decided by its last call: text that is JSON, text that is not, or the error. */
  lemma AttemptMeans(p: Provider, model: string, mode: Mode) returns (n: nat)
    ensures 1 <= n <= 3 && (ComesBack(p(model, mode, n - 1)) ==> n == 3)
    ensures forall k :: 0 <= k < n - 1 ==> ComesBack(p(model, mode, k))
    ensures match p(model, mode, n - 1)
            case Content(text, true) => Attempt(p, model, mode) == Success(text)
            case Content(_, false) => Attempt(p, model, mode) == Failed(Malformed)
            case Error(f) => Attempt(p, model, mode) == Failed(f)
  {
    n := RawCalls(p, model, mode, 0);
    RetriedBefore(p, model, mode, 0);
  }

  // ---- models in order ---------------------------------------------------------------------------------------

  const MAX_MODELS := 3
  const MAX_TOTAL_ATTEMPTS := 12

  /** First occurrences, in order. */
  function Distinct(models: seq<string>): seq<string> {
    if models == [] then []
    else
      var last := models[|models| - 1];
      var before := Distinct(models[..|models| - 1]);
      if last in models[..|models| - 1] then before else before + [last]
  }

  function Candidates(primary: string, fallbacks: seq<string>): seq<string> {
    var all := Distinct([primary] + fallbacks);
    if |all| > MAX_MODELS then all[..MAX_MODELS] else all
  }

  method ModelsToTry(primary: string, fallbacks: seq<string>) returns (models: seq<string>)
    ensures models == Candidates(primary, fallbacks)
  {
    var listed := [primary] + fallbacks;
    var seen: set<string> := {};
    var unique: seq<string> := [];
    for i := 0 to |listed|
      invariant forall m :: m in seen <==> m in listed[..i]
      invariant unique == Distinct(listed[..i])
    {
      assert listed[..i + 1][..i] == listed[..i];
      if listed[i] !in seen {
        seen := seen + {listed[i]};
        unique := unique + [listed[i]];
      }
    }
    assert listed[..|listed|] == listed;
    models := if |unique| > MAX_MODELS then unique[..MAX_MODELS] else unique;
  }

  lemma {:induction false} DistinctExact(models: seq<string>)
    ensures forall m :: m in Distinct(models) <==> m in models
    ensures forall i, j :: 0 <= i < j < |Distinct(models)| ==> Distinct(models)[i] != Distinct(models)[j]
    ensures models != [] ==> Distinct(models) != [] && Distinct(models)[0] == models[0]
  {
    if models != [] {
      var init := models[..|models| - 1];
      DistinctExact(init);
      assert models == init + [models[|models| - 1]];
    }
  }

  /** Position of the first occurrence. */
  function FirstAt(models: seq<string>, m: string): (k: nat)
    requires m in models
    ensures k < |models| && models[k] == m && m !in models[..k]
  {
    if models[0] == m then 0 else 1 + FirstAt(models[1..], m)
  }

  lemma FirstAtInit(models: seq<string>, m: string)
    requires models != [] && m in models[..|models| - 1]
    ensures m in models && FirstAt(models, m) == FirstAt(models[..|models| - 1], m)
  {
    var init := models[..|models| - 1];
    var a, b := FirstAt(init, m), FirstAt(models, m);
    assert models[a] == init[a] && models[..a] == init[..a];
  }

  /** The distinct models keep the order in which they first occur. */
  lemma {:induction false} DistinctInOrder(models: seq<string>)
    ensures forall m :: m in Distinct(models) ==> m in models
    ensures forall i, j :: 0 <= i < j < |Distinct(models)| ==>
              FirstAt(models, Distinct(models)[i]) < FirstAt(models, Distinct(models)[j])
  {
    DistinctExact(models);
    if models != [] {
      var init, last := models[..|models| - 1], models[|models| - 1];
      DistinctInOrder(init);
      DistinctExact(init);
      var before, all := Distinct(init), Distinct(models);
      forall i, j | 0 <= i < j < |all| ensures FirstAt(models, all[i]) < FirstAt(models, all[j]) {
        assert all[i] == before[i] && before[i] in before;
        FirstAtInit(models, all[i]);
        if j < |before| {
          assert all[j] == before[j] && before[j] in before;
          FirstAtInit(models, all[j]);
        } else {
          assert forall x :: 0 <= x < |init| ==> models[x] == init[x] && init[x] in init;
        }
      }
    }
  }

  /** The primary is always asked first, no model is asked twice, and at most three are asked. */
  lemma CandidatesExact(primary: string, fallbacks: seq<string>)
    ensures var models := Candidates(primary, fallbacks);
            && 0 < |models| <= 3 && models[0] == primary
            && (forall i, j :: 0 <= i < j < |models| ==> models[i] != models[j])
            && (forall i :: 0 <= i < |models| ==> models[i] in [primary] + fallbacks)
            && (|models| < 3 ==> forall m :: m in fallbacks ==> m in models)
  {
    var listed := [primary] + fallbacks;
    var all := Distinct(listed);
    DistinctExact(listed);
    var models := Candidates(primary, fallbacks);
    assert forall i :: 0 <= i < |models| ==> models[i] == all[i] && all[i] in all;
  }

  /** They are the first ones in the order configured: what is left out comes after everything that is asked. */
  lemma CandidatesInOrder(primary: string, fallbacks: seq<string>, i: nat, m: string)
    requires i < |Candidates(primary, fallbacks)| && m in [primary] + fallbacks
    ensures var models, listed := Candidates(primary, fallbacks), [primary] + fallbacks;
            && models[i] in listed
            && (forall j :: i < j < |models| ==>
                  models[j] in listed && FirstAt(listed, models[i]) < FirstAt(listed, models[j]))
            && (m !in models ==> FirstAt(listed, models[i]) < FirstAt(listed, m))
  {
    var models, listed := Candidates(primary, fallbacks), [primary] + fallbacks;
    var all := Distinct(listed);
    DistinctExact(listed);
    DistinctInOrder(listed);
    assert forall j :: 0 <= j < |models| ==> models[j] == all[j] && all[j] in all;
    assert m in all;
    var k :| 0 <= k < |all| && all[k] == m;
    assert k < |models| ==> models[k] == m;
  }

  // ---- the routing rule, stated per model -----------------------------------------------------------------------

  /** strict: the models whose capability entry allows a strict schema; schema: the caller passed one. */
  datatype Ask = Ask(provider: Provider, strict: set<string>, schema: bool)

  function Plan(ask: Ask, model: string): (plan: seq<Mode>)
    ensures 2 <= |plan| <= 3
  {
    (if ask.schema && model in ask.strict then [StrictSchema] else []) + [JsonObject, Lenient]
  }

  /** A strict schema is tried first, where there is one and the model takes it; then a JSON object, then anything. */
  lemma PlanExactly(ask: Ask, model: string)
    ensures Plan(ask, model)[|Plan(ask, model)| - 2..] == [JsonObject, Lenient]
    ensures if ask.schema && model in ask.strict then |Plan(ask, model)| == 3 && Plan(ask, model)[0] == StrictSchema
            else |Plan(ask, model)| == 2
  {}

  /** Position of the first mode of a plan that does not end in malformed output; the plan's length if none. */
  function Decisive(ask: Ask, model: string, j: nat): (k: nat)
    requires j <= |Plan(ask, model)|
    ensures j <= k <= |Plan(ask, model)|
    decreases |Plan(ask, model)| - j
  {
    if j == |Plan(ask, model)| || Attempt(ask.provider, model, Plan(ask, model)[j]) != Failed(Malformed) then j
    else Decisive(ask, model, j + 1)
  }

  /** What a model contributes, whatever its position. */
  function Contribution(ask: Ask, model: string): Outcome {
    var k := Decisive(ask, model, 0);
    if k < |Plan(ask, model)| then Attempt(ask.provider, model, Plan(ask, model)[k]) else Failed(Malformed)
  }

  /** The router moves on from model i: it was malformed in every mode, transiently failing, or a missing fallback. */
  predicate MovesOn(ask: Ask, models: seq<string>, i: nat)
    requires i < |models|
  {
    match Contribution(ask, models[i])
    case Success(_) => false
    case Failed(f) => Eligible(f, i)
  }

  /** The model whose contribution is final; the number of models if the router runs out. */
  function Settling(ask: Ask, models: seq<string>, i: nat): (k: nat)
    requires i <= |models|
    ensures i <= k <= |models|
    decreases |models| - i
  {
    if i == |models| || !MovesOn(ask, models, i) then i else Settling(ask, models, i + 1)
  }

  datatype Result =
    | Answer(text: string, modelUsed: string, mode: Mode, attempts: nat, usedFallback: bool)
    | Fails(failure: Failure)

  /** The (model, mode) pairs asked of one model, and of the first n models. */
  function AskedOf(ask: Ask, model: string): seq<(string, Mode)> {
    var k := Decisive(ask, model, 0);
    var plan := Plan(ask, model);
    seq(if k < |plan| then k + 1 else k, x requires 0 <= x < |plan| => (model, plan[x]))
  }

  function Asked(ask: Ask, models: seq<string>, n: nat): seq<(string, Mode)>
    requires n <= |models|
  {
    if n == 0 then [] else Asked(ask, models, n - 1) + AskedOf(ask, models[n - 1])
  }

  /** How many models are asked at all. */
  function ModelsAsked(ask: Ask, models: seq<string>): (n: nat)
    ensures n <= |models|
  {
    var k := Settling(ask, models, 0);
    if k < |models| then k + 1 else k
  }

  /** The answer, from the settling model alone; with none left, the last model's failure. */
  function Routed(ask: Ask, models: seq<string>): Result {
    var k := Settling(ask, models, 0);
    if k < |models| then
      match Contribution(ask, models[k])
      case Success(text) =>
        Answer(text, models[k], Plan(ask, models[k])[Decisive(ask, models[k], 0)],
               |Asked(ask, models, k + 1)|, k > 0)
      case Failed(f) => Fails(f)
    else if k == 0 then Fails(Unclassified)
    else match Contribution(ask, models[k - 1])
         case Success(_) => Fails(Unclassified)
         case Failed(f) => Fails(f)
  }

  // ---- the router ---------------------------------------------------------------------------------------------------

  lemma {:induction false} AskedGrows(ask: Ask, models: seq<string>, a: nat, b: nat)
    requires a <= b <= |models|
    ensures Asked(ask, models, a) <= Asked(ask, models, b)
  {
    if a < b {
      AskedGrows(ask, models, a, b - 1);
    }
  }

  lemma {:induction false} DecisiveMeans(ask: Ask, model: string, j: nat)
    requires j <= |Plan(ask, model)|
    ensures var k, plan := Decisive(ask, model, j), Plan(ask, model);
            && (forall x :: j <= x < k ==> Attempt(ask.provider, model, plan[x]) == Failed(Malformed))
            && (k < |plan| ==> Attempt(ask.provider, model, plan[k]) != Failed(Malformed))
    decreases |Plan(ask, model)| - j
  {
    if j < |Plan(ask, model)| && Attempt(ask.provider, model, Plan(ask, model)[j]) == Failed(Malformed) {
      DecisiveMeans(ask, model, j + 1);
    }
  }

  lemma {:induction false} SettlingMeans(ask: Ask, models: seq<string>, i: nat)
    requires i <= |models|
    ensures var k := Settling(ask, models, i);
            && (forall x :: i <= x < k ==> MovesOn(ask, models, x))
            && (k < |models| ==> !MovesOn(ask, models, k))
    decreases |models| - i
  {
    if i < |models| && MovesOn(ask, models, i) {
      SettlingMeans(ask, models, i + 1);
    }
  }

  /** The failure of the last attempt made, which is what the code keeps as last_error. */
  function Remembered(ask: Ask, trace: seq<(string, Mode)>): Failure {
    if trace == [] then Unclassified
    else match Attempt(ask.provider, trace[|trace| - 1].0, trace[|trace| - 1].1)
         case Success(_) => Unclassified
         case Failed(f) => f
  }

  /** The provider calls made for some attempts. */
  function RawIn(ask: Ask, pairs: seq<(string, Mode)>): nat {
    if pairs == [] then 0
    else RawIn(ask, pairs[..|pairs| - 1]) + RawCalls(ask.provider, pairs[|pairs| - 1].0, pairs[|pairs| - 1].1, 0)
  }

  lemma {:induction false} RawJoins(ask: Ask, a: seq<(string, Mode)>, b: seq<(string, Mode)>)
    ensures RawIn(ask, a + b) == RawIn(ask, a) + RawIn(ask, b)
  {
    if b == [] {
      assert a + b == a;
    } else {
      RawJoins(ask, a, b[..|b| - 1]);
      assert (a + b)[..|a + b| - 1] == a + b[..|b| - 1];
    }
  }

  lemma RawSplits(ask: Ask, asked: seq<(string, Mode)>, trace: seq<(string, Mode)>)
    requires asked <= trace
    ensures RawIn(ask, trace) == RawIn(ask, asked) + RawIn(ask, trace[|asked|..])
  {
    RawJoins(ask, asked, trace[|asked|..]);
    assert asked + trace[|asked|..] == trace;
  }

  lemma OneCallMore(ask: Ask, pairs: seq<(string, Mode)>, model: string, mode: Mode)
    ensures RawIn(ask, pairs + [(model, mode)]) == RawIn(ask, pairs) + RawCalls(ask.provider, model, mode, 0)
  {
    assert (pairs + [(model, mode)])[..|pairs|] == pairs;
  }

  lemma {:induction false} RawBound(ask: Ask, pairs: seq<(string, Mode)>)
    ensures |pairs| <= RawIn(ask, pairs) <= 3 * |pairs|
  {
    if pairs != [] {
      RawBound(ask, pairs[..|pairs| - 1]);
    }
  }

  /** One attempt: the retried call, and its text read as JSON. */
  method TryMode(ask: Ask, model: string, mode: Mode) returns (outcome: Outcome, calls: nat)
    ensures outcome == Attempt(ask.provider, model, mode) && calls == RawCalls(ask.provider, model, mode, 0)
  {
    var reply;
    reply, calls := ChatWithRetry(ask.provider, model, mode);
    outcome := match reply
               case Content(text, isJson) => if isJson then Success(text) else Failed(Malformed)
               case Error(f) => Failed(f);
  }

  /** The mode loop for one model, after `asked` attempts on earlier ones. */
  method TryModes(ask: Ask, model: string, asked: nat, cap: nat)
    returns (outcome: Outcome, pairs: seq<(string, Mode)>, raw: nat, capped: bool)
    requires asked <= cap
    ensures !capped ==> outcome == Contribution(ask, model) && pairs == AskedOf(ask, model)
    ensures capped ==> asked + |pairs| == cap && pairs < AskedOf(ask, model)
    ensures asked + |pairs| <= cap && raw == RawIn(ask, pairs)
  {
    var plan := Plan(ask, model);
    pairs, raw, capped, outcome := [], 0, false, Failed(Malformed);
    for j := 0 to |plan|
      invariant Decisive(ask, model, j) == Decisive(ask, model, 0)
      invariant |pairs| == j && forall x :: 0 <= x < j ==> pairs[x] == (model, plan[x])
      invariant asked + |pairs| <= cap && raw == RawIn(ask, pairs)
      invariant outcome == Failed(Malformed)
    {
      if asked + |pairs| >= cap {
        capped := true;
        return;
      }
      var calls;
      outcome, calls := TryMode(ask, model, plan[j]);
      OneCallMore(ask, pairs, model, plan[j]);
      pairs := pairs + [(model, plan[j])];
      raw := raw + calls;
      if outcome != Failed(Malformed) {
        return;
      }
    }
  }

  /** Once model i is reached, everything it is asked belongs to the whole run. */
  lemma AskedReached(ask: Ask, models: seq<string>, i: nat)
    requires i < |models| && Settling(ask, models, i) == Settling(ask, models, 0)
    ensures Asked(ask, models, i) + AskedOf(ask, models[i]) == Asked(ask, models, i + 1)
    ensures Asked(ask, models, i + 1) <= Asked(ask, models, ModelsAsked(ask, models))
  {
    AskedGrows(ask, models, i + 1, ModelsAsked(ask, models));
  }

  /** A failure after which the next model is asked. */
  predicate Eligible(f: Failure, i: nat) { f.Malformed? || IsTransient(f) || (f.ModelMissing? && i > 0) }

  /** A model that is not passed over settles the run. */
  lemma SettledHere(ask: Ask, models: seq<string>, i: nat)
    requires i < |models| && Settling(ask, models, i) == Settling(ask, models, 0)
    requires Contribution(ask, models[i]).Success? || !Eligible(Contribution(ask, models[i]).failure, i)
    ensures ModelsAsked(ask, models) == i + 1
    ensures match Contribution(ask, models[i])
            case Success(text) =>
              Routed(ask, models) == Answer(text, models[i], Plan(ask, models[i])[Decisive(ask, models[i], 0)],
                                            |Asked(ask, models, i + 1)|, i > 0)
            case Failed(f) => Routed(ask, models) == Fails(f)
  {}

  /** A model's last attempt is the one that gives its contribution. */
  lemma LastAsked(ask: Ask, model: string)
    ensures var t := AskedOf(ask, model);
            t != [] && t[|t| - 1].0 == model && Attempt(ask.provider, model, t[|t| - 1].1) == Contribution(ask, model)
  {
    DecisiveMeans(ask, model, 0);
  }

  lemma RememberedJoin(ask: Ask, a: seq<(string, Mode)>, b: seq<(string, Mode)>)
    ensures Remembered(ask, a + b) == if b == [] then Remembered(ask, a) else Remembered(ask, b)
  {
    assert b == [] ==> a + b == a;
  }

  /** After model i in full, its failure is what is remembered. */
  lemma ModelRemembered(ask: Ask, before: seq<(string, Mode)>, model: string, f: Failure)
    requires Contribution(ask, model) == Failed(f)
    ensures Remembered(ask, before + AskedOf(ask, model)) == f
  {
    LastAsked(ask, model);
    RememberedJoin(ask, before, AskedOf(ask, model));
  }

  /** With every model passed over, the result is what is remembered. */
  lemma SettledNowhere(ask: Ask, models: seq<string>)
    requires Settling(ask, models, 0) == |models|
    ensures Routed(ask, models) == Fails(Remembered(ask, Asked(ask, models, |models|)))
  {
    if models != [] {
      var n := |models| - 1;
      SettlingMeans(ask, models, 0);
      assert MovesOn(ask, models, n);
      ModelRemembered(ask, Asked(ask, models, n), models[n], Contribution(ask, models[n]).failure);
    }
  }

  /** All but the last attempt on a model are malformed. */
  lemma CutIsMalformed(ask: Ask, model: string, pairs: seq<(string, Mode)>)
    requires pairs < AskedOf(ask, model)
    ensures pairs != [] ==> Remembered(ask, pairs) == Malformed
  {
    DecisiveMeans(ask, model, 0);
    assert pairs != [] ==> pairs[|pairs| - 1] == AskedOf(ask, model)[|pairs| - 1];
  }

  /** How a run that is cut short stands: at the cap, on the way of the full run, with the last failure raised. */
  ghost predicate CutShort(ask: Ask, models: seq<string>, cap: nat, result: Result, trace: seq<(string, Mode)>) {
    && |trace| == cap && trace < Asked(ask, models, ModelsAsked(ask, models))
    && result == Fails(Remembered(ask, trace))
  }

  /** One turn of the outer loop; not `settled`: the next model is to be asked. */
  method AskModel(ask: Ask, models: seq<string>, i: nat, asked: seq<(string, Mode)>, before: Failure, cap: nat)
    returns (settled: bool, result: Result, lastError: Failure, trace: seq<(string, Mode)>, calls: nat, capped: bool)
    requires i < |models| && Settling(ask, models, i) == Settling(ask, models, 0)
    requires asked == Asked(ask, models, i) && |asked| <= cap && before == Remembered(ask, asked)
    ensures |trace| <= cap && asked <= trace && calls == RawIn(ask, trace[|asked|..])
    ensures capped ==> settled && CutShort(ask, models, cap, result, trace)
    ensures !capped ==> trace == Asked(ask, models, i + 1)
    ensures !capped && settled ==> result == Routed(ask, models) && ModelsAsked(ask, models) == i + 1
    ensures !settled ==> MovesOn(ask, models, i) && lastError == Remembered(ask, trace)
  {
    AskedReached(ask, models, i);
    var outcome, pairs;
    outcome, pairs, calls, capped := TryModes(ask, models[i], |asked|, cap);
    RememberedJoin(ask, asked, pairs);
    trace, lastError, settled := asked + pairs, before, true;
    assert trace[|asked|..] == pairs;
    if capped {
      CutIsMalformed(ask, models[i], pairs);
      result := Fails(if pairs == [] then lastError else Malformed);
      return;
    }
    match outcome
    case Success(text) =>
      AnsweredMode(ask, models[i]);
      SettledHere(ask, models, i);
      result := Answer(text, models[i], pairs[|pairs| - 1].1, |trace|, i > 0);
    case Failed(f) =>
      result := Fails(f);
      if !Eligible(f, i) {
        SettledHere(ask, models, i);
      } else {
        ModelRemembered(ask, asked, models[i], f);
        settled, lastError := false, f;
      }
  }

  /** Where the outer loop stands before model i. */
  ghost predicate OnTrack(ask: Ask, models: seq<string>, i: nat, cap: nat, trace: seq<(string, Mode)>, last: Failure,
                          raw: nat)
  {
    && i <= |models| && Settling(ask, models, i) == Settling(ask, models, 0)
    && trace == Asked(ask, models, i) && |trace| <= cap && last == Remembered(ask, trace) && raw == RawIn(ask, trace)
  }

  /** The run is over: as routed, or cut short at the cap. */
  ghost predicate Ended(ask: Ask, models: seq<string>, cap: nat, result: Result, trace: seq<(string, Mode)>, raw: nat,
                        capped: bool)
  {
    && raw == RawIn(ask, trace)
    && (!capped ==> result == Routed(ask, models) && trace == Asked(ask, models, ModelsAsked(ask, models)))
    && (capped ==> CutShort(ask, models, cap, result, trace))
  }

  method Turn(ask: Ask, models: seq<string>, i: nat, cap: nat, asked: seq<(string, Mode)>, before: Failure, made: nat)
    returns (settled: bool, result: Result, lastError: Failure, trace: seq<(string, Mode)>, raw: nat, capped: bool)
    requires i < |models| && OnTrack(ask, models, i, cap, asked, before, made)
    ensures settled ==> Ended(ask, models, cap, result, trace, raw, capped)
    ensures !settled ==> !capped && OnTrack(ask, models, i + 1, cap, trace, lastError, raw)
  {
    var calls;
    settled, result, lastError, trace, calls, capped := AskModel(ask, models, i, asked, before, cap);
    raw := made + calls;
    AddsUp(ask, asked, trace, made, calls);
    if !settled {
      GoesOnTrack(ask, models, i, cap, asked, before, made, trace, lastError, raw);
    }
  }

  lemma AddsUp(ask: Ask, asked: seq<(string, Mode)>, trace: seq<(string, Mode)>, made: nat, calls: nat)
    requires asked <= trace && made == RawIn(ask, asked) && calls == RawIn(ask, trace[|asked|..])
    ensures made + calls == RawIn(ask, trace)
  {
    RawSplits(ask, asked, trace);
  }

  lemma GoesOnTrack(ask: Ask, models: seq<string>, i: nat, cap: nat, asked: seq<(string, Mode)>, before: Failure,
                    made: nat, trace: seq<(string, Mode)>, last: Failure, raw: nat)
    requires i < |models| && OnTrack(ask, models, i, cap, asked, before, made) && MovesOn(ask, models, i)
    requires trace == Asked(ask, models, i + 1) && |trace| <= cap && last == Remembered(ask, trace)
    requires raw == RawIn(ask, trace)
    ensures OnTrack(ask, models, i + 1, cap, trace, last, raw)
  {}

  lemma EndOfTrack(ask: Ask, models: seq<string>, cap: nat, trace: seq<(string, Mode)>, last: Failure, raw: nat)
    requires OnTrack(ask, models, |models|, cap, trace, last, raw)
    ensures Ended(ask, models, cap, Fails(last), trace, raw, false)
  {
    SettledNowhere(ask, models);
  }

  lemma StartOfTrack(ask: Ask, models: seq<string>, cap: nat)
    ensures OnTrack(ask, models, 0, cap, [], Unclassified, 0)
  {}

  /**
   call_llm_json: models outside, response modes inside, with the attempt cap checked before each
   attempt. `trace` lists the pairs asked, `raw` counts provider calls, `capped` tells that the cap fired.
   */
  method CallLlmJson(ask: Ask, models: seq<string>, cap: nat)
    returns (result: Result, trace: seq<(string, Mode)>, raw: nat, capped: bool)
    ensures Ended(ask, models, cap, result, trace, raw, capped)
  {
    trace, raw, capped := [], 0, false;
    var lastError := Unclassified;
    StartOfTrack(ask, models, cap);
    for i := 0 to |models|
      invariant OnTrack(ask, models, i, cap, trace, lastError, raw)
    {
      var settled;
      settled, result, lastError, trace, raw, capped := Turn(ask, models, i, cap, trace, lastError, raw);
      if settled {
        return;
      }
    }
    EndOfTrack(ask, models, cap, trace, lastError, raw);
    result, capped := Fails(lastError), false;
  }

  lemma AnsweredMode(ask: Ask, model: string)
    requires Contribution(ask, model).Success?
    ensures var k := Decisive(ask, model, 0);
            k < |Plan(ask, model)| && |AskedOf(ask, model)| == k + 1
            && AskedOf(ask, model)[k] == (model, Plan(ask, model)[k])
  {}

  // ---- what a run of the router amounts to ------------------------------------------------------------------------

  lemma {:induction false} AskedBound(ask: Ask, models: seq<string>, n: nat)
    requires n <= |models|
    ensures |Asked(ask, models, n)| <= 3 * n
  {
    if n > 0 {
      AskedBound(ask, models, n - 1);
    }
  }

  /** The router as configured: at most 9 attempts and 27 raw calls, so the 12-attempt cap never decides anything. */
  method Route(ask: Ask, primary: string, fallbacks: seq<string>)
    returns (result: Result, trace: seq<(string, Mode)>, raw: nat)
    ensures result == Routed(ask, Candidates(primary, fallbacks))
    ensures var models := Candidates(primary, fallbacks); trace == Asked(ask, models, ModelsAsked(ask, models))
    ensures |trace| <= 9 && raw == RawIn(ask, trace) && raw <= 27
  {
    var models := ModelsToTry(primary, fallbacks);
    CandidatesExact(primary, fallbacks);
    AskedBound(ask, models, ModelsAsked(ask, models));
    var capped;
    result, trace, raw, capped := CallLlmJson(ask, models, MAX_TOTAL_ATTEMPTS);
    RawBound(ask, trace);
  }

  lemma PlanDistinct(ask: Ask, model: string, x: nat, y: nat)
    requires x < y < |Plan(ask, model)|
    ensures Plan(ask, model)[x] != Plan(ask, model)[y]
  {}

  predicate NoRepeats(t: seq<(string, Mode)>) { forall a, b :: 0 <= a < b < |t| ==> t[a] != t[b] }

  /** No (model, mode) pair is asked twice, so a provider keyed by the pair answers as freely as any other. */
  lemma {:induction false} NothingAskedTwice(ask: Ask, models: seq<string>, n: nat)
    requires n <= |models|
    requires forall i, j :: 0 <= i < j < |models| ==> models[i] != models[j]
    ensures NoRepeats(Asked(ask, models, n))
    ensures forall pair :: pair in Asked(ask, models, n) ==> pair.0 in models[..n]
  {
    if n > 0 {
      NothingAskedTwice(ask, models, n - 1);
      var before, now := Asked(ask, models, n - 1), AskedOf(ask, models[n - 1]);
      var t := Asked(ask, models, n);
      assert t == before + now;
      assert forall b :: 0 <= b < |now| ==> now[b] == (models[n - 1], Plan(ask, models[n - 1])[b]);
      assert models[..n] == models[..n - 1] + [models[n - 1]];
      forall a, b | 0 <= a < b < |t| ensures t[a] != t[b] {
        if b < |before| {
          assert t[a] == before[a] && t[b] == before[b];
          assert before[a] != before[b];
        } else if a < |before| {
          assert t[a] == before[a] && before[a] in before && t[b] == now[b - |before|];
          assert t[a].0 != t[b].0;
        } else {
          assert t[a] == now[a - |before|] && t[b] == now[b - |before|];
          PlanDistinct(ask, models[n - 1], a - |before|, b - |before|);
          assert t[a].1 != t[b].1;
        }
      }
    }
  }

  /** Attempt j of model k takes place: every earlier model was passed over, every earlier mode was malformed. */
  predicate Arrives(ask: Ask, models: seq<string>, k: nat, j: nat)
    requires k < |models| && j < |Plan(ask, models[k])|
  {
    && (forall i :: 0 <= i < k ==> MovesOn(ask, models, i))
    && (forall x :: 0 <= x < j ==> Attempt(ask.provider, models[k], Plan(ask, models[k])[x]) == Failed(Malformed))
  }

  function At(ask: Ask, models: seq<string>, k: nat, j: nat): Outcome
    requires k < |models| && j < |Plan(ask, models[k])|
  {
    Attempt(ask.provider, models[k], Plan(ask, models[k])[j])
  }

  lemma ArrivesDecides(ask: Ask, models: seq<string>, k: nat, j: nat)
    requires k < |models| && j < |Plan(ask, models[k])| && Arrives(ask, models, k, j)
    requires At(ask, models, k, j) != Failed(Malformed)
    ensures Decisive(ask, models[k], 0) == j && Contribution(ask, models[k]) == At(ask, models, k, j)
    ensures Settling(ask, models, 0) >= k && (!MovesOn(ask, models, k) ==> Settling(ask, models, 0) == k)
  {
    DecisiveMeans(ask, models[k], 0);
    SettlingMeans(ask, models, 0);
  }

  /** A model is passed over exactly when it was malformed throughout, transiently failing, or a missing fallback. */
  lemma MovesOnExactly(ask: Ask, models: seq<string>, k: nat)
    requires k < |models|
    ensures var plan := Plan(ask, models[k]);
            MovesOn(ask, models, k) <==>
            || (forall x :: 0 <= x < |plan| ==> At(ask, models, k, x) == Failed(Malformed))
            || (exists j ::
                  && 0 <= j < |plan| && At(ask, models, k, j).Failed?
                  && (|| At(ask, models, k, j).failure.RateLimited? || At(ask, models, k, j).failure.TimedOut?
                      || At(ask, models, k, j).failure.ProviderDown?
                      || (At(ask, models, k, j).failure.ModelMissing? && k > 0))
                  && (forall x :: 0 <= x < j ==> At(ask, models, k, x) == Failed(Malformed)))
  {
    DecisiveMeans(ask, models[k], 0);
    var d, plan := Decisive(ask, models[k], 0), Plan(ask, models[k]);
    assert forall x :: 0 <= x < d ==> At(ask, models, k, x) == Failed(Malformed);
    if d < |plan| {
      assert At(ask, models, k, d) != Failed(Malformed);
      assert Contribution(ask, models[k]) == At(ask, models, k, d);
    }
  }

  /** The first attempt to succeed is the answer, reported under the model and mode that produced it. */
  lemma ReportedAsProduced(ask: Ask, models: seq<string>, k: nat, j: nat)
    requires k < |models| && j < |Plan(ask, models[k])| && Arrives(ask, models, k, j)
    requires At(ask, models, k, j).Success?
    ensures var t := Asked(ask, models, ModelsAsked(ask, models));
            && 0 < |t| && t[|t| - 1] == (models[k], Plan(ask, models[k])[j])
            && Routed(ask, models) == Answer(At(ask, models, k, j).text, models[k], Plan(ask, models[k])[j], |t|, k > 0)
  {
    ArrivesDecides(ask, models, k, j);
  }

  /** There is an answer only if some attempt that takes place succeeds. */
  lemma AnsweredOnlySo(ask: Ask, models: seq<string>) returns (k: nat, j: nat)
    requires Routed(ask, models).Answer?
    ensures k < |models| && j < |Plan(ask, models[k])| && Arrives(ask, models, k, j)
    ensures At(ask, models, k, j).Success?
  {
    SettlingMeans(ask, models, 0);
    k := Settling(ask, models, 0);
    DecisiveMeans(ask, models[k], 0);
    j := Decisive(ask, models[k], 0);
  }

  /** When every model is passed over, the failure reported is that of the very last attempt. */
  lemma ExhaustedReportsLast(ask: Ask, models: seq<string>) returns (j: nat)
    requires models != [] && forall i :: 0 <= i < |models| ==> MovesOn(ask, models, i)
    ensures var n := |models| - 1; var t := Asked(ask, models, ModelsAsked(ask, models));
            && ModelsAsked(ask, models) == |models| && j < |Plan(ask, models[n])| && At(ask, models, n, j).Failed?
            && 0 < |t| && t[|t| - 1] == (models[n], Plan(ask, models[n])[j])
            && Routed(ask, models) == Fails(At(ask, models, n, j).failure)
  {
    var n := |models| - 1;
    SettlingMeans(ask, models, 0);
    assert MovesOn(ask, models, n);
    LastAsked(ask, models[n]);
    j := |AskedOf(ask, models[n])| - 1;
    ModelRemembered(ask, Asked(ask, models, n), models[n], Contribution(ask, models[n]).failure);
    SettledNowhere(ask, models);
  }

  /** An authentication, validation or unclassified failure, or a missing primary, ends the run there and then. */
  lemma FatalEndsRun(ask: Ask, models: seq<string>, k: nat, j: nat)
    requires k < |models| && j < |Plan(ask, models[k])| && Arrives(ask, models, k, j)
    requires At(ask, models, k, j).Failed?
    requires var f := At(ask, models, k, j).failure;
             f.AuthFailed? || f.Invalid? || f.Unclassified? || (f.ModelMissing? && k == 0)
    ensures Routed(ask, models) == Fails(At(ask, models, k, j).failure)
    ensures var t := Asked(ask, models, ModelsAsked(ask, models));
            0 < |t| && t[|t| - 1] == (models[k], Plan(ask, models[k])[j])
  {
    ArrivesDecides(ask, models, k, j);
  }

  lemma {:induction false} AskedExactly(ask: Ask, models: seq<string>, n: nat, k: nat, j: nat)
    requires k < n <= |models| && j < |Plan(ask, models[k])|
    requires forall a, b :: 0 <= a < b < |models| ==> models[a] != models[b]
    requires forall i :: 0 <= i < n - 1 ==> MovesOn(ask, models, i)
    ensures (models[k], Plan(ask, models[k])[j]) in Asked(ask, models, n) <==> Arrives(ask, models, k, j)
  {
    var pair := (models[k], Plan(ask, models[k])[j]);
    if k < n - 1 {
      AskedExactly(ask, models, n - 1, k, j);
      assert pair !in AskedOf(ask, models[n - 1]);
    } else {
      NothingAskedTwice(ask, models, n - 1);
      assert pair !in Asked(ask, models, n - 1);
      AskedOfExactly(ask, models[k], j);
    }
  }

  lemma AskedOfExactly(ask: Ask, model: string, j: nat)
    requires j < |Plan(ask, model)|
    ensures (model, Plan(ask, model)[j]) in AskedOf(ask, model)
            <==> forall x :: 0 <= x < j ==> Attempt(ask.provider, model, Plan(ask, model)[x]) == Failed(Malformed)
  {
    DecisiveMeans(ask, model, 0);
    var plan, asked := Plan(ask, model), AskedOf(ask, model);
    assert forall a, b :: 0 <= a < b < |plan| ==> plan[a] != plan[b];
    assert forall x :: 0 <= x < |asked| ==> asked[x] == (model, plan[x]);
    if j < |asked| {
      assert asked[j] in asked;
    }
  }

  /** The run's trace holds exactly the attempts that every earlier outcome calls for. */
  lemma TraceExactly(ask: Ask, models: seq<string>, k: nat, j: nat)
    requires k < |models| && j < |Plan(ask, models[k])|
    requires forall a, b :: 0 <= a < b < |models| ==> models[a] != models[b]
    ensures (models[k], Plan(ask, models[k])[j]) in Asked(ask, models, ModelsAsked(ask, models))
            <==> Arrives(ask, models, k, j)
  {
    var n := ModelsAsked(ask, models);
    SettlingMeans(ask, models, 0);
    if k < n {
      AskedExactly(ask, models, n, k, j);
    } else {
      NothingAskedTwice(ask, models, n);
    }
  }
}
