/**
 memory/store.py, reconcile_known_facts: folding what each message stated into what is believed now.
 The code updates entries in place as it reads; the meaning below looks at the whole history at once.
 */
module FactReconciliation {
  import opened DispatchModel

  /** A fact as extracted; a missing fact or value is "", and so is a missing `supersedes`. */
  datatype Statement = Statement(value: string, supersedes: string, detail: Detail)

  datatype Detail = Detail(certainty: string, evidence: string, sourceMessage: Option<int>, observedAt: string)

  /** The stored analysis of one message, in chronological order of messages. */
  datatype Analysis =
    | Unusable  // not a dictionary
    | Analysis(solution: Statement, newFacts: seq<Statement>, unresolved: seq<string>, contradicted: seq<string>)

  datatype Status = Current | Superseded

  datatype Fact = Fact(value: string, detail: Detail, status: Status)

  datatype Knowledge = Knowledge(
    solution: Option<Fact>,
    solutionHistory: seq<Fact>,
    facts: seq<Fact>,
    unresolved: seq<string>,
    contradicted: seq<string>)

  function Mk(s: Statement, status: Status): Fact {
    var certainty := if s.detail.certainty == "" then "unknown" else s.detail.certainty;
    Fact(s.value, s.detail.(certainty := certainty), status)
  }

  // ---- the meaning of a history of statements ------------------------------------------------------------

  /** Statement j, coming after i, declares i's value superseded. */
  predicate Overrules(h: seq<Statement>, j: nat, i: nat)
    requires i < |h| && j < |h|
  {
    i < j && h[j].supersedes == h[i].value
  }

  /** Nothing said before position n, after i, overrules i. */
  predicate LivesUntil(h: seq<Statement>, i: nat, n: nat)
    requires i < |h| && n <= |h|
  {
    forall j :: i < j < n ==> !Overrules(h, j, i)
  }

  /** Statement i repeats a value that was stated before and is not overruled by the time i has been read. */
  predicate Reaffirms(h: seq<Statement>, i: nat)
    requires i < |h|
  {
    exists k :: 0 <= k < i && h[k].value == h[i].value && LivesUntil(h, k, i + 1)
  }

  function StatusOfStatement(h: seq<Statement>, i: nat): Status
    requires i < |h|
  {
    if LivesUntil(h, i, |h|) then Current else Superseded
  }

  /** The first n statements, less reaffirmations, each with its standing in the whole history. */
  function Meaning(h: seq<Statement>, n: nat): seq<Fact>
    requires n <= |h|
  {
    if n == 0 then []
    else Meaning(h, n - 1) + if Reaffirms(h, n - 1) then [] else [Mk(h[n - 1], StatusOfStatement(h, n - 1))]
  }

  function Facts(h: seq<Statement>): seq<Fact> { Meaning(h, |h|) }

  // ---- the update the code makes -------------------------------------------------------------------------

  function Overruled(f: Fact, target: string): Fact {
    if f.status == Current && f.value == target then f.(status := Superseded) else f
  }

  function Marked(facts: seq<Fact>, target: string): (r: seq<Fact>)
    ensures |r| == |facts|
    ensures forall i :: 0 <= i < |r| ==> r[i] == Overruled(facts[i], target)
  {
    seq(|facts|, i requires 0 <= i < |facts| => Overruled(facts[i], target))
  }

  predicate Believed(facts: seq<Fact>, value: string) {
    exists i :: 0 <= i < |facts| && facts[i].status == Current && facts[i].value == value
  }

  method Supersede(facts: seq<Fact>, target: string) returns (r: seq<Fact>)
    ensures r == Marked(facts, target)
  {
    r := facts;
    for k := 0 to |facts|
      invariant |r| == |facts|
      invariant forall i :: 0 <= i < k ==> r[i] == Overruled(facts[i], target)
      invariant forall i :: k <= i < |r| ==> r[i] == facts[i]
    {
      if r[k].status == Current && r[k].value == target {
        r := r[k := r[k].(status := Superseded)];
      }
    }
  }

  method IsBelieved(facts: seq<Fact>, value: string) returns (yes: bool)
    ensures yes == Believed(facts, value)
  {
    for k := 0 to |facts|
      invariant forall i :: 0 <= i < k ==> !(facts[i].status == Current && facts[i].value == value)
    {
      if facts[k].status == Current && facts[k].value == value {
        return true;
      }
    }
    return false;
  }

  // ---- the update agrees with the meaning ---------------------------------------------------------------------

  predicate Usable(h: seq<Statement>) { forall i :: 0 <= i < |h| ==> h[i].value != "" }

  lemma LivesInPrefix(h: seq<Statement>, x: Statement, k: nat, m: nat)
    requires k < |h| && m <= |h|
    ensures LivesUntil(h + [x], k, m) <==> LivesUntil(h, k, m)
  {
    assert forall j :: k < j < m ==> (Overrules(h + [x], j, k) <==> Overrules(h, j, k));
  }

  lemma LivesOneMore(h: seq<Statement>, k: nat, m: nat)
    requires k < m < |h|
    ensures LivesUntil(h, k, m + 1) <==> LivesUntil(h, k, m) && !Overrules(h, m, k)
  {}

  /** Hearing x changes what came before only by overruling the value x names. */
  lemma {:induction false} MeaningExtends(h: seq<Statement>, x: Statement, n: nat)
    requires n <= |h|
    ensures Meaning(h + [x], n) == Marked(Meaning(h, n), x.supersedes)
  {
    if n > 0 {
      var i := n - 1;
      MeaningExtends(h, x, i);
      var g := h + [x];
      forall k | 0 <= k < i ensures LivesUntil(g, k, n) <==> LivesUntil(h, k, n) {
        LivesInPrefix(h, x, k, n);
      }
      assert Reaffirms(g, i) <==> Reaffirms(h, i) by {
        assert forall k :: 0 <= k <= i ==> g[k] == h[k];
      }
      LivesInPrefix(h, x, i, |h|);
      LivesOneMore(g, i, |h|);
    }
  }

  /** A value is current exactly if it was stated and nothing said later overrules that statement. */
  lemma CurrentExactly(h: seq<Statement>, n: nat, value: string)
    requires n <= |h|
    ensures Believed(Meaning(h, n), value)
            <==> exists i :: 0 <= i < n && h[i].value == value && LivesUntil(h, i, |h|)
  {
    if i :| 0 <= i < n && h[i].value == value && LivesUntil(h, i, |h|) {
      LiveIsBelieved(h, n, i);
    }
    if Believed(Meaning(h, n), value) {
      var e :| 0 <= e < |Meaning(h, n)| && Meaning(h, n)[e].status == Current && Meaning(h, n)[e].value == value;
      var i := Origin(h, n, e);
    }
  }

  lemma {:induction false} LiveIsBelieved(h: seq<Statement>, n: nat, i: nat)
    requires i < n <= |h| && LivesUntil(h, i, |h|)
    ensures Believed(Meaning(h, n), h[i].value)
    decreases i
  {
    if Reaffirms(h, i) {
      var k :| 0 <= k < i && h[k].value == h[i].value && LivesUntil(h, k, i + 1);
      forall j | k < j < |h| ensures !Overrules(h, j, k) {
        if i < j {
          assert !Overrules(h, j, i);
        }
      }
      LiveIsBelieved(h, n, k);
    } else {
      var e := Recorded(h, n, i);
    }
  }

  /** Entry e of the result goes back to a statement, and entries keep the order of their statements. */
  lemma {:induction false} Origin(h: seq<Statement>, n: nat, e: nat) returns (i: nat)
    requires n <= |h| && e < |Meaning(h, n)|
    ensures i < n && !Reaffirms(h, i) && e == |Meaning(h, i)|
    ensures Meaning(h, n)[e] == Mk(h[i], StatusOfStatement(h, i))
  {
    if e < |Meaning(h, n - 1)| {
      i := Origin(h, n - 1, e);
    } else {
      i := n - 1;
    }
  }

  /** Every statement that is not a reaffirmation keeps its own entry, with its own evidence and provenance. */
  lemma {:induction false} Recorded(h: seq<Statement>, n: nat, i: nat) returns (e: nat)
    requires i < n <= |h| && !Reaffirms(h, i)
    ensures e < |Meaning(h, n)| && e == |Meaning(h, i)|
    ensures Meaning(h, n)[e] == Mk(h[i], StatusOfStatement(h, i))
  {
    if i < n - 1 {
      e := Recorded(h, n - 1, i);
    } else {
      e := |Meaning(h, n - 1)|;
    }
  }

  lemma HeardNext(h: seq<Statement>, x: Statement)
    ensures var before := Marked(Facts(h), x.supersedes);
            Facts(h + [x]) == if Believed(before, x.value) then before else before + [Mk(x, Current)]
  {
    var g := h + [x];
    MeaningExtends(h, x, |h|);
    CurrentExactly(g, |h|, x.value);
    assert g[|h|] == x;
    assert Believed(Meaning(g, |h|), x.value) <==> Reaffirms(g, |h|);
  }

  lemma NothingNamed(facts: seq<Fact>)
    requires forall i :: 0 <= i < |facts| ==> facts[i].value != ""
    ensures Marked(facts, "") == facts
  {}

  lemma ValuesKept(h: seq<Statement>)
    requires Usable(h)
    ensures forall e :: 0 <= e < |Facts(h)| ==> Facts(h)[e].value != ""
  {
    forall e | 0 <= e < |Facts(h)| ensures Facts(h)[e].value != "" {
      var i := Origin(h, |h|, e);
    }
  }

  /** One new statement, applied to the entries of the history before it. */
  method Hear(ghost h: seq<Statement>, facts: seq<Fact>, x: Statement) returns (r: seq<Fact>)
    requires Usable(h) && facts == Facts(h)
    ensures r == Facts(h + [x])
  {
    r := facts;
    if x.supersedes != "" {
      r := Supersede(r, x.supersedes);
    } else {
      ValuesKept(h);
      NothingNamed(facts);
    }
    HeardNext(h, x);
    var already := IsBelieved(r, x.value);
    if !already {
      r := r + [Mk(x, Current)];
    }
  }

  // ---- the whole fold ----------------------------------------------------------------------------------------------

  function Stated(facts: seq<Statement>): seq<Statement> {
    if facts == [] then []
    else
      var last := facts[|facts| - 1];
      Stated(facts[..|facts| - 1]) + if last.value == "" then [] else [last]
  }

  function History(inbound: seq<Analysis>): seq<Statement> {
    if inbound == [] then []
    else
      var a := inbound[|inbound| - 1];
      History(inbound[..|inbound| - 1]) + if a.Unusable? then [] else Stated(a.newFacts)
  }

  function Solutions(inbound: seq<Analysis>): seq<Statement> {
    if inbound == [] then []
    else
      var a := inbound[|inbound| - 1];
      Solutions(inbound[..|inbound| - 1]) + if a.Unusable? || a.solution.value == "" then [] else [a.solution]
  }

  function LastOpen(inbound: seq<Analysis>): seq<string> {
    if inbound == [] then []
    else
      var a := inbound[|inbound| - 1];
      if a.Unusable? || a.unresolved == [] then LastOpen(inbound[..|inbound| - 1]) else a.unresolved
  }

  function Contradictions(inbound: seq<Analysis>): seq<string> {
    if inbound == [] then []
    else
      var a := inbound[|inbound| - 1];
      Contradictions(inbound[..|inbound| - 1]) + if a.Unusable? then [] else a.contradicted
  }

  lemma {:induction false} StatedUsable(facts: seq<Statement>)
    ensures Usable(Stated(facts))
  {
    if facts != [] {
      StatedUsable(facts[..|facts| - 1]);
    }
  }

  lemma {:induction false} HistoryUsable(inbound: seq<Analysis>)
    ensures Usable(History(inbound))
  {
    if inbound != [] {
      HistoryUsable(inbound[..|inbound| - 1]);
      if inbound[|inbound| - 1].Analysis? {
        StatedUsable(inbound[|inbound| - 1].newFacts);
      }
    }
  }

  /** All but the last solution, in order, each marked superseded. */
  function Former(solutions: seq<Statement>): (r: seq<Fact>)
    ensures |r| == if solutions == [] then 0 else |solutions| - 1
    ensures forall i :: 0 <= i < |r| ==> r[i] == Mk(solutions[i], Superseded)
  {
    if solutions == [] then []
    else seq(|solutions| - 1, i requires 0 <= i < |solutions| - 1 => Mk(solutions[i], Superseded))
  }

  function Latest(solutions: seq<Statement>): Option<Fact> {
    if solutions == [] then None else Some(Mk(solutions[|solutions| - 1], Current))
  }

  method HearAll(ghost h: seq<Statement>, facts: seq<Fact>, newFacts: seq<Statement>) returns (r: seq<Fact>)
    requires Usable(h) && facts == Facts(h)
    ensures var g := h + Stated(newFacts); r == Facts(g)
  {
    r := facts;
    ghost var g := h;
    for k := 0 to |newFacts|
      invariant g == h + Stated(newFacts[..k])
      invariant Usable(g) && r == Facts(g)
    {
      StatedNext(newFacts, k);
      if newFacts[k].value != "" {
        r := Hear(g, r, newFacts[k]);
        g := g + [newFacts[k]];
      }
    }
    assert newFacts[..|newFacts|] == newFacts;
  }

  lemma StatedNext(facts: seq<Statement>, k: nat)
    requires k < |facts|
    ensures Stated(facts[..k + 1]) == Stated(facts[..k]) + if facts[k].value == "" then [] else [facts[k]]
  {
    assert facts[..k + 1][..k] == facts[..k];
  }

  lemma SolutionsNext(inbound: seq<Analysis>, i: nat)
    requires i < |inbound|
    ensures var before, a := Solutions(inbound[..i]), inbound[i];
            Solutions(inbound[..i + 1])
            == if a.Unusable? || a.solution.value == "" then before else before + [a.solution]
  {
    assert inbound[..i + 1][..i] == inbound[..i];
  }

  lemma HistoryNext(inbound: seq<Analysis>, i: nat)
    requires i < |inbound|
    ensures var before, a := History(inbound[..i]), inbound[i];
            History(inbound[..i + 1]) == if a.Unusable? then before else before + Stated(a.newFacts)
  {
    assert inbound[..i + 1][..i] == inbound[..i];
  }

  lemma FormerNext(solutions: seq<Statement>, x: Statement)
    ensures Former(solutions + [x])
            == if solutions == [] then [] else Former(solutions) + [Latest(solutions).value.(status := Superseded)]
  {}

  /** k is what the messages so far amount to. */
  ghost predicate Represents(k: Knowledge, inbound: seq<Analysis>) {
    && k.facts == Facts(History(inbound))
    && k.solution == Latest(Solutions(inbound)) && k.solutionHistory == Former(Solutions(inbound))
    && k.unresolved == LastOpen(inbound) && k.contradicted == Contradictions(inbound)
  }

  method Absorb(k: Knowledge, ghost inbound: seq<Analysis>, i: nat, a: Analysis) returns (r: Knowledge)
    requires i < |inbound| && a == inbound[i] && Represents(k, inbound[..i])
    ensures Represents(r, inbound[..i + 1])
  {
    assert inbound[..i + 1][..i] == inbound[..i];
    SolutionsNext(inbound, i);
    HistoryNext(inbound, i);
    r := k;
    if a.Analysis? {
      if a.solution.value != "" {
        FormerNext(Solutions(inbound[..i]), a.solution);
        if r.solution.Some? {
          r := r.(solutionHistory := r.solutionHistory + [r.solution.value.(status := Superseded)]);
        }
        r := r.(solution := Some(Mk(a.solution, Current)));
      }
      HistoryUsable(inbound[..i]);
      var facts := HearAll(History(inbound[..i]), r.facts, a.newFacts);
      r := r.(facts := facts);
      if a.unresolved != [] {
        r := r.(unresolved := a.unresolved);
      }
      r := r.(contradicted := r.contradicted + a.contradicted);
    }
  }

  method ReconcileKnownFacts(inbound: seq<Analysis>) returns (k: Knowledge)
    ensures k.facts == Facts(History(inbound))
    ensures k.solution == Latest(Solutions(inbound)) && k.solutionHistory == Former(Solutions(inbound))
    ensures k.unresolved == LastOpen(inbound) && k.contradicted == Contradictions(inbound)
  {
    k := Knowledge(None, [], [], [], []);
    for i := 0 to |inbound|
      invariant Represents(k, inbound[..i])
    {
      k := Absorb(k, inbound, i, inbound[i]);
    }
    assert inbound[..|inbound|] == inbound;
  }

  // ---- what a reader of the result may rely on --------------------------------------------------------------------

  /** No value is current twice. */
  lemma CurrentValuesDistinct(h: seq<Statement>, a: nat, b: nat)
    requires a < b < |Facts(h)|
    requires Facts(h)[a].status == Current && Facts(h)[b].status == Current
    ensures Facts(h)[a].value != Facts(h)[b].value
  {
    var i := Origin(h, |h|, a);
    var j := Origin(h, |h|, b);
    MeaningGrows(h, j, i);
    assert i < j && LivesUntil(h, i, |h|);
    assert LivesUntil(h, i, j + 1);
  }

  lemma {:induction false} MeaningGrows(h: seq<Statement>, a: nat, b: nat)
    requires a <= |h| && b <= |h|
    ensures a <= b ==> |Meaning(h, a)| <= |Meaning(h, b)|
    decreases b
  {
    if a < b {
      MeaningGrows(h, a, b - 1);
    }
  }

  /** Nothing stated is dropped: each statement's value has an entry, made by it or by one before it. */
  lemma {:induction false} NothingDropped(h: seq<Statement>, i: nat) returns (e: nat)
    requires i < |h|
    ensures e < |Facts(h)| && Facts(h)[e].value == h[i].value
    ensures e <= |Meaning(h, i)|
    decreases i
  {
    if Reaffirms(h, i) {
      var k :| 0 <= k < i && h[k].value == h[i].value && LivesUntil(h, k, i + 1);
      e := NothingDropped(h, k);
      MeaningGrows(h, k, i);
    } else {
      e := Recorded(h, |h|, i);
    }
  }

  /** b keeps every entry of a in its place, and at most turns current into superseded. */
  predicate Evolves(a: seq<Fact>, b: seq<Fact>) {
    && |a| <= |b|
    && forall i :: 0 <= i < |a| ==>
         && b[i].(status := a[i].status) == a[i]
         && (a[i].status == Superseded ==> b[i].status == Superseded)
  }

  /** Whatever is said later, old entries stay, in place, and are never revived. */
  lemma {:induction false} HistoryEvolves(h: seq<Statement>, more: seq<Statement>)
    ensures Evolves(Facts(h), Facts(h + more))
  {
    if more == [] {
      assert h + more == h;
    } else {
      var init, x := more[..|more| - 1], more[|more| - 1];
      HistoryEvolves(h, init);
      HeardNext(h + init, x);
      assert h + more == (h + init) + [x];
    }
  }

  // ---- what is read off the messages ---------------------------------------------------------------------

  lemma {:induction false} StatedJoins(a: seq<Statement>, b: seq<Statement>)
    ensures Stated(a + b) == Stated(a) + Stated(b)
  {
    if b == [] {
      assert a + b == a;
    } else {
      StatedJoins(a, b[..|b| - 1]);
      assert (a + b)[..|a + b| - 1] == a + b[..|b| - 1];
    }
  }

  /** Every usable fact, none of the others. */
  lemma StatedOne(f: Statement)
    ensures Stated([f]) == if f.value == "" then [] else [f]
  {}

  lemma Regroup(x: seq<Statement>, y: seq<Statement>, z: seq<Statement>)
    ensures (x + y) + z == x + (y + z)
  {}

  /** What is read off two stretches of messages is read off each and put together, in order. */
  lemma {:induction false} HistoryJoins(a: seq<Analysis>, b: seq<Analysis>)
    ensures History(a + b) == History(a) + History(b)
  {
    if b == [] {
      assert a + b == a;
    } else {
      var init, last := b[..|b| - 1], b[|b| - 1];
      HistoryJoins(a, init);
      assert (a + b)[..|a + b| - 1] == a + init;
      var x := if last.Unusable? then [] else Stated(last.newFacts);
      Regroup(History(a), History(init), x);
    }
  }

  lemma {:induction false} SolutionsJoin(a: seq<Analysis>, b: seq<Analysis>)
    ensures Solutions(a + b) == Solutions(a) + Solutions(b)
  {
    if b == [] {
      assert a + b == a;
    } else {
      SolutionsJoin(a, b[..|b| - 1]);
      assert (a + b)[..|a + b| - 1] == a + b[..|b| - 1];
    }
  }

  lemma {:induction false} ContradictionsJoin(a: seq<Analysis>, b: seq<Analysis>)
    ensures Contradictions(a + b) == Contradictions(a) + Contradictions(b)
  {
    if b == [] {
      assert a + b == a;
    } else {
      ContradictionsJoin(a, b[..|b| - 1]);
      assert (a + b)[..|a + b| - 1] == a + b[..|b| - 1];
    }
  }

  /** The later stretch decides what is open, if it says anything. */
  lemma {:induction false} LastOpenJoins(a: seq<Analysis>, b: seq<Analysis>)
    ensures LastOpen(a + b) == if LastOpen(b) != [] then LastOpen(b) else LastOpen(a)
  {
    if b == [] {
      assert a + b == a;
    } else {
      LastOpenJoins(a, b[..|b| - 1]);
      assert (a + b)[..|a + b| - 1] == a + b[..|b| - 1];
    }
  }

  /** What one message contributes. */
  lemma ReadingOne(a: Analysis)
    ensures match a
            case Unusable =>
              History([a]) == [] && Solutions([a]) == [] && Contradictions([a]) == [] && LastOpen([a]) == []
            case Analysis(solution, newFacts, unresolved, contradicted) =>
              && History([a]) == Stated(newFacts) && LastOpen([a]) == unresolved && Contradictions([a]) == contradicted
              && Solutions([a]) == if solution.value == "" then [] else [solution]
  {
    assert [a][..0] == [];
  }

  /** An entry carries the statement's value and provenance; a certainty that was not given is "unknown". */
  lemma EntryCarries(s: Statement, status: Status)
    ensures var f := Mk(s, status);
            && f.value == s.value && f.status == status
            && f.detail == Detail(if s.detail.certainty != "" then s.detail.certainty else "unknown",
                                  s.detail.evidence, s.detail.sourceMessage, s.detail.observedAt)
  {}

  // ---- which messages, and in which order --------------------------------------------------------------------

  /** analysis: None where nothing is stored. An unsaved message has id 0. */
  datatype Logged = Logged(inbound: bool, analysis: Option<Analysis>, createdAt: Option<int>, id: int)

  /** The sort key (no time, time, id), compared as a tuple: messages without a time come last. */
  predicate Earlier(a: Logged, b: Logged) {
    if a.createdAt.None? != b.createdAt.None? then a.createdAt.Some?
    else if a.createdAt != b.createdAt then a.createdAt.value < b.createdAt.value
    else a.id < b.id
  }

  function Analyzed(messages: seq<Logged>): seq<Logged> {
    if messages == [] then []
    else
      var last := messages[|messages| - 1];
      Analyzed(messages[..|messages| - 1]) + if last.inbound && last.analysis.Some? then [last] else []
  }

  /** Insertion behind everything that is not later, which keeps equal keys in their given order. */
  function InsertAfter(sorted: seq<Logged>, m: Logged): seq<Logged> {
    if sorted == [] || !Earlier(m, sorted[|sorted| - 1]) then sorted + [m]
    else InsertAfter(sorted[..|sorted| - 1], m) + [sorted[|sorted| - 1]]
  }

  function Chronological(messages: seq<Logged>): seq<Logged> {
    if messages == [] then [] else InsertAfter(Chronological(messages[..|messages| - 1]), messages[|messages| - 1])
  }

  ghost predicate InOrder(s: seq<Logged>) { forall i, j :: 0 <= i < j < |s| ==> !Earlier(s[j], s[i]) }

  ghost predicate KeysDiffer(bag: multiset<Logged>) {
    forall x, y :: x in bag && y in bag && x != y ==> Earlier(x, y) || Earlier(y, x)
  }

  lemma {:induction false} InsertKeepsOrder(sorted: seq<Logged>, m: Logged)
    requires InOrder(sorted)
    ensures InOrder(InsertAfter(sorted, m)) && multiset(InsertAfter(sorted, m)) == multiset(sorted) + multiset{m}
  {
    if sorted != [] && Earlier(m, sorted[|sorted| - 1]) {
      var init, last := sorted[..|sorted| - 1], sorted[|sorted| - 1];
      InsertKeepsOrder(init, m);
      var r := InsertAfter(init, m);
      assert sorted == init + [last];
      forall i | 0 <= i < |r| ensures !Earlier(last, r[i]) {
        assert r[i] in multiset(r);
        assert r[i] in init || r[i] == m;
      }
    } else if sorted != [] {
      BehindAll(sorted, m);
    }
  }

  lemma BehindAll(sorted: seq<Logged>, m: Logged)
    requires InOrder(sorted) && sorted != [] && !Earlier(m, sorted[|sorted| - 1])
    ensures forall i :: 0 <= i < |sorted| ==> !Earlier(m, sorted[i])
  {
    forall i | 0 <= i < |sorted| ensures !Earlier(m, sorted[i]) {
      assert i < |sorted| - 1 ==> !Earlier(sorted[|sorted| - 1], sorted[i]);
    }
  }

  /** Dated before undated; among dated ones by time; at one time, and among undated ones, by id. */
  predicate NotLater(a: Logged, b: Logged) {
    match (a.createdAt, b.createdAt)
    case (Some(x), Some(y)) => x < y || (x == y && a.id <= b.id)
    case (Some(_), None) => true
    case (None, Some(_)) => false
    case (None, None) => a.id <= b.id
  }

  lemma InitBag(s: seq<Logged>)
    requires s != []
    ensures multiset(s) == multiset(s[..|s| - 1]) + multiset{s[|s| - 1]}
  {
    assert s == s[..|s| - 1] + [s[|s| - 1]];
  }

  lemma {:induction false} ChronologicalExact(messages: seq<Logged>)
    ensures InOrder(Chronological(messages)) && multiset(Chronological(messages)) == multiset(messages)
    ensures var s := Chronological(messages); forall i, j :: 0 <= i < j < |s| ==> NotLater(s[i], s[j])
  {
    if messages != [] {
      var init := messages[..|messages| - 1];
      ChronologicalExact(init);
      InsertKeepsOrder(Chronological(init), messages[|messages| - 1]);
      InitBag(messages);
    }
  }

  lemma SameHead(a: seq<Logged>, b: seq<Logged>)
    requires InOrder(a) && InOrder(b) && KeysDiffer(multiset(a)) && multiset(a) == multiset(b) && a != [] && b != []
    ensures a[0] == b[0]
  {
    assert a[0] in multiset(b) && b[0] in multiset(a);
    var j :| 0 <= j < |b| && b[j] == a[0];
    var i :| 0 <= i < |a| && a[i] == b[0];
  }

  lemma Tail(s: seq<Logged>)
    requires InOrder(s) && s != []
    ensures s == [s[0]] + s[1..] && InOrder(s[1..]) && multiset(s[1..]) == multiset(s) - multiset{s[0]}
  {
    assert s == [s[0]] + s[1..];
  }

  /** There is one way to put messages with different keys in order. */
  lemma {:induction false} OneOrder(a: seq<Logged>, b: seq<Logged>)
    requires InOrder(a) && InOrder(b) && KeysDiffer(multiset(a)) && multiset(a) == multiset(b)
    ensures a == b
  {
    assert |a| == |multiset(a)| == |multiset(b)| == |b|;
    if a != [] {
      SameHead(a, b);
      Tail(a);
      Tail(b);
      OneOrder(a[1..], b[1..]);
    }
  }

  lemma {:induction false} AnalyzedCounts(messages: seq<Logged>, m: Logged)
    ensures multiset(Analyzed(messages))[m] == if m.inbound && m.analysis.Some? then multiset(messages)[m] else 0
  {
    if messages != [] {
      AnalyzedCounts(messages[..|messages| - 1], m);
      assert messages == messages[..|messages| - 1] + [messages[|messages| - 1]];
    }
  }

  predicate AllAnalyzed(messages: seq<Logged>) {
    forall i :: 0 <= i < |messages| ==> messages[i].inbound && messages[i].analysis.Some?
  }

  function Analyses(messages: seq<Logged>): seq<Analysis>
    requires AllAnalyzed(messages)
  {
    seq(|messages|, i requires 0 <= i < |messages| => messages[i].analysis.value)
  }

  lemma SortedAreAnalyzed(messages: seq<Logged>)
    ensures AllAnalyzed(Chronological(Analyzed(messages)))
  {
    var s := Chronological(Analyzed(messages));
    ChronologicalExact(Analyzed(messages));
    forall i | 0 <= i < |s| ensures s[i].inbound && s[i].analysis.Some? {
      assert multiset(s)[s[i]] > 0;
      AnalyzedCounts(messages, s[i]);
    }
  }

  ghost function InboundOf(messages: seq<Logged>): seq<Analysis> {
    SortedAreAnalyzed(messages);
    Analyses(Chronological(Analyzed(messages)))
  }

  /** The knowledge drawn from a contact's messages: the analyzed inbound ones, oldest first. */
  method ReconcileContact(messages: seq<Logged>) returns (k: Knowledge)
    ensures Represents(k, InboundOf(messages))
  {
    SortedAreAnalyzed(messages);
    k := ReconcileKnownFacts(Analyses(Chronological(Analyzed(messages))));
  }

  /** The order in which the messages are loaded does not matter, as long as different ones differ in time or id. */
  lemma LoadOrderIrrelevant(a: seq<Logged>, b: seq<Logged>)
    requires multiset(a) == multiset(b) && KeysDiffer(multiset(a))
    ensures InboundOf(a) == InboundOf(b)
  {
    var x, y := Analyzed(a), Analyzed(b);
    forall m ensures multiset(x)[m] == multiset(y)[m] && (m in multiset(x) ==> m in multiset(a)) {
      AnalyzedCounts(a, m);
      AnalyzedCounts(b, m);
    }
    assert multiset(x) == multiset(y);
    ChronologicalExact(x);
    ChronologicalExact(y);
    OneOrder(Chronological(x), Chronological(y));
  }
}
