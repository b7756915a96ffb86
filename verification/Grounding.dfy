/**
 llm/grounding.py and the grounding gate of mail/exact_message.py: each claim of a draft is looked up in
 one lower-case text joined from the approved sources. The lookup is shown to be a lookup in each source.
 */
module Grounding {
  import opened DispatchModel

  /** What the regular expressions know of characters, and str.lower. */
  datatype Alphabet = Alphabet(isWord: char -> bool, isDigit: char -> bool, lower: string -> string)

  ghost predicate Sane(al: Alphabet) {
    && !al.isWord(' ')
    && (forall c :: al.isDigit(c) ==> al.isWord(c) && !('a' <= c <= 'z'))
    && (forall s :: s != "" ==> al.lower(s) != "")
    && (forall s :: Caseless(al, s) ==> al.lower(s) == s)
  }

  /** Small letters, digits, points and blanks have no other lower case. */
  ghost predicate Caseless(al: Alphabet, s: string) {
    forall i :: 0 <= i < |s| ==> al.isDigit(s[i]) || s[i] == '.' || s[i] == ' ' || 'a' <= s[i] <= 'z'
  }

  // ---- the approved corpus -------------------------------------------------------------------------------

  function Lowered(al: Alphabet, sources: seq<Option<string>>): seq<string> {
    if sources == [] then []
    else
      var last := sources[|sources| - 1];
      Lowered(al, sources[..|sources| - 1])
      + if last.None? || last.value == "" then [] else [al.lower(last.value)]
  }

  function Join(texts: seq<string>): string {
    if texts == [] then ""
    else if |texts| == 1 then texts[0]
    else Join(texts[..|texts| - 1]) + [' '] + texts[|texts| - 1]
  }

  function Corpus(al: Alphabet, sources: seq<Option<string>>): string { Join(Lowered(al, sources)) }

  // ---- searching -------------------------------------------------------------------------------------------

  /** The regular expression \b: exactly one side of position p is a word character. */
  predicate Boundary(al: Alphabet, text: string, p: nat)
    requires p <= |text|
  {
    (p > 0 && al.isWord(text[p - 1])) != (p < |text| && al.isWord(text[p]))
  }

  /** w stands at position p, and as a whole token where `whole` asks for that. */
  predicate OccursAt(al: Alphabet, text: string, w: string, whole: bool, p: nat) {
    && p + |w| <= |text| && text[p..p + |w|] == w
    && (whole ==> Boundary(al, text, p) && Boundary(al, text, p + |w|))
  }

  predicate Occurs(al: Alphabet, text: string, w: string, whole: bool) {
    exists p :: 0 <= p <= |text| && OccursAt(al, text, w, whole, p)
  }

  predicate OneWord(w: string) { w != "" && ' ' !in w }

  /** A blank-free word is found in a text joined by a blank only where it is found in one of the parts. */
  lemma JoinSplitsSearch(al: Alphabet, a: string, b: string, w: string, whole: bool)
    requires OneWord(w) && !al.isWord(' ')
    ensures Occurs(al, a + [' '] + b, w, whole) <==> Occurs(al, a, w, whole) || Occurs(al, b, w, whole)
  {
    var t := a + [' '] + b;
    if p :| 0 <= p <= |t| && OccursAt(al, t, w, whole, p) {
      NeverAcross(a, b, w, p);
      if p + |w| <= |a| {
        InFirst(al, a, b, w, whole, p);
      } else {
        InSecond(al, a, b, w, whole, p - |a| - 1);
      }
    }
    if p :| 0 <= p <= |a| && OccursAt(al, a, w, whole, p) {
      InFirst(al, a, b, w, whole, p);
    }
    if p :| 0 <= p <= |b| && OccursAt(al, b, w, whole, p) {
      InSecond(al, a, b, w, whole, p);
      assert OccursAt(al, t, w, whole, p + |a| + 1);
    }
  }

  lemma NeverAcross(a: string, b: string, w: string, p: nat)
    requires OneWord(w)
    requires var t := a + [' '] + b; p + |w| <= |t| && t[p..p + |w|] == w
    ensures p + |w| <= |a| || p > |a|
  {
    var t := a + [' '] + b;
    assert t[|a|] == ' ';
    NoBlankInside(t, w, p);
  }

  lemma NoBlankInside(t: string, w: string, p: nat)
    requires OneWord(w) && p + |w| <= |t| && t[p..p + |w|] == w
    ensures forall i :: p <= i < p + |w| ==> t[i] != ' '
  {}

  lemma InFirst(al: Alphabet, a: string, b: string, w: string, whole: bool, p: nat)
    requires p + |w| <= |a| && !al.isWord(' ')
    ensures OccursAt(al, a + [' '] + b, w, whole, p) <==> OccursAt(al, a, w, whole, p)
  {}

  lemma InSecond(al: Alphabet, a: string, b: string, w: string, whole: bool, p: nat)
    requires p + |w| <= |b| && !al.isWord(' ')
    ensures OccursAt(al, a + [' '] + b, w, whole, p + |a| + 1) <==> OccursAt(al, b, w, whole, p)
  {}

  /** Some source holds w. */
  predicate Held(al: Alphabet, texts: seq<string>, w: string, whole: bool) {
    exists i :: 0 <= i < |texts| && Occurs(al, texts[i], w, whole)
  }

  lemma {:induction false} SearchedApart(al: Alphabet, texts: seq<string>, w: string, whole: bool)
    requires OneWord(w) && !al.isWord(' ')
    ensures Occurs(al, Join(texts), w, whole) <==> Held(al, texts, w, whole)
  {
    if |texts| > 1 {
      var init, last := texts[..|texts| - 1], texts[|texts| - 1];
      SearchedApart(al, init, w, whole);
      JoinSplitsSearch(al, Join(init), last, w, whole);
      assert forall i :: 0 <= i < |init| ==> init[i] == texts[i];
    }
  }

  /** Source i, if given at all, holds w. */
  predicate SourceHolds(al: Alphabet, source: Option<string>, w: string, whole: bool) {
    source.Some? && source.value != "" && Occurs(al, al.lower(source.value), w, whole)
  }

  predicate Approved(al: Alphabet, sources: seq<Option<string>>, w: string, whole: bool) {
    exists i :: 0 <= i < |sources| && SourceHolds(al, sources[i], w, whole)
  }

  lemma {:induction false} LoweredHolds(al: Alphabet, sources: seq<Option<string>>, w: string, whole: bool)
    ensures Held(al, Lowered(al, sources), w, whole) <==> Approved(al, sources, w, whole)
  {
    if sources != [] {
      var init, last := sources[..|sources| - 1], sources[|sources| - 1];
      LoweredHolds(al, init, w, whole);
      assert forall i :: 0 <= i < |init| ==> init[i] == sources[i];
      var before := Lowered(al, init);
      var texts := Lowered(al, sources);
      assert forall i :: 0 <= i < |before| ==> texts[i] == before[i];
      if SourceHolds(al, last, w, whole) {
        assert texts[|before|] == al.lower(last.value);
      }
      if i :| 0 <= i < |before| && Occurs(al, before[i], w, whole) {
        assert Occurs(al, texts[i], w, whole);
      }
    }
  }

  /** A blank-free word is in the corpus exactly if some approved source holds it. */
  lemma FoundExactly(al: Alphabet, sources: seq<Option<string>>, w: string, whole: bool)
    requires OneWord(w) && !al.isWord(' ')
    ensures Occurs(al, Corpus(al, sources), w, whole) <==> Approved(al, sources, w, whole)
  {
    SearchedApart(al, Lowered(al, sources), w, whole);
    LoweredHolds(al, sources, w, whole);
  }

  // ---- the numbers of a claim -------------------------------------------------------------------------------

  function RunEnd(al: Alphabet, s: string, i: nat): (e: nat)
    requires i <= |s|
    ensures i <= e <= |s| && (i < |s| && al.isDigit(s[i]) ==> i < e)
    ensures forall k :: i <= k < e ==> al.isDigit(s[k])
    ensures e < |s| ==> !al.isDigit(s[e])
    decreases |s| - i
  {
    if i < |s| && al.isDigit(s[i]) then RunEnd(al, s, i + 1) else i
  }

  /** End of the match of digits, with an optional fraction, that starts at i. */
  function NumberEnd(al: Alphabet, s: string, i: nat): (e: nat)
    requires i < |s| && al.isDigit(s[i])
    ensures i < e <= |s| && al.isDigit(s[e - 1])
    ensures forall k :: i <= k < e ==> al.isDigit(s[k]) || s[k] == '.'
  {
    var e := RunEnd(al, s, i);
    if e + 1 < |s| && s[e] == '.' && al.isDigit(s[e + 1]) then RunEnd(al, s, e + 1) else e
  }

  function ExtractNumeric(al: Alphabet, s: string, i: nat): seq<string>
    requires i <= |s|
    decreases |s| - i
  {
    if i == |s| then []
    else if !al.isDigit(s[i]) then ExtractNumeric(al, s, i + 1)
    else [s[i..NumberEnd(al, s, i)]] + ExtractNumeric(al, s, NumberEnd(al, s, i))
  }

  predicate AllDigits(al: Alphabet, w: string) { w != "" && forall k :: 0 <= k < |w| ==> al.isDigit(w[k]) }

  /** Digits, or digits, a point and digits. */
  ghost predicate NumberText(al: Alphabet, w: string) {
    || AllDigits(al, w)
    || exists p :: 0 <= p < |w| && w[p] == '.' && AllDigits(al, w[..p]) && AllDigits(al, w[p + 1..])
  }

  /** The number read at a digit is the longest one that stands there. */
  lemma NumberIsLongest(al: Alphabet, s: string, i: nat)
    requires i < |s| && al.isDigit(s[i]) && !al.isDigit('.')
    ensures NumberText(al, s[i..NumberEnd(al, s, i)])
    ensures forall e :: NumberEnd(al, s, i) < e <= |s| ==> !NumberText(al, s[i..e])
  {
    NumberIsNumber(al, s, i);
    forall e | NumberEnd(al, s, i) < e <= |s| ensures !NumberText(al, s[i..e]) {
      NothingLonger(al, s, i, e);
    }
  }

  lemma NumberIsNumber(al: Alphabet, s: string, i: nat)
    requires i < |s| && al.isDigit(s[i])
    ensures NumberText(al, s[i..NumberEnd(al, s, i)])
  {
    var e1, e := RunEnd(al, s, i), NumberEnd(al, s, i);
    DigitsBetween(al, s, i, e1);
    if e != e1 {
      DigitsBetween(al, s, e1 + 1, e);
      PointAt(s, i, e1, e);
      PointForm(al, s[i..e1], s[e1 + 1..e]);
    }
  }

  lemma PointAt(s: string, i: nat, p: nat, e: nat)
    requires i <= p < e <= |s| && s[p] == '.'
    ensures s[i..e] == s[i..p] + ['.'] + s[p + 1..e]
  {}

  lemma DigitsBetween(al: Alphabet, s: string, i: nat, e: nat)
    requires i < e <= |s| && forall k :: i <= k < e ==> al.isDigit(s[k])
    ensures AllDigits(al, s[i..e])
  {}

  lemma PointForm(al: Alphabet, a: string, b: string)
    requires AllDigits(al, a) && AllDigits(al, b)
    ensures NumberText(al, a + ['.'] + b)
  {
    var w, p := a + ['.'] + b, |a|;
    assert w[..p] == a && w[p + 1..] == b && w[p] == '.';
  }

  lemma NothingLonger(al: Alphabet, s: string, i: nat, f: nat)
    requires i < |s| && al.isDigit(s[i]) && !al.isDigit('.') && NumberEnd(al, s, i) < f <= |s|
    ensures !NumberText(al, s[i..f])
  {
    var e1, w := RunEnd(al, s, i), s[i..f];
    assert w[e1 - i] == s[e1];
    if p :| 0 <= p < |w| && w[p] == '.' && AllDigits(al, w[..p]) && AllDigits(al, w[p + 1..]) {
      PointFormEnds(al, s, i, f, p);
    }
  }

  lemma PointFormEnds(al: Alphabet, s: string, i: nat, f: nat, p: nat)
    requires i < f <= |s| && p < f - i && al.isDigit(s[i]) && !al.isDigit('.')
    requires s[i..f][p] == '.' && AllDigits(al, s[i..f][..p]) && AllDigits(al, s[i..f][p + 1..])
    ensures f <= NumberEnd(al, s, i)
  {
    PointAtRunEnd(al, s, i, f, p);
    var rest := s[i..f][p + 1..];
    assert forall k :: 0 <= k < |rest| ==> rest[k] == s[i + p + 1 + k];
    var e := RunEnd(al, s, i + p + 1);
    assert forall k :: i + p + 1 <= k < f ==> s[k] == rest[k - (i + p + 1)];
  }

  lemma PointAtRunEnd(al: Alphabet, s: string, i: nat, f: nat, p: nat)
    requires i < f <= |s| && p < f - i && al.isDigit(s[i]) && !al.isDigit('.')
    requires s[i..f][p] == '.' && AllDigits(al, s[i..f][..p]) && AllDigits(al, s[i..f][p + 1..])
    ensures i + p == RunEnd(al, s, i) && i + p + 1 < f && al.isDigit(s[i + p + 1])
  {
    var e, w := RunEnd(al, s, i), s[i..f];
    assert w[p + 1..][0] == s[i + p + 1];
    assert forall k :: 0 <= k < p ==> w[..p][k] == s[i + k];
    assert s[i + p] == '.';
  }

  /** Reading on from i: nothing is left if no digit is, and else the next number starts at the next digit. */
  lemma NumbersRead(al: Alphabet, s: string, i: nat, a: nat)
    requires i <= a <= |s| && (forall k :: i <= k < a ==> !al.isDigit(s[k])) && (a < |s| ==> al.isDigit(s[a]))
    ensures ExtractNumeric(al, s, i)
            == if a == |s| then [] else [s[a..NumberEnd(al, s, a)]] + ExtractNumeric(al, s, NumberEnd(al, s, a))
  {
    NoDigitsBetween(al, s, i, a);
  }

  /** Digits at both ends, digits and points between. */
  ghost predicate Numeral(al: Alphabet, w: string) {
    && w != "" && al.isDigit(w[0]) && al.isDigit(w[|w| - 1])
    && forall k :: 0 <= k < |w| ==> al.isDigit(w[k]) || w[k] == '.'
  }

  lemma {:induction false} NumbersAreWords(al: Alphabet, s: string, i: nat)
    requires i <= |s| && Sane(al)
    ensures forall num :: num in ExtractNumeric(al, s, i) ==> OneWord(num) && Numeral(al, num)
    decreases |s| - i
  {
    if i < |s| {
      if al.isDigit(s[i]) {
        var e := NumberEnd(al, s, i);
        NumbersAreWords(al, s, e);
        assert !al.isDigit(' ');
        assert OneWord(s[i..e]) && Numeral(al, s[i..e]);
      } else {
        NumbersAreWords(al, s, i + 1);
      }
    }
  }

  // ---- the claim loop -----------------------------------------------------------------------------------------

  const GUARANTEE_PREFIX := "guarantee:"

  predicate IsGuarantee(claim: string) { GUARANTEE_PREFIX <= claim }

  /** A claim is borne out: each of its numbers by some source, and guarantee language by some source. */
  predicate BorneOut(al: Alphabet, sources: seq<Option<string>>, claim: string) {
    && (forall num :: num in ExtractNumeric(al, claim, 0) ==> Approved(al, sources, num, true))
    && (IsGuarantee(claim) ==> Approved(al, sources, "guarantee", false) || Approved(al, sources, "warrant", false))
  }

  /** With no source text at all, nothing is approved. */
  lemma EmptyCorpus(al: Alphabet, sources: seq<Option<string>>, w: string, whole: bool)
    requires OneWord(w) && Sane(al) && Corpus(al, sources) == ""
    ensures !Approved(al, sources, w, whole)
  {
    FoundExactly(al, sources, w, whole);
  }

  method CheckClaim(al: Alphabet, sources: seq<Option<string>>, corpus: string, claim: string) returns (ok: bool)
    requires Sane(al) && corpus == Corpus(al, sources)
    ensures ok == BorneOut(al, sources, claim)
  {
    var numerics := ExtractNumeric(al, claim, 0);
    NumbersAreWords(al, claim, 0);
    ok := true;
    if numerics != [] && corpus != "" {
      var k := 0;
      while k < |numerics| && ok
        invariant k <= |numerics|
        invariant ok ==> forall i :: 0 <= i < k ==> Approved(al, sources, numerics[i], true)
        invariant !ok ==> exists i :: 0 <= i < |numerics| && !Approved(al, sources, numerics[i], true)
        decreases |numerics| - k
      {
        FoundExactly(al, sources, numerics[k], true);
        if !Occurs(al, corpus, numerics[k], true) {
          ok := false;
        }
        k := k + 1;
      }
    } else if corpus == "" {
      if numerics != [] {
        EmptyCorpus(al, sources, numerics[0], true);
        ok := false;
      }
    }
    FoundExactly(al, sources, "guarantee", false);
    FoundExactly(al, sources, "warrant", false);
    if IsGuarantee(claim) && !Occurs(al, corpus, "guarantee", false) && !Occurs(al, corpus, "warrant", false) {
      ok := false;
    }
  }

  function Sift(al: Alphabet, sources: seq<Option<string>>, claims: seq<string>, verdict: bool): seq<string> {
    if claims == [] then []
    else
      var last := claims[|claims| - 1];
      Sift(al, sources, claims[..|claims| - 1], verdict) + if BorneOut(al, sources, last) == verdict then [last] else []
  }

  lemma SiftNext(al: Alphabet, sources: seq<Option<string>>, claims: seq<string>, i: nat, verdict: bool)
    requires i < |claims|
    ensures var before := Sift(al, sources, claims[..i], verdict);
            Sift(al, sources, claims[..i + 1], verdict)
            == if BorneOut(al, sources, claims[i]) == verdict then before + [claims[i]] else before
  {
    assert claims[..i + 1][..i] == claims[..i];
  }

  lemma {:induction false} SiftExactly(al: Alphabet, sources: seq<Option<string>>, claims: seq<string>, verdict: bool,
                                       c: string)
    ensures c in Sift(al, sources, claims, verdict) <==> c in claims && BorneOut(al, sources, c) == verdict
  {
    if claims != [] {
      var init := claims[..|claims| - 1];
      SiftExactly(al, sources, init, verdict, c);
      assert claims == init + [claims[|claims| - 1]];
    }
  }

  /** The two lists share out the claims between them, none lost and none twice. */
  lemma {:induction false} SiftSharesOut(al: Alphabet, sources: seq<Option<string>>, claims: seq<string>)
    ensures multiset(Sift(al, sources, claims, true)) + multiset(Sift(al, sources, claims, false)) == multiset(claims)
  {
    if claims != [] {
      var init := claims[..|claims| - 1];
      SiftSharesOut(al, sources, init);
      assert claims == init + [claims[|claims| - 1]];
    }
  }

  /** hard_block and is_grounded are both decided by the unsupported claims alone. */
  method ValidateGrounding(al: Alphabet, sources: seq<Option<string>>, claims: seq<string>)
    returns (supported: seq<string>, unsupported: seq<string>, hardBlock: bool)
    requires Sane(al)
    ensures supported == Sift(al, sources, claims, true) && unsupported == Sift(al, sources, claims, false)
    ensures hardBlock <==> Blocked(al, sources, claims)
  {
    var corpus := Corpus(al, sources);
    supported, unsupported := [], [];
    for i := 0 to |claims|
      invariant supported == Sift(al, sources, claims[..i], true)
      invariant unsupported == Sift(al, sources, claims[..i], false)
    {
      SiftNext(al, sources, claims, i, true);
      SiftNext(al, sources, claims, i, false);
      var ok := CheckClaim(al, sources, corpus, claims[i]);
      if ok {
        supported := supported + [claims[i]];
      } else {
        unsupported := unsupported + [claims[i]];
      }
    }
    assert claims[..|claims|] == claims;
    hardBlock := unsupported != [];
    BlockedExactly(al, sources, claims);
  }

  lemma BlockedExactly(al: Alphabet, sources: seq<Option<string>>, claims: seq<string>)
    ensures Blocked(al, sources, claims) <==> Sift(al, sources, claims, false) != []
  {}

  predicate Blocked(al: Alphabet, sources: seq<Option<string>>, claims: seq<string>) {
    exists c :: c in claims && !BorneOut(al, sources, c)
  }

  // ---- more sources can only help -----------------------------------------------------------------------------

  /** Whatever is added, and wherever it is put among the sources, a supported claim stays supported. */
  lemma MoreSourcesHelp(al: Alphabet, sources: seq<Option<string>>, more: seq<Option<string>>, claim: string)
    requires forall s :: s in sources && s.Some? && s.value != "" ==> s in more
    requires BorneOut(al, sources, claim)
    ensures BorneOut(al, more, claim)
  {}

  /** The sources in the order validate_grounding joins them. */
  function Sources(proofPoints: Option<string>, notes: Option<string>, transcript: Option<string>,
                   valueProp: Option<string>): seq<Option<string>>
  {
    [proofPoints, notes, transcript, valueProp]
  }

  /** Leaving the transcript out, as the exact-message gate does, blocks whatever the full check blocks. */
  lemma DroppedTranscriptBlocksMore(al: Alphabet, proofPoints: Option<string>, notes: Option<string>,
                                    transcript: Option<string>, valueProp: Option<string>, claims: seq<string>)
    requires Blocked(al, Sources(proofPoints, notes, transcript, valueProp), claims)
    ensures Blocked(al, Sources(proofPoints, notes, None, valueProp), claims)
  {
    var c :| c in claims && !BorneOut(al, Sources(proofPoints, notes, transcript, valueProp), c);
    if BorneOut(al, Sources(proofPoints, notes, None, valueProp), c) {
      MoreSourcesHelp(al, Sources(proofPoints, notes, None, valueProp),
                      Sources(proofPoints, notes, transcript, valueProp), c);
    }
  }

  /** What the transcript adds: numbers and guarantee language that no other source holds, and nothing else. */
  lemma TranscriptAdds(al: Alphabet, proofPoints: Option<string>, notes: Option<string>,
                       transcript: Option<string>, valueProp: Option<string>, claim: string)
    ensures var rest := Sources(proofPoints, notes, None, valueProp);
            BorneOut(al, Sources(proofPoints, notes, transcript, valueProp), claim) <==>
            && (forall num :: num in ExtractNumeric(al, claim, 0) ==>
                  Approved(al, rest, num, true) || SourceHolds(al, transcript, num, true))
            && (IsGuarantee(claim) ==>
                  || Approved(al, rest, "guarantee", false) || SourceHolds(al, transcript, "guarantee", false)
                  || Approved(al, rest, "warrant", false) || SourceHolds(al, transcript, "warrant", false))
  {
    var full, rest := Sources(proofPoints, notes, transcript, valueProp), Sources(proofPoints, notes, None, valueProp);
    forall w, whole
      ensures Approved(al, full, w, whole) <==> Approved(al, rest, w, whole) || SourceHolds(al, transcript, w, whole)
    {
      assert full[0] == rest[0] && full[1] == rest[1] && full[3] == rest[3] && full[2] == transcript;
      assert !SourceHolds(al, rest[2], w, whole);
    }
  }

  // ---- not every supported claim can be traced to one source -----------------------------------------------------

  /** Traceable in the sense of the module's description: one source bears out the whole claim. */
  predicate Traceable(al: Alphabet, sources: seq<Option<string>>, claim: string) {
    exists i :: 0 <= i < |sources| && BorneOut(al, [sources[i]], claim)
  }

  /** Whatever the four sources are, if they support the claim then one of them bears it out. */
  ghost predicate AlwaysTraceable(al: Alphabet, claim: string) {
    forall a, b, c, d :: BorneOut(al, Sources(a, b, c, d), claim) ==> Traceable(al, Sources(a, b, c, d), claim)
  }

  /** One of the numbers holds all of them as tokens, as "2.5" holds "2" and "5". */
  predicate Dominated(al: Alphabet, numbers: seq<string>) {
    exists big :: big in numbers && forall w :: w in numbers ==> Occurs(al, big, w, true)
  }

  /**
   A supported claim can be traced to one source exactly if it has no number, or makes no guarantee and has
   a number that holds all its others. The condition is on the claim alone.
   */
  lemma TraceableExactly(al: Alphabet, claim: string)
    requires Sane(al)
    ensures var numbers := ExtractNumeric(al, claim, 0);
            AlwaysTraceable(al, claim) <==> numbers == [] || (!IsGuarantee(claim) && Dominated(al, numbers))
  {
    var numbers := ExtractNumeric(al, claim, 0);
    if numbers == [] || (!IsGuarantee(claim) && Dominated(al, numbers)) {
      forall a, b, c, d | BorneOut(al, Sources(a, b, c, d), claim)
        ensures Traceable(al, Sources(a, b, c, d), claim)
      {
        OneSourceServes(al, Sources(a, b, c, d), claim);
      }
    } else if IsGuarantee(claim) {
      var text := GuaranteeSpread(al, claim);
    } else {
      var first, second := NumbersSpread(al, claim);
    }
  }

  lemma OneSourceServes(al: Alphabet, sources: seq<Option<string>>, claim: string)
    requires Sane(al) && sources != [] && BorneOut(al, sources, claim)
    requires var numbers := ExtractNumeric(al, claim, 0);
             numbers == [] || (!IsGuarantee(claim) && Dominated(al, numbers))
    ensures Traceable(al, sources, claim)
  {
    var numbers := ExtractNumeric(al, claim, 0);
    if numbers != [] {
      NumbersAreWords(al, claim, 0);
      var big :| big in numbers && forall w :: w in numbers ==> Occurs(al, big, w, true);
      var i :| 0 <= i < |sources| && SourceHolds(al, sources[i], big, true);
      forall w | w in numbers ensures Approved(al, [sources[i]], w, true) {
        OccursWithin(al, al.lower(sources[i].value), big, w);
        assert SourceHolds(al, [sources[i]][0], w, true);
      }
      assert BorneOut(al, [sources[i]], claim);
    } else if IsGuarantee(claim) {
      var word := if Approved(al, sources, "guarantee", false) then "guarantee" else "warrant";
      var i :| 0 <= i < |sources| && SourceHolds(al, sources[i], word, false);
      assert SourceHolds(al, [sources[i]][0], word, false);
      assert BorneOut(al, [sources[i]], claim);
    } else {
      assert BorneOut(al, [sources[0]], claim);
    }
  }

  /** A whole token within a whole token of a text is a whole token of the text. */
  lemma OccursWithin(al: Alphabet, text: string, big: string, w: string)
    requires w != "" && Occurs(al, text, big, true) && Occurs(al, big, w, true)
    ensures Occurs(al, text, w, true)
  {
    var p :| 0 <= p <= |text| && OccursAt(al, text, big, true, p);
    var q :| 0 <= q <= |big| && OccursAt(al, big, w, true, q);
    OccursAtWithin(al, text, big, w, p, q);
  }

  lemma OccursAtWithin(al: Alphabet, text: string, big: string, w: string, p: nat, q: nat)
    requires OccursAt(al, text, big, true, p) && OccursAt(al, big, w, true, q)
    ensures OccursAt(al, text, w, true, p + q)
  {
    BoundaryWithin(al, text, big, p, q);
    BoundaryWithin(al, text, big, p, q + |w|);
    SliceWithin(text, big, w, p, q);
  }

  lemma SliceWithin(text: string, big: string, w: string, p: nat, q: nat)
    requires p + |big| <= |text| && text[p..p + |big|] == big
    requires q + |w| <= |big| && big[q..q + |w|] == w
    ensures text[p + q..p + q + |w|] == w
  {
    forall k | 0 <= k < |w| ensures text[p + q + k] == w[k] {
      assert w[k] == big[q..q + |w|][k] == big[q + k];
      assert big[q + k] == text[p..p + |big|][q + k];
    }
  }

  lemma BoundaryWithin(al: Alphabet, text: string, big: string, p: nat, q: nat)
    requires q <= |big| && OccursAt(al, text, big, true, p) && Boundary(al, big, q)
    ensures Boundary(al, text, p + q)
  {
    assert q < |big| ==> text[p + q] == text[p..p + |big|][q];
    assert q > 0 ==> text[p + q - 1] == text[p..p + |big|][q - 1];
  }

  lemma Alone(al: Alphabet, source: Option<string>, w: string, whole: bool)
    ensures Approved(al, [source], w, whole) <==> SourceHolds(al, source, w, whole)
  {
    assert [source][0] == source;
  }

  /** Two of the four sources are given. */
  function Two(first: string, second: string): seq<Option<string>> { Sources(Some(first), Some(second), None, None) }

  lemma TwoApprove(al: Alphabet, first: string, second: string, w: string, whole: bool)
    ensures Approved(al, Two(first, second), w, whole)
            <==> SourceHolds(al, Some(first), w, whole) || SourceHolds(al, Some(second), w, whole)
  {
    var s := Two(first, second);
    assert s[0] == Some(first) && s[1] == Some(second) && s[2] == None && s[3] == None;
  }

  /** Neither source bears the claim out, and an absent one does no better than the first. */
  lemma NeitherTraces(al: Alphabet, first: string, second: string, claim: string)
    requires !BorneOut(al, [Some(first)], claim) && !BorneOut(al, [Some(second)], claim)
    requires ExtractNumeric(al, claim, 0) != []
    ensures !Traceable(al, Two(first, second), claim)
  {
    var s, numbers := Two(first, second), ExtractNumeric(al, claim, 0);
    assert numbers[0] in numbers;
    Alone(al, None, numbers[0], true);
    assert s[0] == Some(first) && s[1] == Some(second) && s[2] == None && s[3] == None;
  }

  lemma {:induction false} Longest(numbers: seq<string>) returns (big: string)
    requires numbers != []
    ensures big in numbers && forall w :: w in numbers ==> |w| <= |big|
  {
    big := numbers[0];
    if |numbers| > 1 {
      var rest := Longest(numbers[1..]);
      if |rest| > |big| {
        big := rest;
      }
      assert numbers == [numbers[0]] + numbers[1..];
    }
  }

  function Others(numbers: seq<string>, big: string): (r: seq<string>)
    ensures forall w :: w in r <==> w in numbers && w != big
  {
    if numbers == [] then []
    else
      assert numbers == [numbers[0]] + numbers[1..];
      (if numbers[0] == big then [] else [numbers[0]]) + Others(numbers[1..], big)
  }

  /** A text of blank-separated numbers holds a number as a token exactly if one of its parts does. */
  lemma NumbersAsText(al: Alphabet, parts: seq<string>, w: string)
    requires Sane(al) && OneWord(w) && forall x :: x in parts ==> Numeral(al, x)
    ensures SourceHolds(al, Some(Join(parts)), w, true) <==> Held(al, parts, w, true)
  {
    JoinCaseless(al, parts);
    SearchedApart(al, parts, w, true);
  }

  lemma {:induction false} JoinCaseless(al: Alphabet, parts: seq<string>)
    requires forall x :: x in parts ==> Numeral(al, x)
    ensures forall i :: 0 <= i < |Join(parts)| ==>
              al.isDigit(Join(parts)[i]) || Join(parts)[i] == '.' || Join(parts)[i] == ' '
    ensures Caseless(al, Join(parts))
  {
    if parts != [] {
      assert parts[|parts| - 1] in parts;
      if |parts| > 1 {
        JoinCaseless(al, parts[..|parts| - 1]);
      }
    }
  }

  lemma OwnToken(al: Alphabet, w: string)
    requires Sane(al) && Numeral(al, w)
    ensures Occurs(al, w, w, true) && al.lower(w) == w
  {
    assert Caseless(al, w);
    assert w[0..|w|] == w;
    assert OccursAt(al, w, w, true, 0);
  }

  /** No longer number, no other number of the same length: the longest is in none of the others. */
  lemma LongestNotWithin(al: Alphabet, parts: seq<string>, big: string)
    requires forall w :: w in parts ==> |w| <= |big| && w != big
    ensures !Held(al, parts, big, true)
  {
    forall i | 0 <= i < |parts| ensures !Occurs(al, parts[i], big, true) {
      assert parts[i] in parts;
      forall p: nat ensures !OccursAt(al, parts[i], big, true, p) {
        assert p == 0 && |parts[i]| == |big| ==> parts[i][0..|big|] == parts[i];
      }
    }
  }

  lemma LacksNumber(al: Alphabet, source: Option<string>, claim: string, w: string)
    requires w in ExtractNumeric(al, claim, 0) && !SourceHolds(al, source, w, true)
    ensures !BorneOut(al, [source], claim)
  {
    Alone(al, source, w, true);
  }

  lemma RestLacksLongest(al: Alphabet, numbers: seq<string>, big: string)
    requires Sane(al) && big in numbers && forall w :: w in numbers ==> |w| <= |big|
    requires forall x :: x in numbers ==> OneWord(x) && Numeral(al, x)
    ensures !SourceHolds(al, Some(Join(Others(numbers, big))), big, true)
  {
    LongestNotWithin(al, Others(numbers, big), big);
    NumbersAsText(al, Others(numbers, big), big);
  }

  lemma Unheld(al: Alphabet, numbers: seq<string>, big: string) returns (w: string)
    requires Sane(al) && Numeral(al, big) && big in numbers && !Dominated(al, numbers)
    ensures w in numbers && !SourceHolds(al, Some(big), w, true)
  {
    OwnToken(al, big);
    w :| w in numbers && !Occurs(al, big, w, true);
  }

  lemma SpreadSupports(al: Alphabet, claim: string, big: string)
    requires Sane(al) && !IsGuarantee(claim) && big in ExtractNumeric(al, claim, 0)
    ensures BorneOut(al, Two(big, Join(Others(ExtractNumeric(al, claim, 0), big))), claim)
  {
    var numbers := ExtractNumeric(al, claim, 0);
    NumbersAreWords(al, claim, 0);
    forall w | w in numbers ensures Approved(al, Two(big, Join(Others(numbers, big))), w, true) {
      SpreadHolds(al, numbers, big, w);
      TwoApprove(al, big, Join(Others(numbers, big)), w, true);
    }
  }

  /** The longest number in one source and the rest in another: together they support what neither bears out. */
  lemma NumbersSpread(al: Alphabet, claim: string) returns (first: string, second: string)
    requires Sane(al) && ExtractNumeric(al, claim, 0) != []
    requires !IsGuarantee(claim) && !Dominated(al, ExtractNumeric(al, claim, 0))
    ensures BorneOut(al, Two(first, second), claim) && !Traceable(al, Two(first, second), claim)
  {
    var numbers := ExtractNumeric(al, claim, 0);
    NumbersAreWords(al, claim, 0);
    first := Longest(numbers);
    second := Join(Others(numbers, first));
    SpreadSupports(al, claim, first);
    var w := Unheld(al, numbers, first);
    RestLacksLongest(al, numbers, first);
    EachLacksOne(al, first, second, claim, w, first);
  }

  lemma EachLacksOne(al: Alphabet, first: string, second: string, claim: string, w: string, v: string)
    requires w in ExtractNumeric(al, claim, 0) && !SourceHolds(al, Some(first), w, true)
    requires v in ExtractNumeric(al, claim, 0) && !SourceHolds(al, Some(second), v, true)
    ensures !Traceable(al, Two(first, second), claim)
  {
    LacksNumber(al, Some(first), claim, w);
    LacksNumber(al, Some(second), claim, v);
    NeitherTraces(al, first, second, claim);
  }

  lemma SpreadHolds(al: Alphabet, numbers: seq<string>, big: string, w: string)
    requires Sane(al) && w in numbers && big in numbers
    requires forall x :: x in numbers ==> OneWord(x) && Numeral(al, x)
    ensures SourceHolds(al, Some(big), w, true) || SourceHolds(al, Some(Join(Others(numbers, big))), w, true)
  {
    OwnToken(al, w);
    if w != big {
      var rest := Others(numbers, big);
      NumbersAsText(al, rest, w);
      var i :| 0 <= i < |rest| && rest[i] == w;
    }
  }

  /** A guarantee in one source and the numbers in another. */
  lemma GuaranteeSpread(al: Alphabet, claim: string) returns (text: string)
    requires Sane(al) && ExtractNumeric(al, claim, 0) != [] && IsGuarantee(claim)
    ensures BorneOut(al, Two("guarantee", text), claim) && !Traceable(al, Two("guarantee", text), claim)
  {
    var numbers, g := ExtractNumeric(al, claim, 0), "guarantee";
    NumbersAreWords(al, claim, 0);
    text := Join(numbers);
    forall w | w in numbers ensures Approved(al, Two(g, text), w, true) {
      OwnToken(al, w);
      NumbersAsText(al, numbers, w);
      var i :| 0 <= i < |numbers| && numbers[i] == w;
      TwoApprove(al, g, text, w, true);
    }
    HoldsGuarantee(al);
    TwoApprove(al, g, text, g, false);
    assert numbers[0] in numbers;
    NoNumberInLetters(al, g, numbers[0]);
    Alone(al, Some(g), numbers[0], true);
    JoinCaseless(al, numbers);
    NoLettersInNumber(al, text, g);
    NoLettersInNumber(al, text, "warrant");
    Alone(al, Some(text), g, false);
    Alone(al, Some(text), "warrant", false);
    NeitherTraces(al, g, text, claim);
  }

  lemma HoldsGuarantee(al: Alphabet)
    requires Sane(al)
    ensures al.lower("guarantee") == "guarantee" && SourceHolds(al, Some("guarantee"), "guarantee", false)
  {
    var g := "guarantee";
    assert Caseless(al, g);
    assert g[0..|g|] == g;
    assert OccursAt(al, g, g, false, 0);
  }

  lemma NoNumberInLetters(al: Alphabet, text: string, w: string)
    requires Sane(al) && Numeral(al, w) && forall i :: 0 <= i < |text| ==> 'a' <= text[i] <= 'z'
    ensures !Occurs(al, text, w, true)
  {
    forall p: nat ensures !OccursAt(al, text, w, true, p) {
      assert p + |w| <= |text| ==> text[p..p + |w|][0] == text[p];
    }
  }

  lemma NoLettersInNumber(al: Alphabet, num: string, w: string)
    requires Sane(al) && w != "" && 'a' <= w[0] <= 'z'
    requires forall k :: 0 <= k < |num| ==> al.isDigit(num[k]) || num[k] == '.' || num[k] == ' '
    ensures !Occurs(al, num, w, false)
  {
    forall p: nat ensures !OccursAt(al, num, w, false, p) {
      assert p + |w| <= |num| ==> num[p..p + |w|][0] == num[p];
    }
  }

  /** The claim taken from the draft "2% of 3". */
  const TWO_NUMBERS := "metric: \U{00AB}2% of 3\U{00BB}"

  lemma {:induction false} NoDigitsBetween(al: Alphabet, s: string, i: nat, j: nat)
    requires i <= j <= |s| && forall k :: i <= k < j ==> !al.isDigit(s[k])
    ensures ExtractNumeric(al, s, i) == ExtractNumeric(al, s, j)
    decreases j - i
  {
    if i < j {
      NoDigitsBetween(al, s, i + 1, j);
    }
  }

  lemma TwoNumbersRead(al: Alphabet)
    requires forall c :: c in TWO_NUMBERS ==> (al.isDigit(c) <==> '0' <= c <= '9')
    ensures ExtractNumeric(al, TWO_NUMBERS, 0) == ["2", "3"]
  {
    var s := TWO_NUMBERS;
    assert |s| == 17;
    forall k | 0 <= k < |s| ensures al.isDigit(s[k]) <==> k == 9 || k == 15 {
      assert s[k] in s;
    }
    NoDigitsBetween(al, s, 0, 9);
    NoDigitsBetween(al, s, 10, 15);
    NoDigitsBetween(al, s, 16, 17);
    assert NumberEnd(al, s, 9) == 10 && s[9..10] == "2";
    assert NumberEnd(al, s, 15) == 16 && s[15..16] == "3";
  }

  /** In any alphabet that reads this text as usual, its two numbers can come from two sources that never met. */
  lemma SpreadSupport(al: Alphabet) returns (first: string, second: string)
    requires Sane(al) && forall c :: c in TWO_NUMBERS ==> (al.isDigit(c) <==> '0' <= c <= '9')
    ensures BorneOut(al, Two(first, second), TWO_NUMBERS) && !Traceable(al, Two(first, second), TWO_NUMBERS)
  {
    TwoNumbersRead(al);
    assert TWO_NUMBERS[0] != GUARANTEE_PREFIX[0];
    first, second := TwoDigitsSpread(al, TWO_NUMBERS, "2", "3");
  }

  lemma TwoDigitsSpread(al: Alphabet, claim: string, a: string, b: string) returns (first: string, second: string)
    requires Sane(al) && !IsGuarantee(claim) && ExtractNumeric(al, claim, 0) == [a, b]
    requires |a| == |b| == 1 && a != b
    ensures BorneOut(al, Two(first, second), claim) && !Traceable(al, Two(first, second), claim)
  {
    NotWithin(al, a, b);
    NotWithin(al, b, a);
    var numbers := [a, b];
    assert numbers[0] in numbers && numbers[1] in numbers;
    assert !Dominated(al, numbers);
    first, second := NumbersSpread(al, claim);
  }

  lemma NotWithin(al: Alphabet, text: string, w: string)
    requires |text| == |w| == 1 && text != w
    ensures !Occurs(al, text, w, true)
  {}
}
