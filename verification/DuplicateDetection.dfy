/**
 Duplicate scoring (web/src/services/duplicate-detection.service.js) over the candidates
 the case repository offers. Absent form fields read as empty strings.
 */
module DuplicateDetection {
  import opened Lists
  import opened Strings

  /** The fields of a form the scoring reads. */
  datatype Form = Form(
    sourceSystem: string,
    sourceReferenceId: string,
    projectName: string,
    projectDistrict: string,
    projectAddress: string,
    gstin: string)

  /** A stored case: the source reference is the case's own, the rest is its form. */
  datatype Candidate = Candidate(
    caseId: string,
    createdBy: string,
    isDraft: bool,
    sourceSystem: string,
    sourceReferenceId: string,
    form: Form)

  datatype Match = Match(caseId: string, confidence: nat)

  datatype Verdict = Verdict(
    isDuplicate: bool,
    confidence: nat,
    matchedCases: seq<Match>,
    reasons: seq<string>,
    blocking: bool)

  const SAME_SOURCE := "Matching source system reference already exists."
  const SAME_PROJECT := "Project name and district match an existing case."
  const SAME_SITE := "GSTIN and project address closely match an existing case."
  const SIMILAR_DRAFT := "Existing draft by the same investor looks similar."

  function Normalise(s: string): string
  {
    Lower(Trim(s))
  }

  predicate CompareAddress(a: string, b: string)
  {
    var first, second := CollapseBlanks(Normalise(a)), CollapseBlanks(Normalise(b));
    first != "" && second != "" && (first == second || Includes(first, second) || Includes(second, first))
  }

  // ---------------------------------------------------------------- the four rules

  predicate SameSource(input: Form, c: Candidate)
  {
    input.sourceSystem != "" && input.sourceReferenceId != "" &&
    c.sourceSystem == input.sourceSystem && c.sourceReferenceId == input.sourceReferenceId
  }

  predicate SameProject(input: Form, c: Candidate)
  {
    Normalise(c.form.projectName) == Normalise(input.projectName) &&
    Normalise(c.form.projectDistrict) == Normalise(input.projectDistrict)
  }

  predicate SameSite(input: Form, c: Candidate)
  {
    input.gstin != "" && Normalise(c.form.gstin) == Normalise(input.gstin) &&
    CompareAddress(c.form.projectAddress, input.projectAddress)
  }

  predicate SimilarDraft(input: Form, actor: string, c: Candidate)
  {
    c.createdBy == actor && c.isDraft && Normalise(c.form.projectName) == Normalise(input.projectName)
  }

  /** One of the four rules fires on it. */
  predicate SomeRule(input: Form, actor: string, c: Candidate)
  {
    SameSource(input, c) || SameProject(input, c) || SameSite(input, c) || SimilarDraft(input, actor, c)
  }

  /** Which of the four rules fire on a candidate. */
  datatype Fired = Fired(source: bool, project: bool, site: bool, draft: bool)

  function RulesOn(input: Form, actor: string, c: Candidate): Fired
  {
    Fired(SameSource(input, c), SameProject(input, c), SameSite(input, c), SimilarDraft(input, actor, c))
  }

  /** The strongest rule that fires decides a candidate's score. */
  function Points(f: Fired): nat
  {
    if f.source then 100 else if f.site then 80 else if f.project then 75 else if f.draft then 70 else 0
  }

  function Reasons(f: Fired): seq<string>
  {
    (if f.source then [SAME_SOURCE] else [])
    + (if f.project then [SAME_PROJECT] else [])
    + (if f.site then [SAME_SITE] else [])
    + (if f.draft then [SIMILAR_DRAFT] else [])
  }

  function ScoreOf(input: Form, actor: string, c: Candidate): nat
  {
    Points(RulesOn(input, actor, c))
  }

  function ReasonsOf(input: Form, actor: string, c: Candidate): seq<string>
  {
    Reasons(RulesOn(input, actor, c))
  }

  // ---------------------------------------------------------------- the verdict

  function MaxScore(input: Form, actor: string, candidates: seq<Candidate>): nat
  {
    if candidates == [] then 0
    else
      var rest := MaxScore(input, actor, candidates[..|candidates| - 1]);
      var last := ScoreOf(input, actor, candidates[|candidates| - 1]);
      if last > rest then last else rest
  }

  function AllReasons(input: Form, actor: string, candidates: seq<Candidate>): seq<string>
  {
    if candidates == [] then []
    else AllReasons(input, actor, candidates[..|candidates| - 1])
         + ReasonsOf(input, actor, candidates[|candidates| - 1])
  }

  function Matches(input: Form, actor: string, candidates: seq<Candidate>): seq<Match>
  {
    if candidates == [] then []
    else
      var c := candidates[|candidates| - 1];
      var score := ScoreOf(input, actor, c);
      Matches(input, actor, candidates[..|candidates| - 1])
      + if score > 0 then [Match(c.caseId, score)] else []
  }

  function VerdictOn(input: Form, actor: string, candidates: seq<Candidate>): Verdict
  {
    var confidence := MaxScore(input, actor, candidates);
    Verdict(confidence > 0, confidence, Matches(input, actor, candidates),
            Unique(AllReasons(input, actor, candidates)), confidence == 100)
  }

  /** One candidate of the loop: the score and the local reasons, rule by rule. */
  method ScoreCandidate(f: Fired) returns (score: nat, blocks: bool, localReasons: seq<string>)
    ensures score == Points(f) && localReasons == Reasons(f)
    ensures blocks == f.source
  {
    score, blocks, localReasons := 0, false, [];
    if f.source {
      score, blocks := 100, true;
      localReasons := localReasons + [SAME_SOURCE];
    }
    if f.project {
      score := if score > 75 then score else 75;
      localReasons := localReasons + [SAME_PROJECT];
    }
    if f.site {
      score := if score > 80 then score else 80;
      localReasons := localReasons + [SAME_SITE];
    }
    if f.draft {
      score := if score > 70 then score else 70;
      localReasons := localReasons + [SIMILAR_DRAFT];
    }
  }

  method CheckDuplicate(input: Form, actor: string, candidates: seq<Candidate>) returns (v: Verdict)
    ensures v == VerdictOn(input, actor, candidates)
  {
    var confidence, blocking := 0, false;
    var reasons: seq<string>, matched: seq<Match> := [], [];
    for i := 0 to |candidates|
      invariant confidence == MaxScore(input, actor, candidates[..i])
      invariant blocking <==> confidence == 100
      invariant confidence <= 100
      invariant reasons == AllReasons(input, actor, candidates[..i])
      invariant matched == Matches(input, actor, candidates[..i])
    {
      var c := candidates[i];
      assert candidates[..i + 1][..i] == candidates[..i];
      var score, blocks, localReasons := ScoreCandidate(RulesOn(input, actor, c));
      blocking := blocking || blocks;
      confidence := if score > confidence then score else confidence;
      reasons := reasons + localReasons;
      if score > 0 {
        matched := matched + [Match(c.caseId, score)];
      }
    }
    assert candidates[..|candidates|] == candidates;
    MatchesIffPositive(input, actor, candidates);
    v := Verdict(matched != [], confidence, matched, Unique(reasons), blocking);
  }

  lemma {:induction false} MatchesIffPositive(input: Form, actor: string, candidates: seq<Candidate>)
    ensures Matches(input, actor, candidates) != [] <==> MaxScore(input, actor, candidates) > 0
  {
    if candidates != [] {
      MatchesIffPositive(input, actor, candidates[..|candidates| - 1]);
    }
  }

  // ---------------------------------------------------------------- what the verdict means

  /** The confidence is the maximum of the scores: an upper bound that is reached, or 0. */
  lemma {:induction false} ConfidenceIsMaximum(input: Form, actor: string, candidates: seq<Candidate>)
    ensures var m := MaxScore(input, actor, candidates);
            (forall c <- candidates :: ScoreOf(input, actor, c) <= m) &&
            (m == 0 || exists c <- candidates :: ScoreOf(input, actor, c) == m)
  {
    if candidates != [] {
      var init, last := candidates[..|candidates| - 1], candidates[|candidates| - 1];
      ConfidenceIsMaximum(input, actor, init);
      assert candidates == init + [last];
      assert last in candidates;
    }
  }

  /** Blocking means that some candidate carries the same source reference, and nothing else does. */
  lemma BlockingIffSameSource(input: Form, actor: string, candidates: seq<Candidate>)
    ensures VerdictOn(input, actor, candidates).blocking <==> exists c <- candidates :: SameSource(input, c)
  {
    ConfidenceIsMaximum(input, actor, candidates);
    if c :| c in candidates && SameSource(input, c) {
      assert ScoreOf(input, actor, c) == 100;
    }
  }

  /** A duplicate is reported exactly when some rule fires on some candidate. */
  lemma DuplicateIffSomeRuleFires(input: Form, actor: string, candidates: seq<Candidate>)
    ensures VerdictOn(input, actor, candidates).isDuplicate <==>
            exists c <- candidates :: SomeRule(input, actor, c)
  {
    ConfidenceIsMaximum(input, actor, candidates);
    if c :| c in candidates && ScoreOf(input, actor, c) > 0 {
      assert SomeRule(input, actor, c);
    }
  }

  lemma {:induction false} ReasonComesFrom(input: Form, actor: string, candidates: seq<Candidate>, reason: string)
    ensures reason in AllReasons(input, actor, candidates) <==>
            exists c <- candidates :: reason in ReasonsOf(input, actor, c)
  {
    if candidates != [] {
      var init, last := candidates[..|candidates| - 1], candidates[|candidates| - 1];
      ReasonComesFrom(input, actor, init, reason);
      assert candidates == init + [last];
      assert last in candidates;
    }
  }

  /**
   Everything but the order of the lists is the same for permuted candidates; the reasons
   never repeat, so they permute too.
   */
  lemma VerdictPermutes(input: Form, actor: string, candidates: seq<Candidate>, other: seq<Candidate>)
    requires multiset(candidates) == multiset(other)
    ensures var v, w := VerdictOn(input, actor, candidates), VerdictOn(input, actor, other);
            v.confidence == w.confidence && v.isDuplicate == w.isDuplicate && v.blocking == w.blocking &&
            NoRepeats(v.reasons) && multiset(v.reasons) == multiset(w.reasons)
  {
    var v, w := VerdictOn(input, actor, candidates), VerdictOn(input, actor, other);
    forall c
      ensures c in candidates <==> c in other
    {
      assert c in multiset(candidates) <==> c in multiset(other);
    }
    ConfidenceIsMaximum(input, actor, candidates);
    ConfidenceIsMaximum(input, actor, other);
    forall reason
      ensures reason in v.reasons <==> reason in w.reasons
    {
      ReasonComesFrom(input, actor, candidates, reason);
      ReasonComesFrom(input, actor, other, reason);
    }
    SameMembersPermute(v.reasons, w.reasons);
  }

  lemma ReachesIff(input: Form, actor: string, candidates: seq<Candidate>, points: nat)
    requires points > 0
    ensures VerdictOn(input, actor, candidates).confidence >= points <==>
            exists c <- candidates :: ScoreOf(input, actor, c) >= points
  {
    ConfidenceIsMaximum(input, actor, candidates);
  }

  /** The confidence says which rules fired: 100 for the source, 80 the site, 75 the project, 70 a draft. */
  lemma ConfidenceLevels(input: Form, actor: string, candidates: seq<Candidate>)
    ensures var confidence := VerdictOn(input, actor, candidates).confidence;
            confidence in {0, 70, 75, 80, 100} &&
            (confidence == 100 <==> exists c <- candidates :: SameSource(input, c)) &&
            (confidence >= 80 <==> exists c <- candidates :: SameSource(input, c) || SameSite(input, c)) &&
            (confidence >= 75 <==>
              exists c <- candidates :: SameSource(input, c) || SameSite(input, c) || SameProject(input, c)) &&
            (confidence >= 70 <==> exists c <- candidates :: SomeRule(input, actor, c))
  {
    ConfidenceIsMaximum(input, actor, candidates);
    ReachesIff(input, actor, candidates, 100);
    ReachesIff(input, actor, candidates, 80);
    ReachesIff(input, actor, candidates, 75);
    ReachesIff(input, actor, candidates, 70);
  }

  /** The match a candidate gives by itself. */
  function OwnMatch(input: Form, actor: string, c: Candidate): Match
  {
    Match(c.caseId, VerdictOn(input, actor, [c]).confidence)
  }

  function OwnMatches(input: Form, actor: string, candidates: seq<Candidate>): (matched: seq<Match>)
    ensures |matched| == |candidates|
    ensures forall i :: 0 <= i < |matched| ==> matched[i] == OwnMatch(input, actor, candidates[i])
  {
    seq(|candidates|, i requires 0 <= i < |candidates| => OwnMatch(input, actor, candidates[i]))
  }

  function Matching(input: Form, actor: string): Candidate -> bool
  {
    (c: Candidate) => SomeRule(input, actor, c)
  }

  lemma MatchesLast(input: Form, actor: string, candidates: seq<Candidate>)
    requires candidates != []
    ensures var init, last := candidates[..|candidates| - 1], candidates[|candidates| - 1];
            VerdictOn(input, actor, candidates).matchedCases ==
            VerdictOn(input, actor, init).matchedCases +
            if SomeRule(input, actor, last) then [OwnMatch(input, actor, last)] else []
  {
    SingleConfidence(input, actor, candidates[|candidates| - 1]);
  }

  lemma OwnMatchesAppend(input: Form, actor: string, candidates: seq<Candidate>, c: Candidate)
    ensures OwnMatches(input, actor, candidates + [c]) ==
            OwnMatches(input, actor, candidates) + [OwnMatch(input, actor, c)]
  {
  }

  lemma {:induction false} MatchesFilter(input: Form, actor: string, candidates: seq<Candidate>)
    ensures VerdictOn(input, actor, candidates).matchedCases ==
            OwnMatches(input, actor, Filter(candidates, Matching(input, actor)))
  {
    if candidates != [] {
      var init, last := candidates[..|candidates| - 1], candidates[|candidates| - 1];
      MatchesFilter(input, actor, init);
      MatchesLast(input, actor, candidates);
      OwnMatchesAppend(input, actor, Filter(init, Matching(input, actor)), last);
      assert Matching(input, actor)(last) == SomeRule(input, actor, last);
    }
  }

  /** The matched cases are the candidates some rule fires on, in their order, each with its own confidence. */
  lemma {:induction false} MatchedExact(input: Form, actor: string, candidates: seq<Candidate>) returns (at: seq<nat>)
    ensures Positions(at, candidates, Matching(input, actor))
    ensures VerdictOn(input, actor, candidates).matchedCases == OwnMatches(input, actor, Pick(candidates, at))
  {
    at := FilterKeepsOrder(candidates, Matching(input, actor));
    MatchesFilter(input, actor, candidates);
  }

  lemma ReasonsDiffer()
    ensures NoRepeats([SAME_SOURCE, SAME_PROJECT, SAME_SITE, SIMILAR_DRAFT])
  {
    assert |SAME_SOURCE| == 48 && |SAME_PROJECT| == 49 && |SAME_SITE| == 57 && |SIMILAR_DRAFT| == 50;
  }

  /** A candidate gets a rule's sentence when the rule fires on it. */
  lemma OwnReasons(f: Fired)
    ensures (SAME_SOURCE in Reasons(f) <==> f.source) && (SAME_PROJECT in Reasons(f) <==> f.project)
    ensures (SAME_SITE in Reasons(f) <==> f.site) && (SIMILAR_DRAFT in Reasons(f) <==> f.draft)
  {
    ReasonsDiffer();
    var names := [SAME_SOURCE, SAME_PROJECT, SAME_SITE, SIMILAR_DRAFT];
    assert names[0] != names[1] && names[0] != names[2] && names[0] != names[3] && names[1] != names[2] &&
           names[1] != names[3] && names[2] != names[3];
  }

  lemma SingleConfidence(input: Form, actor: string, c: Candidate)
    ensures VerdictOn(input, actor, [c]).confidence == ScoreOf(input, actor, c)
    ensures ScoreOf(input, actor, c) > 0 <==> SomeRule(input, actor, c)
  {
    assert [c][..0] == [];
    assert MaxScore(input, actor, []) == 0;
  }

  /** A rule's sentence is among the reasons exactly when the rule fires on some candidate. */
  lemma ReasonsExact(input: Form, actor: string, candidates: seq<Candidate>)
    ensures var reasons := VerdictOn(input, actor, candidates).reasons;
            NoRepeats(reasons) &&
            (SAME_SOURCE in reasons <==> exists c <- candidates :: SameSource(input, c)) &&
            (SAME_PROJECT in reasons <==> exists c <- candidates :: SameProject(input, c)) &&
            (SAME_SITE in reasons <==> exists c <- candidates :: SameSite(input, c)) &&
            (SIMILAR_DRAFT in reasons <==> exists c <- candidates :: SimilarDraft(input, actor, c))
  {
    forall c | c in candidates {
      OwnReasons(RulesOn(input, actor, c));
    }
    ReasonComesFrom(input, actor, candidates, SAME_SOURCE);
    ReasonComesFrom(input, actor, candidates, SAME_PROJECT);
    ReasonComesFrom(input, actor, candidates, SAME_SITE);
    ReasonComesFrom(input, actor, candidates, SIMILAR_DRAFT);
  }

  /**
   What a form leaves out cannot match: no source without both its parts, no site without a
   tax number; nor can a draft of somebody else, or a project in another district.
   */
  lemma WhatCannotMatch(input: Form, actor: string, candidates: seq<Candidate>)
    ensures var v := VerdictOn(input, actor, candidates);
            (input.sourceSystem == "" || input.sourceReferenceId == "" ==> !v.blocking) &&
            (input.gstin == "" && !v.blocking ==> v.confidence <= 75) &&
            ((forall c <- candidates :: c.createdBy != actor || !c.isDraft) ==> v.confidence != 70) &&
            ((forall c <- candidates :: Normalise(c.form.projectDistrict) != Normalise(input.projectDistrict)) ==>
              v.confidence != 75)
  {
    ConfidenceLevels(input, actor, candidates);
  }

  // ---------------------------------------------------------------- addresses

  /** The piece stands somewhere in the whole. */
  predicate Within(piece: string, whole: string)
  {
    exists i, j :: 0 <= i <= j <= |whole| && whole[i..j] == piece
  }

  lemma IncludesWithin(whole: string, piece: string)
    ensures Includes(whole, piece) <==> Within(piece, whole)
  {
    if Includes(whole, piece) {
      var i :| 0 <= i <= |whole| && piece <= whole[i..];
      assert whole[i..i + |piece|] == whole[i..][..|piece|] == piece;
    }
    if Within(piece, whole) {
      var i, j :| 0 <= i <= j <= |whole| && whole[i..j] == piece;
      assert whole[i..][..j - i] == whole[i..j];
      assert piece <= whole[i..];
    }
  }

  /** Two addresses are close when one, case and runs of blanks aside, stands within the other; blank ones never are. */
  lemma CompareAddressIff(a: string, b: string)
    ensures var first, second := CollapseBlanks(Normalise(a)), CollapseBlanks(Normalise(b));
            CompareAddress(a, b) <==>
            first != "" && second != "" && (Within(first, second) || Within(second, first))
    ensures CompareAddress(a, b) <==> CompareAddress(b, a)
  {
    var first, second := CollapseBlanks(Normalise(a)), CollapseBlanks(Normalise(b));
    IncludesWithin(first, second);
    IncludesWithin(second, first);
    if first == second {
      assert second[0..|second|] == first;
    }
  }

  // ---------------------------------------------------------------- letter case

  /** The form in capitals. */
  function Shouted(f: Form): Form
  {
    f.(projectName := Upper(f.projectName), projectDistrict := Upper(f.projectDistrict),
       projectAddress := Upper(f.projectAddress), gstin := Upper(f.gstin))
  }

  lemma NormaliseShouted(s: string)
    ensures Normalise(Upper(s)) == Normalise(s)
  {
    TrimUpper(s);
    LowerUpper(Trim(s));
  }

  lemma RulesShouted(input: Form, actor: string, c: Candidate)
    ensures RulesOn(Shouted(input), actor, c) == RulesOn(input, actor, c)
  {
    NormaliseShouted(input.projectName);
    NormaliseShouted(input.projectDistrict);
    NormaliseShouted(input.projectAddress);
    NormaliseShouted(input.gstin);
  }

  /** Letter case makes no difference to the verdict. */
  lemma {:induction false} VerdictIgnoresCase(input: Form, actor: string, candidates: seq<Candidate>)
    ensures VerdictOn(Shouted(input), actor, candidates) == VerdictOn(input, actor, candidates)
  {
    ShoutedAlike(input, actor, candidates);
  }

  lemma {:induction false} ShoutedAlike(input: Form, actor: string, candidates: seq<Candidate>)
    ensures MaxScore(Shouted(input), actor, candidates) == MaxScore(input, actor, candidates)
    ensures Matches(Shouted(input), actor, candidates) == Matches(input, actor, candidates)
    ensures AllReasons(Shouted(input), actor, candidates) == AllReasons(input, actor, candidates)
  {
    if candidates != [] {
      ShoutedAlike(input, actor, candidates[..|candidates| - 1]);
      RulesShouted(input, actor, candidates[|candidates| - 1]);
    }
  }
}
