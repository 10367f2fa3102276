/**
 The duplicate query of the case store (web/src/repositories/case.repository.js) and what it
 means for the draft being submitted: the query does not leave that draft out.
 */
module CafDuplicates {
  import opened Lists
  import opened Json
  import opened ObjectPath
  import opened DuplicateDetection
  import opened CafModel

  /** findPotentialDuplicates: whether a stored case matches the query about a form. */
  predicate MatchesQuery(c: CaseDoc, caf: Json, actor: Actor, lookback: int)
  {
    var own := Obj(c.cafData);
    var f := FormOf(caf);
    var pan, udyam := TextIn(caf, "enterprise", "pan"), TextIn(caf, "enterprise", "udyamNumber");
    var bySource := f.sourceSystem != "" && f.sourceReferenceId != "";
    var byProject := f.projectName != "" && f.projectDistrict != "";
    c.status in {Draft, Submitted, UnderScrutiny, QueryRaised, ResponseSubmitted, Reopened} &&
    c.createdAt >= lookback &&
    (actor.id != "" ==> c.owner == actor.id) &&
    (bySource || f.gstin != "" || pan != "" || udyam != "" || byProject ==>
      (bySource && c.sourceSystem == f.sourceSystem && c.sourceReferenceId == f.sourceReferenceId) ||
      (f.gstin != "" && TextIn(own, "enterprise", "gstin") == f.gstin) ||
      (pan != "" && TextIn(own, "enterprise", "pan") == pan) ||
      (udyam != "" && TextIn(own, "enterprise", "udyamNumber") == udyam) ||
      (byProject && TextIn(own, "project", "projectName") == f.projectName &&
                    TextIn(own, "project", "projectDistrict") == f.projectDistrict))
  }

  /** The ids of an answer of the query, one for each candidate. */
  ghost predicate Enumerated(ids: seq<string>, candidates: seq<Candidate>, cases: map<string, CaseDoc>,
                        caf: Json, actor: Actor, lookback: int)
  {
    NoRepeats(ids) && |ids| == |candidates| && |ids| <= 25 &&
    (forall i :: 0 <= i < |ids| ==>
      ids[i] in cases && MatchesQuery(cases[ids[i]], caf, actor, lookback) &&
        candidates[i] == AsCandidate(cases[ids[i]])) &&
    (|ids| < 25 ==> forall id :: id in cases && MatchesQuery(cases[id], caf, actor, lookback) ==> id in ids)
  }

  /** An answer of the query: matching cases, each once, and all of them unless that would be more than 25. */
  ghost predicate AnswersQuery(candidates: seq<Candidate>, cases: map<string, CaseDoc>, caf: Json, actor: Actor,
                               lookback: int)
  {
    exists ids :: Enumerated(ids, candidates, cases, caf, actor, lookback)
  }

  // ---------------------------------------------------------------- when a draft matches itself

  predicate HasSource(f: Form)
  {
    f.sourceSystem != "" && f.sourceReferenceId != ""
  }

  predicate HasOtherCriterion(caf: Json)
  {
    var f := FormOf(caf);
    f.gstin != "" || TextIn(caf, "enterprise", "pan") != "" || TextIn(caf, "enterprise", "udyamNumber") != "" ||
    (f.projectName != "" && f.projectDistrict != "")
  }

  predicate RecentOwn(c: CaseDoc, actor: Actor, lookback: int)
  {
    c.createdAt >= lookback && (actor.id != "" ==> c.owner == actor.id)
  }

  /** The form still carries the source reference the draft was created with. */
  predicate SourceKept(c: CaseDoc)
  {
    SameSource(FormOf(Obj(c.cafData)), AsCandidate(c))
  }

  /**
   A draft matches the query about itself if and only if it is a recent one of the actor,
   unless its source reference was edited and nothing else in it can be asked for.
   */
  lemma MatchesItselfIff(c: CaseDoc, actor: Actor, lookback: int)
    requires c.status == Draft
    ensures var caf := Obj(c.cafData);
            MatchesQuery(c, caf, actor, lookback) <==>
            RecentOwn(c, actor, lookback) && (HasOtherCriterion(caf) || !HasSource(FormOf(caf)) || SourceKept(c))
  {
  }

  /** What passes final validation names its project and district, so it matches when recent and own. */
  lemma NamedProjectMatches(c: CaseDoc, actor: Actor, lookback: int)
    requires c.status == Draft && FormOf(Obj(c.cafData)).projectName != "" &&
             FormOf(Obj(c.cafData)).projectDistrict != ""
    ensures MatchesQuery(c, Obj(c.cafData), actor, lookback) <==> RecentOwn(c, actor, lookback)
  {
    MatchesItselfIff(c, actor, lookback);
  }

  // ---------------------------------------------------------------- what that means for its submission

  lemma MatchIsCandidate(cases: map<string, CaseDoc>, id: string, caf: Json, candidates: seq<Candidate>,
                         actor: Actor, lookback: int)
    requires AnswersQuery(candidates, cases, caf, actor, lookback) && |candidates| < 25
    requires id in cases && MatchesQuery(cases[id], caf, actor, lookback)
    ensures AsCandidate(cases[id]) in candidates
  {
    var ids :| Enumerated(ids, candidates, cases, caf, actor, lookback);
    var i :| 0 <= i < |ids| && ids[i] == id;
    assert candidates[i] == AsCandidate(cases[id]);
  }

  predicate Confirmed(c: CaseDoc, r: SubmitRequest)
  {
    r.overrideConfirmed || Truthy(Step(Obj(c.cafData), "duplicateOverrideConfirmed"))
  }

  /**
   A draft that matches is reported as its own duplicate, whatever else the query finds: it
   can only be submitted with the override confirmed, and with its source reference not at all.
   */
  lemma DraftDuplicatesItself(cases: map<string, CaseDoc>, id: string, actor: Actor, r: SubmitRequest, lookback: int)
    requires id in cases && MatchesQuery(cases[id], Obj(cases[id].cafData), actor, lookback)
    requires AnswersQuery(r.candidates, cases, Obj(cases[id].cafData), actor, lookback) && |r.candidates| < 25
    ensures var c := cases[id];
            VerdictFor(c, actor, r).isDuplicate &&
            (SourceKept(c) ==> VerdictFor(c, actor, r).blocking && !Admissible(c, actor, r)) &&
            (Admissible(c, actor, r) ==> Confirmed(c, r))
  {
    var c := cases[id];
    var form, own := FormOf(Obj(c.cafData)), AsCandidate(c);
    MatchIsCandidate(cases, id, Obj(c.cafData), r.candidates, actor, lookback);
    assert SameProject(form, own);
    DuplicateIffSomeRuleFires(form, actor.id, r.candidates);
    BlockingIffSameSource(form, actor.id, r.candidates);
  }

  /** No other case matches the query about this one. */
  ghost predicate NoOtherMatch(cases: map<string, CaseDoc>, id: string, actor: Actor, lookback: int)
    requires id in cases
  {
    forall other :: other in cases && other != id ==>
      !MatchesQuery(cases[other], Obj(cases[id].cafData), actor, lookback)
  }

  lemma OnlyItself(cases: map<string, CaseDoc>, id: string, candidates: seq<Candidate>, actor: Actor, lookback: int)
    requires id in cases && NoOtherMatch(cases, id, actor, lookback)
    requires AnswersQuery(candidates, cases, Obj(cases[id].cafData), actor, lookback)
    ensures var matches := MatchesQuery(cases[id], Obj(cases[id].cafData), actor, lookback);
            candidates == if matches then [AsCandidate(cases[id])] else []
  {
    var caf := Obj(cases[id].cafData);
    var ids :| Enumerated(ids, candidates, cases, caf, actor, lookback);
    if |ids| >= 2 {
      TwoDiffer(ids, id);
    } else if |ids| == 1 {
      assert candidates[0] == AsCandidate(cases[id]);
    }
  }

  /**
   With no other matching case: a draft is a duplicate exactly when it matches the query
   about itself, and is blocked exactly when it matches and kept its source reference.
   */
  lemma DuplicateOfItselfIff(cases: map<string, CaseDoc>, id: string, actor: Actor, r: SubmitRequest, lookback: int)
    requires id in cases && NoOtherMatch(cases, id, actor, lookback)
    requires AnswersQuery(r.candidates, cases, Obj(cases[id].cafData), actor, lookback)
    ensures var c := cases[id];
            var matches := MatchesQuery(c, Obj(c.cafData), actor, lookback);
            (VerdictFor(c, actor, r).isDuplicate <==> matches) &&
            (VerdictFor(c, actor, r).blocking <==> matches && SourceKept(c))
  {
    var c := cases[id];
    var form, own := FormOf(Obj(c.cafData)), AsCandidate(c);
    OnlyItself(cases, id, r.candidates, actor, lookback);
    DuplicateIffSomeRuleFires(form, actor.id, r.candidates);
    BlockingIffSameSource(form, actor.id, r.candidates);
    if MatchesQuery(c, Obj(c.cafData), actor, lookback) {
      assert r.candidates[0] == own;
      assert SameProject(form, own);
    }
  }

  /**
   So such a draft can be submitted exactly when it is valid and, if recent and own,
   confirmed and without its source.
   */
  lemma SubmittableIff(cases: map<string, CaseDoc>, id: string, actor: Actor, r: SubmitRequest, lookback: int)
    requires id in cases && cases[id].status == Draft && NoOtherMatch(cases, id, actor, lookback)
    requires AnswersQuery(r.candidates, cases, Obj(cases[id].cafData), actor, lookback)
    requires FormOf(Obj(cases[id].cafData)).projectName != "" && FormOf(Obj(cases[id].cafData)).projectDistrict != ""
    ensures var c := cases[id];
            Admissible(c, actor, r) <==>
            r.final.valid && (RecentOwn(c, actor, lookback) ==> !SourceKept(c) && Confirmed(c, r))
  {
    NamedProjectMatches(cases[id], actor, lookback);
    DuplicateOfItselfIff(cases, id, actor, r, lookback);
  }
}
