/** What the supersession evaluator accepts, what it emits, and when it has no result. */
module GateSupersession {
  import opened Text
  import opened Json
  import opened GateContext
  import opened GateEvidence
  import opened GateDecision
  import opened GatePolicy

  // ----- the quorum -----

  /** The quorum is two distinct providers of the pool, and never the implementer. */
  lemma QuorumExcludesImplementer(p: string)
    ensures var q := Quorum(p); |q| == 2 && q[0] != q[1] && p !in q && q[0] in POOL && q[1] in POOL
  {
    QuorumIs(p);
    assert "openai" != "anthropic" && "openai" != "minimax" && "anthropic" != "minimax";
    assert POOL[0] == "openai" && POOL[1] == "anthropic" && POOL[2] == "minimax";
  }

  lemma PyEqString(v: Value, s: string)
    ensures PyEq(v, Str(s)) <==> v == Str(s)
    ensures PyEq(Str(s), v) <==> v == Str(s)
  {
  }

  lemma MemberOfTwo(v: Value, a: string, b: string)
    ensures Member(v, [Str(a), Str(b)]) <==> v == Str(a) || v == Str(b)
  {
    var two := [Str(a), Str(b)];
    PyEqString(v, a);
    PyEqString(v, b);
    assert two[0] == Str(a) && two[1] == Str(b);
  }

  lemma MemberString(s: string, vs: seq<Value>)
    ensures Member(Str(s), vs) <==> Str(s) in vs
  {
    forall i | 0 <= i < |vs| ensures PyEq(Str(s), vs[i]) <==> vs[i] == Str(s) {
      PyEqString(vs[i], s);
    }
  }

  lemma LongHasRepeat(ids: seq<Value>, a: Value, b: Value)
    requires |ids| > 2 && forall i | 0 <= i < |ids| :: ids[i] == a || ids[i] == b
    ensures exists i, j :: 0 <= i < j < |ids| && ids[i] == ids[j]
  {
    assert ids[0] == ids[1] || ids[1] == ids[2] || ids[0] == ids[2];
  }

  lemma PairOf(ids: seq<Value>, a: Value, b: Value)
    requires a != b && a in ids && b in ids
    requires forall i | 0 <= i < |ids| :: ids[i] == a || ids[i] == b
    requires forall i, j | 0 <= i < j < |ids| :: ids[i] != ids[j]
    ensures ids == [a, b] || ids == [b, a]
  {
    if |ids| > 2 {
      LongHasRepeat(ids, a, b);
    }
  }

  lemma DistinctStrings(ids: seq<Value>)
    requires forall i | 0 <= i < |ids| :: ids[i].Str?
    ensures Distinct(ids) <==> forall i, j | 0 <= i < j < |ids| :: ids[i] != ids[j]
  {
    forall i, j | 0 <= i < j < |ids| ensures PyEq(ids[i], ids[j]) <==> ids[i] == ids[j] {
      PyEqString(ids[i], ids[j].s);
    }
  }

  lemma SameSetAsTwo(ids: seq<Value>, a: string, b: string)
    ensures SameSet(ids, [Str(a), Str(b)]) <==>
            && (forall i | 0 <= i < |ids| :: ids[i] == Str(a) || ids[i] == Str(b))
            && Str(a) in ids && Str(b) in ids
  {
    var two := [Str(a), Str(b)];
    forall i | 0 <= i < |ids| ensures Member(ids[i], two) <==> ids[i] == Str(a) || ids[i] == Str(b) {
      MemberOfTwo(ids[i], a, b);
    }
    MemberString(a, ids);
    MemberString(b, ids);
    assert two[0] == Str(a) && two[1] == Str(b);
  }

  ghost predicate IsPair(ids: seq<Value>, a: string, b: string) {
    ids == [Str(a), Str(b)] || ids == [Str(b), Str(a)]
  }

  lemma TwoStringsDistinct(ids: seq<Value>, x: string, y: string)
    requires |ids| == 2 && ids[0] == Str(x) && ids[1] == Str(y) && x != y
    ensures Distinct(ids)
  {
    PyEqString(ids[0], y);
  }

  /** Distinct values whose set is a pair of strings are that pair, in one order or the other. */
  lemma DistinctIsPair(ids: seq<Value>, a: string, b: string)
    requires a != b && Distinct(ids) && SameSet(ids, [Str(a), Str(b)])
    ensures IsPair(ids, a, b)
  {
    SameSetAsTwo(ids, a, b);
    DistinctStrings(ids);
    PairOf(ids, Str(a), Str(b));
  }

  lemma StrValuesOfTwo(q: seq<string>)
    requires |q| == 2
    ensures StrValues(q) == [Str(q[0]), Str(q[1])]
  {
  }

  lemma {:induction false} SameCounts(verdicts: seq<Value>)
    ensures |ProviderIds(verdicts)| == |ProviderBindings(verdicts)|
  {
    if verdicts != [] {
      SameCounts(verdicts[1..]);
    }
  }

  ghost predicate QuorumHolds(ids: seq<Value>, implementer: Value, reviewers: Value, required: Value) {
    && implementer.Str? && IsQuorum(ids, implementer.s)
    && NamesQuorum(reviewers, implementer.s) && NamesQuorum(required, implementer.s)
  }

  lemma PairDistinct(ids: seq<Value>, a: string, b: string)
    requires a != b && IsPair(ids, a, b)
    ensures AllHashable(ids) && Distinct(ids)
  {
    TwoStringsDistinct(ids, ids[0].s, ids[1].s);
  }

  lemma PairSameSet(ids: seq<Value>, a: string, b: string)
    requires IsPair(ids, a, b)
    ensures SameSet(ids, [Str(a), Str(b)])
  {
    assert ids[0] in ids && ids[1] in ids;
    SameSetAsTwo(ids, a, b);
  }

  lemma PairExcludes(ids: seq<Value>, a: string, b: string, p: string)
    requires p != a && p != b && IsPair(ids, a, b)
    ensures !Member(Str(p), ids)
  {
    MemberString(p, ids);
  }

  lemma IdsAreQuorum(ids: seq<Value>, implementer: string)
    ensures AllHashable(ids) && Distinct(ids) && SameSet(ids, StrValues(Quorum(implementer))) && !Member(Str(implementer), ids)
            <==> IsQuorum(ids, implementer)
  {
    var q := Quorum(implementer);
    QuorumExcludesImplementer(implementer);
    QuorumIs(implementer);
    StrValuesOfTwo(q);
    if IsPair(ids, q[0], q[1]) {
      PairDistinct(ids, q[0], q[1]);
      PairSameSet(ids, q[0], q[1]);
      PairExcludes(ids, q[0], q[1], implementer);
    } else if Distinct(ids) && SameSet(ids, [Str(q[0]), Str(q[1])]) {
      DistinctIsPair(ids, q[0], q[1]);
    }
  }

  lemma NamesAreQuorum(v: Value, implementer: string)
    ensures v.List? && SameSet(StrItems(v.items), StrValues(Quorum(implementer))) <==> NamesQuorum(v, implementer)
  {
    var q := Quorum(implementer);
    QuorumIs(implementer);
    StrValuesOfTwo(q);
    if v.List? {
      var named := StrItems(v.items);
      SameSetAsTwo(named, q[0], q[1]);
      forall x: Value ensures x in named <==> x in v.items && x.Str? {
        StrItemsMean(v.items, x);
      }
      AllIn(named, Str(q[0]), Str(q[1]));
    }
  }

  lemma AllIn(vs: seq<Value>, a: Value, b: Value)
    ensures (forall i | 0 <= i < |vs| :: vs[i] == a || vs[i] == b) <==> forall x | x in vs :: x == a || x == b
  {
    forall i | 0 <= i < |vs| ensures vs[i] in vs {
    }
  }

  lemma QuorumTest(ev: Object, ids: seq<Value>, implementer: string)
    requires ids == ProviderIds(Verdicts(ev)) && Get(ev, KImplementerProvider) == Str(implementer)
    ensures var reviewers, required := Get(ev, KReviewerProviders), Get(ev, KRequiredReviewerProviders);
      QuorumMet(ev) == Done(true) <==>
        && AllHashable(ids) && Distinct(ids) && SameSet(ids, StrValues(Quorum(implementer)))
        && !Member(Str(implementer), ids)
        && reviewers.List? && SameSet(StrItems(reviewers.items), StrValues(Quorum(implementer)))
        && required.List? && SameSet(StrItems(required.items), StrValues(Quorum(implementer)))
  {
  }

  lemma NamelessQuorum(ev: Object)
    requires ProviderIds(Verdicts(ev)) != [] && !Get(ev, KImplementerProvider).Str?
    ensures QuorumMet(ev) != Done(true)
  {
    assert !Member(ProviderIds(Verdicts(ev))[0], []);
  }

  /** The quorum test accepts exactly the verdicts of the two providers of the implementer's
      quorum, one each, when the evidence names that quorum and an implementer at all. */
  lemma QuorumMeans(ev: Object)
    requires ProviderIds(Verdicts(ev)) != []
    ensures QuorumMet(ev) == Done(true) <==>
            QuorumHolds(ProviderIds(Verdicts(ev)), Get(ev, KImplementerProvider),
                        Get(ev, KReviewerProviders), Get(ev, KRequiredReviewerProviders))
  {
    var ids, implementer := ProviderIds(Verdicts(ev)), Get(ev, KImplementerProvider);
    if implementer.Str? {
      QuorumTest(ev, ids, implementer.s);
      IdsAreQuorum(ids, implementer.s);
      NamesAreQuorum(Get(ev, KReviewerProviders), implementer.s);
      NamesAreQuorum(Get(ev, KRequiredReviewerProviders), implementer.s);
    } else {
      NamelessQuorum(ev);
    }
  }

  // ----- dissent -----

  lemma {:induction false} AnyNotAgreeMeans(verdicts: seq<Value>)
    ensures AnyNotAgree(verdicts) == Done(false) <==>
            forall v | v in verdicts :: v.Dict? ==> NoneOrAgree(Get(v.fields, KVerdict))
  {
    if verdicts != [] {
      AnyNotAgreeMeans(verdicts[1..]);
      assert verdicts == [verdicts[0]] + verdicts[1..];
    }
  }

  lemma NoDissentMeans(ev: Object)
    ensures ExplicitNonAgree(ev) == Done(false) <==> NoDissent(ev)
  {
    AnyNotAgreeMeans(Verdicts(ev));
  }

  // ----- bindings -----

  lemma CountsAgree(x: Value, y: Value, n: nat)
    requires CountIs(x, n) && CountIs(y, n)
    ensures PyEq(x, y)
  {
    assert Number(x) == Number(y) == Some(n as real);
  }

  /** Two bindings that both match the pull request are equivalent: the last test of the
      evaluator never fails on its own. */
  lemma MatchingBindingsAreEquivalent(w: World, a: Object, b: Object, ctx: Context)
    requires SupersessionBindingMatches(w, a, ctx) && SupersessionBindingMatches(w, b, ctx)
    ensures BindingsEquivalent(a, b)
  {
    CountsAgree(Get(a, KChangedFilesCount), Get(b, KChangedFilesCount), |ctx.changedPaths|);
    PyEqString(Get(a, KRepositoryFullName), ctx.repository.value);
    PyEqString(Get(a, KHeadSha), ctx.headSha.value);
    PyEqString(Get(a, KDiffDigest), Digest(w, ctx.changedPaths));
  }

  ghost predicate AllMatch(w: World, bindings: seq<Object>, ctx: Context) {
    forall i | 0 <= i < |bindings| :: SupersessionBindingMatches(w, bindings[i], ctx)
  }

  lemma AllMatchEquivalent(w: World, bindings: seq<Object>, b: Object, ctx: Context)
    requires SupersessionBindingMatches(w, b, ctx) && AllMatch(w, bindings, ctx)
    ensures forall i | 0 <= i < |bindings| :: BindingsEquivalent(bindings[i], b)
  {
    forall i | 0 <= i < |bindings| ensures BindingsEquivalent(bindings[i], b) {
      MatchingBindingsAreEquivalent(w, bindings[i], b, ctx);
    }
  }

  lemma BoundMeans(w: World, ev: Object, ctx: Context)
    ensures SupersessionBound(w, ev, ctx) <==>
            var binding := Get(ev, KContextBinding);
            var bindings := ProviderBindings(Verdicts(ev));
            && binding.Dict? && bindings != [] && SupersessionBindingMatches(w, binding.fields, ctx)
            && AllMatch(w, bindings, ctx)
  {
    var binding, bindings := Get(ev, KContextBinding), ProviderBindings(Verdicts(ev));
    if binding.Dict? && SupersessionBindingMatches(w, binding.fields, ctx) && AllMatch(w, bindings, ctx) {
      AllMatchEquivalent(w, bindings, binding.fields, ctx);
    }
  }

  lemma {:induction false} BindingsAre(verdicts: seq<Value>, b: Object)
    ensures b in ProviderBindings(verdicts) <==>
            exists v :: v in verdicts && v.Dict? && AsDict(Get(v.fields, KContextBinding)) == b
  {
    if verdicts != [] {
      BindingsAre(verdicts[1..], b);
    }
  }

  lemma BindingsMean(w: World, verdicts: seq<Value>, ctx: Context)
    ensures AllMatch(w, ProviderBindings(verdicts), ctx) <==> AllTied(w, verdicts, ctx)
  {
    var bindings := ProviderBindings(verdicts);
    if AllMatch(w, bindings, ctx) {
      forall v | v in verdicts && v.Dict? ensures TiedToHighRisk(w, AsDict(Get(v.fields, KContextBinding)), ctx) {
        var b := AsDict(Get(v.fields, KContextBinding));
        BindingsAre(verdicts, b);
        var i :| 0 <= i < |bindings| && bindings[i] == b;
        HighRiskTied(w, bindings[i], ctx);
      }
    }
    if AllTied(w, verdicts, ctx) {
      forall i | 0 <= i < |bindings| ensures SupersessionBindingMatches(w, bindings[i], ctx) {
        BindingsAre(verdicts, bindings[i]);
        HighRiskTied(w, bindings[i], ctx);
      }
    }
  }

  // ----- the evaluator -----

  ghost predicate Accepts(r: Outcome<(seq<Check>, bool)>) {
    r.Done? && r.value.1
  }

  /** The tests of the evaluator in the order it makes them. */
  ghost predicate PassesTests(w: World, ev: Object, ctx: Context, now: string) {
    && !SupersessionAuthorityIsOpen(ev) && ExplicitNonAgree(ev) == Done(false)
    && w.supersessionSchema(Dict(ev)) && Fresh(w, ev, now)
    && QuorumMet(ev) == Done(true) && SupersessionBound(w, ev, ctx)
  }

  lemma FlagIsTests(w: World, ev: Object, ctx: Context, now: string)
    ensures ObjectStage(w, ev, ctx, now) == Done(Bound(true)) <==> PassesTests(w, ev, ctx, now)
  {
  }

  /** The conditions of valid evidence in that order. */
  ghost predicate MeetsConditions(w: World, ev: Object, ctx: Context, now: string) {
    var verdicts, binding := AsList(Get(ev, KProviderVerdicts)), Get(ev, KContextBinding);
    && OpensNothing(ev) && NoDissent(ev) && w.supersessionSchema(Dict(ev)) && Recent(w, ev, now)
    && QuorumHolds(ProviderIds(verdicts), Get(ev, KImplementerProvider),
                   Get(ev, KReviewerProviders), Get(ev, KRequiredReviewerProviders))
    && binding.Dict? && TiedToHighRisk(w, binding.fields, ctx) && AllTied(w, verdicts, ctx)
  }

  lemma ConditionsMean(w: World, ev: Object, ctx: Context, now: string)
    ensures MeetsConditions(w, ev, ctx, now) <==> ValidSupersession(w, Dict(ev), ctx, now)
  {
  }

  lemma BoundIs(w: World, ev: Object, ctx: Context)
    requires ProviderIds(Verdicts(ev)) != []
    ensures SupersessionBound(w, ev, ctx) <==>
            var binding := Get(ev, KContextBinding);
            binding.Dict? && TiedToHighRisk(w, binding.fields, ctx) && AllTied(w, AsList(Get(ev, KProviderVerdicts)), ctx)
  {
    BoundMeans(w, ev, ctx);
    SameCounts(Verdicts(ev));
    BindingsMean(w, Verdicts(ev), ctx);
    HighRiskTied(w, AsDict(Get(ev, KContextBinding)), ctx);
  }

  lemma TestsMean(w: World, ev: Object, ctx: Context, now: string)
    ensures PassesTests(w, ev, ctx, now) <==> ValidSupersession(w, Dict(ev), ctx, now)
  {
    NoDissentMeans(ev);
    OpenIs(ev);
    RecentIs(w, ev, now);
    ConditionsMean(w, ev, ctx, now);
    if ProviderIds(Verdicts(ev)) != [] {
      QuorumMeans(ev);
      BoundIs(w, ev, ctx);
    } else {
      BoundMeans(w, ev, ctx);
      SameCounts(Verdicts(ev));
    }
  }

  /** The evaluator's flag is up exactly for valid evidence. */
  lemma FlagMeans(w: World, evidence: Value, ctx: Context, now: string)
    ensures Accepts(SupersessionChecks(w, evidence, ctx, now)) <==> ValidSupersession(w, evidence, ctx, now)
  {
    if evidence.Dict? {
      FlagIsTests(w, evidence.fields, ctx, now);
      TestsMean(w, evidence.fields, ctx, now);
    }
  }

  /** One check under each of the six names; one branch swaps the third and the fourth. */
  ghost predicate SixNamed(checks: seq<Check>) {
    && |checks| == 6
    && checks[0].name == SupersessionEvidence && checks[1].name == SupersessionSchema
    && {checks[2].name, checks[3].name} == {SupersessionFreshness, SupersessionConsensus}
    && checks[4].name == SupersessionContextBound && checks[5].name == SupersessionAuthorityBoundary
  }

  lemma StageChecksAreSix(stage: Stage)
    ensures SixNamed(StageChecks(stage))
    ensures AllPass(StageChecks(stage)) <==> stage == Absent || stage == Bound(true)
  {
    SixPass(StageChecks(stage));
  }

  /** Whatever the evidence, an evaluation that has a result emits one check under each of the six
      names, and its flag is up exactly when evidence is supplied and none of the six is blocked. */
  lemma SixChecksWhateverTheEvidence(w: World, evidence: Value, ctx: Context, now: string)
    ensures var r := SupersessionChecks(w, evidence, ctx, now);
      r.Done? ==> SixNamed(r.value.0) && (r.value.1 <==> !evidence.Null? && AllPass(r.value.0))
  {
    var stage := SupersessionStage(w, evidence, ctx, now);
    if stage.Done? {
      StageChecksAreSix(stage.value);
      assert stage.value == Absent <==> evidence.Null?;
    }
  }
}
