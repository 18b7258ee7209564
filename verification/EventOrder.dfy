/** The greedy test that the required event kinds occur in order, and the test that they occur. */
module EventOrder {

  const EXPECTED := ["step_started", "policy_checked", "adapter_invoked", "step_completed", "workflow_completed"]

  // ----- embeddings -----

  ghost predicate Increasing(at: seq<nat>) {
    forall i, j | 0 <= i < j < |at| :: at[i] < at[j]
  }

  /** `at` finds the kinds of `expected`, one after the other, in `seen`. */
  ghost predicate Embedding(expected: seq<string>, seen: seq<string>, at: seq<nat>) {
    && |at| == |expected| && Increasing(at)
    && forall k | 0 <= k < |at| :: at[k] < |seen| && seen[at[k]] == expected[k]
  }

  ghost predicate Embeds(expected: seq<string>, seen: seq<string>) {
    exists at :: Embedding(expected, seen, at)
  }

  /** Where the search for the k-th kind begins. */
  ghost function Start(at: seq<nat>, k: nat): nat
    requires k <= |at|
  {
    if k == 0 then 0 else at[k - 1] + 1
  }

  /** Each kind found is the first of its kind after the one before. */
  ghost predicate FirstAfter(expected: seq<string>, seen: seq<string>, at: seq<nat>) {
    && |at| <= |expected| && Embedding(expected[..|at|], seen, at)
    && forall k, j | 0 <= k < |at| && Start(at, k) <= j < at[k] :: seen[j] != expected[k]
  }

  /** Nothing left of the next kind. */
  ghost predicate Stuck(expected: seq<string>, seen: seq<string>, at: seq<nat>) {
    && |at| < |expected|
    && forall j | Start(at, |at|) <= j < |seen| :: seen[j] != expected[|at|]
  }

  /** What is found greedily is no later than in any other embedding. */
  lemma {:induction false} GreedyIsLeftmost(expected: seq<string>, seen: seq<string>, at: seq<nat>, m: nat, other: seq<nat>, k: nat)
    requires FirstAfter(expected, seen, at) && k < |at| && k < m <= |expected|
    requires Embedding(expected[..m], seen, other)
    ensures at[k] <= other[k]
  {
    if k > 0 {
      GreedyIsLeftmost(expected, seen, at, m, other, k - 1);
      assert other[k - 1] < other[k];
    }
    assert seen[other[k]] == expected[..m][k] == expected[k];
    assert Start(at, k) <= other[k];
  }

  /** Another embedding of more kinds finds the next one where the search has yet to look. */
  lemma NextIsAhead(expected: seq<string>, seen: seq<string>, at: seq<nat>, m: nat, other: seq<nat>)
    requires FirstAfter(expected, seen, at) && |at| < m <= |expected|
    requires Embedding(expected[..m], seen, other)
    ensures Start(at, |at|) <= other[|at|] < |seen| && seen[other[|at|]] == expected[|at|]
  {
    var k := |at|;
    if k > 0 {
      GreedyIsLeftmost(expected, seen, at, m, other, k - 1);
      assert other[k - 1] < other[k];
    }
    assert expected[..m][k] == expected[k];
  }

  /** A search that is stuck has found as many kinds as can be found. */
  lemma StuckIsMaximal(expected: seq<string>, seen: seq<string>, at: seq<nat>, m: nat)
    requires FirstAfter(expected, seen, at) && Stuck(expected, seen, at) && |at| < m <= |expected|
    ensures !Embeds(expected[..m], seen)
  {
    forall other ensures !Embedding(expected[..m], seen, other) {
      if Embedding(expected[..m], seen, other) {
        NextIsAhead(expected, seen, at, m, other);
      }
    }
  }

  /** The leftmost embedding of as many of the expected kinds as embed at all. */
  ghost predicate LeftmostLongest(expected: seq<string>, seen: seq<string>, at: seq<nat>) {
    && |at| <= |expected| && Embedding(expected[..|at|], seen, at)
    && (forall other, k | Embedding(expected[..|at|], seen, other) && 0 <= k < |at| :: at[k] <= other[k])
    && (forall m | |at| < m <= |expected| :: !Embeds(expected[..m], seen))
  }

  lemma GreedyIsBest(expected: seq<string>, seen: seq<string>, at: seq<nat>)
    requires FirstAfter(expected, seen, at) && (|at| == |expected| || Stuck(expected, seen, at))
    ensures LeftmostLongest(expected, seen, at)
    ensures |at| == |expected| <==> Embeds(expected, seen)
  {
    forall other, k | Embedding(expected[..|at|], seen, other) && 0 <= k < |at| ensures at[k] <= other[k] {
      GreedyIsLeftmost(expected, seen, at, |at|, other, k);
    }
    forall m | |at| < m <= |expected| ensures !Embeds(expected[..m], seen) {
      StuckIsMaximal(expected, seen, at, m);
    }
    assert expected[..|expected|] == expected;
  }

  // ----- the pass over the events -----

  ghost predicate NoRepeat(kinds: seq<string>) {
    forall i, j | 0 <= i < j < |kinds| :: kinds[i] != kinds[j]
  }

  /** The recorded positions are those of the kinds found. */
  ghost predicate Records(expected: seq<string>, positions: map<string, nat>, at: seq<nat>) {
    && |at| <= |expected|
    && (forall kind :: kind in positions <==> kind in expected[..|at|])
    && (forall k | 0 <= k < |at| :: expected[k] in positions && positions[expected[k]] == at[k])
  }

  /** The events before `index` have been searched. */
  ghost predicate Searched(expected: seq<string>, seen: seq<string>, at: seq<nat>, index: nat) {
    && FirstAfter(expected, seen, at) && Start(at, |at|) <= index <= |seen|
    && (|at| < |expected| ==> forall j | Start(at, |at|) <= j < index :: seen[j] != expected[|at|])
  }

  lemma SearchedOne(expected: seq<string>, seen: seq<string>, at: seq<nat>, index: nat)
    requires Searched(expected, seen, at, index) && |at| < |expected| && index < |seen|
    ensures Searched(expected, seen, if seen[index] == expected[|at|] then at + [index] else at, index + 1)
  {
    if seen[index] == expected[|at|] {
      var more := at + [index];
      assert forall k | 0 <= k < |at| :: Start(more, k) == Start(at, k);
      forall k | 0 <= k < |more| ensures seen[more[k]] == expected[..|more|][k] {
        if k < |at| {
          assert expected[..|at|][k] == expected[k];
        }
      }
    }
  }

  lemma RecordsNext(expected: seq<string>, positions: map<string, nat>, at: seq<nat>, index: nat)
    requires NoRepeat(expected) && Records(expected, positions, at) && |at| < |expected|
    ensures Records(expected, positions[expected[|at|] := index], at + [index])
  {
    assert expected[..|at| + 1] == expected[..|at|] + [expected[|at|]];
  }

  /** The single pass. It passes exactly when the expected kinds embed in the events, and what it
      records is the leftmost embedding of as many of them as embed. */
  method CheckOrder(expected: seq<string>, seen: seq<string>) returns (pass: bool, positions: map<string, nat>, ghost at: seq<nat>)
    requires NoRepeat(expected)
    ensures pass <==> Embeds(expected, seen)
    ensures pass <==> |at| == |expected|
    ensures LeftmostLongest(expected, seen, at) && Records(expected, positions, at)
  {
    var cursor := 0;
    positions := map[];
    at := [];
    for index := 0 to |seen|
      invariant cursor == |at| && Searched(expected, seen, at, index) && Records(expected, positions, at)
    {
      if cursor >= |expected| {
        break;
      }
      SearchedOne(expected, seen, at, index);
      if seen[index] == expected[cursor] {
        RecordsNext(expected, positions, at, index);
        positions := positions[expected[cursor] := index];
        cursor := cursor + 1;
        at := at + [index];
      }
    }
    GreedyIsBest(expected, seen, at);
    pass := cursor == |expected|;
  }

  /** The order test of the smoke run. */
  method CheckEventOrder(seen: seq<string>) returns (pass: bool, positions: map<string, nat>)
    ensures pass <==> Embeds(EXPECTED, seen)
    ensures pass ==> positions.Keys == set kind | kind in EXPECTED
    ensures pass ==> forall i, j | 0 <= i < j < |EXPECTED| :: positions[EXPECTED[i]] < positions[EXPECTED[j]]
  {
    ghost var at;
    assert NoRepeat(EXPECTED);
    pass, positions, at := CheckOrder(EXPECTED, seen);
    assert EXPECTED[..|EXPECTED|] == EXPECTED;
  }

  /** The five kinds occur at these five increasing positions. */
  ghost predicate FiveAt(seen: seq<string>, a: nat, b: nat, c: nat, d: nat, e: nat) {
    && a < b < c < d < e < |seen|
    && seen[a] == "step_started" && seen[b] == "policy_checked" && seen[c] == "adapter_invoked"
    && seen[d] == "step_completed" && seen[e] == "workflow_completed"
  }

  /** The order test, spelled out. */
  lemma EmbedsMeans(seen: seq<string>)
    ensures Embeds(EXPECTED, seen) <==> exists a, b, c, d, e :: FiveAt(seen, a, b, c, d, e)
  {
    if Embeds(EXPECTED, seen) {
      var at :| Embedding(EXPECTED, seen, at);
      assert FiveAt(seen, at[0], at[1], at[2], at[3], at[4]);
    }
    if a, b, c, d, e :| FiveAt(seen, a, b, c, d, e) {
      assert Embedding(EXPECTED, seen, [a, b, c, d, e]);
    }
  }

  // ----- presence -----

  function Kinds(seen: seq<string>): set<string> {
    set kind | kind in seen
  }

  /** The required kinds that were not seen. */
  function Missing(seen: seq<string>): set<string> {
    Kinds(EXPECTED) - Kinds(seen)
  }

  lemma MissingMeans(seen: seq<string>, kind: string)
    ensures kind in Missing(seen) <==>
            && kind !in seen
            && kind in ["step_started", "policy_checked", "adapter_invoked", "step_completed", "workflow_completed"]
  {
  }

  /** Events in the required order lack none of the required kinds. */
  lemma OrderImpliesPresence(seen: seq<string>)
    requires Embeds(EXPECTED, seen)
    ensures Missing(seen) == {}
  {
    var at :| Embedding(EXPECTED, seen, at);
    forall kind | kind in EXPECTED ensures kind in seen {
      var k :| 0 <= k < |EXPECTED| && EXPECTED[k] == kind;
      assert seen[at[k]] == kind;
    }
  }

  lemma OrderedPair(seen: seq<string>)
    requires Embeds(EXPECTED, seen)
    ensures exists i, j :: 0 <= i < j < |seen| && seen[i] == EXPECTED[0] && seen[j] == EXPECTED[1]
  {
    var at :| Embedding(EXPECTED, seen, at);
    assert at[0] < at[1];
  }

  /** The converse fails: all kinds may be there in the wrong order. */
  lemma PresenceDoesNotImplyOrder(seen: seq<string>)
    requires seen == ["policy_checked", "step_started", "adapter_invoked", "step_completed", "workflow_completed"]
    ensures Missing(seen) == {} && !Embeds(EXPECTED, seen)
  {
    if Embeds(EXPECTED, seen) {
      OrderedPair(seen);
    }
  }
}
