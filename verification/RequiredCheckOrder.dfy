/** Exactly when the order of the reports decides the required-check verdict. */
module RequiredCheckOrder {
  import opened Text
  import opened Json
  import opened RequiredChecks
  import opened SlotFilling
  import Sequences

  // ----- what order cannot change -----

  function KindOf(r: Value): Kind {
    if BucketIs(r, "pass") then Passing
    else if BucketIs(r, "skipping") then Skipped
    else Open
  }

  ghost predicate HasPass(raws: seq<Value>, name: string) {
    exists r :: r in raws && Named(r, name) && BucketIs(r, "pass")
  }

  ghost predicate AllSkipping(raws: seq<Value>, name: string) {
    forall r | r in raws && Named(r, name) :: BucketIs(r, "skipping")
  }

  /** What the reports of a name make of a nameless report filed with them. */
  ghost function SlotOf(raws: seq<Value>, name: string): Slot {
    if HasPass(raws, name) then Backed else if AllSkipping(raws, name) then Neutral else Needy
  }

  /** The slots of the made-up names, in the order in which they are made up. */
  ghost function Slots(raws: seq<Value>): (s: seq<Slot>)
    ensures |s| == Anonymous(raws)
    ensures forall k | 0 <= k < |s| :: s[k] == SlotOf(raws, UnnamedName(k + 1))
  {
    seq(Anonymous(raws), k requires 0 <= k => SlotOf(raws, UnnamedName(k + 1)))
  }

  ghost predicate NoneFails(raws: seq<Value>) {
    forall r | r in raws :: !BucketIs(r, "fail")
  }

  /** No report fails, and every name that is not made up has a pass or only skipped reports. */
  ghost predicate Sound(raws: seq<Value>) {
    NoneFails(raws) && forall r, n | r in raws && Named(r, n) && !IsMadeUp(raws, n) :: SlotOf(raws, n) != Needy
  }

  // ----- the groups -----

  lemma {:induction false} NamelessAt(raws: seq<Value>, i: nat)
    requires i < |raws| && IsAnonymous(raws[i])
    ensures Anonymous(raws[..i]) < |Nameless(raws)| && Nameless(raws)[Anonymous(raws[..i])] == raws[i]
    decreases |raws|
  {
    var k := |raws| - 1;
    if i < k {
      assert raws[..k][..i] == raws[..i];
      NamelessAt(raws[..k], i);
    }
  }

  lemma {:induction false} NamelessIndex(raws: seq<Value>, k: nat) returns (i: nat)
    requires k < |Nameless(raws)|
    ensures i < |raws| && IsAnonymous(raws[i]) && Anonymous(raws[..i]) == k && raws[i] == Nameless(raws)[k]
    decreases |raws|
  {
    var last := |raws| - 1;
    if k == |Nameless(raws[..last])| {
      i := last;
    } else {
      i := NamelessIndex(raws[..last], k);
      assert raws[..last][..i] == raws[..i];
    }
  }

  /** A report is in the group of a name. */
  ghost predicate InGroup(raws: seq<Value>, name: string, r: Value) {
    exists i :: 0 <= i < |raws| && NameAt(raws, i) == name && raws[i] == r
  }

  lemma NamedInGroup(raws: seq<Value>, name: string, r: Value)
    requires r in raws && Named(r, name)
    ensures InGroup(raws, name, r)
  {
    var i :| 0 <= i < |raws| && raws[i] == r;
    assert NameAt(raws, i) == name;
  }

  lemma NamelessIsMadeUp(raws: seq<Value>, i: nat)
    requires i < |raws| && IsAnonymous(raws[i])
    ensures IsMadeUp(raws, NameAt(raws, i))
  {
    NamelessAt(raws, i);
    var k := Anonymous(raws[..i]) + 1;
    assert NameAt(raws, i) == UnnamedName(k);
  }

  /** The group of a name that is not made up is the reports of that name. */
  lemma GivenGroup(raws: seq<Value>, name: string, r: Value)
    requires !IsMadeUp(raws, name)
    ensures InGroup(raws, name, r) <==> r in raws && Named(r, name)
  {
    if i :| 0 <= i < |raws| && NameAt(raws, i) == name && raws[i] == r {
      if IsAnonymous(raws[i]) {
        NamelessIsMadeUp(raws, i);
      }
    }
    if r in raws && Named(r, name) {
      NamedInGroup(raws, name, r);
    }
  }

  /** The k-th made-up name is that of the k-th nameless report and of no other nameless one. */
  lemma NamelessName(raws: seq<Value>, i: nat, k: nat, name: string)
    requires i < |raws| && IsAnonymous(raws[i]) && k < |Nameless(raws)| && name == UnnamedName(k + 1)
    requires NameAt(raws, i) == name
    ensures raws[i] == Nameless(raws)[k]
  {
    NamelessAt(raws, i);
    UnnamedInjective(Anonymous(raws[..i]) + 1, k + 1);
  }

  lemma NamelessInGroup(raws: seq<Value>, k: nat, name: string)
    requires k < |Nameless(raws)| && name == UnnamedName(k + 1)
    ensures InGroup(raws, name, Nameless(raws)[k])
  {
    var i := NamelessIndex(raws, k);
    assert NameAt(raws, i) == name;
  }

  /** The group of the k-th made-up name is the reports of that name and the k-th nameless one. */
  lemma MadeUpGroup(raws: seq<Value>, k: nat, name: string, r: Value)
    requires k < |Nameless(raws)| && name == UnnamedName(k + 1)
    ensures InGroup(raws, name, r) <==> (r in raws && Named(r, name)) || r == Nameless(raws)[k]
  {
    if i :| 0 <= i < |raws| && NameAt(raws, i) == name && raws[i] == r {
      if IsAnonymous(raws[i]) {
        NamelessName(raws, i, k, name);
      }
    }
    if r in raws && Named(r, name) {
      NamedInGroup(raws, name, r);
    }
    NamelessInGroup(raws, k, name);
  }

  /** A group passes when none of its reports fails and one passes or all are skipped. */
  lemma GroupPassesMeans(raws: seq<Value>, name: string)
    ensures GroupPasses(raws, name) <==>
            && (forall r | InGroup(raws, name, r) :: !BucketIs(r, "fail"))
            && ((exists r :: InGroup(raws, name, r) && BucketIs(r, "pass"))
                || (forall r | InGroup(raws, name, r) :: BucketIs(r, "skipping")))
  {
    forall i | 0 <= i < |raws| && NameAt(raws, i) == name ensures InGroup(raws, name, raws[i]) {
    }
  }

  lemma GivenGroupPasses(raws: seq<Value>, name: string)
    requires NoneFails(raws) && !IsMadeUp(raws, name) && exists r :: r in raws && Named(r, name)
    ensures GroupPasses(raws, name) <==> SlotOf(raws, name) != Needy
  {
    GroupPassesMeans(raws, name);
    forall r: Value ensures InGroup(raws, name, r) <==> r in raws && Named(r, name) {
      GivenGroup(raws, name, r);
    }
  }

  lemma MadeUpGroupPasses(raws: seq<Value>, k: nat, name: string)
    requires NoneFails(raws) && k < |Nameless(raws)| && name == UnnamedName(k + 1)
    ensures GroupPasses(raws, name) <==> Fits(SlotOf(raws, name), KindOf(Nameless(raws)[k]))
  {
    GroupPassesMeans(raws, name);
    forall r: Value ensures InGroup(raws, name, r) <==> (r in raws && Named(r, name)) || r == Nameless(raws)[k] {
      MadeUpGroup(raws, k, name, r);
    }
    var i := NamelessIndex(raws, k);
    assert raws[i] in raws;
  }

  lemma FailingGroup(raws: seq<Value>)
    requires !NoneFails(raws)
    ensures !EveryGroupPasses(raws)
  {
    var r :| r in raws && BucketIs(r, "fail");
    var i :| 0 <= i < |raws| && raws[i] == r;
    assert HasBucket(raws, NameAt(raws, i), "fail");
  }

  /** The verdict: the reports are sound, and the nameless ones fit the slots in their order. */
  ghost predicate Filled(raws: seq<Value>) {
    AllFit(Slots(raws), Kinds(Nameless(raws), KindOf))
  }

  lemma PassingIsFilled(raws: seq<Value>)
    requires EveryGroupPasses(raws) && NoneFails(raws)
    ensures Sound(raws) && Filled(raws)
  {
    forall r, n | r in raws && Named(r, n) && !IsMadeUp(raws, n) ensures SlotOf(raws, n) != Needy {
      var i :| 0 <= i < |raws| && raws[i] == r;
      assert NameAt(raws, i) == n;
      GivenGroupPasses(raws, n);
    }
    forall k | 0 <= k < |Nameless(raws)|
      ensures Fits(SlotOf(raws, UnnamedName(k + 1)), KindOf(Nameless(raws)[k]))
    {
      var i := NamelessIndex(raws, k);
      MadeUpGroupPasses(raws, k, NameAt(raws, i));
    }
  }

  lemma FilledPasses(raws: seq<Value>)
    requires Sound(raws) && Filled(raws)
    ensures EveryGroupPasses(raws)
  {
    forall i | 0 <= i < |raws| ensures GroupPasses(raws, NameAt(raws, i)) {
      var name := NameAt(raws, i);
      if IsMadeUp(raws, name) {
        var k: nat :| 1 <= k <= Anonymous(raws) && name == UnnamedName(k);
        MadeUpGroupPasses(raws, k - 1, name);
        assert Slots(raws)[k - 1] == SlotOf(raws, name);
      } else {
        if IsAnonymous(raws[i]) {
          NamelessIsMadeUp(raws, i);
        }
        assert raws[i] in raws && Named(raws[i], name);
        GivenGroupPasses(raws, name);
      }
    }
  }

  lemma VerdictIsFilling(raws: seq<Value>)
    ensures EveryGroupPasses(raws) <==> Sound(raws) && Filled(raws)
  {
    if !NoneFails(raws) {
      FailingGroup(raws);
    } else {
      if EveryGroupPasses(raws) {
        PassingIsFilled(raws);
      }
      if Sound(raws) && Filled(raws) {
        FilledPasses(raws);
      }
    }
  }

  // ----- reordering -----

  function Others(raws: seq<Value>): (r: seq<Value>)
    ensures forall k | 0 <= k < |r| :: !IsAnonymous(r[k])
  {
    if raws == [] then []
    else
      var last := raws[|raws| - 1];
      Others(raws[..|raws| - 1]) + if IsAnonymous(last) then [] else [last]
  }

  lemma {:induction false} Divided(raws: seq<Value>)
    ensures multiset(Nameless(raws)) + multiset(Others(raws)) == multiset(raws)
  {
    if raws != [] {
      var k := |raws| - 1;
      Divided(raws[..k]);
      assert raws == raws[..k] + [raws[k]];
    }
  }

  lemma NamelessLast(raws: seq<Value>, last: Value)
    ensures Nameless(raws + [last]) == Nameless(raws) + if IsAnonymous(last) then [last] else []
  {
    assert (raws + [last])[..|raws|] == raws;
  }

  lemma {:induction false} NamelessFirst(t: seq<Value>, others: seq<Value>)
    requires forall k | 0 <= k < |t| :: IsAnonymous(t[k])
    requires forall k | 0 <= k < |others| :: !IsAnonymous(others[k])
    ensures Nameless(t + others) == t
    decreases |others|, |t|
  {
    if others != [] {
      var fewer, last := others[..|others| - 1], others[|others| - 1];
      Sequences.SplitLast(others);
      Sequences.Assoc(t, fewer, [last]);
      NamelessLast(t + fewer, last);
      NamelessFirst(t, fewer);
    } else if t != [] {
      var fewer, last := t[..|t| - 1], t[|t| - 1];
      Sequences.SplitLast(t);
      Sequences.SumNone(t);
      Sequences.SumNone(fewer);
      NamelessLast(fewer, last);
      NamelessFirst(fewer, []);
    }
  }

  /** Any order of the nameless reports is that of some order of all reports. */
  lemma Reordered(raws: seq<Value>, t: seq<Value>) returns (b: seq<Value>)
    requires multiset(t) == multiset(Nameless(raws))
    ensures multiset(b) == multiset(raws) && Nameless(b) == t
  {
    b := t + Others(raws);
    Divided(raws);
    forall k | 0 <= k < |t| ensures IsAnonymous(t[k]) {
      assert t[k] in multiset(Nameless(raws));
    }
    NamelessFirst(t, Others(raws));
  }

  lemma SameMembers(a: seq<Value>, b: seq<Value>)
    requires multiset(a) == multiset(b)
    ensures forall r :: r in a <==> r in b
  {
    forall r: Value ensures r in a <==> r in b {
      assert r in a <==> r in multiset(a);
    }
  }

  /** Soundness and the slots do not depend on the order. */
  lemma OrderKeeps(a: seq<Value>, b: seq<Value>)
    requires multiset(a) == multiset(b)
    ensures (Sound(a) <==> Sound(b)) && Slots(a) == Slots(b)
  {
    SameMembers(a, b);
    SameNameless(a, b);
    forall n: string ensures SlotOf(a, n) == SlotOf(b, n) && (IsMadeUp(a, n) <==> IsMadeUp(b, n)) {
    }
  }

  // ----- when order decides -----

  /** Some order of the reports passes and another does not. */
  ghost predicate OrderMatters(raws: seq<Value>) {
    exists a, b :: multiset(a) == multiset(raws) && multiset(b) == multiset(raws)
      && EveryGroupPasses(a) && !EveryGroupPasses(b)
  }

  /** The reports are sound, there is enough to fill the slots, and one of them can be missed. */
  ghost predicate OrderDecides(raws: seq<Value>) {
    var slots, kinds := multiset(Slots(raws)), multiset(Kinds(Nameless(raws), KindOf));
    Sound(raws) && Enough(slots, kinds) && CanMiss(slots, kinds)
  }

  lemma DecidedMatters(raws: seq<Value>)
    requires OrderDecides(raws)
    ensures OrderMatters(raws)
  {
    var t := Arrange(Slots(raws), Nameless(raws), KindOf);
    var u := Disarrange(Slots(raws), Nameless(raws), KindOf);
    var a := Reordered(raws, t);
    var b := Reordered(raws, u);
    OrderKeeps(raws, a);
    OrderKeeps(raws, b);
    VerdictIsFilling(a);
    VerdictIsFilling(b);
  }

  lemma KindsAreKept(raws: seq<Value>, a: seq<Value>)
    requires multiset(a) == multiset(raws)
    ensures multiset(Kinds(Nameless(a), KindOf)) == multiset(Kinds(Nameless(raws), KindOf))
  {
    SameNameless(a, raws);
    SameKinds(Nameless(a), Nameless(raws), KindOf);
  }

  lemma MattersIsDecided(raws: seq<Value>, a: seq<Value>, b: seq<Value>)
    requires multiset(a) == multiset(raws) && multiset(b) == multiset(raws)
    requires EveryGroupPasses(a) && !EveryGroupPasses(b)
    ensures OrderDecides(raws)
  {
    OrderKeeps(raws, a);
    OrderKeeps(raws, b);
    VerdictIsFilling(a);
    VerdictIsFilling(b);
    KindsAreKept(raws, a);
    KindsAreKept(raws, b);
    FitNeedsEnough(Slots(a), Kinds(Nameless(a), KindOf));
    MisfitCanMiss(Slots(b), Kinds(Nameless(b), KindOf));
  }

  /** For every list of reports: two orders of it have different verdicts exactly when no report
      fails, every name that is not made up has a pass or only skipped reports, the open nameless
      reports are no more than the backed slots and the needy slots no more than the passing
      nameless reports, and an open one can miss the backed slots or a needy slot the passes. */
  lemma OrderMattersIff(raws: seq<Value>)
    ensures OrderMatters(raws) <==> OrderDecides(raws)
  {
    if OrderMatters(raws) {
      var a, b :| multiset(a) == multiset(raws) && multiset(b) == multiset(raws)
        && EveryGroupPasses(a) && !EveryGroupPasses(b);
      MattersIsDecided(raws, a, b);
    }
    if OrderDecides(raws) {
      DecidedMatters(raws);
    }
  }

  // ----- without a clash -----

  /** What the verdict asks of the report at one index, without any order. */
  ghost predicate OrderFreeAt(raws: seq<Value>, r: Value) {
    if IsAnonymous(r) then BucketIs(r, "pass") || BucketIs(r, "skipping")
    else
      var n := Get(r.fields, KName).s;
      && (forall s | s in raws && Named(s, n) :: !BucketIs(s, "fail"))
      && (|| (exists s :: s in raws && Named(s, n) && BucketIs(s, "pass"))
          || (forall s | s in raws && Named(s, n) :: BucketIs(s, "skipping")))
  }

  lemma UntouchedSlots(raws: seq<Value>)
    requires NoClash(raws)
    ensures forall k | 0 <= k < |Slots(raws)| :: Slots(raws)[k] == Neutral
    ensures forall n | IsMadeUp(raws, n) :: !Reports(raws, n)
  {
    forall k | 0 <= k < |Slots(raws)| ensures Slots(raws)[k] == Neutral {
      assert !Reports(raws, UnnamedName(k + 1));
    }
  }

  lemma NamelessMembers(raws: seq<Value>, r: Value)
    ensures r in Nameless(raws) <==> r in raws && IsAnonymous(r)
  {
    NamelessCounts(raws, r);
    assert r in Nameless(raws) <==> r in multiset(Nameless(raws));
    assert r in raws <==> r in multiset(raws);
  }

  lemma FilledIsOrderFree(raws: seq<Value>, r: Value)
    requires NoClash(raws) && Sound(raws) && Filled(raws) && r in raws
    ensures OrderFreeAt(raws, r)
  {
    UntouchedSlots(raws);
    if IsAnonymous(r) {
      NamelessMembers(raws, r);
      var k :| 0 <= k < |Nameless(raws)| && Nameless(raws)[k] == r;
      assert Fits(Slots(raws)[k], KindOf(r));
    } else {
      var n := Get(r.fields, KName).s;
      assert Named(r, n) && Reports(raws, n);
      assert SlotOf(raws, n) != Needy;
    }
  }

  lemma OrderFreeIsSound(raws: seq<Value>)
    requires forall r | r in raws :: OrderFreeAt(raws, r)
    ensures Sound(raws)
  {
    forall r | r in raws ensures !BucketIs(r, "fail") {
      if !IsAnonymous(r) {
        assert Named(r, Get(r.fields, KName).s);
      }
    }
    forall r, n | r in raws && Named(r, n) ensures SlotOf(raws, n) != Needy {
      assert OrderFreeAt(raws, r);
    }
  }

  lemma OrderFreeIsFilled(raws: seq<Value>)
    requires NoClash(raws) && forall r | r in raws :: OrderFreeAt(raws, r)
    ensures Filled(raws)
  {
    UntouchedSlots(raws);
    forall k | 0 <= k < |Nameless(raws)| ensures Fits(Slots(raws)[k], KindOf(Nameless(raws)[k])) {
      NamelessMembers(raws, Nameless(raws)[k]);
      assert OrderFreeAt(raws, Nameless(raws)[k]);
    }
  }

  /** When no report has a name that is made up for another, the verdict is true exactly when every
      report has its group pass in a sense that mentions no order. */
  lemma VerdictIsOrderFree(raws: seq<Value>)
    requires NoClash(raws)
    ensures EveryGroupPasses(raws) <==> forall r | r in raws :: OrderFreeAt(raws, r)
  {
    VerdictIsFilling(raws);
    if EveryGroupPasses(raws) {
      forall r | r in raws ensures OrderFreeAt(raws, r) {
        FilledIsOrderFree(raws, r);
      }
    }
    if forall r | r in raws :: OrderFreeAt(raws, r) {
      OrderFreeIsSound(raws);
      OrderFreeIsFilled(raws);
    }
  }

  /** And then the order in which reports arrive does not matter. */
  lemma VerdictIgnoresOrder(a: seq<Value>, b: seq<Value>)
    requires multiset(a) == multiset(b) && NoClash(a)
    ensures EveryGroupPasses(a) <==> EveryGroupPasses(b)
  {
    UntouchedSlots(a);
    OrderMattersIff(a);
  }
}
