/** Which orders of some reports fit a row of slots: when one does, and when one does not. */
module SlotFilling {

  /** What the reports that carry a made-up name make of the nameless report filed with them: a pass
      among them backs it, something neither passed nor skipped needs it, and otherwise it stands
      for itself. */
  datatype Slot = Backed | Needy | Neutral

  /** What a nameless report that does not fail brings. */
  datatype Kind = Passing | Skipped | Open

  predicate Fits(c: Slot, k: Kind) {
    match c
    case Backed => true
    case Neutral => k != Open
    case Needy => k == Passing
  }

  predicate AllFit(slots: seq<Slot>, kinds: seq<Kind>) {
    |slots| == |kinds| && forall i | 0 <= i < |slots| :: Fits(slots[i], kinds[i])
  }

  function Kinds<T>(rs: seq<T>, kind: T -> Kind): (ks: seq<Kind>)
    ensures |ks| == |rs| && forall i | 0 <= i < |rs| :: ks[i] == kind(rs[i])
  {
    seq(|rs|, i requires 0 <= i < |rs| => kind(rs[i]))
  }

  /** There are slots enough for what is open, and passes enough for the needy slots. */
  predicate Enough(slots: multiset<Slot>, kinds: multiset<Kind>) {
    kinds[Open] <= slots[Backed] && slots[Needy] <= kinds[Passing]
  }

  lemma {:induction false} FitNeedsEnough(slots: seq<Slot>, kinds: seq<Kind>)
    requires AllFit(slots, kinds)
    ensures Enough(multiset(slots), multiset(kinds))
  {
    if slots != [] {
      var k := |slots| - 1;
      FitNeedsEnough(slots[..k], kinds[..k]);
      assert slots == slots[..k] + [slots[k]] && kinds == kinds[..k] + [kinds[k]];
    }
  }

  function Without<T>(xs: seq<T>, i: nat): seq<T>
    requires i < |xs|
  {
    xs[..i] + xs[i + 1..]
  }

  lemma WithoutCounts<T>(xs: seq<T>, i: nat)
    requires i < |xs|
    ensures multiset(xs) == multiset(Without(xs, i)) + multiset{xs[i]} && |Without(xs, i)| == |xs| - 1
  {
    assert xs == xs[..i] + [xs[i]] + xs[i + 1..];
  }

  lemma KindsWithout<T>(rs: seq<T>, kind: T -> Kind, i: nat)
    requires i < |rs|
    ensures Kinds(Without(rs, i), kind) == Without(Kinds(rs, kind), i)
  {
  }

  lemma WithoutSame<T>(a: seq<T>, i: nat, b: seq<T>, j: nat)
    requires i < |a| && j < |b| && a[i] == b[j] && multiset(a) == multiset(b)
    ensures multiset(Without(a, i)) == multiset(Without(b, j))
  {
    WithoutCounts(a, i);
    WithoutCounts(b, j);
    assert multiset(Without(a, i)) == multiset(a) - multiset{a[i]};
    assert multiset(Without(b, j)) == multiset(b) - multiset{b[j]};
  }

  lemma IndexOf<T>(xs: seq<T>, x: T) returns (i: nat)
    requires multiset(xs)[x] > 0
    ensures i < |xs| && xs[i] == x
  {
    assert x in xs;
    i :| 0 <= i < |xs| && xs[i] == x;
  }

  lemma {:induction false} KindsAreThree(kinds: seq<Kind>)
    ensures |kinds| == multiset(kinds)[Passing] + multiset(kinds)[Skipped] + multiset(kinds)[Open]
  {
    if kinds != [] {
      var k := |kinds| - 1;
      KindsAreThree(kinds[..k]);
      assert kinds == kinds[..k] + [kinds[k]];
      assert multiset(kinds) == multiset(kinds[..k]) + multiset{kinds[k]};
      match kinds[k] {
        case Passing =>
        case Skipped =>
        case Open =>
      }
    }
  }

  lemma {:induction false} SlotsAreThree(slots: seq<Slot>)
    ensures |slots| == multiset(slots)[Backed] + multiset(slots)[Needy] + multiset(slots)[Neutral]
  {
    if slots != [] {
      var k := |slots| - 1;
      SlotsAreThree(slots[..k]);
      assert slots == slots[..k] + [slots[k]];
      assert multiset(slots) == multiset(slots[..k]) + multiset{slots[k]};
      match slots[k] {
        case Backed =>
        case Needy =>
        case Neutral =>
      }
    }
  }

  /** The kind to put in a slot: what is open into a backed one, a pass only where it has to be. */
  function Choice(slot: Slot, kinds: multiset<Kind>): Kind {
    match slot
    case Needy => Passing
    case Backed => if kinds[Open] > 0 then Open else if kinds[Skipped] > 0 then Skipped else Passing
    case Neutral => if kinds[Skipped] > 0 then Skipped else Passing
  }

  lemma ChoiceLeavesEnough(slots: seq<Slot>, kinds: seq<Kind>)
    requires |slots| == |kinds| > 0 && Enough(multiset(slots), multiset(kinds))
    ensures var slot := slots[|slots| - 1];
      var kind := Choice(slot, multiset(kinds));
      && Fits(slot, kind) && multiset(kinds)[kind] > 0
      && Enough(multiset(slots[..|slots| - 1]), multiset(kinds) - multiset{kind})
  {
    var k := |slots| - 1;
    assert slots == slots[..k] + [slots[k]];
    KindsAreThree(kinds);
    SlotsAreThree(slots);
  }

  lemma PutBack<T>(t: seq<T>, rs: seq<T>, i: nat)
    requires i < |rs| && multiset(t) == multiset(Without(rs, i))
    ensures multiset(t + [rs[i]]) == multiset(rs)
  {
    WithoutCounts(rs, i);
  }

  lemma FitOneMore<T>(slots: seq<Slot>, u: seq<T>, kind: T -> Kind, slot: Slot, r: T)
    requires AllFit(slots, Kinds(u, kind)) && Fits(slot, kind(r))
    ensures AllFit(slots + [slot], Kinds(u + [r], kind))
  {
  }

  /** Which report to put into the last slot, so that there is enough for the others. */
  lemma Pick<T>(slots: seq<Slot>, rs: seq<T>, kind: T -> Kind) returns (i: nat)
    requires |slots| == |rs| > 0 && Enough(multiset(slots), multiset(Kinds(rs, kind)))
    ensures i < |rs| && Fits(slots[|slots| - 1], kind(rs[i]))
    ensures Enough(multiset(slots[..|slots| - 1]), multiset(Kinds(Without(rs, i), kind)))
  {
    var kinds := Kinds(rs, kind);
    ChoiceLeavesEnough(slots, kinds);
    i := IndexOf(kinds, Choice(slots[|slots| - 1], multiset(kinds)));
    WithoutCounts(kinds, i);
    assert multiset(Without(kinds, i)) == multiset(kinds) - multiset{kinds[i]};
    KindsWithout(rs, kind, i);
  }

  /** When there is enough, the reports can be ordered so that all fit. */
  lemma {:induction false} Arrange<T>(slots: seq<Slot>, rs: seq<T>, kind: T -> Kind) returns (t: seq<T>)
    requires |slots| == |rs| && Enough(multiset(slots), multiset(Kinds(rs, kind)))
    ensures multiset(t) == multiset(rs) && AllFit(slots, Kinds(t, kind))
    decreases |slots|
  {
    if slots == [] {
      t := rs;
    } else {
      var before, last := slots[..|slots| - 1], slots[|slots| - 1];
      var i := Pick(slots, rs, kind);
      var rest, r := Without(rs, i), rs[i];
      var u := Arrange(before, rest, kind);
      t := u + [r];
      PutBack(u, rs, i);
      FitOneMore(before, u, kind, last, r);
      assert slots == before + [last];
    }
  }

  /** When something open can miss a backed slot, or a needy slot a pass, the reports can be ordered
      so that not all fit. */
  predicate CanMiss(slots: multiset<Slot>, kinds: multiset<Kind>) {
    || (kinds[Open] > 0 && slots[Backed] < |slots|)
    || (slots[Needy] > 0 && kinds[Passing] < |kinds|)
  }

  function Swap<T>(xs: seq<T>, i: nat, j: nat): (ys: seq<T>)
    requires i < |xs| && j < |xs|
    ensures |ys| == |xs| && ys[j] == xs[i]
  {
    xs[i := xs[j]][j := xs[i]]
  }

  lemma {:induction false} OtherThan<T>(xs: seq<T>, x: T) returns (i: nat)
    requires multiset(xs)[x] < |xs|
    ensures i < |xs| && xs[i] != x
  {
    var k := |xs| - 1;
    assert xs == xs[..k] + [xs[k]];
    if xs[k] != x {
      i := k;
    } else {
      i := OtherThan(xs[..k], x);
    }
  }

  lemma SwapIsPermutation<T>(xs: seq<T>, i: nat, j: nat)
    requires i < |xs| && j < |xs|
    ensures multiset(Swap(xs, i, j)) == multiset(xs)
  {
  }

  lemma Disarrange<T>(slots: seq<Slot>, rs: seq<T>, kind: T -> Kind) returns (t: seq<T>)
    requires |slots| == |rs| && CanMiss(multiset(slots), multiset(Kinds(rs, kind)))
    ensures multiset(t) == multiset(rs) && |t| == |rs| && !AllFit(slots, Kinds(t, kind))
  {
    var i, j;
    var kinds := Kinds(rs, kind);
    if multiset(kinds)[Open] > 0 && multiset(slots)[Backed] < |slots| {
      i := IndexOf(kinds, Open);
      j := OtherThan(slots, Backed);
    } else {
      i := OtherThan(kinds, Passing);
      j := IndexOf(slots, Needy);
    }
    t := Swap(rs, i, j);
    SwapIsPermutation(rs, i, j);
    assert !Fits(slots[j], Kinds(t, kind)[j]);
  }

  lemma MisfitCanMiss(slots: seq<Slot>, kinds: seq<Kind>)
    requires |slots| == |kinds| && !AllFit(slots, kinds)
    ensures CanMiss(multiset(slots), multiset(kinds))
  {
    var i :| 0 <= i < |slots| && !Fits(slots[i], kinds[i]);
    WithoutCounts(slots, i);
    WithoutCounts(kinds, i);
    if slots[i] == Needy {
      assert multiset(Without(kinds, i))[Passing] <= |multiset(Without(kinds, i))|;
    } else {
      assert multiset(Without(slots, i))[Backed] <= |multiset(Without(slots, i))|;
    }
  }

  /** The kinds of a list of reports do not depend on their order. */
  lemma {:induction false} SameKinds<T>(a: seq<T>, b: seq<T>, kind: T -> Kind)
    requires multiset(a) == multiset(b)
    ensures multiset(Kinds(a, kind)) == multiset(Kinds(b, kind))
    decreases |a|
  {
    if a == [] {
      assert |b| == |multiset(b)| == 0;
    } else {
      assert a[0] in multiset(b);
      var i := IndexOf(b, a[0]);
      WithoutSame(a, 0, b, i);
      SameKinds(Without(a, 0), Without(b, i), kind);
      KindsWithout(a, kind, 0);
      KindsWithout(b, kind, i);
      WithoutCounts(Kinds(a, kind), 0);
      WithoutCounts(Kinds(b, kind), i);
    }
  }
}
