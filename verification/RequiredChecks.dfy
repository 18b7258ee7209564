/** The required-check verdict of the merge executor: checks are grouped by name, and one passing
    report of a name outweighs pending ones but never a failing one. */
module RequiredChecks {
  import Sequences
  import opened Text
  import opened Json

  /** A non-empty string, untrimmed. */
  function NonEmpty(v: Value): Option<string> {
    if v.Str? && v.s != "" then Some(v.s) else None
  }

  function ItemOf(raw: Value): Object {
    AsDict(raw)
  }

  function Bucket(item: Object): Option<string> {
    NonEmpty(Get(item, KBucket))
  }

  /** How many of the reports have no name. */
  function Anonymous(raws: seq<Value>): nat {
    if raws == [] then 0
    else Anonymous(raws[..|raws| - 1]) + if NonEmpty(Get(ItemOf(raws[|raws| - 1]), KName)).None? then 1 else 0
  }

  function Digits(n: nat): string {
    if n < 10 then [('0' as int + n) as char] else Digits(n / 10) + [('0' as int + n % 10) as char]
  }

  function UnnamedName(k: nat): string {
    "<unnamed-" + Digits(k) + ">"
  }

  /** The name the loop files the report at index `i` under. */
  function NameAt(raws: seq<Value>, i: nat): string
    requires i < |raws|
  {
    match NonEmpty(Get(ItemOf(raws[i]), KName))
    case Some(name) => name
    case None => UnnamedName(Anonymous(raws[..i]) + 1)
  }

  // ----- the verdict of a group -----

  ghost predicate HasBucket(raws: seq<Value>, name: string, bucket: string) {
    exists i :: 0 <= i < |raws| && NameAt(raws, i) == name && Bucket(ItemOf(raws[i])) == Some(bucket)
  }

  ghost predicate OnlySkipping(raws: seq<Value>, name: string) {
    forall i | 0 <= i < |raws| && NameAt(raws, i) == name :: Bucket(ItemOf(raws[i])) == Some("skipping")
  }

  /** No failing report, and either a passing one or nothing but skipped ones. */
  ghost predicate GroupPasses(raws: seq<Value>, name: string) {
    !HasBucket(raws, name, "fail") && (HasBucket(raws, name, "pass") || OnlySkipping(raws, name))
  }

  // ----- the loops -----

  predicate SomeIn(items: seq<Object>, bucket: string) {
    exists i :: 0 <= i < |items| && Bucket(items[i]) == Some(bucket)
  }

  predicate AllIn(items: seq<Object>, bucket: string) {
    forall i | 0 <= i < |items| :: Bucket(items[i]) == Some(bucket)
  }

  predicate GroupOk(items: seq<Object>) {
    !SomeIn(items, "fail") && (SomeIn(items, "pass") || (items != [] && AllIn(items, "skipping")))
  }

  /** The one report at an index, when it goes under a name. */
  function FiledAt(raws: seq<Value>, i: nat, name: string): seq<Object>
    requires i < |raws|
  {
    if NameAt(raws, i) == name then [ItemOf(raws[i])] else []
  }

  /** The reports filed under a name, in order. */
  function Filed(raws: seq<Value>, name: string): seq<Object> {
    if raws == [] then [] else Filed(raws[..|raws| - 1], name) + FiledAt(raws, |raws| - 1, name)
  }

  predicate Distinct(names: seq<string>) {
    forall i, j | 0 <= i < j < |names| :: names[i] != names[j]
  }

  ghost predicate IsNameOf(raws: seq<Value>, name: string) {
    exists i :: 0 <= i < |raws| && NameAt(raws, i) == name
  }

  /** Some report has the first name, and none before it has the second. */
  ghost predicate AppearsBefore(raws: seq<Value>, first: string, second: string) {
    exists i :: 0 <= i < |raws| && NameAt(raws, i) == first && forall j | 0 <= j <= i :: NameAt(raws, j) != second
  }

  ghost predicate InOrder(raws: seq<Value>, names: seq<string>) {
    forall p, q | 0 <= p < q < |names| :: AppearsBefore(raws, names[p], names[q])
  }

  /** The distinct names in order of first appearance. */
  ghost predicate NamesOf(raws: seq<Value>, order: seq<string>) {
    && Distinct(order) && InOrder(raws, order)
    && (forall i | 0 <= i < |raws| :: NameAt(raws, i) in order)
    && (forall n | n in order :: Filed(raws, n) != [])
  }

  lemma NamesOfPrefix(raws: seq<Value>, k: nat, i: nat)
    requires i < k <= |raws|
    ensures NameAt(raws[..k], i) == NameAt(raws, i)
  {
    assert raws[..k][..i] == raws[..i];
  }

  /** The map holds what is filed under each of the names. */
  ghost predicate Lists(raws: seq<Value>, grouped: map<string, seq<Object>>, names: seq<string>) {
    && (forall n :: n in grouped <==> n in names)
    && (forall n | n in grouped :: grouped[n] == Filed(raws, n))
  }

  ghost predicate GroupedBy(raws: seq<Value>, grouped: map<string, seq<Object>>, names: seq<string>) {
    NamesOf(raws, names) && Lists(raws, grouped, names)
  }

  function AddTo(grouped: map<string, seq<Object>>, key: string, item: Object): map<string, seq<Object>> {
    grouped[key := (if key in grouped then grouped[key] else []) + [item]]
  }

  function AddName(names: seq<string>, key: string): seq<string> {
    if key in names then names else names + [key]
  }

  lemma AddNameHolds(names: seq<string>, key: string)
    ensures forall n :: n in AddName(names, key) <==> n in names || n == key
  {
  }

  lemma AddToLists(raws: seq<Value>, longer: seq<Value>, grouped: map<string, seq<Object>>, names: seq<string>,
                   key: string, item: Object)
    requires Lists(raws, grouped, names)
    requires forall n | n != key :: Filed(longer, n) == Filed(raws, n)
    requires Filed(longer, key) == Filed(raws, key) + [item]
    requires key !in names ==> Filed(raws, key) == []
    ensures Lists(longer, AddTo(grouped, key, item), AddName(names, key))
  {
    AddNameHolds(names, key);
    Sequences.SumNone([item]);
  }

  lemma GroupedGrows(raws: seq<Value>, raw: Value, grouped: map<string, seq<Object>>, names: seq<string>, key: string)
    requires GroupedBy(raws, grouped, names) && key == NameAt(raws + [raw], |raws|)
    ensures GroupedBy(raws + [raw], AddTo(grouped, key, ItemOf(raw)), AddName(names, key))
  {
    FiledGrows(raws, raw, key);
    if key !in names {
      FiledOnlyNamed(raws, names, key);
    }
    NamesGrow(raws, raw, names, key);
    AddToLists(raws, raws + [raw], grouped, names, key, ItemOf(raw));
  }

  /** The first loop: file every report under its name. */
  method GroupByName(raws: seq<Value>) returns (grouped: map<string, seq<Object>>, names: seq<string>)
    ensures GroupedBy(raws, grouped, names)
  {
    grouped := map[];
    names := [];
    var anonymous := 0;
    for i := 0 to |raws|
      invariant anonymous == Anonymous(raws[..i])
      invariant GroupedBy(raws[..i], grouped, names)
    {
      var item := ItemOf(raws[i]);
      var name := NonEmpty(Get(item, KName));
      var key: string;
      if name.Some? {
        key := name.value;
      } else {
        anonymous := anonymous + 1;
        key := UnnamedName(anonymous);
      }
      Sequences.TakeNext(raws, i);
      KeyIsName(raws, i, key);
      GroupedGrows(raws[..i], raws[i], grouped, names, key);
      names := AddName(names, key);
      grouped := AddTo(grouped, key, item);
    }
    Sequences.TakeAll(raws);
  }

  /** The second loop: list the groups that do not pass, in order. */
  method RequiredChecksPass(raws: seq<Value>) returns (ok: bool, failing: seq<string>)
    ensures forall n :: n in failing <==> IsNameOf(raws, n) && !GroupPasses(raws, n)
    ensures Distinct(failing) && InOrder(raws, failing)
    ensures ok <==> EveryGroupPasses(raws)
  {
    var grouped, names := GroupByName(raws);
    failing := [];
    for i := 0 to |names|
      invariant forall n :: n in failing <==> n in names[..i] && !GroupOk(Filed(raws, n))
      invariant Distinct(failing) && InOrder(raws, failing)
    {
      Sequences.TakeNext(names, i);
      var name := names[i];
      assert name !in names[..i];
      if !GroupOk(grouped[name]) {
        ListOneMore(failing, name);
        ListInOrder(raws, names, failing, i);
        failing := failing + [name];
      }
    }
    Sequences.TakeAll(names);
    NamesAreThoseOf(raws, names);
    VerdictMeans(raws, failing);
    forall n | IsNameOf(raws, n) ensures GroupOk(Filed(raws, n)) <==> GroupPasses(raws, n) {
      GroupOkMeans(raws, n);
    }
    ok := failing == [];
  }

  lemma ListInOrder(raws: seq<Value>, names: seq<string>, failing: seq<string>, i: nat)
    requires InOrder(raws, names) && InOrder(raws, failing) && i < |names|
    requires forall n | n in failing :: n in names[..i]
    ensures InOrder(raws, failing + [names[i]])
  {
    var longer := failing + [names[i]];
    forall p, q | 0 <= p < q < |longer| ensures AppearsBefore(raws, longer[p], longer[q]) {
      if q < |failing| {
        assert AppearsBefore(raws, failing[p], failing[q]);
      } else {
        assert failing[p] in names[..i];
      }
    }
  }

  lemma ListOneMore(failing: seq<string>, name: string)
    requires name !in failing && Distinct(failing)
    ensures Distinct(failing + [name])
    ensures forall n :: n in failing + [name] <==> n in failing || n == name
  {
  }

  lemma NamesAreThoseOf(raws: seq<Value>, names: seq<string>)
    requires NamesOf(raws, names)
    ensures forall n :: n in names <==> IsNameOf(raws, n)
  {
    forall n ensures n in names <==> IsNameOf(raws, n) {
      if n in names {
        FiledHasIndex(raws, n);
      }
    }
  }

  /** A name under which something is filed is the name of some report. */
  lemma {:induction false} FiledHasIndex(raws: seq<Value>, name: string)
    requires Filed(raws, name) != []
    ensures IsNameOf(raws, name)
  {
    var k := |raws| - 1;
    if NameAt(raws, k) != name {
      FiledHasIndex(raws[..k], name);
      var i :| 0 <= i < k && NameAt(raws[..k], i) == name;
      NamesOfPrefix(raws, k, i);
    }
  }

  lemma {:induction false} FiledOnlyNamed(raws: seq<Value>, order: seq<string>, name: string)
    requires forall i | 0 <= i < |raws| :: NameAt(raws, i) in order
    requires name !in order
    ensures Filed(raws, name) == []
  {
    if raws != [] {
      var k := |raws| - 1;
      forall i | 0 <= i < k ensures NameAt(raws[..k], i) in order {
        NamesOfPrefix(raws, k, i);
      }
      FiledOnlyNamed(raws[..k], order, name);
    }
  }

  /** What one more report changes is what is filed under its name. */
  lemma FiledGrows(raws: seq<Value>, raw: Value, key: string)
    requires key == NameAt(raws + [raw], |raws|)
    ensures forall n | n != key :: Filed(raws + [raw], n) == Filed(raws, n)
    ensures Filed(raws + [raw], key) == Filed(raws, key) + [ItemOf(raw)]
  {
    var longer := raws + [raw];
    assert longer[..|longer| - 1] == raws;
    forall n | n != key ensures Filed(longer, n) == Filed(raws, n) {
      Sequences.SumNone(Filed(raws, n));
    }
  }

  lemma OrderGrows(raws: seq<Value>, raw: Value, before: seq<string>, key: string)
    requires InOrder(raws, before) && key == NameAt(raws + [raw], |raws|)
    requires (forall i | 0 <= i < |raws| :: NameAt(raws, i) in before) && (forall n | n in before :: IsNameOf(raws, n))
    ensures InOrder(raws + [raw], AddName(before, key))
  {
    var longer, after := raws + [raw], AddName(before, key);
    forall i | 0 <= i < |raws| ensures NameAt(longer, i) == NameAt(raws, i) {
      assert longer[..|raws|] == raws;
      NamesOfPrefix(longer, |raws|, i);
    }
    forall p, q | 0 <= p < q < |after| ensures AppearsBefore(longer, after[p], after[q]) {
      if q < |before| {
        assert AppearsBefore(raws, before[p], before[q]);
      } else {
        assert before[p] in before;
      }
    }
  }

  lemma NamesGrow(raws: seq<Value>, raw: Value, before: seq<string>, key: string)
    requires NamesOf(raws, before) && key == NameAt(raws + [raw], |raws|)
    ensures NamesOf(raws + [raw], AddName(before, key))
  {
    var longer, after := raws + [raw], AddName(before, key);
    AddNameHolds(before, key);
    FiledGrows(raws, raw, key);
    forall n | n in before ensures IsNameOf(raws, n) {
      FiledHasIndex(raws, n);
    }
    OrderGrows(raws, raw, before, key);
    forall i | 0 <= i < |longer| ensures NameAt(longer, i) in after {
      if i < |raws| {
        assert longer[..|raws|] == raws;
        NamesOfPrefix(longer, |raws|, i);
      }
    }
    forall n | n in after ensures Filed(longer, n) != [] {
      if n != key {
        assert n in before;
      }
    }
  }

  lemma KeyIsName(raws: seq<Value>, i: nat, key: string)
    requires i < |raws| && key == NameAt(raws, i)
    ensures key == NameAt(raws[..i] + [raws[i]], |raws[..i]|)
  {
    Sequences.TakeNext(raws, i);
    NamesOfPrefix(raws, i + 1, i);
  }

  // ----- what the verdict means -----

  /** A report of a name is filed under it. */
  lemma {:induction false} IsFiled(raws: seq<Value>, name: string, i: nat)
    requires i < |raws| && NameAt(raws, i) == name
    ensures ItemOf(raws[i]) in Filed(raws, name)
    decreases |raws|
  {
    var k := |raws| - 1;
    var before := raws[..k];
    Sequences.InSum(Filed(before, name), FiledAt(raws, k, name), ItemOf(raws[i]));
    if i < k {
      NamesOfPrefix(raws, k, i);
      IsFiled(before, name, i);
    }
  }

  /** What is filed under a name is a report of it. */
  lemma {:induction false} FiledFrom(raws: seq<Value>, name: string, item: Object) returns (i: nat)
    requires item in Filed(raws, name)
    ensures i < |raws| && NameAt(raws, i) == name && ItemOf(raws[i]) == item
    decreases |raws|
  {
    var k := |raws| - 1;
    var before := raws[..k];
    Sequences.InSum(Filed(before, name), FiledAt(raws, k, name), item);
    if item in Filed(before, name) {
      i := FiledFrom(before, name, item);
      NamesOfPrefix(raws, k, i);
    } else {
      i := k;
    }
  }

  /** A bucket is among the filed reports exactly when it is among the reports of the name. */
  lemma FiledBucket(raws: seq<Value>, name: string, bucket: string)
    ensures SomeIn(Filed(raws, name), bucket) <==> HasBucket(raws, name, bucket)
  {
    var items := Filed(raws, name);
    if SomeIn(items, bucket) {
      var j :| 0 <= j < |items| && Bucket(items[j]) == Some(bucket);
      var i := FiledFrom(raws, name, items[j]);
    }
    if HasBucket(raws, name, bucket) {
      var i :| 0 <= i < |raws| && NameAt(raws, i) == name && Bucket(ItemOf(raws[i])) == Some(bucket);
      IsFiled(raws, name, i);
      var j :| 0 <= j < |items| && items[j] == ItemOf(raws[i]);
    }
  }

  lemma FiledSkipping(raws: seq<Value>, name: string)
    ensures AllIn(Filed(raws, name), "skipping") <==> OnlySkipping(raws, name)
  {
    var items := Filed(raws, name);
    if OnlySkipping(raws, name) {
      forall j | 0 <= j < |items| ensures Bucket(items[j]) == Some("skipping") {
        var i := FiledFrom(raws, name, items[j]);
      }
    }
    if AllIn(items, "skipping") {
      forall i | 0 <= i < |raws| && NameAt(raws, i) == name ensures Bucket(ItemOf(raws[i])) == Some("skipping") {
        IsFiled(raws, name, i);
        var j :| 0 <= j < |items| && items[j] == ItemOf(raws[i]);
      }
    }
  }

  lemma GroupOkMeans(raws: seq<Value>, name: string)
    requires IsNameOf(raws, name)
    ensures GroupOk(Filed(raws, name)) <==> GroupPasses(raws, name)
  {
    FiledBucket(raws, name, "fail");
    FiledBucket(raws, name, "pass");
    FiledSkipping(raws, name);
    var k :| 0 <= k < |raws| && NameAt(raws, k) == name;
    IsFiled(raws, name, k);
  }

  /** The verdict, for every list of reports: every name, given or made up, has no failing report
      and either a passing one or only skipped ones. */
  ghost predicate EveryGroupPasses(raws: seq<Value>) {
    forall i | 0 <= i < |raws| :: GroupPasses(raws, NameAt(raws, i))
  }

  lemma VerdictMeans(raws: seq<Value>, failing: seq<string>)
    requires forall n :: n in failing <==> IsNameOf(raws, n) && !GroupOk(Filed(raws, n))
    ensures failing == [] <==> EveryGroupPasses(raws)
  {
    if failing == [] {
      forall i | 0 <= i < |raws| ensures GroupPasses(raws, NameAt(raws, i)) {
        assert NameAt(raws, i) !in failing;
        GroupOkMeans(raws, NameAt(raws, i));
      }
    } else {
      assert failing[0] in failing;
      var i :| 0 <= i < |raws| && NameAt(raws, i) == failing[0];
      GroupOkMeans(raws, failing[0]);
    }
  }

  // ----- order -----

  /** The number that decimal digits write. */
  ghost function Decimal(s: string): int {
    if s == "" then 0 else 10 * Decimal(s[..|s| - 1]) + (s[|s| - 1] as int - '0' as int)
  }

  /** The number of a made-up name is written in decimal digits, without a leading zero. */
  lemma {:induction false} DigitsAreDecimal(n: nat)
    ensures Decimal(Digits(n)) == n && Digits(n) != ""
    ensures forall i | 0 <= i < |Digits(n)| :: '0' <= Digits(n)[i] <= '9'
    ensures n > 0 ==> Digits(n)[0] != '0'
  {
    var s := Digits(n);
    if n >= 10 {
      DigitsAreDecimal(n / 10);
      assert s[..|s| - 1] == Digits(n / 10);
    } else {
      assert s[..|s| - 1] == "";
    }
  }

  lemma {:induction false} DigitsInjective(a: nat, b: nat)
    requires Digits(a) == Digits(b)
    ensures a == b
  {
    if a >= 10 && b >= 10 {
      var x, y := Digits(a), Digits(b);
      assert x[..|x| - 1] == Digits(a / 10) && y[..|y| - 1] == Digits(b / 10);
      assert x[|x| - 1] == y[|y| - 1];
      DigitsInjective(a / 10, b / 10);
    } else {
      DigitsNonEmpty(a / 10);
      DigitsNonEmpty(b / 10);
    }
  }

  lemma DigitsNonEmpty(n: nat)
    ensures |Digits(n)| >= 1
  {
  }

  lemma UnnamedInjective(a: nat, b: nat)
    requires UnnamedName(a) == UnnamedName(b)
    ensures a == b
  {
    var x, y := UnnamedName(a), UnnamedName(b);
    assert x[9..|x| - 1] == Digits(a) && y[9..|y| - 1] == Digits(b);
    DigitsInjective(a, b);
  }

  /** The report gives itself a name. */
  predicate Named(raw: Value, name: string) {
    name != "" && raw.Dict? && Get(raw.fields, KName) == Str(name)
  }

  predicate IsAnonymous(raw: Value) {
    !(raw.Dict? && Get(raw.fields, KName).Str? && Get(raw.fields, KName) != Str(""))
  }

  predicate BucketIs(raw: Value, bucket: string) {
    raw.Dict? && Get(raw.fields, KBucket) == Str(bucket)
  }

  ghost predicate Reports(raws: seq<Value>, name: string) {
    exists r :: r in raws && Named(r, name)
  }

  /** The reports without a name, in order. */
  function Nameless(raws: seq<Value>): (r: seq<Value>)
    ensures |r| == Anonymous(raws)
    ensures forall k | 0 <= k < |r| :: IsAnonymous(r[k])
  {
    if raws == [] then []
    else
      var last := raws[|raws| - 1];
      Nameless(raws[..|raws| - 1]) + if IsAnonymous(last) then [last] else []
  }

  lemma {:induction false} NamelessCounts(raws: seq<Value>, r: Value)
    ensures multiset(Nameless(raws))[r] == if IsAnonymous(r) then multiset(raws)[r] else 0
  {
    if raws != [] {
      var k := |raws| - 1;
      NamelessCounts(raws[..k], r);
      Sequences.SplitLast(raws);
    }
  }

  lemma SameLength<T>(a: seq<T>, b: seq<T>)
    requires multiset(a) == multiset(b)
    ensures |a| == |b|
  {
    assert |a| == |multiset(a)| == |multiset(b)| == |b|;
  }

  lemma SameCounts<T>(a: multiset<T>, b: multiset<T>)
    requires forall x :: a[x] == b[x]
    ensures a == b
  {
  }

  lemma SameNameless(a: seq<Value>, b: seq<Value>)
    requires multiset(a) == multiset(b)
    ensures multiset(Nameless(a)) == multiset(Nameless(b)) && Anonymous(a) == Anonymous(b)
  {
    var x, y := multiset(Nameless(a)), multiset(Nameless(b));
    forall r: Value ensures x[r] == y[r] {
      NamelessCounts(a, r);
      NamelessCounts(b, r);
    }
    SameCounts(x, y);
    SameLength(Nameless(a), Nameless(b));
  }

  /** A name that is made up for one of the reports. */
  ghost predicate IsMadeUp(raws: seq<Value>, name: string) {
    exists k: nat :: 1 <= k <= Anonymous(raws) && name == UnnamedName(k)
  }

  /** No report is itself named like a name that is made up for another. */
  ghost predicate NoClash(raws: seq<Value>) {
    forall k: nat | 1 <= k <= Anonymous(raws) :: !Reports(raws, UnnamedName(k))
  }

  // ----- a name that clashes -----

  function Report(name: Option<string>, bucket: string): Value {
    Dict(map[KBucket := Str(bucket)] + match name { case Some(n) => map[KName := Str(n)] case None => map[] })
  }

  lemma ReportHas(name: Option<string>, bucket: string)
    requires bucket != "" && name != Some("")
    ensures BucketIs(Report(name, bucket), bucket) && NonEmpty(Get(ItemOf(Report(name, bucket)), KName)) == name
  {
  }

  lemma FirstUnnamed()
    ensures UnnamedName(1) == "<unnamed-1>"
  {
    assert Digits(1) == "1";
  }

  lemma ClashNames(raws: seq<Value>)
    requires |raws| == 3 && IsAnonymous(raws[0]) && IsAnonymous(raws[1])
    requires NonEmpty(Get(ItemOf(raws[2]), KName)) == Some("<unnamed-1>")
    ensures NameAt(raws, 0) == NameAt(raws, 2) == "<unnamed-1>" && NameAt(raws, 1) == UnnamedName(2)
    ensures NameAt(raws, 1) != "<unnamed-1>"
  {
    FirstUnnamed();
    assert raws[..0] == [];
    assert raws[..1][..0] == [] && raws[..1][0] == raws[0];
    if UnnamedName(2) == UnnamedName(1) {
      UnnamedInjective(2, 1);
    }
  }

  lemma ClashPasses(raws: seq<Value>)
    requires |raws| == 3 && IsAnonymous(raws[0]) && IsAnonymous(raws[1])
    requires NonEmpty(Get(ItemOf(raws[2]), KName)) == Some("<unnamed-1>")
    requires BucketIs(raws[0], "pending") && BucketIs(raws[1], "skipping") && BucketIs(raws[2], "pass")
    ensures EveryGroupPasses(raws)
  {
    ClashNames(raws);
    BucketsDiffer();
    SharedAndLone(raws, NameAt(raws, 2), NameAt(raws, 1));
  }

  lemma SharedAndLone(raws: seq<Value>, shared: string, lone: string)
    requires |raws| == 3 && NameAt(raws, 0) == NameAt(raws, 2) == shared && NameAt(raws, 1) == lone != shared
    requires forall i | 0 <= i < 3 :: !BucketIs(raws[i], "fail")
    requires BucketIs(raws[1], "skipping") && BucketIs(raws[2], "pass")
    ensures EveryGroupPasses(raws)
  {
    assert GroupPasses(raws, shared) by {
      NoneHas(raws, shared, "fail");
      HasOne(raws, 2, "pass");
    }
    assert GroupPasses(raws, lone) by {
      NoneHas(raws, lone, "fail");
      OnlyOne(raws, 1);
    }
    TwoGroups(raws, shared, lone);
  }

  lemma TwoGroups(raws: seq<Value>, one: string, other: string)
    requires forall i | 0 <= i < |raws| :: NameAt(raws, i) == one || NameAt(raws, i) == other
    requires GroupPasses(raws, one) && GroupPasses(raws, other)
    ensures EveryGroupPasses(raws)
  {
  }

  lemma NoneHas(raws: seq<Value>, name: string, bucket: string)
    requires forall i | 0 <= i < |raws| :: !BucketIs(raws[i], bucket)
    ensures !HasBucket(raws, name, bucket)
  {
  }

  lemma HasOne(raws: seq<Value>, i: nat, bucket: string)
    requires i < |raws| && BucketIs(raws[i], bucket) && bucket != ""
    ensures HasBucket(raws, NameAt(raws, i), bucket)
  {
  }

  lemma OnlyOne(raws: seq<Value>, i: nat)
    requires i < |raws| && BucketIs(raws[i], "skipping")
    requires forall j | 0 <= j < |raws| && j != i :: NameAt(raws, j) != NameAt(raws, i)
    ensures OnlySkipping(raws, NameAt(raws, i))
  {
  }

  lemma BucketsDiffer()
    ensures "fail" != "pending" && "fail" != "skipping" && "fail" != "pass"
    ensures "pending" != "skipping" && "pending" != "pass"
  {
    assert "skipping"[0] != "fail"[0] && "pass"[0] != "fail"[0];
  }

  lemma ClashFails(raws: seq<Value>)
    requires |raws| == 3 && IsAnonymous(raws[0]) && IsAnonymous(raws[1])
    requires NonEmpty(Get(ItemOf(raws[2]), KName)) == Some("<unnamed-1>")
    requires BucketIs(raws[0], "skipping") && BucketIs(raws[1], "pending") && BucketIs(raws[2], "pass")
    ensures !EveryGroupPasses(raws)
  {
    ClashNames(raws);
    var lone := NameAt(raws, 1);
    BucketsDiffer();
    assert Bucket(ItemOf(raws[1])) == Some("pending");
    assert !OnlySkipping(raws, lone) && !HasBucket(raws, lone, "pass");
    assert !GroupPasses(raws, lone);
  }

  /** With a report named like a made-up name the verdict does depend on the order: the passing
      report joins the group of whichever report without a name comes first. */
  lemma ClashMakesOrderMatter(waiting: Value, skipped: Value, named: Value)
    requires waiting == Report(None, "pending") && skipped == Report(None, "skipping")
    requires named == Report(Some("<unnamed-1>"), "pass")
    ensures multiset([waiting, skipped, named]) == multiset([skipped, waiting, named])
    ensures EveryGroupPasses([waiting, skipped, named]) && !EveryGroupPasses([skipped, waiting, named])
  {
    ReportHas(None, "pending");
    ReportHas(None, "skipping");
    ReportHas(Some("<unnamed-1>"), "pass");
    ClashPasses([waiting, skipped, named]);
    ClashFails([skipped, waiting, named]);
  }
}
