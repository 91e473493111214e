/**
 Running the approved calls of a round: units that run at the same time, calls of a
 unit one after the other.

 A call with no concurrency group is a unit of its own; the calls of a group are one
 unit in the order they were submitted.
 */
module Schedule {
  import opened Messages

  type Group = Option<string>

  datatype Bucket = Bucket(key: Group, items: seq<nat>)

  // ---- Buckets, in the order their keys appear ------------------------------------------

  function Find(bs: seq<Bucket>, key: Group): (i: nat)
    ensures i <= |bs| && (i < |bs| ==> bs[i].key == key)
    ensures forall j :: 0 <= j < i ==> bs[j].key != key
  {
    if bs == [] then 0 else if bs[0].key == key then 0 else 1 + Find(bs[1..], key)
  }

  // The positions of a group, ascending.
  function Where(keys: seq<Group>, key: Group): (s: seq<nat>)
    ensures forall k :: 0 <= k < |s| ==> s[k] < |keys| && keys[s[k]] == key
    ensures forall k, l :: 0 <= k < l < |s| ==> s[k] < s[l]
    ensures forall p :: 0 <= p < |keys| && keys[p] == key ==> p in s
  {
    if keys == [] then []
    else
      var n := |keys| - 1;
      assert keys == keys[..n] + [keys[n]];
      Where(keys[..n], key) + (if keys[n] == key then [n] else [])
  }

  predicate BucketOk(keys: seq<Group>, b: Bucket) {
    b.key in keys && b.items == Where(keys, b.key)
  }

  ghost predicate Distinct(bs: seq<Bucket>) {
    forall i, j :: 0 <= i < j < |bs| ==> bs[i].key != bs[j].key
  }

  ghost predicate Complete(keys: seq<Group>, bs: seq<Bucket>) {
    forall p :: 0 <= p < |keys| ==> Find(bs, keys[p]) < |bs|
  }

  ghost predicate BucketsOk(keys: seq<Group>, bs: seq<Bucket>) {
    (forall i :: 0 <= i < |bs| ==> BucketOk(keys, bs[i])) && Distinct(bs) && Complete(keys, bs)
  }

  lemma {:induction false} FindFirst(bs: seq<Bucket>, key: Group, i: nat)
    requires i < |bs| && bs[i].key == key
    ensures Find(bs, key) <= i
  {
  }

  function Added(bs: seq<Bucket>, key: Group, pos: nat): seq<Bucket> {
    var i := Find(bs, key);
    if i < |bs| then bs[i := Bucket(key, bs[i].items + [pos])] else bs + [Bucket(key, [pos])]
  }

  lemma WhereSnoc(keys: seq<Group>, key: Group, k: Group)
    ensures Where(keys + [key], k) == if k == key then Where(keys, k) + [|keys|] else Where(keys, k)
  {
    assert (keys + [key])[..|keys|] == keys;
    assert Where(keys, k) + [] == Where(keys, k);
  }

  lemma {:induction false} Nowhere(keys: seq<Group>, key: Group)
    requires forall p :: 0 <= p < |keys| ==> keys[p] != key
    ensures Where(keys, key) == []
  {
    if keys != [] {
      Nowhere(keys[..|keys| - 1], key);
    }
  }

  lemma NewBucket(keys: seq<Group>, bs: seq<Bucket>, key: Group)
    requires BucketsOk(keys, bs) && Find(bs, key) == |bs|
    ensures Where(keys, key) == []
  {
    forall p | 0 <= p < |keys| ensures keys[p] != key {
      assert Find(bs, keys[p]) < |bs|;
    }
    Nowhere(keys, key);
  }

  lemma OldItems(keys: seq<Group>, b: Bucket, key: Group)
    requires BucketOk(keys, b)
    ensures BucketOk(keys + [key], if b.key == key then Bucket(key, b.items + [|keys|]) else b)
  {
    WhereSnoc(keys, key, b.key);
  }

  lemma NewItems(keys: seq<Group>, bs: seq<Bucket>, key: Group)
    requires BucketsOk(keys, bs) && Find(bs, key) == |bs|
    ensures BucketOk(keys + [key], Bucket(key, [|keys|]))
  {
    WhereSnoc(keys, key, key);
    NewBucket(keys, bs, key);
  }

  lemma ItemsAdded(keys: seq<Group>, bs: seq<Bucket>, key: Group, j: nat)
    requires BucketsOk(keys, bs) && j < |Added(bs, key, |keys|)|
    ensures BucketOk(keys + [key], Added(bs, key, |keys|)[j])
  {
    if j < |bs| {
      OldItems(keys, bs[j], key);
      FindOnly(bs, key, j);
    } else {
      NewItems(keys, bs, key);
    }
  }

  lemma FindOnly(bs: seq<Bucket>, key: Group, j: nat)
    requires Distinct(bs) && j < |bs|
    ensures bs[j].key == key <==> Find(bs, key) == j
  {
  }

  lemma DistinctAdded(bs: seq<Bucket>, key: Group, pos: nat)
    requires Distinct(bs)
    ensures Distinct(Added(bs, key, pos))
  {
  }

  lemma CompleteAdded(keys: seq<Group>, bs: seq<Bucket>, key: Group)
    requires Complete(keys, bs)
    ensures Complete(keys + [key], Added(bs, key, |keys|))
  {
    var after, more := Added(bs, key, |keys|), keys + [key];
    forall p | 0 <= p < |more| ensures Find(after, more[p]) < |after| {
      FindFirst(after, more[p], if p < |keys| then Find(bs, keys[p]) else Find(bs, key));
    }
  }

  lemma BucketAdded(keys: seq<Group>, bs: seq<Bucket>, key: Group)
    requires BucketsOk(keys, bs)
    ensures BucketsOk(keys + [key], Added(bs, key, |keys|))
  {
    var after := Added(bs, key, |keys|);
    forall j | 0 <= j < |after| ensures BucketOk(keys + [key], after[j]) {
      ItemsAdded(keys, bs, key, j);
    }
    DistinctAdded(bs, key, |keys|);
    CompleteAdded(keys, bs, key);
  }

  // ---- Units --------------------------------------------------------------------------------

  predicate Member(units: seq<seq<nat>>, u: nat, p: nat) {
    u < |units| && p in units[u]
  }

  ghost predicate Ascending(s: seq<nat>) {
    forall k, l :: 0 <= k < l < |s| ==> s[k] < s[l]
  }

  // Units hold every position once, in submission order, and two calls share a unit
  // exactly when they have the same group.
  ghost predicate Somewhere(units: seq<seq<nat>>, p: nat) {
    exists u: nat :: Member(units, u, p)
  }

  ghost predicate UnitsOk(keys: seq<Group>, units: seq<seq<nat>>) {
    && (forall u :: 0 <= u < |units| ==> units[u] != [] && Ascending(units[u]))
    && (forall u: nat, p: nat :: Member(units, u, p) ==> p < |keys|)
    && (forall p :: 0 <= p < |keys| ==> Somewhere(units, p))
    && (forall u: nat, v: nat, p: nat :: Member(units, u, p) && Member(units, v, p) ==> u == v)
    && (forall u: nat, v: nat, p: nat, q: nat :: Member(units, u, p) && Member(units, v, q) && p != q ==>
          (u == v <==> keys[p] == keys[q] && keys[p] != None))
  }

  function Singles(items: seq<nat>): (s: seq<seq<nat>>)
    ensures |s| == |items| && forall i :: 0 <= i < |s| ==> s[i] == [items[i]]
  {
    if items == [] then [] else Singles(items[..|items| - 1]) + [[items[|items| - 1]]]
  }

  function Units(bs: seq<Bucket>): seq<seq<nat>> {
    if bs == [] then []
    else
      var b := bs[|bs| - 1];
      Units(bs[..|bs| - 1]) + (if b.key == None then Singles(b.items) else [b.items])
  }

  method SinglesOf(items: seq<nat>) returns (singles: seq<seq<nat>>)
    ensures singles == Singles(items)
  {
    singles := [];
    for i := 0 to |items|
      invariant singles == Singles(items[..i])
    {
      assert items[..i + 1][..i] == items[..i];
      singles := singles + [[items[i]]];
    }
    assert items[..|items|] == items;
  }

  function Grouped(keys: seq<Group>): seq<Bucket> {
    if keys == [] then [] else Added(Grouped(keys[..|keys| - 1]), keys[|keys| - 1], |keys| - 1)
  }

  lemma {:induction false} GroupedOk(keys: seq<Group>)
    ensures BucketsOk(keys, Grouped(keys))
  {
    if keys != [] {
      GroupedOk(keys[..|keys| - 1]);
      BucketAdded(keys[..|keys| - 1], Grouped(keys[..|keys| - 1]), keys[|keys| - 1]);
      LastRejoin(keys);
    }
  }

  method AppendTo(bs: seq<Bucket>, key: Group, pos: nat) returns (after: seq<Bucket>)
    ensures after == Added(bs, key, pos)
  {
    var i := Find(bs, key);
    if i < |bs| {
      after := bs[i := Bucket(key, bs[i].items + [pos])];
    } else {
      after := bs + [Bucket(key, [pos])];
    }
  }

  method BucketByGroup(keys: seq<Group>) returns (units: seq<seq<nat>>)
    ensures UnitsOk(keys, units)
  {
    var buckets: seq<Bucket> := [];
    for pos := 0 to |keys|
      invariant buckets == Grouped(keys[..pos])
    {
      assert keys[..pos + 1][..pos] == keys[..pos];
      buckets := AppendTo(buckets, keys[pos], pos);
    }
    assert keys[..|keys|] == keys;
    units := Flatten(buckets);
    GroupedOk(keys);
    UnitsAreOk(keys, buckets);
  }

  method Flatten(buckets: seq<Bucket>) returns (units: seq<seq<nat>>)
    ensures units == Units(buckets)
  {
    units := [];
    for k := 0 to |buckets|
      invariant units == Units(buckets[..k])
    {
      assert buckets[..k + 1][..k] == buckets[..k];
      if buckets[k].key == None {
        var singles := SinglesOf(buckets[k].items);
        units := units + singles;
      } else {
        units := units + [buckets[k].items];
      }
    }
    assert buckets[..|buckets|] == buckets;
  }

  // A unit comes from one bucket: it is the bucket, or one position of the bucket of
  // calls without a group.
  predicate From(u: seq<nat>, b: Bucket) {
    if b.key == None then |u| == 1 && u[0] in b.items else u == b.items
  }

  lemma {:induction false} UnitFrom(bs: seq<Bucket>, u: nat) returns (i: nat)
    requires u < |Units(bs)|
    ensures i < |bs| && From(Units(bs)[u], bs[i])
  {
    var n := |bs| - 1;
    if u < |Units(bs[..n])| {
      i := UnitFrom(bs[..n], u);
    } else {
      i := n;
    }
  }

  lemma {:induction false} UnitFor(bs: seq<Bucket>, i: nat, p: nat) returns (u: nat)
    requires i < |bs| && p in bs[i].items
    ensures Member(Units(bs), u, p)
  {
    var n := |bs| - 1;
    var before := Units(bs[..n]);
    if i < n {
      u := UnitFor(bs[..n], i, p);
      assert Units(bs)[u] == before[u];
    } else if bs[n].key == None {
      var k :| 0 <= k < |bs[n].items| && bs[n].items[k] == p;
      u := |before| + k;
      assert Units(bs)[u] == [p];
    } else {
      u := |before|;
      assert Units(bs)[u] == bs[n].items;
    }
  }

  lemma KeyOfUnit(keys: seq<Group>, bs: seq<Bucket>, u: nat, p: nat) returns (i: nat)
    requires BucketsOk(keys, bs) && Member(Units(bs), u, p)
    ensures i < |bs| && From(Units(bs)[u], bs[i]) && p in bs[i].items && p < |keys| && keys[p] == bs[i].key
  {
    i := UnitFrom(bs, u);
    InFrom(Units(bs)[u], bs[i], p);
    KeyInBucket(keys, bs, i, p);
  }

  lemma InFrom(u: seq<nat>, b: Bucket, p: nat)
    requires From(u, b) && p in u
    ensures p in b.items
  {
  }

  lemma UnitsSnoc(bs: seq<Bucket>, n: nat)
    requires n < |bs|
    ensures Units(bs[..n + 1]) == Units(bs[..n]) + (if bs[n].key == None then Singles(bs[n].items) else [bs[n].items])
  {
    assert bs[..n + 1][..n] == bs[..n];
  }

  lemma InLast(bs: seq<Bucket>, n: nat, u: nat, p: nat)
    requires n < |bs| && Member(Units(bs[..n + 1]), u, p) && u >= |Units(bs[..n])|
    ensures p in bs[n].items
    ensures if bs[n].key == None then
              u - |Units(bs[..n])| < |bs[n].items| && bs[n].items[u - |Units(bs[..n])|] == p
            else u == |Units(bs[..n])|
  {
    UnitsSnoc(bs, n);
  }

  lemma KeyInBucket(keys: seq<Group>, bs: seq<Bucket>, i: nat, p: nat)
    requires BucketsOk(keys, bs) && i < |bs| && p in bs[i].items
    ensures p < |keys| && keys[p] == bs[i].key
  {
    assert BucketOk(keys, bs[i]);
  }

  // Whether a unit comes from the last bucket is told by the group of its calls.
  lemma Side(keys: seq<Group>, bs: seq<Bucket>, n: nat, u: nat, p: nat)
    requires BucketsOk(keys, bs) && n < |bs| && Member(Units(bs[..n + 1]), u, p)
    ensures p < |keys| && (u < |Units(bs[..n])| <==> keys[p] != bs[n].key)
  {
    if u < |Units(bs[..n])| {
      UnitsSnoc(bs, n);
      var i := UnitFrom(bs[..n], u);
      InFrom(Units(bs[..n])[u], bs[i], p);
      KeyInBucket(keys, bs, i, p);
      assert bs[i].key != bs[n].key;
    } else {
      InLast(bs, n, u, p);
      KeyInBucket(keys, bs, n, p);
    }
  }

  lemma LastDisjoint(keys: seq<Group>, bs: seq<Bucket>, n: nat, u: nat, v: nat, p: nat)
    requires BucketsOk(keys, bs) && n < |bs| && Member(Units(bs[..n + 1]), u, p) && Member(Units(bs[..n + 1]), v, p)
    requires u >= |Units(bs[..n])| && v >= |Units(bs[..n])|
    ensures u == v
  {
    InLast(bs, n, u, p);
    InLast(bs, n, v, p);
    assert BucketOk(keys, bs[n]);
  }

  lemma DisjointStep(keys: seq<Group>, bs: seq<Bucket>, n: nat, u: nat, v: nat, p: nat)
    requires BucketsOk(keys, bs) && n < |bs| && Member(Units(bs[..n + 1]), u, p) && Member(Units(bs[..n + 1]), v, p)
    ensures u == v || (Member(Units(bs[..n]), u, p) && Member(Units(bs[..n]), v, p))
  {
    Side(keys, bs, n, u, p);
    Side(keys, bs, n, v, p);
    if u < |Units(bs[..n])| {
      InEarlier(bs, n, u, p);
      InEarlier(bs, n, v, p);
    } else {
      LastDisjoint(keys, bs, n, u, v, p);
    }
  }

  ghost predicate Shared(units: seq<seq<nat>>, u: nat, v: nat, p: nat) {
    Member(units, u, p) && Member(units, v, p) && u != v
  }

  lemma NoneShared(bs: seq<Bucket>, u: nat, v: nat, p: nat)
    ensures !Shared(Units(bs[..0]), u, v, p)
  {
    assert bs[..0] == [];
  }

  lemma SharedEarlier(keys: seq<Group>, bs: seq<Bucket>, n: nat, u: nat, v: nat, p: nat)
    requires BucketsOk(keys, bs) && n < |bs| && Shared(Units(bs[..n + 1]), u, v, p)
    ensures Shared(Units(bs[..n]), u, v, p)
  {
    DisjointStep(keys, bs, n, u, v, p);
  }

  // No two units hold the same position.
  lemma {:induction false} UnitsDisjoint(keys: seq<Group>, bs: seq<Bucket>, n: nat, u: nat, v: nat, p: nat)
    requires BucketsOk(keys, bs) && n <= |bs|
    ensures !Shared(Units(bs[..n]), u, v, p)
    decreases n
  {
    if n == 0 {
      NoneShared(bs, u, v, p);
    } else {
      UnitsDisjoint(keys, bs, n - 1, u, v, p);
      StaysUnshared(keys, bs, n - 1, u, v, p);
    }
  }

  lemma StaysUnshared(keys: seq<Group>, bs: seq<Bucket>, n: nat, u: nat, v: nat, p: nat)
    requires BucketsOk(keys, bs) && n < |bs| && !Shared(Units(bs[..n]), u, v, p)
    ensures !Shared(Units(bs[..n + 1]), u, v, p)
  {
    if Shared(Units(bs[..n + 1]), u, v, p) {
      SharedEarlier(keys, bs, n, u, v, p);
    }
  }

  lemma InEarlier(bs: seq<Bucket>, n: nat, u: nat, p: nat)
    requires n < |bs| && Member(Units(bs[..n + 1]), u, p) && u < |Units(bs[..n])|
    ensures Member(Units(bs[..n]), u, p)
  {
    UnitsSnoc(bs, n);
  }

  lemma SameUnit(keys: seq<Group>, bs: seq<Bucket>, u: nat, v: nat, p: nat, q: nat)
    requires BucketsOk(keys, bs) && Member(Units(bs), u, p) && Member(Units(bs), v, q) && p != q
    ensures p < |keys| && q < |keys| && (u == v <==> keys[p] == keys[q] && keys[p] != None)
  {
    var i := KeyOfUnit(keys, bs, u, p);
    var j := KeyOfUnit(keys, bs, v, q);
    if keys[p] == keys[q] && keys[p] != None {
      assert i == j;
      assert bs[..|bs|] == bs;
      assert q in Units(bs)[u];
      UnitsDisjoint(keys, bs, |bs|, u, v, q);
    }
    if u == v {
      Pair(Units(bs)[u], bs[i], p, q);
    }
  }

  lemma Pair(u: seq<nat>, b: Bucket, p: nat, q: nat)
    requires From(u, b) && p in u && q in u && p != q
    ensures b.key != None && q in b.items
  {
  }

  lemma UnitShape(keys: seq<Group>, bs: seq<Bucket>, u: nat)
    requires BucketsOk(keys, bs) && u < |Units(bs)|
    ensures Units(bs)[u] != [] && Ascending(Units(bs)[u])
  {
    var i := UnitFrom(bs, u);
    var p :| 0 <= p < |keys| && keys[p] == bs[i].key;
    assert p in bs[i].items;
  }

  lemma UnitsAreOk(keys: seq<Group>, bs: seq<Bucket>)
    requires BucketsOk(keys, bs)
    ensures UnitsOk(keys, Units(bs))
  {
    var units := Units(bs);
    forall u | 0 <= u < |units| ensures units[u] != [] && Ascending(units[u]) {
      UnitShape(keys, bs, u);
    }
    forall u: nat, p: nat | Member(units, u, p) ensures p < |keys| {
      var _ := KeyOfUnit(keys, bs, u, p);
    }
    forall p | 0 <= p < |keys| ensures Somewhere(units, p) {
      var u := UnitFor(bs, Find(bs, keys[p]), p);
    }
    forall u: nat, v: nat, p: nat | Member(units, u, p) && Member(units, v, p) ensures u == v {
      assert bs[..|bs|] == bs;
      UnitsDisjoint(keys, bs, |bs|, u, v, p);
    }
    forall u: nat, v: nat, p: nat, q: nat | Member(units, u, p) && Member(units, v, q) && p != q
      ensures u == v <==> keys[p] == keys[q] && keys[p] != None
    {
      SameUnit(keys, bs, u, v, p, q);
    }
  }

  // ---- Running the units --------------------------------------------------------------------

  // done counts the finished calls of each unit; a result says what a call returned.
  datatype Run<R> = Run(done: seq<nat>, active: seq<bool>, results: map<nat, R>)

  datatype Step<R> = Begin(unit: nat) | Finish(unit: nat, result: R)

  predicate Sized<R>(units: seq<seq<nat>>, s: Run<R>) {
    |s.done| == |units| && |s.active| == |units|
  }

  predicate Enabled<R>(units: seq<seq<nat>>, s: Run<R>, a: Step<R>) {
    Sized(units, s) &&
    match a
    case Begin(u) => u < |units| && !s.active[u] && s.done[u] < |units[u]|
    case Finish(u, _) => u < |units| && s.active[u] && s.done[u] < |units[u]|
  }

  function Next<R>(units: seq<seq<nat>>, s: Run<R>, a: Step<R>): Run<R>
    requires Enabled(units, s, a)
  {
    match a
    case Begin(u) => s.(active := s.active[u := true])
    case Finish(u, r) =>
      Run(s.done[u := s.done[u] + 1], s.active[u := false], s.results[units[u][s.done[u]] := r])
  }

  ghost predicate Legal<R>(units: seq<seq<nat>>, s: Run<R>, steps: seq<Step<R>>)
    decreases |steps|
  {
    steps == [] || (Enabled(units, s, steps[0]) && Legal(units, Next(units, s, steps[0]), steps[1..]))
  }

  ghost function Exec<R>(units: seq<seq<nat>>, s: Run<R>, steps: seq<Step<R>>): Run<R>
    requires Legal(units, s, steps)
    decreases |steps|
  {
    if steps == [] then s else Exec(units, Next(units, s, steps[0]), steps[1..])
  }

  function Idle<R>(units: seq<seq<nat>>): Run<R> {
    Run(seq(|units|, _ => 0), seq(|units|, _ => false), map[])
  }

  // The call of an active unit that is running.
  predicate Running<R>(units: seq<seq<nat>>, s: Run<R>, p: nat) {
    Sized(units, s) &&
    exists u :: 0 <= u < |units| && s.active[u] && s.done[u] < |units[u]| && units[u][s.done[u]] == p
  }

  // How often a unit was begun, and how often it finished a call.
  ghost function Begins<R>(steps: seq<Step<R>>, u: nat): nat {
    if steps == [] then 0 else (if steps[0].Begin? && steps[0].unit == u then 1 else 0) + Begins(steps[1..], u)
  }

  ghost function Finishes<R>(steps: seq<Step<R>>, u: nat): nat {
    if steps == [] then 0 else (if steps[0].Finish? && steps[0].unit == u then 1 else 0) + Finishes(steps[1..], u)
  }

  lemma {:induction false} CountsFrom<R>(units: seq<seq<nat>>, s: Run<R>, steps: seq<Step<R>>, u: nat)
    requires Sized(units, s) && u < |units| && Legal(units, s, steps)
    ensures var t := Exec(units, s, steps);
            && Sized(units, t) && t.done[u] == s.done[u] + Finishes(steps, u)
            && (if t.active[u] then 1 else 0) + Finishes(steps, u) == (if s.active[u] then 1 else 0) + Begins(steps, u)
    decreases |steps|
  {
    if steps != [] {
      CountsFrom(units, Next(units, s, steps[0]), steps[1..], u);
    }
  }

  // A call is running exactly when its unit was begun once more than it finished and
  // the call is the next one of its unit.
  lemma RunningIff<R>(units: seq<seq<nat>>, steps: seq<Step<R>>, p: nat)
    requires Legal(units, Idle(units), steps)
    ensures Running(units, Exec(units, Idle(units), steps), p) <==>
            exists u: nat :: u < |units| && Begins(steps, u) == Finishes(steps, u) + 1 &&
              Finishes(steps, u) < |units[u]| && units[u][Finishes(steps, u)] == p
  {
    var s := Exec(units, Idle(units), steps);
    forall u: nat | u < |units|
      ensures Sized(units, s) && s.done[u] == Finishes(steps, u)
      ensures s.active[u] <==> Begins(steps, u) == Finishes(steps, u) + 1
    {
      CountsFrom(units, Idle(units), steps, u);
    }
    Steady(units, Idle(units), steps);
  }

  lemma {:induction false} Steady<R>(units: seq<seq<nat>>, s: Run<R>, steps: seq<Step<R>>)
    requires Sized(units, s) && Legal(units, s, steps)
    ensures Sized(units, Exec(units, s, steps))
    decreases |steps|
  {
    if steps != [] {
      Steady(units, Next(units, s, steps[0]), steps[1..]);
    }
  }

  lemma {:induction false} LegalSnoc<R>(units: seq<seq<nat>>, s: Run<R>, steps: seq<Step<R>>, a: Step<R>)
    requires Legal(units, s, steps)
    ensures Legal(units, s, steps + [a]) <==> Enabled(units, Exec(units, s, steps), a)
    decreases |steps|
  {
    if steps == [] {
      assert [a][1..] == [] && (steps + [a]) == [a];
    } else {
      assert (steps + [a])[1..] == steps[1..] + [a];
      LegalSnoc(units, Next(units, s, steps[0]), steps[1..], a);
    }
  }

  // Any unit with calls left may begin one as soon as its earlier ones have finished,
  // whatever the other units do, and only a call that was begun finishes.
  lemma MayGoOnIff<R>(units: seq<seq<nat>>, steps: seq<Step<R>>, u: nat, result: R)
    requires Legal(units, Idle(units), steps)
    ensures Legal(units, Idle(units), steps + [Begin(u)]) <==>
            u < |units| && Begins(steps, u) == Finishes(steps, u) < |units[u]|
    ensures Legal(units, Idle(units), steps + [Finish(u, result)]) <==>
            u < |units| && Finishes(steps, u) < Begins(steps, u) <= |units[u]|
  {
    LegalSnoc(units, Idle(units), steps, Begin(u));
    LegalSnoc(units, Idle(units), steps, Finish(u, result));
    Steady(units, Idle(units), steps);
    if u < |units| {
      CountsFrom(units, Idle(units), steps, u);
    }
  }

  ghost predicate Progress<R>(units: seq<seq<nat>>, s: Run<R>) {
    && Sized(units, s)
    && (forall u :: 0 <= u < |units| ==> s.done[u] <= |units[u]| && (s.active[u] ==> s.done[u] < |units[u]|))
    && (forall u, k :: 0 <= u < |units| && 0 <= k < |units[u]| ==> (units[u][k] in s.results <==> k < s.done[u]))
  }

  lemma StepProgress<R>(keys: seq<Group>, units: seq<seq<nat>>, s: Run<R>, a: Step<R>)
    requires UnitsOk(keys, units) && Progress(units, s) && Enabled(units, s, a)
    ensures Progress(units, Next(units, s, a))
  {
    if a.Finish? {
      var v, t := a.unit, Next(units, s, a);
      var p := units[v][s.done[v]];
      forall u, k | 0 <= u < |units| && 0 <= k < |units[u]| ensures units[u][k] in t.results <==> k < t.done[u] {
        if units[u][k] == p {
          assert Member(units, u, p) && Member(units, v, p);
          SameIndex(units[u], k, s.done[v]);
        }
      }
    }
  }

  lemma SameIndex(s: seq<nat>, k: nat, l: nat)
    requires Ascending(s) && k < |s| && l < |s| && s[k] == s[l]
    ensures k == l
  {
  }

  lemma {:induction false} RunProgress<R>(keys: seq<Group>, units: seq<seq<nat>>, s: Run<R>, steps: seq<Step<R>>)
    requires UnitsOk(keys, units) && Progress(units, s) && Legal(units, s, steps)
    ensures Progress(units, Exec(units, s, steps))
    decreases |steps|
  {
    if steps != [] {
      StepProgress(keys, units, s, steps[0]);
      RunProgress(keys, units, Next(units, s, steps[0]), steps[1..]);
    }
  }

  // However the units interleave, two calls of one group never run at the same time.
  lemma GroupsNeverOverlap<R>(keys: seq<Group>, units: seq<seq<nat>>, steps: seq<Step<R>>, p: nat, q: nat)
    requires UnitsOk(keys, units) && Legal(units, Idle(units), steps)
    requires var s := Exec(units, Idle(units), steps); Running(units, s, p) && Running(units, s, q) && p != q
    ensures p < |keys| && q < |keys| && (keys[p] != keys[q] || keys[p] == None)
  {
    var s := Exec(units, Idle(units), steps);
    var u: nat :| u < |units| && s.active[u] && s.done[u] < |units[u]| && units[u][s.done[u]] == p;
    var v: nat :| v < |units| && s.active[v] && s.done[v] < |units[v]| && units[v][s.done[v]] == q;
    assert Member(units, u, p) && Member(units, v, q);
  }

  lemma AscendingAt(s: seq<nat>, k: nat, l: nat)
    requires Ascending(s) && k < |s| && l < |s| && s[k] < s[l]
    ensures k < l
  {
  }

  // A call of a group runs or has run only when those submitted before it in the
  // group have returned.
  lemma GroupsRunInOrder<R>(keys: seq<Group>, units: seq<seq<nat>>, steps: seq<Step<R>>, p: nat, q: nat)
    requires UnitsOk(keys, units) && Legal(units, Idle(units), steps)
    requires p < q < |keys| && keys[p] == keys[q] && keys[p] != None
    requires var s := Exec(units, Idle(units), steps); Running(units, s, q) || q in s.results
    ensures p in Exec(units, Idle(units), steps).results
  {
    var s := Exec(units, Idle(units), steps);
    RunProgress(keys, units, Idle(units), steps);
    assert Somewhere(units, p) && Somewhere(units, q);
    var u: nat :| Member(units, u, p);
    var v: nat :| Member(units, v, q);
    assert u == v;
    var k: nat :| k < |units[u]| && units[u][k] == p;
    var l: nat :| l < |units[u]| && units[u][l] == q;
    AscendingAt(units[u], k, l);
    if Running(units, s, q) {
      var w: nat :| w < |units| && s.active[w] && s.done[w] < |units[w]| && units[w][s.done[w]] == q;
      assert Member(units, w, q);
      SameIndex(units[u], l, s.done[w]);
    }
  }

  predicate Finished<R>(units: seq<seq<nat>>, s: Run<R>) {
    Sized(units, s) && forall u :: 0 <= u < |units| ==> s.done[u] == |units[u]|
  }

  // Once every unit is done there is one result for every call, and for no other.
  lemma AllReturned<R>(keys: seq<Group>, units: seq<seq<nat>>, steps: seq<Step<R>>)
    requires UnitsOk(keys, units) && Legal(units, Idle(units), steps) && Finished(units, Exec(units, Idle(units), steps))
    ensures forall p :: 0 <= p < |keys| ==> p in Exec(units, Idle(units), steps).results
  {
    var s := Exec(units, Idle(units), steps);
    RunProgress(keys, units, Idle(units), steps);
    forall p | 0 <= p < |keys| ensures p in s.results {
      assert Somewhere(units, p);
      var u: nat :| Member(units, u, p);
      var k: nat :| k < |units[u]| && units[u][k] == p;
    }
  }

  // The records of the round, in submission order whatever the schedule was.
  method Collect<R>(n: nat, results: map<nat, R>) returns (records: seq<R>)
    requires forall p :: 0 <= p < n ==> p in results
    ensures |records| == n && forall p :: 0 <= p < n ==> records[p] == results[p]
  {
    records := [];
    for p := 0 to n
      invariant |records| == p && forall i :: 0 <= i < p ==> records[i] == results[i]
    {
      records := records + [results[p]];
    }
  }

  // When every call returns the same whenever it runs, so does the round.
  ghost predicate Returns<R>(units: seq<seq<nat>>, s: Run<R>, steps: seq<Step<R>>, value: nat -> R)
    requires Legal(units, s, steps)
    decreases |steps|
  {
    steps == [] ||
    ((steps[0].Finish? ==> steps[0].result == value(units[steps[0].unit][s.done[steps[0].unit]])) &&
     Returns(units, Next(units, s, steps[0]), steps[1..], value))
  }

  lemma {:induction false} ResultsAre<R>(units: seq<seq<nat>>, s: Run<R>, steps: seq<Step<R>>, value: nat -> R)
    requires Legal(units, s, steps) && Returns(units, s, steps, value)
    requires forall p :: p in s.results ==> s.results[p] == value(p)
    ensures forall p :: p in Exec(units, s, steps).results ==> Exec(units, s, steps).results[p] == value(p)
    decreases |steps|
  {
    if steps != [] {
      ResultsAre(units, Next(units, s, steps[0]), steps[1..], value);
    }
  }

  // Two schedules of the same calls yield the same records.
  lemma ScheduleIndependent<R>(keys: seq<Group>, units: seq<seq<nat>>, one: seq<Step<R>>, other: seq<Step<R>>,
          value: nat -> R, p: nat)
    requires UnitsOk(keys, units) && Legal(units, Idle(units), one) && Legal(units, Idle(units), other)
    requires Returns(units, Idle(units), one, value) && Returns(units, Idle(units), other, value)
    requires Finished(units, Exec(units, Idle(units), one)) && Finished(units, Exec(units, Idle(units), other)) && p < |keys|
    ensures var a, b := Exec(units, Idle(units), one).results, Exec(units, Idle(units), other).results;
            p in a && p in b && a[p] == b[p]
  {
    AllReturned(keys, units, one);
    AllReturned(keys, units, other);
    ResultsAre(units, Idle(units), one, value);
    ResultsAre(units, Idle(units), other, value);
  }
}
