/**
 Any run of stagings, caps, evictions, purges, touches and receipts.
 */
module StagingRuns {
  import opened Messages
  import opened MediaStaging

  datatype Step =
    | Stage(user: string, url: string, mime: string, minted: string, now: int)
    | Cap(user: string, listing: seq<Staged>)
    | Evict(user: string, url: string)
    | EvictByHandle(handle: string)
    | Purge(now: int)
    | Touch(handle: string, user: string, now: int)
    | MarkUploaded(handle: string, receipt: string)  // the handle of the row that was picked

  ghost predicate Enabled(rows: seq<Staged>, a: Step) {
    match a
    case Stage(user, url, _, minted, _) => url != "" && (Find(rows, user, url).Some? || !HandleTaken(rows, minted))
    case Cap(user, listing) => IsListing(rows, user, listing)
    case _ => true
  }

  function Change(rows: seq<Staged>, which: Staged -> bool, to: Staged -> Staged): (t: seq<Staged>)
    ensures |t| == |rows|
    ensures forall i :: 0 <= i < |rows| ==> t[i] == if which(rows[i]) then to(rows[i]) else rows[i]
  {
    seq(|rows|, i requires 0 <= i < |rows| => if which(rows[i]) then to(rows[i]) else rows[i])
  }

  function Drop(rows: seq<Staged>, which: Staged -> bool): (t: seq<Staged>)
    ensures forall r :: r in t <==> r in rows && !which(r)
  {
    if rows == [] then []
    else
      var last := rows[|rows| - 1];
      assert rows == rows[..|rows| - 1] + [last];
      Drop(rows[..|rows| - 1], which) + (if which(last) then [] else [last])
  }

  function Next(rows: seq<Staged>, a: Step): seq<Staged> {
    match a
    case Stage(user, url, mime, minted, now) => Upserted(rows, user, url, minted, mime, now + TTL_SECONDS)
    case Cap(_, listing) => Without(rows, Overflow(listing))
    case Evict(user, url) => Drop(rows, (r: Staged) => r.user == user && r.url == url)
    case EvictByHandle(handle) => Drop(rows, (r: Staged) => r.handle == handle)
    case Purge(now) => Drop(rows, (r: Staged) => r.expires <= now)
    case Touch(handle, user, now) =>
      Change(rows, (r: Staged) => r.handle == handle && r.user == user, (r: Staged) => r.(expires := now + TTL_SECONDS))
    case MarkUploaded(handle, receipt) =>
      Change(rows, (r: Staged) => r.handle == handle, (r: Staged) => r.(receipt := Some(receipt)))
  }

  ghost predicate Legal(rows: seq<Staged>, run: seq<Step>)
    decreases |run|
  {
    run == [] || (Enabled(rows, run[0]) && Legal(Next(rows, run[0]), run[1..]))
  }

  ghost function Exec(rows: seq<Staged>, run: seq<Step>): seq<Staged>
    requires Legal(rows, run)
    decreases |run|
  {
    if run == [] then rows else Exec(Next(rows, run[0]), run[1..])
  }

  lemma {:induction false} WithoutUnique(rows: seq<Staged>, out: seq<Staged>)
    requires Unique(rows)
    ensures Unique(Without(rows, out))
  {
    if rows != [] {
      var init, last := rows[..|rows| - 1], rows[|rows| - 1];
      WithoutUnique(init, out);
      AppendUnique(rows, Without(init, out), last);
    }
  }

  lemma AppendUnique(rows: seq<Staged>, t: seq<Staged>, last: Staged)
    requires Unique(rows) && rows != [] && last == rows[|rows| - 1] && Unique(t)
    requires forall r :: r in t ==> r in rows[..|rows| - 1]
    ensures Unique(t + [last])
  {
    var init := rows[..|rows| - 1];
    forall i | 0 <= i < |t| ensures t[i].handle != last.handle && (t[i].user != last.user || t[i].url != last.url) {
      assert t[i] in t;
      var k :| 0 <= k < |init| && init[k] == t[i];
      assert rows[k] == t[i];
    }
  }

  lemma {:induction false} DropUnique(rows: seq<Staged>, which: Staged -> bool)
    requires Unique(rows)
    ensures Unique(Drop(rows, which))
  {
    if rows != [] {
      var init, last := rows[..|rows| - 1], rows[|rows| - 1];
      DropUnique(init, which);
      AppendUnique(rows, Drop(init, which), last);
    }
  }

  lemma UpsertUnique(rows: seq<Staged>, user: string, url: string, minted: string, mime: string, expires: int)
    requires Unique(rows) && (Find(rows, user, url).Some? || !HandleTaken(rows, minted))
    ensures Unique(Upserted(rows, user, url, minted, mime, expires))
  {
    var found := Find(rows, user, url);
    if found.None? {
      forall i | 0 <= i < |rows| ensures rows[i].handle != minted && (rows[i].user != user || rows[i].url != url) {
        assert rows[i] in rows;
      }
    }
  }

  lemma StepUnique(rows: seq<Staged>, a: Step)
    requires Unique(rows) && Enabled(rows, a)
    ensures Unique(Next(rows, a))
  {
    match a
    case Stage(user, url, mime, minted, now) => UpsertUnique(rows, user, url, minted, mime, now + TTL_SECONDS);
    case Cap(_, listing) => WithoutUnique(rows, Overflow(listing));
    case Evict(user, url) => DropUnique(rows, (r: Staged) => r.user == user && r.url == url);
    case EvictByHandle(handle) => DropUnique(rows, (r: Staged) => r.handle == handle);
    case Purge(now) => DropUnique(rows, (r: Staged) => r.expires <= now);
    case Touch(_, _, _) =>
    case MarkUploaded(_, _) =>
  }

  // The handle a row of the user and URL has, if there is one.
  predicate Has(rows: seq<Staged>, user: string, url: string, handle: string) {
    exists r :: r in rows && r.user == user && r.url == url && r.handle == handle
  }

  ghost predicate Present(rows: seq<Staged>, user: string, url: string) {
    exists r :: r in rows && r.user == user && r.url == url
  }

  lemma OneHandle(rows: seq<Staged>, user: string, url: string, h: string, k: string)
    requires Unique(rows) && Has(rows, user, url, h) && Has(rows, user, url, k)
    ensures h == k
  {
    var r :| r in rows && r.user == user && r.url == url && r.handle == h;
    var x :| x in rows && x.user == user && x.url == url && x.handle == k;
    var i :| 0 <= i < |rows| && rows[i] == r;
    var j :| 0 <= j < |rows| && rows[j] == x;
  }

  // Every row of a user and URL comes from one with the same handle, or is new.
  lemma ComesFrom(rows: seq<Staged>, a: Step, r: Staged)
    requires Enabled(rows, a) && r in Next(rows, a) && Present(rows, r.user, r.url)
    ensures Has(rows, r.user, r.url, r.handle)
  {
    var after := Next(rows, a);
    var i :| 0 <= i < |after| && after[i] == r;
    if a.Stage? && Find(rows, a.user, a.url).None? {
      assert i < |rows| ==> rows[i] in rows && rows[i] == r;
    } else if a.Stage? || a.Touch? || a.MarkUploaded? {
      assert rows[i] in rows && rows[i].user == r.user && rows[i].url == r.url && rows[i].handle == r.handle;
    } else {
      assert r in rows;
    }
  }

  lemma StepKeepsHandle(rows: seq<Staged>, a: Step, user: string, url: string, handle: string)
    requires Unique(rows) && Enabled(rows, a) && Has(rows, user, url, handle) && Present(Next(rows, a), user, url)
    ensures Has(Next(rows, a), user, url, handle)
  {
    var r :| r in Next(rows, a) && r.user == user && r.url == url;
    ComesFrom(rows, a, r);
    OneHandle(rows, user, url, handle, r.handle);
  }

  ghost predicate AlwaysPresent(rows: seq<Staged>, run: seq<Step>, user: string, url: string)
    requires Legal(rows, run)
    decreases |run|
  {
    Present(rows, user, url) && (run == [] || AlwaysPresent(Next(rows, run[0]), run[1..], user, url))
  }

  // Over any run of stagings, touches, receipts and evictions, the handle of a user
  // and URL stays the same until its row is evicted.
  lemma {:induction false} HandleIsStable(rows: seq<Staged>, run: seq<Step>, user: string, url: string, handle: string)
    requires Unique(rows) && Legal(rows, run) && AlwaysPresent(rows, run, user, url) && Has(rows, user, url, handle)
    ensures Unique(Exec(rows, run)) && Has(Exec(rows, run), user, url, handle)
    decreases |run|
  {
    if run != [] {
      StepUnique(rows, run[0]);
      StepKeepsHandle(rows, run[0], user, url, handle);
      HandleIsStable(Next(rows, run[0]), run[1..], user, url, handle);
    }
  }

  // ---- What a run leaves of a row ----------------------------------------------------------

  // A staging of the URL or a touch of the handle by its user.
  predicate Renews(a: Step, r: Staged) {
    || (a.Stage? && a.user == r.user && a.url == r.url)
    || (a.Touch? && a.user == r.user && a.handle == r.handle)
  }

  predicate Restages(a: Step, r: Staged) {
    a.Stage? && a.user == r.user && a.url == r.url
  }

  predicate Marks(a: Step, r: Staged) {
    a.MarkUploaded? && a.handle == r.handle
  }

  predicate SameRow(r: Staged, x: Staged) {
    x.user == r.user && x.url == r.url && x.handle == r.handle
  }

  // The row after a step that keeps it: seven days from a renewal, the type it was
  // staged with, the receipt it was marked with.
  ghost predicate Kept(a: Step, r: Staged, x: Staged) {
    && SameRow(r, x)
    && x.expires == (if Renews(a, r) then a.now + 7 * 24 * 3600 else r.expires)
    && x.mime == (if Restages(a, r) then a.mime else r.mime)
    && x.receipt == (if Marks(a, r) then Some(a.receipt) else r.receipt)
  }

  lemma KeptAt(rows: seq<Staged>, a: Step, i: nat)
    requires i < |rows| && (a.Stage? || a.Touch? || a.MarkUploaded?)
    ensures i < |Next(rows, a)| && Kept(a, rows[i], Next(rows, a)[i])
  {
    if a.Stage? && Find(rows, a.user, a.url).None? {
      assert rows[i] in rows;
    }
  }

  lemma OneRow(rows: seq<Staged>, r: Staged, x: Staged)
    requires Unique(rows) && r in rows && x in rows && r.user == x.user && r.url == x.url
    ensures r == x
  {
    var i :| 0 <= i < |rows| && rows[i] == r;
    var j :| 0 <= j < |rows| && rows[j] == x;
  }

  // A step that does not remove a row.
  lemma StepKeeps(rows: seq<Staged>, a: Step, r: Staged) returns (x: Staged)
    requires Unique(rows) && Enabled(rows, a) && r in rows && Present(Next(rows, a), r.user, r.url)
    ensures x in Next(rows, a) && Kept(a, r, x)
  {
    var i :| 0 <= i < |rows| && rows[i] == r;
    if a.Stage? || a.Touch? || a.MarkUploaded? {
      KeptAt(rows, a, i);
      x := Next(rows, a)[i];
    } else {
      x :| x in Next(rows, a) && x.user == r.user && x.url == r.url;
      assert x in rows;
      OneRow(rows, r, x);
    }
  }

  datatype Field = Expiry | Type | Receipt

  predicate Sets(a: Step, f: Field, r: Staged) {
    match f
    case Expiry => Renews(a, r)
    case Type => Restages(a, r)
    case Receipt => Marks(a, r)
  }

  predicate IsSet(a: Step, f: Field, r: Staged, x: Staged)
    requires Sets(a, f, r)
  {
    match f
    case Expiry => x.expires == a.now + 7 * 24 * 3600
    case Type => x.mime == a.mime
    case Receipt => x.receipt == Some(a.receipt)
  }

  predicate IsKept(f: Field, r: Staged, x: Staged) {
    match f
    case Expiry => x.expires == r.expires
    case Type => x.mime == r.mime
    case Receipt => x.receipt == r.receipt
  }

  ghost predicate SetLast(run: seq<Step>, f: Field, r: Staged, k: nat) {
    k < |run| && Sets(run[k], f, r) && forall l :: k < l < |run| ==> !Sets(run[l], f, r)
  }

  ghost predicate NeverSet(run: seq<Step>, f: Field, r: Staged) {
    forall l :: 0 <= l < |run| ==> !Sets(run[l], f, r)
  }

  ghost predicate FieldIs(run: seq<Step>, f: Field, r: Staged, x: Staged) {
    && (NeverSet(run, f, r) ==> IsKept(f, r, x))
    && (forall k: nat :: SetLast(run, f, r, k) ==> IsSet(run[k], f, r, x))
  }

  lemma NeverSetTail(run: seq<Step>, f: Field, r: Staged, y: Staged)
    requires run != [] && SameRow(r, y) && NeverSet(run, f, r)
    ensures !Sets(run[0], f, r) && NeverSet(run[1..], f, y)
  {
    forall l | 0 <= l < |run| - 1 ensures !Sets(run[1..][l], f, y) {
      assert run[1..][l] == run[l + 1];
    }
  }

  lemma SetLastTail(run: seq<Step>, f: Field, r: Staged, y: Staged, k: nat)
    requires run != [] && SameRow(r, y) && SetLast(run, f, r, k)
    ensures if k == 0 then Sets(run[0], f, r) && NeverSet(run[1..], f, y)
            else SetLast(run[1..], f, y, k - 1) && run[1..][k - 1] == run[k]
  {
    forall l | k <= l < |run| - 1 ensures !Sets(run[1..][l], f, y) {
      assert run[1..][l] == run[l + 1];
    }
  }

  lemma FieldStep(run: seq<Step>, f: Field, r: Staged, y: Staged, x: Staged)
    requires run != [] && Kept(run[0], r, y) && SameRow(y, x) && FieldIs(run[1..], f, y, x)
    ensures FieldIs(run, f, r, x)
  {
    if NeverSet(run, f, r) {
      NeverSetTail(run, f, r, y);
    }
    forall k: nat | SetLast(run, f, r, k) ensures IsSet(run[k], f, r, x) {
      SetLastTail(run, f, r, y, k);
    }
  }

  // However long the run, a row that is not removed expires seven days after the last
  // staging of its URL or touch of its handle by its user, has the type of its last
  // staging and the receipt that was marked last.
  lemma {:induction false} RowAfter(rows: seq<Staged>, run: seq<Step>, r: Staged) returns (x: Staged)
    requires Unique(rows) && Legal(rows, run) && r in rows && AlwaysPresent(rows, run, r.user, r.url)
    ensures x in Exec(rows, run) && SameRow(r, x)
    ensures FieldIs(run, Expiry, r, x) && FieldIs(run, Type, r, x) && FieldIs(run, Receipt, r, x)
    decreases |run|
  {
    if run == [] {
      x := r;
    } else {
      StepUnique(rows, run[0]);
      var y := StepKeeps(rows, run[0], r);
      x := RowAfter(Next(rows, run[0]), run[1..], y);
      FieldStep(run, Expiry, r, y, x);
      FieldStep(run, Type, r, y, x);
      FieldStep(run, Receipt, r, y, x);
    }
  }

  // The steps that remove a row: an eviction of it, a purge at or after its expiry, or
  // a cap that finds too many rows of its user before it.
  lemma RemovedIff(rows: seq<Staged>, a: Step, r: Staged)
    requires Unique(rows) && Enabled(rows, a) && r in rows
    ensures !Present(Next(rows, a), r.user, r.url) <==>
            || a == Evict(r.user, r.url)
            || a == EvictByHandle(r.handle)
            || (a.Purge? && r.expires <= a.now)
            || (a.Cap? && r in Overflow(a.listing))
  {
    var i :| 0 <= i < |rows| && rows[i] == r;
    if a.Stage? || a.Touch? || a.MarkUploaded? {
      KeptAt(rows, a, i);
      assert Next(rows, a)[i] in Next(rows, a);
    } else {
      forall x | x in rows && x.user == r.user && x.url == r.url ensures x == r {
        OneRow(rows, r, x);
      }
      if a.EvictByHandle? && a.handle == r.handle {
        assert forall x :: x in Next(rows, a) ==> x in rows;
      }
    }
  }

  // A row appears only by a staging, which needs a URL and, for a new row, a handle
  // nobody has.
  lemma AppearsIff(rows: seq<Staged>, a: Step, user: string, url: string)
    requires Enabled(rows, a) && !Present(rows, user, url)
    ensures Present(Next(rows, a), user, url) <==> a.Stage? && a.user == user && a.url == url
    ensures Present(Next(rows, a), user, url) ==>
              url != "" && Next(rows, a) == rows + [Staged(user, url, a.minted, a.mime, a.now + 7 * 24 * 3600, None)]
  {
  }

  // A staging that would give a second row the same handle is the only one that fails;
  // evictions, purges, touches and receipts may come at any time.
  lemma MayStageIff(rows: seq<Staged>, user: string, url: string, mime: string, minted: string, now: int)
    ensures Enabled(rows, Stage(user, url, mime, minted, now)) <==>
            url != "" && (Present(rows, user, url) || forall r :: r in rows ==> r.handle != minted)
    ensures forall a: Step :: !a.Stage? && !a.Cap? ==> Enabled(rows, a)
  {
  }
}
