/**
 The staging table for inbound media: one row per user and URL with a stable handle,
 at most 50 rows per user, receipts evicted before bytes that were not uploaded yet.

 A file is told by its user and handle.
 */
module MediaStaging {
  import opened Messages

  const TTL_SECONDS := 604800
  const MAX_PER_USER := 50

  datatype Staged = Staged(user: string, url: string, handle: string, mime: string, expires: int, receipt: Option<string>)

  type Path = (string, string)

  function PathOf(r: Staged): Path {
    (r.user, r.handle)
  }

  ghost predicate Unique(rows: seq<Staged>) {
    && (forall i, j :: 0 <= i < j < |rows| ==> rows[i].handle != rows[j].handle)
    && (forall i, j :: 0 <= i < j < |rows| ==> rows[i].user != rows[j].user || rows[i].url != rows[j].url)
  }

  // The row of a user and URL.
  function Find(rows: seq<Staged>, user: string, url: string): (r: Option<Staged>)
    ensures r.Some? ==> r.value in rows && r.value.user == user && r.value.url == url
    ensures r.None? ==> forall x :: x in rows ==> x.user != user || x.url != url
  {
    if rows == [] then None
    else
      var last := rows[|rows| - 1];
      assert rows == rows[..|rows| - 1] + [last];
      if last.user == user && last.url == url then Some(last) else Find(rows[..|rows| - 1], user, url)
  }

  // ---- Upsert ------------------------------------------------------------------------

  // An existing row keeps its handle and its receipt.
  function Refreshed(rows: seq<Staged>, user: string, url: string, mime: string, expires: int): (t: seq<Staged>)
    ensures |t| == |rows|
    ensures forall i :: 0 <= i < |rows| ==>
              t[i] == if rows[i].user == user && rows[i].url == url then rows[i].(mime := mime, expires := expires) else rows[i]
  {
    seq(|rows|, i requires 0 <= i < |rows| =>
      if rows[i].user == user && rows[i].url == url then rows[i].(mime := mime, expires := expires) else rows[i])
  }

  function Upserted(rows: seq<Staged>, user: string, url: string, handle: string, mime: string,
          expires: int): seq<Staged> {
    if Find(rows, user, url).Some? then Refreshed(rows, user, url, mime, expires)
    else rows + [Staged(user, url, handle, mime, expires, None)]
  }

  predicate HandleTaken(rows: seq<Staged>, handle: string) {
    exists r :: r in rows && r.handle == handle
  }

  // ---- The cap -------------------------------------------------------------------------

  // What the query for a user's rows returns: each once, soonest expiry first.
  ghost predicate IsListing(rows: seq<Staged>, user: string, listing: seq<Staged>) {
    && (forall r :: r in listing <==> r in rows && r.user == user)
    && (forall i, j :: 0 <= i < j < |listing| ==> listing[i] != listing[j])
    && (forall i, j :: 0 <= i < j < |listing| ==> listing[i].expires <= listing[j].expires)
  }

  function WithReceipt(listing: seq<Staged>, receipt: bool): seq<Staged> {
    if listing == [] then []
    else
      var r := listing[|listing| - 1];
      WithReceipt(listing[..|listing| - 1], receipt) + (if r.receipt.Some? == receipt then [r] else [])
  }

  function Ordered(listing: seq<Staged>): seq<Staged> {
    WithReceipt(listing, true) + WithReceipt(listing, false)
  }

  function Overflow(listing: seq<Staged>): seq<Staged> {
    if |listing| <= MAX_PER_USER || |Ordered(listing)| < |listing| then []
    else Ordered(listing)[..|listing| - MAX_PER_USER]
  }

  function Without(rows: seq<Staged>, evicted: seq<Staged>): (t: seq<Staged>)
    ensures forall r :: r in t <==> r in rows && r !in evicted
  {
    if rows == [] then []
    else
      var last := rows[|rows| - 1];
      assert rows == rows[..|rows| - 1] + [last];
      Without(rows[..|rows| - 1], evicted) + (if last in evicted then [] else [last])
  }

  datatype Outcome = Skipped | Collided | Kept(handle: string)

  class Staging {
    var rows: seq<Staged>
    var files: map<Path, string>

    constructor ()
      ensures rows == [] && files == map[]
    {
      rows, files := [], map[];
    }

    // minted is the handle for a new row; one that another row has stops an insert only.
    method Upsert(user: string, url: string, content: string, mime: string, minted: string, now: int)
      returns (o: Outcome)
      modifies this
      ensures url == "" || content == "" <==> o == Skipped
      ensures o == Collided <==>
        && url != "" && content != ""
        && (forall r :: r in old(rows) ==> r.user != user || r.url != url)
        && (exists r :: r in old(rows) && r.handle == minted)
      ensures !o.Kept? ==> rows == old(rows) && files == old(files)
      ensures o.Kept? ==> rows == Upserted(old(rows), user, url, minted, mime, now + TTL_SECONDS)
      ensures o.Kept? ==> files == old(files)[(user, o.handle) := content]
      ensures o.Kept? ==> o.handle == var r := Find(old(rows), user, url); if r.Some? then r.value.handle else minted
    {
      if url == "" || content == "" {
        return Skipped;
      }
      var existing := Find(rows, user, url);
      if existing.None? && HandleTaken(rows, minted) {
        return Collided;
      }
      var handle := if existing.Some? then existing.value.handle else minted;
      rows := Upserted(rows, user, url, minted, mime, now + TTL_SECONDS);
      files := files[(user, handle) := content];
      o := Kept(handle);
    }

    static method ByReceipt(listing: seq<Staged>) returns (receipts: seq<Staged>, others: seq<Staged>)
      ensures receipts == WithReceipt(listing, true) && others == WithReceipt(listing, false)
    {
      receipts, others := [], [];
      for i := 0 to |listing|
        invariant receipts == WithReceipt(listing[..i], true) && others == WithReceipt(listing[..i], false)
      {
        assert listing[..i + 1][..i] == listing[..i];
        if listing[i].receipt.Some? {
          receipts := receipts + [listing[i]];
        } else {
          others := others + [listing[i]];
        }
      }
      assert listing[..|listing|] == listing;
    }

    method Unlink(evicted: seq<Staged>)
      modifies this`files
      ensures files == old(files) - PathsOf(evicted)
    {
      for k := 0 to |evicted|
        invariant files == old(files) - PathsOf(evicted[..k])
      {
        assert evicted[..k + 1][..k] == evicted[..k];
        files := files - {PathOf(evicted[k])};
      }
      assert evicted[..|evicted|] == evicted;
    }

    method EnforcePerUserCap(user: string, listing: seq<Staged>)
      requires IsListing(rows, user, listing)
      modifies this
      ensures rows == Without(old(rows), Overflow(listing))
      ensures files == old(files) - PathsOf(Overflow(listing))
    {
      OrderedLength(listing);
      if |listing| <= MAX_PER_USER {
        WithoutNone(rows);
        return;
      }
      var receipts, others := ByReceipt(listing);
      var overflow := (receipts + others)[..|listing| - MAX_PER_USER];
      Unlink(overflow);
      rows := Without(rows, overflow);
    }
  }

  function PathsOf(rows: seq<Staged>): set<Path> {
    if rows == [] then {} else PathsOf(rows[..|rows| - 1]) + {PathOf(rows[|rows| - 1])}
  }

  // A file goes only with a row that is evicted.
  lemma {:induction false} PathsAre(rows: seq<Staged>, p: Path)
    ensures p in PathsOf(rows) <==> exists r :: r in rows && PathOf(r) == p
  {
    if rows != [] {
      PathsAre(rows[..|rows| - 1], p);
      assert rows == rows[..|rows| - 1] + [rows[|rows| - 1]];
      assert rows[|rows| - 1] in rows;
    }
  }

  lemma {:induction false} WithoutNone(rows: seq<Staged>)
    ensures Without(rows, []) == rows
  {
    if rows != [] {
      var init, last := rows[..|rows| - 1], rows[|rows| - 1];
      WithoutNone(init);
      assert rows == init + [last];
    }
  }

  lemma {:induction false} OrderedLength(listing: seq<Staged>)
    ensures |WithReceipt(listing, true)| + |WithReceipt(listing, false)| == |listing|
  {
    if listing != [] {
      OrderedLength(listing[..|listing| - 1]);
    }
  }

  // ---- What the cap evicts ---------------------------------------------------------------

  lemma {:induction false} WithReceiptIs(listing: seq<Staged>, receipt: bool)
    ensures forall r :: r in WithReceipt(listing, receipt) <==> r in listing && r.receipt.Some? == receipt
  {
    if listing != [] {
      WithReceiptIs(listing[..|listing| - 1], receipt);
      assert listing == listing[..|listing| - 1] + [listing[|listing| - 1]];
    }
  }

  ghost predicate InOrder(listing: seq<Staged>) {
    && (forall i, j :: 0 <= i < j < |listing| ==> listing[i] != listing[j])
    && (forall i, j :: 0 <= i < j < |listing| ==> listing[i].expires <= listing[j].expires)
  }

  lemma {:induction false} WithReceiptInOrder(listing: seq<Staged>, receipt: bool)
    requires InOrder(listing)
    ensures InOrder(WithReceipt(listing, receipt))
  {
    if listing != [] {
      var init, last := listing[..|listing| - 1], listing[|listing| - 1];
      WithReceiptInOrder(init, receipt);
      WithReceiptIs(init, receipt);
      var r := WithReceipt(init, receipt);
      forall i | 0 <= i < |r| ensures r[i] != last && r[i].expires <= last.expires {
        assert r[i] in init;
      }
    }
  }

  // Receipts come first, and within a class the sooner expiry.
  predicate Sooner(a: Staged, b: Staged) {
    (a.receipt.Some? || b.receipt.None?) && (a.receipt.Some? == b.receipt.Some? ==> a.expires <= b.expires)
  }

  lemma OrderedIs(listing: seq<Staged>)
    requires InOrder(listing)
    ensures |Ordered(listing)| == |listing| && forall r :: r in Ordered(listing) <==> r in listing
    ensures forall i, j :: 0 <= i < j < |listing| ==> Ordered(listing)[i] != Ordered(listing)[j]
    ensures forall i, j :: 0 <= i < j < |listing| ==> Sooner(Ordered(listing)[i], Ordered(listing)[j])
  {
    var a, b, all := WithReceipt(listing, true), WithReceipt(listing, false), Ordered(listing);
    OrderedLength(listing);
    WithReceiptIs(listing, true);
    WithReceiptIs(listing, false);
    WithReceiptInOrder(listing, true);
    WithReceiptInOrder(listing, false);
    forall i, j | 0 <= i < j < |listing| ensures all[i] != all[j] && Sooner(all[i], all[j]) {
      assert i < |a| ==> all[i] == a[i] && all[i] in a;
      assert i >= |a| ==> all[i] == b[i - |a|] && all[i] in b;
      assert j < |a| ==> all[j] == a[j] && all[j] in a;
      assert j >= |a| ==> all[j] == b[j - |a|] && all[j] in b;
    }
  }

  // What is left of the user's rows.
  function Rest(listing: seq<Staged>): seq<Staged> {
    if |listing| <= MAX_PER_USER || |Ordered(listing)| < |listing| then listing
    else Ordered(listing)[|listing| - MAX_PER_USER..]
  }

  lemma OrderedPair(listing: seq<Staged>, i: nat, j: nat)
    requires InOrder(listing) && |Ordered(listing)| == |listing| && i < j < |listing|
    ensures Ordered(listing)[i] != Ordered(listing)[j] && Sooner(Ordered(listing)[i], Ordered(listing)[j])
  {
    OrderedIs(listing);
  }

  lemma OrderedMember(listing: seq<Staged>, j: nat)
    requires InOrder(listing) && |Ordered(listing)| == |listing| && j < |listing|
    ensures Ordered(listing)[j] in listing
  {
    OrderedIs(listing);
  }

  lemma PartedSizes(listing: seq<Staged>)
    ensures |Rest(listing)| == Min(|listing|, MAX_PER_USER) && |Overflow(listing)| == |listing| - |Rest(listing)|
  {
    OrderedLength(listing);
  }

  lemma OutSooner(listing: seq<Staged>, e: Staged, x: Staged)
    requires InOrder(listing) && e in Overflow(listing) && x in Rest(listing)
    ensures e != x && Sooner(e, x)
  {
    OrderedLength(listing);
    var all, k := Ordered(listing), |listing| - MAX_PER_USER;
    var i :| 0 <= i < k && all[i] == e;
    var j :| 0 <= j < MAX_PER_USER && all[k..][j] == x;
    OrderedPair(listing, i, k + j);
  }

  lemma Parted(listing: seq<Staged>, r: Staged)
    requires InOrder(listing)
    ensures r in listing <==> r in Overflow(listing) || r in Rest(listing)
    ensures r in Overflow(listing) ==> r !in Rest(listing)
  {
    OrderedIs(listing);
    var all, k := Ordered(listing), |listing| - MAX_PER_USER;
    if |listing| > MAX_PER_USER {
      assert all == all[..k] + all[k..];
    }
    if r in Overflow(listing) && r in Rest(listing) {
      OutSooner(listing, r, r);
    }
  }

  lemma RestIsLeft(rows: seq<Staged>, user: string, listing: seq<Staged>, r: Staged)
    requires IsListing(rows, user, listing)
    ensures r in Rest(listing) <==> r in Without(rows, Overflow(listing)) && r.user == user
    ensures r in rows && r.user != user ==> r in Without(rows, Overflow(listing))
  {
    Parted(listing, r);
  }

  // After the cap a user has at most 50 rows, and no row more than needed is evicted;
  // bytes that were not uploaded go only when no receipt is left; within each class the
  // rows that expire sooner go; and no other user is affected.
  lemma CapEvictsLeast(rows: seq<Staged>, user: string, listing: seq<Staged>)
    requires IsListing(rows, user, listing)
    ensures forall r :: r in Rest(listing) <==> r in Without(rows, Overflow(listing)) && r.user == user
    ensures forall r :: r in rows && r.user != user ==> r in Without(rows, Overflow(listing))
    ensures |Rest(listing)| == Min(|listing|, 50) && |Overflow(listing)| == |listing| - |Rest(listing)|
    ensures forall e, x :: e in Overflow(listing) && x in Rest(listing) ==> Sooner(e, x)
  {
    forall r ensures r in Rest(listing) <==> r in Without(rows, Overflow(listing)) && r.user == user {
      RestIsLeft(rows, user, listing, r);
    }
    forall r | r in rows && r.user != user ensures r in Without(rows, Overflow(listing)) {
      RestIsLeft(rows, user, listing, r);
    }
    PartedSizes(listing);
    forall e, x | e in Overflow(listing) && x in Rest(listing) ensures Sooner(e, x) {
      OutSooner(listing, e, x);
    }
  }

  function Min(a: int, b: int): int {
    if a < b then a else b
  }

  ghost predicate Latest(listing: seq<Staged>, r: Staged) {
    r in listing && forall x :: x in listing && x != r ==> x.expires < r.expires
  }

  lemma IndexOf(s: seq<Staged>, r: Staged) returns (i: nat)
    requires r in s
    ensures i < |s| && s[i] == r
  {
    i :| 0 <= i < |s| && s[i] == r;
  }

  // In eviction order the latest row is the last of its class.
  lemma LastOfClass(listing: seq<Staged>, r: Staged, i: nat, j: nat)
    requires InOrder(listing) && Latest(listing, r) && |Ordered(listing)| == |listing| && i < |listing| && j < |listing|
    requires Ordered(listing)[i] == r && Ordered(listing)[j].receipt.Some? == r.receipt.Some?
    ensures j <= i
  {
    var all := Ordered(listing);
    OrderedMember(listing, j);
    if i < j {
      OrderedPair(listing, i, j);
    }
  }

  lemma ClassAt(listing: seq<Staged>, j: nat)
    requires |Ordered(listing)| == |listing| && j < |listing|
    ensures Ordered(listing)[j].receipt.Some? <==> j < |WithReceipt(listing, true)|
  {
    var a, b := WithReceipt(listing, true), WithReceipt(listing, false);
    WithReceiptIs(listing, true);
    WithReceiptIs(listing, false);
    if j < |a| {
      assert Ordered(listing)[j] == a[j] && a[j] in a;
    } else {
      assert Ordered(listing)[j] == b[j - |a|] && b[j - |a|] in b;
    }
  }

  lemma LatestAt(listing: seq<Staged>, r: Staged, i: nat)
    requires InOrder(listing) && Latest(listing, r) && |Ordered(listing)| == |listing| && i < |listing|
    requires Ordered(listing)[i] == r
    ensures i == if r.receipt.Some? then |WithReceipt(listing, true)| - 1 else |listing| - 1
  {
    ClassAt(listing, i);
    OrderedLength(listing);
    var j := if r.receipt.Some? then |WithReceipt(listing, true)| - 1 else |listing| - 1;
    ClassAt(listing, j);
    LastOfClass(listing, r, i, j);
  }

  // A row that expires strictly after all others of its user survives the cap if and
  // only if it is no receipt, or fewer than 50 rows of the user are none.
  lemma LatestSurvives(rows: seq<Staged>, user: string, listing: seq<Staged>, r: Staged)
    requires IsListing(rows, user, listing) && Latest(listing, r) && |listing| > 50
    ensures r in Without(rows, Overflow(listing)) <==> r.receipt.None? || |WithReceipt(listing, false)| < 50
  {
    var all, k := Ordered(listing), |listing| - MAX_PER_USER;
    OrderedIs(listing);
    OrderedLength(listing);
    var i := IndexOf(all, r);
    LatestAt(listing, r, i);
    if i < k {
      assert all[..k][i] == r;
    } else {
      forall j | 0 <= j < k ensures all[..k][j] != r {
        assert all[j] != all[i];
      }
    }
  }

  // A row goes before another one stays only if it is a receipt or that is none, and
  // within each class only if it does not expire later.
  lemma EvictedFirst(rows: seq<Staged>, user: string, listing: seq<Staged>, e: Staged, x: Staged)
    requires IsListing(rows, user, listing) && e in rows && x in rows && e.user == user && x.user == user
    requires e !in Without(rows, Overflow(listing)) && x in Without(rows, Overflow(listing))
    ensures x.receipt.Some? ==> e.receipt.Some?
    ensures e.receipt.Some? == x.receipt.Some? ==> e.expires <= x.expires
  {
    RestIsLeft(rows, user, listing, x);
    OutSooner(listing, e, x);
  }

  // After staging there is a row for the user and URL, with its old handle and receipt if
  // there was one and with the minted handle if not, and every other row is as it was.
  lemma UpsertPlaces(rows: seq<Staged>, user: string, url: string, minted: string, mime: string, expires: int)
    ensures var after := Upserted(rows, user, url, minted, mime, expires);
            && (forall r :: r in rows && r.user == user && r.url == url ==> r.(mime := mime, expires := expires) in after)
            && ((forall r :: r in rows ==> r.user != user || r.url != url) ==>
                  Staged(user, url, minted, mime, expires, None) in after)
            && (forall r :: r in rows && (r.user != user || r.url != url) ==> r in after)
            && (forall r :: r in after && (r.user != user || r.url != url) ==> r in rows)
  {
    var after := Upserted(rows, user, url, minted, mime, expires);
    forall r | r in rows
      ensures (if r.user == user && r.url == url then r.(mime := mime, expires := expires) else r) in after
    {
      var i :| 0 <= i < |rows| && rows[i] == r;
      if Find(rows, user, url).Some? {
        assert after[i] == if r.user == user && r.url == url then r.(mime := mime, expires := expires) else r;
      } else {
        assert after[i] == r;
      }
    }
    if Find(rows, user, url).None? {
      assert after[|rows|] == Staged(user, url, minted, mime, expires, None);
    }
  }
}
