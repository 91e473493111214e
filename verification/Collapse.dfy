/**
 The migration that leaves one session per user.

 The oldest session of a user is kept; the messages of the others are renumbered to
 follow its messages and moved over, one row after the other, while the uniqueness
 of (session, number) is checked after every row.
 */
module Collapse {

  datatype Option<+T> = None | Some(value: T)

  datatype Session = Session(id: nat, user: string, created: int, lastMessage: Option<int>)

  datatype Message = Message(id: nat, session: nat, seqNo: nat, timestamp: int, body: string)

  // ---- The order of sessions: created, last message with nulls first, id -------------

  predicate EarlierLast(a: Option<int>, b: Option<int>) {
    b.Some? && (a.None? || a.value < b.value)
  }

  predicate Before(a: Session, b: Session) {
    || a.created < b.created
    || (a.created == b.created && EarlierLast(a.lastMessage, b.lastMessage))
    || (a.created == b.created && a.lastMessage == b.lastMessage && a.id < b.id)
  }

  lemma BeforeIsOrder(a: Session, b: Session, c: Session)
    ensures Before(a, b) && Before(b, c) ==> Before(a, c)
    ensures !(Before(a, b) && Before(b, a))
    ensures a.id != b.id ==> Before(a, b) || Before(b, a)
  {
  }

  // The first session of a user.
  function Canonical(ss: seq<Session>, user: string): Option<Session> {
    if ss == [] then None
    else
      var s, c := ss[|ss| - 1], Canonical(ss[..|ss| - 1], user);
      if s.user == user && (c.None? || Before(s, c.value)) then Some(s) else c
  }

  ghost predicate DistinctIds(ss: seq<Session>) {
    forall i, j :: 0 <= i < j < |ss| ==> ss[i].id != ss[j].id
  }

  lemma {:induction false} CanonicalMember(ss: seq<Session>, user: string)
    ensures Canonical(ss, user).Some? ==> Canonical(ss, user).value in ss && Canonical(ss, user).value.user == user
  {
    if ss != [] {
      CanonicalMember(ss[..|ss| - 1], user);
    }
  }

  lemma LastIdDiffers(ss: seq<Session>, t: Session)
    requires DistinctIds(ss) && ss != [] && t in ss[..|ss| - 1]
    ensures t.id != ss[|ss| - 1].id
  {
    var i :| 0 <= i < |ss| - 1 && ss[i] == t;
  }

  lemma LastOrBefore(ss: seq<Session>, t: Session)
    requires t in ss
    ensures t == ss[|ss| - 1] || t in ss[..|ss| - 1]
  {
  }

  // No session of the user comes before the canonical one.
  lemma {:induction false} CanonicalBefore(ss: seq<Session>, t: Session)
    requires DistinctIds(ss) && t in ss
    ensures Canonical(ss, t.user).Some?
    ensures t == Canonical(ss, t.user).value || Before(Canonical(ss, t.user).value, t)
  {
    var init, s := ss[..|ss| - 1], ss[|ss| - 1];
    var c := Canonical(init, t.user);
    LastOrBefore(ss, t);
    CanonicalMember(init, t.user);
    if c.Some? {
      LastIdDiffers(ss, c.value);
      BeforeIsOrder(c.value, s, t);
      BeforeIsOrder(s, c.value, t);
    }
    if t in init {
      CanonicalBefore(init, t);
    }
  }

  lemma CanonicalIsFirst(ss: seq<Session>, user: string)
    requires DistinctIds(ss)
    ensures Canonical(ss, user).Some? ==> Canonical(ss, user).value in ss && Canonical(ss, user).value.user == user
    ensures forall s :: s in ss && s.user == user ==>
              Canonical(ss, user).Some? && (s == Canonical(ss, user).value || Before(Canonical(ss, user).value, s))
  {
    CanonicalMember(ss, user);
    forall s | s in ss && s.user == user
      ensures Canonical(ss, user).Some? && (s == Canonical(ss, user).value || Before(Canonical(ss, user).value, s))
    {
      CanonicalBefore(ss, s);
    }
  }

  // ---- Where a message goes ------------------------------------------------------------

  function SessionOf(ss: seq<Session>, id: nat): Option<Session> {
    if ss == [] then None
    else if ss[|ss| - 1].id == id then Some(ss[|ss| - 1])
    else SessionOf(ss[..|ss| - 1], id)
  }

  lemma {:induction false} SessionOfFinds(ss: seq<Session>, s: Session)
    requires DistinctIds(ss) && s in ss
    ensures SessionOf(ss, s.id) == Some(s)
  {
    var init, last := ss[..|ss| - 1], ss[|ss| - 1];
    assert ss == init + [last];
    if last.id != s.id {
      SessionOfFinds(init, s);
    } else {
      var i :| 0 <= i < |ss| && ss[i] == s;
      assert i < |ss| - 1 ==> ss[i].id != ss[|ss| - 1].id;
    }
  }

  // The session that keeps the messages of the given one.
  function Target(ss: seq<Session>, session: nat): nat {
    var s := SessionOf(ss, session);
    if s.None? then session
    else
      var c := Canonical(ss, s.value.user);
      if c.None? then session else c.value.id
  }

  predicate Moves(ss: seq<Session>, m: Message) {
    Target(ss, m.session) != m.session
  }

  ghost predicate KnownSession(ss: seq<Session>, id: nat) {
    exists s :: s in ss && s.id == id
  }

  // A target keeps its own messages.
  lemma TargetStays(ss: seq<Session>, session: nat)
    requires DistinctIds(ss) && KnownSession(ss, session)
    ensures Target(ss, Target(ss, session)) == Target(ss, session) && KnownSession(ss, Target(ss, session))
  {
    var s :| s in ss && s.id == session;
    SessionOfFinds(ss, s);
    CanonicalIsFirst(ss, s.user);
    SessionOfFinds(ss, Canonical(ss, s.user).value);
  }

  // ---- Renumbering -----------------------------------------------------------------------

  function MaxSeq(ms: seq<Message>, session: nat): nat {
    if ms == [] then 0
    else
      var m, before := ms[|ms| - 1], MaxSeq(ms[..|ms| - 1], session);
      if m.session == session && m.seqNo > before then m.seqNo else before
  }

  lemma {:induction false} MaxSeqBounds(ms: seq<Message>, session: nat)
    ensures forall m :: m in ms && m.session == session ==> m.seqNo <= MaxSeq(ms, session)
  {
    if ms != [] {
      MaxSeqBounds(ms[..|ms| - 1], session);
      assert ms == ms[..|ms| - 1] + [ms[|ms| - 1]];
    }
  }

  predicate NotAfter(a: Message, b: Message) {
    a.timestamp < b.timestamp || (a.timestamp == b.timestamp && a.id <= b.id)
  }

  // The row number of m among the messages that move to its target.
  function Rank(ss: seq<Session>, ms: seq<Message>, m: Message): nat {
    if ms == [] then 0
    else
      var x := ms[|ms| - 1];
      Rank(ss, ms[..|ms| - 1], m) +
      (if Moves(ss, x) && Target(ss, x.session) == Target(ss, m.session) && NotAfter(x, m) then 1 else 0)
  }

  lemma {:induction false} RankGrows(ss: seq<Session>, ms: seq<Message>, a: Message, b: Message)
    requires Target(ss, a.session) == Target(ss, b.session) && NotAfter(a, b)
    ensures Rank(ss, ms, a) <= Rank(ss, ms, b)
    ensures b in ms && Moves(ss, b) && !NotAfter(b, a) ==> Rank(ss, ms, a) < Rank(ss, ms, b)
  {
    if ms != [] {
      RankGrows(ss, ms[..|ms| - 1], a, b);
      assert ms == ms[..|ms| - 1] + [ms[|ms| - 1]];
    }
  }

  function Updated(ss: seq<Session>, ms: seq<Message>, m: Message): Message {
    if !Moves(ss, m) then m
    else
      var t := Target(ss, m.session);
      m.(session := t, seqNo := MaxSeq(ms, t) + Rank(ss, ms, m))
  }

  lemma {:induction false} RankPositive(ss: seq<Session>, ms: seq<Message>, m: Message)
    requires m in ms && Moves(ss, m)
    ensures 1 <= Rank(ss, ms, m)
  {
    var init, x := ms[..|ms| - 1], ms[|ms| - 1];
    assert ms == init + [x];
    if m != x {
      RankPositive(ss, init, m);
    }
  }

  // ---- The constraints of the old schema ---------------------------------------------------

  predicate SamePlace(a: Message, b: Message) {
    a.session == b.session && a.seqNo == b.seqNo
  }

  ghost predicate UniqueSeqs(ms: seq<Message>) {
    forall i, j :: 0 <= i < j < |ms| ==> !SamePlace(ms[i], ms[j])
  }

  ghost predicate Stored(ss: seq<Session>, ms: seq<Message>) {
    && DistinctIds(ss) && UniqueSeqs(ms)
    && (forall i, j :: 0 <= i < j < |ms| ==> ms[i].id != ms[j].id)
    && (forall i :: 0 <= i < |ms| ==> KnownSession(ss, ms[i].session))
  }

  // ---- One row at a time ---------------------------------------------------------------------

  // The table when the rows in done have been updated.
  function Mixed(ss: seq<Session>, ms: seq<Message>, done: set<nat>): (r: seq<Message>)
    ensures |r| == |ms|
    ensures forall i :: 0 <= i < |ms| ==> r[i] == if i in done then Updated(ss, ms, ms[i]) else ms[i]
  {
    seq(|ms|, i requires 0 <= i < |ms| => if i in done then Updated(ss, ms, ms[i]) else ms[i])
  }

  lemma MovedAbove(ss: seq<Session>, ms: seq<Message>, a: Message, b: Message)
    requires Stored(ss, ms) && a in ms && b in ms && Moves(ss, a) && b.session == Target(ss, a.session)
    ensures !Moves(ss, b) && b.seqNo < Updated(ss, ms, a).seqNo
  {
    TargetStays(ss, a.session);
    MaxSeqBounds(ms, b.session);
    RankPositive(ss, ms, a);
  }

  lemma BothMoved(ss: seq<Session>, ms: seq<Message>, a: Message, b: Message)
    requires a in ms && b in ms && a.id != b.id && Moves(ss, a) && Moves(ss, b)
    ensures !SamePlace(Updated(ss, ms, a), Updated(ss, ms, b))
  {
    if Target(ss, a.session) == Target(ss, b.session) {
      if NotAfter(a, b) {
        RankGrows(ss, ms, a, b);
      } else {
        RankGrows(ss, ms, b, a);
      }
    }
  }

  lemma OneMoved(ss: seq<Session>, ms: seq<Message>, a: Message, b: Message)
    requires Stored(ss, ms) && a in ms && b in ms && Moves(ss, a)
    ensures !SamePlace(Updated(ss, ms, a), b)
  {
    if b.session == Target(ss, a.session) {
      MovedAbove(ss, ms, a, b);
    }
  }

  // Whichever rows have been updated so far, no two rows share a place.
  lemma UniqueThroughout(ss: seq<Session>, ms: seq<Message>, done: set<nat>)
    requires Stored(ss, ms)
    ensures UniqueSeqs(Mixed(ss, ms, done))
  {
    var r := Mixed(ss, ms, done);
    forall i, j | 0 <= i < j < |r| ensures !SamePlace(r[i], r[j]) {
      PlacesDiffer(ss, ms, done, i, j);
    }
  }

  lemma PlacesDiffer(ss: seq<Session>, ms: seq<Message>, done: set<nat>, i: nat, j: nat)
    requires Stored(ss, ms) && i < j < |ms|
    ensures !SamePlace(Mixed(ss, ms, done)[i], Mixed(ss, ms, done)[j])
  {
    var a, b := ms[i], ms[j];
    var movedA, movedB := i in done && Moves(ss, a), j in done && Moves(ss, b);
    if movedA && movedB {
      BothMoved(ss, ms, a, b);
    } else if movedA {
      OneMoved(ss, ms, a, b);
    } else if movedB {
      OneMoved(ss, ms, b, a);
    }
  }

  function AllUpdated(ss: seq<Session>, ms: seq<Message>): (r: seq<Message>)
    ensures |r| == |ms| && forall i :: 0 <= i < |ms| ==> r[i] == Updated(ss, ms, ms[i])
  {
    seq(|ms|, i requires 0 <= i < |ms| => Updated(ss, ms, ms[i]))
  }

  // The rows that the first k updates are about.
  function Firsts(order: seq<nat>, k: nat): (s: set<nat>)
    requires k <= |order|
  {
    if k == 0 then {} else Firsts(order, k - 1) + {order[k - 1]}
  }

  lemma NothingMixed(ss: seq<Session>, ms: seq<Message>)
    ensures Mixed(ss, ms, {}) == ms
  {
  }

  lemma MixedOneMore(ss: seq<Session>, ms: seq<Message>, order: seq<nat>, k: nat)
    requires k < |order| && order[k] < |ms|
    ensures Mixed(ss, ms, Firsts(order, k + 1)) == Mixed(ss, ms, Firsts(order, k))[order[k] := Updated(ss, ms, ms[order[k]])]
  {
  }

  lemma {:induction false} FirstsHas(order: seq<nat>, k: nat, j: nat)
    requires j < k <= |order|
    ensures order[j] in Firsts(order, k)
  {
    if j < k - 1 {
      FirstsHas(order, k - 1, j);
    }
  }

  // An order in which all of n rows are updated.
  ghost predicate IsOrder(order: seq<nat>, n: nat) {
    (forall k :: 0 <= k < |order| ==> order[k] < n) && (forall i :: 0 <= i < n ==> i in order)
  }

  lemma AllCovered(order: seq<nat>, n: nat)
    requires IsOrder(order, n)
    ensures forall i :: 0 <= i < n ==> i in Firsts(order, |order|)
  {
    forall i | 0 <= i < n ensures i in Firsts(order, |order|) {
      assert i in order;
      var j :| 0 <= j < |order| && order[j] == i;
      FirstsHas(order, |order|, j);
    }
  }

  lemma AllMixed(ss: seq<Session>, ms: seq<Message>, done: set<nat>)
    requires forall i :: 0 <= i < |ms| ==> i in done
    ensures Mixed(ss, ms, done) == AllUpdated(ss, ms)
  {
  }

  // The table after the first k updates keeps the constraint.
  ghost predicate After(ss: seq<Session>, ms: seq<Message>, order: seq<nat>, k: nat, now: seq<Message>)
    requires k <= |order|
  {
    now == Mixed(ss, ms, Firsts(order, k)) && UniqueSeqs(now)
  }

  lemma NothingDone(ss: seq<Session>, ms: seq<Message>, order: seq<nat>)
    requires Stored(ss, ms)
    ensures After(ss, ms, order, 0, ms)
  {
    NothingMixed(ss, ms);
  }

  lemma OneMoreDone(ss: seq<Session>, ms: seq<Message>, order: seq<nat>, k: nat, now: seq<Message>)
    requires Stored(ss, ms) && k < |order| && IsOrder(order, |ms|) && After(ss, ms, order, k, now)
    ensures order[k] < |now| && After(ss, ms, order, k + 1, now[order[k] := Updated(ss, ms, ms[order[k]])])
  {
    MixedOneMore(ss, ms, order, k);
    UniqueThroughout(ss, ms, Firsts(order, k + 1));
  }

  lemma AllDone(ss: seq<Session>, ms: seq<Message>, order: seq<nat>, now: seq<Message>)
    requires After(ss, ms, order, |order|, now) && IsOrder(order, |ms|)
    ensures now == AllUpdated(ss, ms)
  {
    AllCovered(order, |ms|);
    AllMixed(ss, ms, Firsts(order, |order|));
  }

  function Survivors(all: seq<Session>, ss: seq<Session>): seq<Session> {
    if ss == [] then []
    else
      var s := ss[|ss| - 1];
      Survivors(all, ss[..|ss| - 1]) + (if Canonical(all, s.user) == Some(s) then [s] else [])
  }

  // What deleting sessions leaves of the messages.
  function Cascaded(ms: seq<Message>, left: seq<Session>): seq<Message> {
    if ms == [] then []
    else
      var m := ms[|ms| - 1];
      Cascaded(ms[..|ms| - 1], left) + (if SessionOf(left, m.session).Some? then [m] else [])
  }

  class Database {
    var sessions: seq<Session>
    var messages: seq<Message>

    constructor (sessions: seq<Session>, messages: seq<Message>)
      ensures this.sessions == sessions && this.messages == messages
    {
      this.sessions, this.messages := sessions, messages;
    }

    // The first k of the updates are made.
    ghost predicate Updating(before: seq<Message>, order: seq<nat>, k: nat)
      reads this
    {
      && Stored(sessions, before) && IsOrder(order, |before|)
      && k <= |order| && After(sessions, before, order, k, messages)
    }

    // One row is moved; the constraint is checked behind it.
    method UpdateMessage(before: seq<Message>, order: seq<nat>, k: nat)
      requires Updating(before, order, k) && k < |order|
      modifies this`messages
      ensures Updating(before, order, k + 1)
    {
      OneMoreDone(sessions, before, order, k, messages);
      messages := messages[order[k] := Updated(sessions, before, before[order[k]])];
    }

    // The rows are updated in any order.
    method UpdateMessages(order: seq<nat>)
      requires Stored(sessions, messages) && IsOrder(order, |messages|)
      modifies this`messages
      ensures messages == AllUpdated(sessions, old(messages))
    {
      var before := messages;
      NothingDone(sessions, before, order);
      for k := 0 to |order|
        invariant Updating(before, order, k)
      {
        UpdateMessage(before, order, k);
      }
      AllDone(sessions, before, order, messages);
    }

    method DeleteLosers()
      modifies this
      ensures sessions == Survivors(old(sessions), old(sessions))
      ensures messages == Cascaded(old(messages), sessions)
    {
      var left: seq<Session> := [];
      for i := 0 to |sessions|
        invariant sessions == old(sessions) && messages == old(messages)
        invariant left == Survivors(sessions, sessions[..i])
      {
        assert sessions[..i + 1][..i] == sessions[..i];
        if Canonical(sessions, sessions[i].user) == Some(sessions[i]) {
          left := left + [sessions[i]];
        }
      }
      assert sessions[..|sessions|] == sessions;
      var kept: seq<Message> := [];
      for i := 0 to |messages|
        invariant sessions == old(sessions) && messages == old(messages)
        invariant kept == Cascaded(messages[..i], left)
      {
        assert messages[..i + 1][..i] == messages[..i];
        if SessionOf(left, messages[i].session).Some? {
          kept := kept + [messages[i]];
        }
      }
      assert messages[..|messages|] == messages;
      sessions, messages := left, kept;
    }

    method Upgrade(order: seq<nat>)
      requires Stored(sessions, messages) && IsOrder(order, |messages|)
      modifies this
      ensures sessions == Survivors(old(sessions), old(sessions))
      ensures messages == AllUpdated(old(sessions), old(messages))
    {
      UpdateMessages(order);
      DeleteLosers();
      NothingCascades(old(sessions), old(messages));
    }
  }

  // ---- What the migration leaves ---------------------------------------------------------------

  lemma {:induction false} SurvivorsAre(all: seq<Session>, ss: seq<Session>)
    ensures forall s :: s in Survivors(all, ss) <==> s in ss && Canonical(all, s.user) == Some(s)
  {
    if ss != [] {
      SurvivorsAre(all, ss[..|ss| - 1]);
      assert ss == ss[..|ss| - 1] + [ss[|ss| - 1]];
    }
  }

  lemma {:induction false} SurvivorsDistinct(all: seq<Session>, ss: seq<Session>)
    requires DistinctIds(ss)
    ensures DistinctIds(Survivors(all, ss))
  {
    if ss != [] {
      var init, s := ss[..|ss| - 1], ss[|ss| - 1];
      SurvivorsDistinct(all, init);
      SurvivorsAre(all, init);
      var r := Survivors(all, init);
      forall i | 0 <= i < |r| ensures r[i].id != s.id {
        assert r[i] in init;
        var k :| 0 <= k < |init| && init[k] == r[i];
        assert ss[k].id != ss[|ss| - 1].id;
      }
    }
  }

  // Exactly one session per user is left, the user's oldest.
  lemma OneSessionPerUser(ss: seq<Session>, user: string)
    requires DistinctIds(ss) && exists s :: s in ss && s.user == user
    ensures Canonical(ss, user).Some?
    ensures var left := Survivors(ss, ss); var c := Canonical(ss, user).value;
            && c in left
            && (forall s :: s in left && s.user == user ==> s == c)
            && (forall s :: s in ss && s.user == user ==> s == c || Before(c, s))
  {
    CanonicalIsFirst(ss, user);
    SurvivorsAre(ss, ss);
  }

  lemma TargetSurvives(ss: seq<Session>, session: nat)
    requires DistinctIds(ss) && KnownSession(ss, session)
    ensures SessionOf(Survivors(ss, ss), Target(ss, session)).Some?
  {
    var s :| s in ss && s.id == session;
    SessionOfFinds(ss, s);
    CanonicalIsFirst(ss, s.user);
    SurvivorsAre(ss, ss);
    SurvivorsDistinct(ss, ss);
    SessionOfFinds(Survivors(ss, ss), Canonical(ss, s.user).value);
  }

  lemma {:induction false} CascadeKeeps(ms: seq<Message>, left: seq<Session>)
    requires forall i :: 0 <= i < |ms| ==> SessionOf(left, ms[i].session).Some?
    ensures Cascaded(ms, left) == ms
  {
    if ms != [] {
      CascadeKeeps(ms[..|ms| - 1], left);
    }
  }

  // The cascade deletes exactly the messages whose session is gone.
  lemma {:induction false} CascadeIff(ms: seq<Message>, left: seq<Session>, m: Message)
    ensures m in Cascaded(ms, left) <==> m in ms && exists s :: s in left && s.id == m.session
  {
    if ms != [] {
      var init, last := ms[..|ms| - 1], ms[|ms| - 1];
      assert ms == init + [last];
      CascadeIff(init, left, m);
      SessionOfIff(left, last.session);
    }
  }

  lemma {:induction false} SessionOfIff(ss: seq<Session>, id: nat)
    ensures SessionOf(ss, id).Some? <==> exists s :: s in ss && s.id == id
  {
    if ss != [] {
      var init, last := ss[..|ss| - 1], ss[|ss| - 1];
      assert ss == init + [last];
      SessionOfIff(init, id);
    }
  }

  // Deleting the other sessions deletes no message.
  lemma NothingCascades(ss: seq<Session>, ms: seq<Message>)
    requires Stored(ss, ms)
    ensures Cascaded(AllUpdated(ss, ms), Survivors(ss, ss)) == AllUpdated(ss, ms)
  {
    var after := AllUpdated(ss, ms);
    forall i | 0 <= i < |after| ensures SessionOf(Survivors(ss, ss), after[i].session).Some? {
      TargetSurvives(ss, ms[i].session);
    }
    CascadeKeeps(after, Survivors(ss, ss));
  }

  function FirstN(n: nat): (s: set<nat>)
    ensures forall i: nat :: i in s <==> i < n
  {
    if n == 0 then {} else FirstN(n - 1) + {n - 1}
  }

  lemma UniqueAfter(ss: seq<Session>, ms: seq<Message>)
    requires Stored(ss, ms)
    ensures UniqueSeqs(AllUpdated(ss, ms))
  {
    var done := FirstN(|ms|);
    UniqueThroughout(ss, ms, done);
    assert AllUpdated(ss, ms) == Mixed(ss, ms, done);
  }

  // Messages of the session that is kept stay as they are; those that move follow all
  // of them, in the order of their time and id.
  lemma MovedFollowInOrder(ss: seq<Session>, ms: seq<Message>, i: nat, j: nat)
    requires Stored(ss, ms) && i < |ms| && j < |ms|
    ensures var a, b := AllUpdated(ss, ms)[i], AllUpdated(ss, ms)[j];
            && a.id == ms[i].id && a.timestamp == ms[i].timestamp && a.body == ms[i].body
            && (!Moves(ss, ms[i]) ==> a == ms[i])
            && (!Moves(ss, ms[i]) && Moves(ss, ms[j]) && a.session == b.session ==> a.seqNo < b.seqNo)
            && (Moves(ss, ms[i]) && Moves(ss, ms[j]) && a.session == b.session && i != j ==>
                  (a.seqNo < b.seqNo <==> NotAfter(ms[i], ms[j])))
  {
    if Moves(ss, ms[j]) && !Moves(ss, ms[i]) && ms[i].session == Target(ss, ms[j].session) {
      MovedAbove(ss, ms, ms[j], ms[i]);
    }
    if Moves(ss, ms[i]) && Moves(ss, ms[j]) && i != j && Target(ss, ms[i].session) == Target(ss, ms[j].session) {
      assert ms[i].id != ms[j].id;
      if NotAfter(ms[i], ms[j]) {
        RankGrows(ss, ms, ms[i], ms[j]);
      } else {
        RankGrows(ss, ms, ms[j], ms[i]);
      }
    }
  }

  // Every message ends up with the user it belonged to.
  lemma StaysWithUser(ss: seq<Session>, ms: seq<Message>, i: nat)
    requires Stored(ss, ms) && i < |ms|
    ensures var before, after := SessionOf(ss, ms[i].session), SessionOf(Survivors(ss, ss), AllUpdated(ss, ms)[i].session);
            before.Some? && after.Some? && before.value.user == after.value.user
  {
    assert KnownSession(ss, ms[i].session);
    var s :| s in ss && s.id == ms[i].session;
    SessionOfFinds(ss, s);
    CanonicalIsFirst(ss, s.user);
    SurvivorsAre(ss, ss);
    SurvivorsDistinct(ss, ss);
    SessionOfFinds(Survivors(ss, ss), Canonical(ss, s.user).value);
  }

  // ---- The numbers of the moved messages ---------------------------------------------------------

  // The session belongs to the user of the kept one and is not kept itself.
  ghost predicate LosesTo(ss: seq<Session>, session: nat, kept: Session) {
    session != kept.id && exists s :: s in ss && s.id == session && s.user == kept.user
  }

  lemma MovesIff(ss: seq<Session>, session: nat, kept: Session)
    requires DistinctIds(ss) && Canonical(ss, kept.user) == Some(kept) && KnownSession(ss, session)
    ensures Target(ss, session) == kept.id && Target(ss, session) != session <==> LosesTo(ss, session, kept)
  {
    var s :| s in ss && s.id == session;
    SessionOfFinds(ss, s);
    CanonicalIsFirst(ss, s.user);
    CanonicalIsFirst(ss, kept.user);
    OneById(ss, kept, Canonical(ss, s.user).value);
    forall x | x in ss && x.id == session ensures x == s {
      OneById(ss, x, s);
    }
  }

  lemma OneById(ss: seq<Session>, a: Session, b: Session)
    requires DistinctIds(ss) && a in ss && b in ss
    ensures a.id == b.id ==> a == b
  {
    var i :| 0 <= i < |ss| && ss[i] == a;
    var j :| 0 <= j < |ss| && ss[j] == b;
  }

  // The messages that move to the target of m and do not come after it.
  function Earlier(ss: seq<Session>, ms: seq<Message>, n: nat, m: Message): set<nat>
    requires n <= |ms|
  {
    set j: nat | j < n && GoesBefore(ss, ms[j], m)
  }

  predicate GoesBefore(ss: seq<Session>, x: Message, m: Message) {
    Moves(ss, x) && Target(ss, x.session) == Target(ss, m.session) && NotAfter(x, m)
  }

  lemma RankSnoc(ss: seq<Session>, ms: seq<Message>, n: nat, m: Message)
    requires 0 < n <= |ms|
    ensures Rank(ss, ms[..n], m) == Rank(ss, ms[..n - 1], m) + (if GoesBefore(ss, ms[n - 1], m) then 1 else 0)
  {
    assert ms[..n][..n - 1] == ms[..n - 1];
  }

  lemma EarlierSnoc(ss: seq<Session>, ms: seq<Message>, n: nat, m: Message)
    requires 0 < n <= |ms|
    ensures |Earlier(ss, ms, n, m)| == |Earlier(ss, ms, n - 1, m)| + (if GoesBefore(ss, ms[n - 1], m) then 1 else 0)
  {
    var before := Earlier(ss, ms, n - 1, m);
    assert Earlier(ss, ms, n, m) == if GoesBefore(ss, ms[n - 1], m) then before + {n - 1} else before;
  }

  lemma {:induction false} RankCounts(ss: seq<Session>, ms: seq<Message>, n: nat, m: Message)
    requires n <= |ms|
    ensures Rank(ss, ms[..n], m) == |Earlier(ss, ms, n, m)|
  {
    if n > 0 {
      RankCounts(ss, ms, n - 1, m);
      RankSnoc(ss, ms, n, m);
      EarlierSnoc(ss, ms, n, m);
    }
  }

  lemma {:induction false} MaxSeqIs(ms: seq<Message>, session: nat)
    ensures (exists m :: m in ms && m.session == session && m.seqNo == MaxSeq(ms, session)) || MaxSeq(ms, session) == 0
    ensures forall m :: m in ms && m.session == session ==> m.seqNo <= MaxSeq(ms, session)
  {
    MaxSeqBounds(ms, session);
    if ms != [] {
      var init, last := ms[..|ms| - 1], ms[|ms| - 1];
      MaxSeqIs(init, session);
      assert ms == init + [last] && last in ms;
      if exists m :: m in init && m.session == session && m.seqNo == MaxSeq(init, session) {
        var m :| m in init && m.session == session && m.seqNo == MaxSeq(init, session);
        assert m in ms;
      }
    }
  }

  // The n-th message that a user's other sessions hand over, by time and then id, gets
  // the n-th number behind the highest of the kept session, or from 1 on if it is empty.
  lemma MovedNumber(ss: seq<Session>, ms: seq<Message>, i: nat, kept: Session) returns (last: nat)
    requires Stored(ss, ms) && i < |ms| && Canonical(ss, kept.user) == Some(kept) && LosesTo(ss, ms[i].session, kept)
    ensures (exists m :: m in ms && m.session == kept.id && m.seqNo == last) || last == 0
    ensures forall m :: m in ms && m.session == kept.id ==> m.seqNo <= last
    ensures AllUpdated(ss, ms)[i].session == kept.id
    ensures AllUpdated(ss, ms)[i].seqNo == last + |set j: nat | j < |ms| && LosesTo(ss, ms[j].session, kept)
      && (ms[j].timestamp < ms[i].timestamp || (ms[j].timestamp == ms[i].timestamp && ms[j].id <= ms[i].id))|
  {
    last := MaxSeq(ms, kept.id);
    MaxSeqIs(ms, kept.id);
    MovesIff(ss, ms[i].session, kept);
    RankCounts(ss, ms, |ms|, ms[i]);
    assert ms[..|ms|] == ms;
    SameEarlier(ss, ms, ms[i], kept);
  }

  lemma SameEarlier(ss: seq<Session>, ms: seq<Message>, m: Message, kept: Session)
    requires Stored(ss, ms) && Canonical(ss, kept.user) == Some(kept) && Target(ss, m.session) == kept.id
    ensures Earlier(ss, ms, |ms|, m) == set j: nat | j < |ms| && LosesTo(ss, ms[j].session, kept)
      && (ms[j].timestamp < m.timestamp || (ms[j].timestamp == m.timestamp && ms[j].id <= m.id))
  {
    forall j: nat | j < |ms|
      ensures Moves(ss, ms[j]) && Target(ss, ms[j].session) == kept.id <==> LosesTo(ss, ms[j].session, kept)
    {
      MovesIff(ss, ms[j].session, kept);
    }
  }
}
