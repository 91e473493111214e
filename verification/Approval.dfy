/**
 The approval gate: requests that wait for a user's decision, replies that
 resolve them, ambiguous replies that ask again, timeouts and lost turns.

 `Gate` is the table of pending approvals and the approval objects it refers
 to; `ApprovalGate` is the object that updates it in place.  `GateProtocol` runs
 any number of requests and resolutions against it, cut at their suspension
 points.
 */
module Approval {

  datatype Option<+T> = None | Some(value: T)

  datatype Decision = Approved | Denied | AlwaysAllow | AlwaysAllowAll | AlwaysDeny | Interrupted

  const MAX_APPROVAL_REPROMPTS := 2

  datatype Pending = Pending(prompt: string, decision: Option<Decision>, event: bool, reprompts: nat)

  // Approval objects are told apart by number; pending has at most one per user.
  datatype Gate = Gate(pending: map<string, nat>, objects: map<nat, Pending>)

  ghost predicate Linked(g: Gate) {
    forall u :: u in g.pending ==> g.pending[u] in g.objects
  }

  function Registered(g: Gate, user: string, r: nat, prompt: string): Gate {
    Gate(g.pending[user := r], g.objects[r := Pending(prompt, None, false, 0)])
  }

  function Forgotten(g: Gate, user: string): Gate {
    g.(pending := g.pending - {user})
  }

  function Marked(g: Gate, r: nat, d: Decision): Gate
    requires r in g.objects
  {
    g.(objects := g.objects[r := g.objects[r].(decision := Some(d))])
  }

  function Woken(g: Gate, r: nat): Gate
    requires r in g.objects
  {
    g.(objects := g.objects[r := g.objects[r].(event := true)])
  }

  predicate MayReprompt(g: Gate, user: string) {
    user in g.pending && g.pending[user] in g.objects && g.objects[g.pending[user]].reprompts < MAX_APPROVAL_REPROMPTS
  }

  function Reprompted(g: Gate, user: string): Gate {
    if !MayReprompt(g, user) then g
    else
      var r := g.pending[user];
      g.(objects := g.objects[r := g.objects[r].(reprompts := g.objects[r].reprompts + 1)])
  }

  // The decision a woken request reads; DENIED if none was stored.
  function Outcome(g: Gate, r: nat): Decision
    requires r in g.objects
  {
    if g.objects[r].decision.Some? then g.objects[r].decision.value else Denied
  }

  class ApprovalGate {
    var pending: map<string, nat>
    var objects: map<nat, Pending>

    ghost function View(): Gate
      reads this
    {
      Gate(pending, objects)
    }

    constructor ()
      ensures View() == Gate(map[], map[])
    {
      pending, objects := map[], map[];
    }

    method Register(user: string, r: nat, prompt: string)
      modifies this
      ensures View() == Registered(old(View()), user, r, prompt)
    {
      objects := objects[r := Pending("", None, false, 0)];
      pending := pending[user := r];
      objects := objects[r := objects[r].(prompt := prompt)];
    }

    // A request stops waiting: after a reply woke it, or without one.
    method Conclude(user: string, r: nat, woken: bool) returns (decision: Decision)
      requires r in View().objects
      modifies this
      ensures decision == if woken then Outcome(old(View()), r) else Denied
      ensures View() == Forgotten(old(View()), user)
    {
      decision := if woken && objects[r].decision.Some? then objects[r].decision.value else Denied;
      if user in pending {
        pending := pending - {user};
      }
    }

    // The part of a resolution before its first suspension point.
    method BeginResolve(user: string, d: Decision) returns (target: Option<nat>)
      requires Linked(View())
      modifies this
      ensures user !in old(pending) ==> target == None && View() == old(View())
      ensures user in old(pending) ==> target == Some(old(pending)[user]) && View() == Marked(old(View()), target.value, d)
      ensures Linked(View())
    {
      if user !in pending {
        return None;
      }
      target := Some(pending[user]);
      objects := objects[target.value := objects[target.value].(decision := Some(d))];
    }

    method NoteAmbiguousReply(user: string) returns (prompt: Option<string>)
      requires Linked(View())
      modifies this
      ensures View() == Reprompted(old(View()), user)
      ensures prompt.Some? <==> MayReprompt(old(View()), user)
      ensures prompt.Some? ==> prompt.value == old(objects)[old(pending)[user]].prompt
    {
      if user !in pending || objects[pending[user]].reprompts >= MAX_APPROVAL_REPROMPTS {
        return None;
      }
      var r := pending[user];
      objects := objects[r := objects[r].(reprompts := objects[r].reprompts + 1)];
      prompt := Some(objects[r].prompt);
    }
  }
}
