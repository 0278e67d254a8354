/** What a round does with the calls of one model response. */
module Dispatch {
  import opened Basics
  import opened History

  const ASK := "request_user_input"
  const ACTIVATE := "activate_journey"
  const READ := "read_skill_resource"

  datatype CallKind = Inactive | Activating | NotExecuted | Asking | Reading | Alias(journey: Id)

  datatype Planned = Planned(call: Content, kind: CallKind)

  /** The most recently used active journey that has the alias; `active` is least recently used first. */
  function Owner(active: seq<Id>, has: (Id, Id) -> bool, alias: Id): (r: Option<Id>)
    ensures r.None? ==> forall j :: 0 <= j < |active| ==> !has(active[j], alias)
    ensures r.Some? ==> exists k :: 0 <= k < |active| && active[k] == r.value && has(active[k], alias)
                                    && forall j :: k < j < |active| ==> !has(active[j], alias)
  {
    if active == [] then None
    else if has(active[|active| - 1], alias) then Some(active[|active| - 1])
    else Owner(active[..|active| - 1], has, alias)
  }

  method OwningJourney(active: seq<Id>, has: (Id, Id) -> bool, alias: Id) returns (r: Option<Id>)
    ensures r == Owner(active, has, alias)
  {
    var i := |active|;
    while i > 0
      invariant 0 <= i <= |active| && Owner(active[..i], has, alias) == Owner(active, has, alias)
    {
      assert active[..i][..i - 1] == active[..i - 1];
      i := i - 1;
      if has(active[i], alias) {
        return Some(active[i]);
      }
    }
    return None;
  }

  predicate HasActivation(calls: seq<Content>)
    requires AllCalls(calls)
  {
    exists k :: 0 <= k < |calls| && calls[k].name == ACTIVATE
  }

  /** One step per call, in order.  An activation is never mixed with a call that is carried out:
      when one call activates, every other is set aside. */
  predicate PlanFits(calls: seq<Content>, resources: bool, owner: Id -> Option<Id>, plan: seq<Planned>)
    requires AllCalls(calls)
  {
    && |plan| == |calls|
    && forall k :: 0 <= k < |plan| ==>
         && plan[k].call == calls[k]
         && (plan[k].kind.Activating? <==> calls[k].name == ACTIVATE)
         && (plan[k].kind.NotExecuted? <==> HasActivation(calls) && calls[k].name != ACTIVATE)
         && (plan[k].kind.Asking? <==> !HasActivation(calls) && calls[k].name == ASK)
         && (plan[k].kind.Reading? <==> !HasActivation(calls) && calls[k].name == READ && resources)
         && (plan[k].kind.Alias? ==> owner(calls[k].name) == Some(plan[k].kind.journey))
         && (plan[k].kind.Inactive? ==> owner(calls[k].name).None?)
  }

  method PlanCalls(calls: seq<Content>, resources: bool, owner: Id -> Option<Id>) returns (plan: seq<Planned>)
    requires AllCalls(calls)
    ensures PlanFits(calls, resources, owner, plan)
  {
    var activating := exists k :: 0 <= k < |calls| && calls[k].name == ACTIVATE;
    plan := [];
    var i := 0;
    while i < |calls|
      invariant 0 <= i <= |calls|
      invariant |plan| == i && forall k :: 0 <= k < i ==> plan[k].call == calls[k]
      invariant forall k :: 0 <= k < i ==> (plan[k].kind.Activating? <==> calls[k].name == ACTIVATE)
      invariant forall k :: 0 <= k < i ==> (plan[k].kind.NotExecuted? <==> activating && calls[k].name != ACTIVATE)
      invariant forall k :: 0 <= k < i ==> (plan[k].kind.Asking? <==> !activating && calls[k].name == ASK)
      invariant forall k ::
        0 <= k < i ==> (plan[k].kind.Reading? <==> !activating && calls[k].name == READ && resources)
      invariant forall k :: 0 <= k < i ==> (plan[k].kind.Alias? ==> owner(calls[k].name) == Some(plan[k].kind.journey))
      invariant forall k :: 0 <= k < i ==> (plan[k].kind.Inactive? ==> owner(calls[k].name).None?)
    {
      var kind := Inactive;
      if calls[i].name == ACTIVATE {
        kind := Activating;
      } else if activating {
        kind := NotExecuted;
      } else if calls[i].name == ASK {
        kind := Asking;
      } else if calls[i].name == READ && resources {
        kind := Reading;
      } else {
        var journey := owner(calls[i].name);
        if journey.Some? {
          kind := Alias(journey.value);
        }
      }
      plan := plan + [Planned(calls[i], kind)];
      i := i + 1;
    }
  }
}
