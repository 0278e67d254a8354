/** The active journeys of a conversation: an ordered set, least recently used first, with a limit that
    pinned journeys may exceed. */
module Journeys {
  import opened Basics

  datatype Status = Fine | ErrInvalid | ErrRefused

  // ---------------------------------------------------------------- subsequences

  predicate Distinct(ids: seq<Id>) {
    forall i, j :: 0 <= i < j < |ids| ==> ids[i] != ids[j]
  }

  predicate Proper(ids: seq<Id>) {
    Distinct(ids) && "" !in ids
  }

  function Without(ids: seq<Id>, gone: seq<Id>): (r: seq<Id>)
    ensures forall x :: x in r <==> x in ids && x !in gone
    ensures |r| <= |ids|
  {
    if ids == [] then []
    else
      var rest := Without(ids[..|ids| - 1], gone);
      if ids[|ids| - 1] in gone then rest else rest + [ids[|ids| - 1]]
  }

  lemma {:induction false} WithoutLast(ids: seq<Id>, x: Id, gone: seq<Id>)
    ensures Without(ids + [x], gone) == if x in gone then Without(ids, gone) else Without(ids, gone) + [x]
  {
    assert (ids + [x])[..|ids|] == ids;
  }

  lemma {:induction false} WithoutDistinct(ids: seq<Id>, gone: seq<Id>)
    requires Distinct(ids)
    ensures Distinct(Without(ids, gone))
  {
    if ids != [] {
      WithoutDistinct(ids[..|ids| - 1], gone);
      assert ids[|ids| - 1] !in ids[..|ids| - 1];
    }
  }

  lemma {:induction false} WithoutNone(ids: seq<Id>, gone: seq<Id>)
    requires forall x :: x in ids ==> x !in gone
    ensures Without(ids, gone) == ids
  {
    if ids != [] {
      WithoutNone(ids[..|ids| - 1], gone);
      assert ids == ids[..|ids| - 1] + [ids[|ids| - 1]];
    }
  }

  lemma {:induction false} WithoutCommutes(ids: seq<Id>, a: seq<Id>, b: seq<Id>)
    ensures Without(Without(ids, a), b) == Without(Without(ids, b), a)
  {
    if ids != [] {
      var rest, x := ids[..|ids| - 1], ids[|ids| - 1];
      WithoutCommutes(rest, a, b);
      WithoutLast(Without(rest, a), x, b);
      WithoutLast(Without(rest, b), x, a);
    }
  }

  lemma {:induction false} WithoutOne(ids: seq<Id>, i: nat)
    requires Distinct(ids) && i < |ids|
    ensures Without(ids, [ids[i]]) == ids[..i] + ids[i + 1..]
  {
    var rest, last := ids[..|ids| - 1], |ids| - 1;
    if i == last {
      WithoutNone(rest, [ids[i]]);
      assert ids[..i] + ids[i + 1..] == rest;
    } else {
      WithoutOne(rest, i);
      assert ids[..i] == rest[..i];
      assert ids[i + 1..] == rest[i + 1..] + [ids[last]];
    }
  }

  lemma {:induction false} WithoutPrefix(ids: seq<Id>, n: nat)
    requires Distinct(ids) && n <= |ids|
    ensures Without(ids, ids[..n]) == ids[n..]
  {
    if n < |ids| {
      var rest, last := ids[..|ids| - 1], |ids| - 1;
      WithoutPrefix(rest, n);
      assert rest[..n] == ids[..n] && rest[n..] + [ids[last]] == ids[n..];
      assert ids[last] !in ids[..n];
    } else if ids != [] {
      assert ids[..n] == ids;
      assert Without(ids, ids) == [] by {
        if Without(ids, ids) != [] {
          assert Without(ids, ids)[0] in Without(ids, ids);
        }
      }
    }
  }

  /** Removing distinct members shortens the list by their number. */
  lemma {:induction false} WithoutLength(ids: seq<Id>, gone: seq<Id>)
    requires Distinct(ids) && Distinct(gone) && forall x :: x in gone ==> x in ids
    ensures |Without(ids, gone)| == |ids| - |gone|
    decreases |gone|
  {
    if gone == [] {
      WithoutNone(ids, gone);
    } else {
      var x, less := gone[|gone| - 1], gone[..|gone| - 1];
      assert x in ids;
      var i :| 0 <= i < |ids| && ids[i] == x;
      WithoutOne(ids, i);
      var mid := Without(ids, [x]);
      WithoutDistinct(ids, [x]);
      assert x !in less;
      WithoutLength(mid, less);
      WithoutTwice(ids, [x], less, gone);
    }
  }

  lemma {:induction false} WithoutTwice(ids: seq<Id>, a: seq<Id>, b: seq<Id>, c: seq<Id>)
    requires forall x :: x in c <==> x in a || x in b
    ensures Without(Without(ids, a), b) == Without(ids, c)
  {
    if ids != [] {
      var rest, x := ids[..|ids| - 1], ids[|ids| - 1];
      WithoutTwice(rest, a, b, c);
      WithoutLast(Without(rest, a), x, b);
    }
  }

  // ---------------------------------------------------------------- the operations

  /** id becomes the most recently used. */
  function Front(ids: seq<Id>, id: Id): seq<Id> {
    Without(ids, [id]) + [id]
  }

  /** The oldest unpinned journeys, n of them or all when there are fewer. */
  function Victims(ids: seq<Id>, pinned: seq<Id>, n: int): seq<Id> {
    var loose := Without(ids, pinned);
    loose[..if n < 0 then 0 else if n > |loose| then |loose| else n]
  }

  datatype Op =
    | Activate(id: Id, limit: int, pinned: seq<Id>)
    | Touch(id: Id)
    | Fit(limit: int, pinned: seq<Id>)
    | Remove(gone: seq<Id>)

  function Verdict(ids: seq<Id>, op: Op): Status {
    match op
    case Activate(id, limit, pinned) =>
      if id == "" || limit < 1 then ErrInvalid
      else if id !in ids && |Victims(ids, pinned, |ids| - (limit - 1))| < |ids| - (limit - 1) then ErrRefused
      else Fine
    case Fit(limit, _) => if limit < 1 then ErrInvalid else Fine
    case _ => Fine
  }

  function Evicted(ids: seq<Id>, op: Op): seq<Id> {
    match op
    case Activate(id, limit, pinned) =>
      if Verdict(ids, op) != Fine || id in ids then [] else Victims(ids, pinned, |ids| - (limit - 1))
    case Fit(limit, pinned) => if Verdict(ids, op) != Fine then [] else Victims(ids, pinned, |ids| - limit)
    case _ => []
  }

  function Apply(ids: seq<Id>, op: Op): seq<Id> {
    match op
    case Activate(id, limit, pinned) => if Verdict(ids, op) != Fine then ids
        else Front(Without(ids, Evicted(ids, op)), id)
    case Touch(id) => if id in ids then Front(ids, id) else ids
    case Fit(limit, pinned) => Without(ids, Evicted(ids, op))
    case Remove(gone) => Without(ids, gone)
  }

  // ---------------------------------------------------------------- eviction

  function PinnedCount(ids: seq<Id>, pinned: seq<Id>): nat {
    |ids| - |Without(ids, pinned)|
  }

  lemma VictimsDistinct(ids: seq<Id>, pinned: seq<Id>, n: int)
    requires Distinct(ids)
    ensures Distinct(Victims(ids, pinned, n)) && forall x :: x in Victims(ids, pinned, n) ==> x in ids && x !in pinned
  {
    WithoutDistinct(ids, pinned);
  }

  lemma {:induction false} VictimsFirst(ids: seq<Id>, pinned: seq<Id>, n: int)
    ensures |Victims(ids, pinned, n)| <= |Without(ids, pinned)|
    ensures Victims(ids, pinned, n) == Without(ids, pinned)[..|Victims(ids, pinned, n)|]
    ensures forall x :: x in Victims(ids, pinned, n) ==> x !in pinned
  {
    hide Without;
  }

  /** Exactly the oldest unpinned journeys go: they come before every unpinned one that stays, and no
      pinned one goes. */
  lemma {:induction false} EvictsOldest(ids: seq<Id>, pinned: seq<Id>, n: int)
    requires Distinct(ids)
    ensures var gone := Victims(ids, pinned, n);
      && Without(ids, pinned) == gone + Without(Without(ids, gone), pinned)
      && forall x :: x in ids && x in pinned ==> x in Without(ids, gone)
  {
    hide Without, Victims, Distinct;
    var loose := Without(ids, pinned);
    var gone := Victims(ids, pinned, n);
    VictimsFirst(ids, pinned, n);
    WithoutDistinct(ids, pinned);
    WithoutPrefix(loose, |gone|);
    WithoutCommutes(ids, gone, pinned);
    assert loose == loose[..|gone|] + loose[|gone|..];
  }

  /** A new journey is refused exactly when `limit` active journeys are pinned; otherwise it is the most
      recently used, the oldest unpinned journeys made room, and no more of them than needed. */
  lemma {:induction false} ActivateNew(ids: seq<Id>, id: Id, limit: int, pinned: seq<Id>)
    requires Proper(ids) && id != "" && limit >= 1 && id !in ids
    ensures var op := Activate(id, limit, pinned); var gone := Evicted(ids, op); var after := Apply(ids, op);
      && (Verdict(ids, op).ErrRefused? <==> PinnedCount(ids, pinned) >= limit)
      && (Verdict(ids, op).ErrRefused? ==> after == ids && gone == [])
      && (Verdict(ids, op).Fine? ==>
            && |after| == (if |ids| + 1 < limit then |ids| + 1 else limit)
            && |gone| == |ids| + 1 - |after|
            && after == Without(ids, gone) + [id]
            && Without(ids, pinned) == gone + Without(Without(ids, gone), pinned)
            && forall x :: x in ids && x in pinned ==> x in after)
  {
    var op := Activate(id, limit, pinned);
    var n := |ids| - (limit - 1);
    var gone := Victims(ids, pinned, n);
    VictimsDistinct(ids, pinned, n);
    EvictsOldest(ids, pinned, n);
    WithoutLength(ids, gone);
    WithoutNone(Without(ids, gone), [id]);
    PinnedFit(ids, pinned, n);
  }

  /** No pinned journey is evicted, by activation or by fitting. */
  lemma PinnedStay(ids: seq<Id>, id: Id, limit: int, pinned: seq<Id>, x: Id)
    requires x in ids && x in pinned
    ensures x in Apply(ids, Activate(id, limit, pinned)) && x in Apply(ids, Fit(limit, pinned))
  {
    hide Without;
  }

  lemma {:induction false} PinnedFit(ids: seq<Id>, pinned: seq<Id>, n: int)
    ensures |Victims(ids, pinned, n)| < n <==> |Without(ids, pinned)| < n
  {
  }

  /** A journey that is already active only moves; nothing is evicted, even above the limit. */
  lemma ActivateAgain(ids: seq<Id>, id: Id, limit: int, pinned: seq<Id>)
    requires Proper(ids) && limit >= 1 && id in ids
    ensures var op := Activate(id, limit, pinned);
      Verdict(ids, op).Fine? && Evicted(ids, op) == [] && Apply(ids, op) == Front(ids, id) && |Apply(ids, op)| == |ids|
  {
    WithoutNone(ids, []);
    WithoutLength(ids, [id]);
  }

  /** Fit evicts the oldest unpinned journeys until the limit or the pinned ones are reached. */
  lemma {:induction false} FitResult(ids: seq<Id>, limit: int, pinned: seq<Id>)
    requires Proper(ids) && limit >= 1
    ensures var op := Fit(limit, pinned); var gone := Evicted(ids, op); var after := Apply(ids, op);
      && after == Without(ids, gone)
      && |after| == (if |ids| <= limit then |ids| else if PinnedCount(ids, pinned) <= limit then limit
          else PinnedCount(ids, pinned))
      && Without(ids, pinned) == gone + Without(after, pinned)
      && forall x :: x in ids && x in pinned ==> x in after
  {
    var gone := Victims(ids, pinned, |ids| - limit);
    VictimsDistinct(ids, pinned, |ids| - limit);
    EvictsOldest(ids, pinned, |ids| - limit);
    WithoutLength(ids, gone);
  }

  // ---------------------------------------------------------------- recency over any run

  /** The uses so far: activations that were not refused, and touches of active journeys. */
  function Uses(ids: seq<Id>, uses: seq<Id>, op: Op): seq<Id> {
    match op
    case Activate(id, _, _) => if Verdict(ids, op).Fine? then uses + [id] else uses
    case Touch(id) => if id in ids then uses + [id] else uses
    case _ => uses
  }

  /** When id was last used; 0 if never. */
  function LastUse(uses: seq<Id>, id: Id): nat {
    if uses == [] then 0 else if uses[|uses| - 1] == id then |uses| else LastUse(uses[..|uses| - 1], id)
  }

  predicate ByRecency(ids: seq<Id>, uses: seq<Id>) {
    && (forall i :: 0 <= i < |ids| ==> LastUse(uses, ids[i]) > 0)
    && (forall i, j :: 0 <= i < j < |ids| ==> LastUse(uses, ids[i]) < LastUse(uses, ids[j]))
  }

  lemma {:induction false} LastUseBound(uses: seq<Id>, id: Id)
    ensures LastUse(uses, id) <= |uses|
  {
    if uses != [] {
      LastUseBound(uses[..|uses| - 1], id);
    }
  }

  lemma {:induction false} UseAgain(uses: seq<Id>, id: Id, other: Id)
    ensures LastUse(uses + [id], other) == if other == id then |uses| + 1 else LastUse(uses, other)
  {
    assert (uses + [id])[..|uses|] == uses;
  }

  lemma {:induction false} WithoutByRecency(ids: seq<Id>, uses: seq<Id>, gone: seq<Id>)
    requires ByRecency(ids, uses)
    ensures ByRecency(Without(ids, gone), uses)
  {
    hide LastUse;
    if ids != [] {
      var rest, x := ids[..|ids| - 1], ids[|ids| - 1];
      WithoutByRecency(rest, uses, gone);
      forall y | y in Without(rest, gone) ensures LastUse(uses, y) < LastUse(uses, x) {
        assert y in rest;
        var i :| 0 <= i < |rest| && rest[i] == y;
        assert ids[i] == y;
      }
    }
  }

  lemma FrontByRecency(ids: seq<Id>, uses: seq<Id>, id: Id)
    requires ByRecency(ids, uses) && Distinct(ids)
    ensures ByRecency(Front(ids, id), uses + [id]) && Distinct(Front(ids, id))
  {
    hide LastUse;
    var rest := Without(ids, [id]);
    WithoutByRecency(ids, uses, [id]);
    WithoutDistinct(ids, [id]);
    forall i | 0 <= i < |rest| ensures LastUse(uses + [id], rest[i]) == LastUse(uses, rest[i]) <= |uses| {
      assert rest[i] in rest;
      UseAgain(uses, id, rest[i]);
      LastUseBound(uses, rest[i]);
    }
    UseAgain(uses, id, id);
  }

  lemma StepKeepsOrder(ids: seq<Id>, uses: seq<Id>, op: Op)
    requires Proper(ids) && ByRecency(ids, uses)
    ensures Proper(Apply(ids, op)) && ByRecency(Apply(ids, op), Uses(ids, uses, op))
  {
    hide ByRecency, Front;
    var kept := Without(ids, Evicted(ids, op));
    WithoutDistinct(ids, Evicted(ids, op));
    WithoutByRecency(ids, uses, Evicted(ids, op));
    match op {
      case Activate(id, _, _) =>
        FrontByRecency(kept, uses, id);
        FrontMembers(kept, id);
      case Touch(id) =>
        FrontByRecency(ids, uses, id);
        FrontMembers(ids, id);
      case Fit(_, _) =>
      case Remove(gone) =>
        WithoutDistinct(ids, gone);
        WithoutByRecency(ids, uses, gone);
    }
  }

  lemma FrontMembers(ids: seq<Id>, id: Id)
    ensures forall x :: x in Front(ids, id) <==> x in ids || x == id
  {
  }

  function After(ids: seq<Id>, ops: seq<Op>): seq<Id>
    decreases |ops|
  {
    if ops == [] then ids else After(Apply(ids, ops[0]), ops[1..])
  }

  function UsesAfter(ids: seq<Id>, uses: seq<Id>, ops: seq<Op>): seq<Id>
    decreases |ops|
  {
    if ops == [] then uses else UsesAfter(Apply(ids, ops[0]), Uses(ids, uses, ops[0]), ops[1..])
  }

  /** Over any run the list has no duplicate and is ordered by last use. */
  lemma {:induction false} OrderedByLastUse(ids: seq<Id>, uses: seq<Id>, ops: seq<Op>)
    requires Proper(ids) && ByRecency(ids, uses)
    ensures Proper(After(ids, ops)) && ByRecency(After(ids, ops), UsesAfter(ids, uses, ops))
    decreases |ops|
  {
    hide Proper, ByRecency, Apply, Uses;
    if ops != [] {
      StepKeepsOrder(ids, uses, ops[0]);
      OrderedByLastUse(Apply(ids, ops[0]), Uses(ids, uses, ops[0]), ops[1..]);
    }
  }

  /** A loaded list counts as its own order of use. */
  lemma {:induction false} LoadedByRecency(ids: seq<Id>)
    requires Distinct(ids)
    ensures ByRecency(ids, ids)
  {
    if ids != [] {
      var rest, x := ids[..|ids| - 1], ids[|ids| - 1];
      LoadedByRecency(rest);
      assert ids == rest + [x];
      forall y ensures LastUse(ids, y) == if y == x then |ids| else LastUse(rest, y) {
        UseAgain(rest, x, y);
      }
      forall y ensures LastUse(rest, y) <= |rest| {
        LastUseBound(rest, y);
      }
      forall i | 0 <= i < |rest| ensures ids[i] == rest[i] != x {
      }
    }
  }

  // ---------------------------------------------------------------- the set in memory

  /** A loaded list without empty IDs and repetitions; the first occurrence stays. */
  function Loaded(ids: seq<Id>): (r: seq<Id>)
    ensures Proper(r) && forall x :: x in r <==> x in ids && x != ""
  {
    if ids == [] then []
    else
      var rest := Loaded(ids[..|ids| - 1]);
      var x := ids[|ids| - 1];
      if x == "" || x in rest then rest else rest + [x]
  }

  lemma {:induction false} LoadedSame(ids: seq<Id>)
    requires Proper(ids)
    ensures Loaded(ids) == ids
  {
    if ids != [] {
      var rest := ids[..|ids| - 1];
      LoadedSame(rest);
      assert ids == rest + [ids[|ids| - 1]] && ids[|ids| - 1] !in rest;
    }
  }

  lemma TouchLast(ids: seq<Id>, i: nat)
    requires Distinct(ids) && i < |ids|
    ensures Front(ids, ids[i]) == ids[..i] + ids[i + 1..] + [ids[i]]
    ensures Front(ids, ids[i]) == ids <==> i == |ids| - 1
  {
    WithoutOne(ids, i);
    if i < |ids| - 1 {
      assert (ids[..i] + ids[i + 1..] + [ids[i]])[i] == ids[i + 1] != ids[i];
    } else {
      assert ids[..i] + ids[i + 1..] + [ids[i]] == ids;
    }
  }

  lemma TouchIs(ids: seq<Id>, i: int, id: Id)
    requires Proper(ids) && (id in ids ==> 0 <= i < |ids| && ids[i] == id) && (id !in ids ==> i == -1)
    ensures i < 0 || i == |ids| - 1 ==> Apply(ids, Op.Touch(id)) == ids
    ensures 0 <= i < |ids| - 1 ==> Apply(ids, Op.Touch(id)) == ids[..i] + ids[i + 1..] + [id] != ids
  {
    hide Without;
    if i >= 0 {
      TouchLast(ids, i);
    }
  }

  lemma {:induction false} ActivateIs(ids: seq<Id>, id: Id, limit: int, pinned: seq<Id>)
    requires Proper(ids)
    ensures var op := Activate(id, limit, pinned);
      if id == "" || limit < 1 then Apply(ids, op) == ids && Evicted(ids, op) == [] && Verdict(ids, op) == ErrInvalid
      else if id in ids then Apply(ids, op) == Front(ids, id) && Evicted(ids, op) == [] && Verdict(ids, op) == Fine
      else
        var gone := Victims(ids, pinned, |ids| - (limit - 1));
        if |gone| < |ids| - (limit - 1) then Apply(ids, op) == ids && Evicted(ids, op) == []
            && Verdict(ids, op) == ErrRefused
        else Apply(ids, op) == Without(ids, gone) + [id] && Evicted(ids, op) == gone && Verdict(ids, op) == Fine
  {
    WithoutNone(ids, []);
    if id !in ids {
      WithoutNone(Without(ids, Victims(ids, pinned, |ids| - (limit - 1))), [id]);
    }
  }

  lemma {:induction false} FitIs(ids: seq<Id>, limit: int, pinned: seq<Id>)
    ensures var op := Op.Fit(limit, pinned);
      if limit < 1 then Apply(ids, op) == ids && Evicted(ids, op) == [] && Verdict(ids, op) == ErrInvalid
      else
        && Evicted(ids, op) == Victims(ids, pinned, |ids| - limit)
        && Apply(ids, op) == Without(ids, Evicted(ids, op)) && Verdict(ids, op) == Fine
  {
    hide Without, Victims;
    WithoutNone(ids, []);
  }

  lemma {:induction false} RemoveIs(ids: seq<Id>, gone: seq<Id>)
    ensures Apply(ids, Op.Remove(gone)) == Without(ids, gone)
  {
  }

  class ActiveSet {
    var ids: seq<Id>

    constructor (given: seq<Id>)
      ensures ids == Loaded(given)
    {
      ids := [];
      new;
      var k := 0;
      while k < |given|
        invariant 0 <= k <= |given| && ids == Loaded(given[..k])
      {
        assert given[..k + 1][..k] == given[..k];
        if !(given[k] == "" || given[k] in ids) {
          ids := ids + [given[k]];
        }
        k := k + 1;
      }
      assert given[..k] == given;
    }

    method Index(id: Id) returns (i: int)
      ensures id in ids ==> 0 <= i < |ids| && ids[i] == id
      ensures id !in ids ==> i == -1
    {
      i := 0;
      while i < |ids|
        invariant 0 <= i <= |ids| && id !in ids[..i]
      {
        if ids[i] == id {
          return;
        }
        i := i + 1;
      }
      i := -1;
    }

    method Remove(gone: seq<Id>) returns (removed: seq<Id>)
      modifies this
      ensures ids == Apply(old(ids), Op.Remove(gone)) && removed == Without(old(ids), ids)
    {
      removed := [];
      var kept := [];
      var k := 0;
      while k < |ids|
        invariant 0 <= k <= |ids| && kept == Without(ids[..k], gone) && ids == old(ids)
        invariant removed == Without(ids[..k], Without(ids, gone))
      {
        assert ids[..k + 1][..k] == ids[..k];
        assert ids[k] in ids;
        if ids[k] in gone {
          removed := removed + [ids[k]];
        } else {
          kept := kept + [ids[k]];
        }
        k := k + 1;
      }
      assert ids[..k] == ids;
      ids := kept;
    }

    method Touch(id: Id) returns (changed: bool)
      requires Proper(ids)
      modifies this
      ensures ids == Apply(old(ids), Op.Touch(id)) && changed == (ids != old(ids))
    {
      hide Without, Distinct, Apply, Front;
      var i := Index(id);
      TouchIs(ids, i, id);
      if i < 0 || i == |ids| - 1 {
        return false;
      }
      ids := ids[..i] + ids[i + 1..] + [id];
      return true;
    }

    method FindVictims(max: int, pinned: seq<Id>) returns (victims: seq<Id>, enough: bool)
      ensures victims == Victims(ids, pinned, |ids| - max)
      ensures enough == (|victims| >= |ids| - max)
    {
      hide Without;
      WithoutNone([], pinned);
      var excess := |ids| - max;
      victims := [];
      var k := 0;
      while k < |ids| && |victims| < excess
        invariant 0 <= k <= |ids| && victims == Without(ids[..k], pinned)
        invariant 0 < excess ==> |victims| <= excess
        invariant excess <= 0 ==> k == 0
      {
        assert ids[..k + 1] == ids[..k] + [ids[k]];
        WithoutLast(ids[..k], ids[k], pinned);
        if ids[k] !in pinned {
          victims := victims + [ids[k]];
        }
        k := k + 1;
      }
      enough := |victims| >= excess;
      WithoutGrows(ids, k, pinned);
      assert ids[..|ids|] == ids;
    }

    /** Makes id the most recently used journey, evicting old unpinned ones if the set is full. */
    method Activate(id: Id, limit: int, pinned: seq<Id>) returns (evicted: seq<Id>, err: Status)
      requires Proper(ids)
      modifies this
      ensures ids == Apply(old(ids), Op.Activate(id, limit, pinned))
      ensures evicted == Evicted(old(ids), Op.Activate(id, limit, pinned))
        && err == Verdict(old(ids), Op.Activate(id, limit, pinned))
    {
      hide Without, Distinct, Victims, Apply, Evicted, Verdict, Front;
      ActivateIs(ids, id, limit, pinned);
      if id == "" || limit < 1 {
        return [], ErrInvalid;
      }
      var i := Index(id);
      if i >= 0 {
        TouchLast(ids, i);
        ids := ids[..i] + ids[i + 1..] + [id];
        return [], Fine;
      }
      var enough;
      evicted, enough := FindVictims(limit - 1, pinned);
      if !enough {
        return [], ErrRefused;
      }
      RemoveIs(ids, evicted);
      var removed := Remove(evicted);
      ids := ids + [id];
      err := Fine;
    }

    method Fit(limit: int, pinned: seq<Id>) returns (evicted: seq<Id>, err: Status)
      requires Proper(ids)
      modifies this
      ensures ids == Apply(old(ids), Op.Fit(limit, pinned))
      ensures evicted == Evicted(old(ids), Op.Fit(limit, pinned)) && err == Verdict(old(ids), Op.Fit(limit, pinned))
    {
      hide Without, Distinct, Victims, Apply, Evicted, Verdict;
      FitIs(ids, limit, pinned);
      if limit < 1 {
        return [], ErrInvalid;
      }
      var enough;
      evicted, enough := FindVictims(limit, pinned);
      RemoveIs(ids, evicted);
      var removed := Remove(evicted);
      err := Fine;
    }
  }

  lemma {:induction false} WithoutGrows(ids: seq<Id>, k: nat, gone: seq<Id>)
    requires k <= |ids|
    ensures |Without(ids[..k], gone)| <= |Without(ids, gone)|
      && Without(ids, gone)[..|Without(ids[..k], gone)|] == Without(ids[..k], gone)
    decreases |ids|
  {
    if k < |ids| {
      var rest := ids[..|ids| - 1];
      assert rest[..k] == ids[..k];
      WithoutGrows(rest, k, gone);
    } else {
      assert ids[..k] == ids;
    }
  }
}
