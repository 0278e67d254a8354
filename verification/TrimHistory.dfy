/** Trimming a history to a token budget: whole turns, oldest first, never a call without its result. */
module TrimHistory {
  import opened Basics
  import opened History

  // ---------------------------------------------------------------- what may be dropped

  /** The content at (i, k) is the result of a call made in turn t or before, and itself lies after turn t. */
  predicate Spans(h: seq<Message>, i: nat, k: nat, t: nat)
    requires i < |h| && k < |h[i].contents|
  {
    var c := h[i].contents[k];
    && c.FunctionResult? && c.id in Last(h, Pos(i, k))
    && Last(h, Pos(i, k))[c.id].msg < |h|
    && TurnOf(h, Last(h, Pos(i, k))[c.id].msg) <= t < TurnOf(h, i)
  }

  /** Turn t and turn t + 1 must stay together: some call and its result lie on either side. */
  ghost predicate Bound(h: seq<Message>, t: nat) {
    exists i: nat, k: nat :: i < |h| && k < |h[i].contents| && Spans(h, i, k, t)
  }

  /** Turns a to b belong to one unit. */
  ghost predicate Together(h: seq<Message>, a: nat, b: nat) {
    forall t :: a <= t < b ==> Bound(h, t)
  }

  ghost predicate SameUnit(h: seq<Message>, a: nat, b: nat) {
    Together(h, a, b) && Together(h, b, a)
  }

  /** Turn t holds a protected call. */
  ghost predicate Guarded(h: seq<Message>, protected: set<Id>, t: nat) {
    exists i: nat, k: nat :: i < |h| && k < |h[i].contents| && Protects(h, protected, i, k, t)
  }

  predicate Protects(h: seq<Message>, protected: set<Id>, i: nat, k: nat, t: nat)
    requires i < |h| && k < |h[i].contents|
  {
    h[i].contents[k].FunctionCall? && h[i].contents[k].id in protected && TurnOf(h, i) == t
  }

  /** The latest turn, and every turn with a protected call, stays. */
  ghost predicate KeptTurn(h: seq<Message>, protected: set<Id>, t: nat) {
    t == Turns(h) - 1 || Guarded(h, protected, t)
  }

  /** No turn of t's unit has to stay. */
  ghost predicate Loose(h: seq<Message>, protected: set<Id>, t: nat) {
    forall u: nat :: u < Turns(h) && SameUnit(h, t, u) ==> !KeptTurn(h, protected, u)
  }

  /** No unit reaches across s. */
  ghost predicate Boundary(h: seq<Message>, s: nat) {
    s <= Turns(h) && (0 < s < Turns(h) ==> !Bound(h, s - 1))
  }

  ghost predicate Gone(h: seq<Message>, protected: set<Id>, s: nat, i: nat)
    requires i < |h|
  {
    TurnOf(h, i) < s && Loose(h, protected, TurnOf(h, i))
  }

  /** The first n messages without those of droppable units that start before turn s. */
  ghost function Without(h: seq<Message>, protected: set<Id>, s: nat, n: nat): seq<Message>
    requires n <= |h|
  {
    if n == 0 then []
    else Without(h, protected, s, n - 1) + (if Gone(h, protected, s, n - 1) then [] else [h[n - 1]])
  }

  ghost function Rest(h: seq<Message>, protected: set<Id>, s: nat): seq<Message> {
    Without(h, protected, s, |h|)
  }

  ghost function GoneMessages(h: seq<Message>, protected: set<Id>, s: nat, n: nat): nat
    requires n <= |h|
  {
    if n == 0 then 0 else GoneMessages(h, protected, s, n - 1) + (if Gone(h, protected, s, n - 1) then 1 else 0)
  }

  ghost function GoneTurns(h: seq<Message>, protected: set<Id>, s: nat): nat {
    if s == 0 then 0 else GoneTurns(h, protected, s - 1) + (if Loose(h, protected, s - 1) then 1 else 0)
  }

  // ---------------------------------------------------------------- what a trimmed history keeps

  lemma {:induction false} CountsAddUp(h: seq<Message>, protected: set<Id>, s: nat, n: nat)
    requires n <= |h|
    ensures |Without(h, protected, s, n)| + GoneMessages(h, protected, s, n) == n
  {
    if n > 0 {
      CountsAddUp(h, protected, s, n - 1);
    }
  }

  /** A turn that must stay is never dropped. */
  lemma {:induction false} KeptStays(h: seq<Message>, protected: set<Id>, s: nat, i: nat)
    requires i < |h| && KeptTurn(h, protected, TurnOf(h, i))
    ensures !Gone(h, protected, s, i)
  {
    TurnsGrow(h, i, i);
    assert SameUnit(h, TurnOf(h, i), TurnOf(h, i));
  }

  /** The message of the most recent call of an ID is an earlier message. */
  lemma {:induction false} LastBefore(h: seq<Message>, i: nat, k: nat, id: Id)
    requires i < |h| && k <= |h[i].contents| && id in Last(h, Pos(i, k))
    ensures Last(h, Pos(i, k))[id].msg <= i && IsCall(h, Last(h, Pos(i, k))[id], id)
  {
    LastIsLatest(h, Pos(i, k), id);
  }

  /** Turns of one unit are droppable together. */
  lemma LooseTogether(h: seq<Message>, protected: set<Id>, a: nat, b: nat)
    requires a <= b && Together(h, a, b)
    ensures Loose(h, protected, a) <==> Loose(h, protected, b)
  {
    forall u: nat | u < Turns(h) ensures SameUnit(h, a, u) <==> SameUnit(h, b, u) {
      SameUnitShift(h, a, b, u);
    }
  }

  lemma SameUnitShift(h: seq<Message>, a: nat, b: nat, u: nat)
    requires a <= b && Together(h, a, b)
    ensures SameUnit(h, a, u) <==> SameUnit(h, b, u)
  {
  }

  /** No boundary lies inside a unit. */
  lemma OneSide(h: seq<Message>, s: nat, a: nat, b: nat)
    requires a <= b < Turns(h) && Together(h, a, b) && Boundary(h, s)
    ensures a < s <==> b < s
  {
  }

  /** A call and its result are dropped together or kept together. */
  lemma {:induction false} NeverSplit(h: seq<Message>, protected: set<Id>, s: nat, i: nat, k: nat, id: Id)
    requires Boundary(h, s) && i < |h| && k < |h[i].contents| && h[i].contents[k] == FunctionResult(id)
      && id in Last(h, Pos(i, k))
    ensures var j := Last(h, Pos(i, k))[id].msg; j <= i && (Gone(h, protected, s, j) <==> Gone(h, protected, s, i))
  {
    LastBefore(h, i, k, id);
    var j := Last(h, Pos(i, k))[id].msg;
    var a, b := TurnOf(h, j), TurnOf(h, i);
    TurnsGrow(h, j, i);
    forall t | a <= t < b ensures Bound(h, t) {
      assert Spans(h, i, k, t);
    }
    LooseTogether(h, protected, a, b);
    OneSide(h, s, a, b);
  }

  // ---------------------------------------------------------------- trimming keeps a history closed

  /** The open calls before position p, with the position of each. */
  function Track(h: seq<Message>, p: Pos): Option<map<Id, Pos>>
    requires At(h, p)
    decreases p.msg, p.part
  {
    if p.part > 0 then
      var before := Track(h, Pos(p.msg, p.part - 1));
      if before.None? then None
      else match h[p.msg].contents[p.part - 1]
        case FunctionCall(id, _, _) => if id in before.value then None
            else Some(before.value[id := Pos(p.msg, p.part - 1)])
        case FunctionResult(id) => if id in before.value then Some(before.value - {id}) else None
        case Text(_) => before
    else if p.msg > 0 then Track(h, Pos(p.msg - 1, |h[p.msg - 1].contents|))
    else Some(map[])
  }

  /** What Open says, read message by message up to p. */
  function OpenAt(h: seq<Message>, p: Pos): Option<set<Id>>
    requires At(h, p)
  {
    var before := Open(h[..p.msg]);
    if before.None? || p.msg == |h| then before else ReadAll(before.value, h[p.msg].contents[..p.part])
  }

  lemma {:induction false} TrackIsOpen(h: seq<Message>, p: Pos)
    requires At(h, p)
    ensures Track(h, p).Some? <==> OpenAt(h, p).Some?
    ensures Track(h, p).Some? ==> Track(h, p).value.Keys == OpenAt(h, p).value
    decreases p.msg, p.part
  {
    if p.part > 0 {
      TrackIsOpen(h, Pos(p.msg, p.part - 1));
      assert h[p.msg].contents[..p.part][..p.part - 1] == h[p.msg].contents[..p.part - 1];
    } else if p.msg > 0 {
      var last := p.msg - 1;
      TrackIsOpen(h, Pos(last, |h[last].contents|));
      assert h[..p.msg][..last] == h[..last];
      assert h[last].contents[..|h[last].contents|] == h[last].contents;
    }
  }

  lemma {:induction false} TrackIsLast(h: seq<Message>, p: Pos, id: Id)
    requires At(h, p) && Track(h, p).Some? && id in Track(h, p).value
    ensures id in Last(h, p) && Last(h, p)[id] == Track(h, p).value[id] && Last(h, p)[id].msg < |h|
    decreases p.msg, p.part
  {
    if p.part > 0 {
      var c := h[p.msg].contents[p.part - 1];
      if !(c.FunctionCall? && c.id == id) {
        TrackIsLast(h, Pos(p.msg, p.part - 1), id);
      }
    } else if p.msg > 0 {
      TrackIsLast(h, Pos(p.msg - 1, |h[p.msg - 1].contents|), id);
    }
  }

  /** The open calls whose messages stay. */
  ghost predicate Survive(h: seq<Message>, protected: set<Id>, s: nat, open: map<Id, Pos>, kept: Option<set<Id>>) {
    && (forall id :: id in open ==> open[id].msg < |h|)
    && kept.Some? && (forall id :: id in kept.value <==> id in open && !Gone(h, protected, s, open[id].msg))
  }

  /** The calls open in the trimmed history when reading reaches p in the full one. */
  ghost function TrimmedAt(h: seq<Message>, protected: set<Id>, s: nat, p: Pos): Option<set<Id>>
    requires At(h, p)
  {
    var before := Open(Without(h, protected, s, p.msg));
    if before.None? || p.msg == |h| || Gone(h, protected, s, p.msg) then before
    else ReadAll(before.value, h[p.msg].contents[..p.part])
  }

  /** One content keeps the correspondence: a call and its result share their fate. */
  lemma {:induction false} ContentSurvives(h: seq<Message>, protected: set<Id>, s: nat, p: Pos)
    requires p.part > 0 && At(h, p) && Boundary(h, s) && Track(h, p).Some?
    requires var q := Pos(p.msg, p.part - 1); Survive(h, protected, s, Track(h, q).value, TrimmedAt(h, protected, s, q))
    ensures Survive(h, protected, s, Track(h, p).value, TrimmedAt(h, protected, s, p))
  {
    hide Gone, Boundary, Last, Open, Without;
    var q := Pos(p.msg, p.part - 1);
    var c := h[p.msg].contents[p.part - 1];
    assert h[p.msg].contents[..p.part][..p.part - 1] == h[p.msg].contents[..p.part - 1];
    if c.FunctionResult? {
      TrackIsLast(h, q, c.id);
      NeverSplit(h, protected, s, p.msg, p.part - 1, c.id);
    }
  }

  lemma MessageSurvives(h: seq<Message>, protected: set<Id>, s: nat, i: nat)
    requires i < |h|
    ensures TrimmedAt(h, protected, s, Pos(i + 1, 0)) == TrimmedAt(h, protected, s, Pos(i, |h[i].contents|))
  {
    hide Gone;
    var kept := Without(h, protected, s, i);
    assert h[i].contents[..|h[i].contents|] == h[i].contents;
    OpenAppend(kept, h[i]);
    assert kept + [] == kept;
    assert i + 1 < |h| ==> h[i + 1].contents[..0] == [];
  }

  lemma {:induction false} TrimTracks(h: seq<Message>, protected: set<Id>, s: nat, p: Pos)
    requires At(h, p) && Boundary(h, s) && Track(h, p).Some?
    ensures Survive(h, protected, s, Track(h, p).value, TrimmedAt(h, protected, s, p))
    decreases p.msg, p.part
  {
    hide Gone, Boundary, TrimmedAt, Survive;
    if p.part > 0 {
      TrimTracks(h, protected, s, Pos(p.msg, p.part - 1));
      ContentSurvives(h, protected, s, p);
    } else if p.msg > 0 {
      TrimTracks(h, protected, s, Pos(p.msg - 1, |h[p.msg - 1].contents|));
      MessageSurvives(h, protected, s, p.msg - 1);
    } else {
      EmptySurvives(h, protected, s);
    }
  }

  lemma EmptySurvives(h: seq<Message>, protected: set<Id>, s: nat)
    ensures Survive(h, protected, s, map[], TrimmedAt(h, protected, s, Pos(0, 0)))
  {
    assert 0 < |h| ==> h[0].contents[..0] == [];
  }

  /** The most recent call of this ID survives the cut. */
  ghost predicate LastStays(h: seq<Message>, protected: set<Id>, s: nat, id: Id) {
    var last := Last(h, Pos(|h|, 0));
    id in last && last[id].msg < |h| && !Gone(h, protected, s, last[id].msg)
  }

  /** What a history trimmed at a boundary leaves open: exactly the open calls whose messages stay. */
  lemma {:induction false} TrimKeepsOpen(h: seq<Message>, protected: set<Id>, s: nat)
    requires Open(h).Some? && Boundary(h, s)
    ensures Open(Rest(h, protected, s)).Some?
    ensures forall id :: id in Open(Rest(h, protected, s)).value <==>
      id in Open(h).value && LastStays(h, protected, s, id)
  {
    hide Gone, Boundary, Last;
    var end := Pos(|h|, 0);
    assert h[..|h|] == h;
    TrackIsOpen(h, end);
    TrimTracks(h, protected, s, end);
    forall id | id in Open(h).value ensures id in Last(h, end) && Last(h, end)[id] == Track(h, end).value[id] {
      TrackIsLast(h, end, id);
    }
  }

  /** A closed history trimmed at a boundary is closed: no request shows a call without its result. */
  lemma TrimKeepsClosed(h: seq<Message>, protected: set<Id>, s: nat)
    requires Closed(h) && Boundary(h, s)
    ensures Closed(Rest(h, protected, s))
  {
    hide Rest, Boundary, Last;
    TrimKeepsOpen(h, protected, s);
    assert Open(Rest(h, protected, s)).value == {};
  }

  // ---------------------------------------------------------------- the algorithm

  /** The first n entries number the turns. */
  ghost predicate Numbered(h: seq<Message>, turnOf: seq<nat>, n: nat) {
    |turnOf| == |h| && n <= |h| && forall i {:trigger turnOf[i]} :: 0 <= i < n ==> turnOf[i] == TurnOf(h, i)
  }

  method NumberTurns(h: seq<Message>) returns (turnOf: array<nat>, turns: nat)
    requires h != []
    ensures fresh(turnOf) && turns == Turns(h) && Numbered(h, turnOf[..], |h|)
  {
    turnOf := new nat[|h|];
    turns := 0;
    var i := 0;
    while i < |h|
      invariant 0 <= i <= |h| && turns == if i == 0 then 0 else TurnOf(h, i - 1)
      invariant Numbered(h, turnOf[..], i)
    {
      if h[i].user && i > 0 {
        turns := turns + 1;
      }
      turnOf[i] := turns;
      i := i + 1;
    }
    turns := turns + 1;
  }

  /** Bound and Guarded as far as reading has come. */
  predicate BoundBy(h: seq<Message>, p: Pos, t: nat)
    requires At(h, p)
    decreases p.msg, p.part
  {
    if p.part > 0 then BoundBy(h, Pos(p.msg, p.part - 1), t) || Spans(h, p.msg, p.part - 1, t)
    else p.msg > 0 && BoundBy(h, Pos(p.msg - 1, |h[p.msg - 1].contents|), t)
  }

  predicate GuardedBy(h: seq<Message>, protected: set<Id>, p: Pos, t: nat)
    requires At(h, p)
    decreases p.msg, p.part
  {
    if p.part > 0 then GuardedBy(h, protected, Pos(p.msg, p.part - 1), t)
        || Protects(h, protected, p.msg, p.part - 1, t)
    else p.msg > 0 && GuardedBy(h, protected, Pos(p.msg - 1, |h[p.msg - 1].contents|), t)
  }

  lemma {:induction false} FoundBefore(h: seq<Message>, protected: set<Id>, p: Pos, t: nat)
    requires At(h, p)
    ensures BoundBy(h, p, t) ==> Bound(h, t)
    ensures GuardedBy(h, protected, p, t) ==> Guarded(h, protected, t)
    decreases p.msg, p.part
  {
    if p.part > 0 {
      FoundBefore(h, protected, Pos(p.msg, p.part - 1), t);
    } else if p.msg > 0 {
      FoundBefore(h, protected, Pos(p.msg - 1, |h[p.msg - 1].contents|), t);
    }
  }

  lemma {:induction false} FoundAt(h: seq<Message>, protected: set<Id>, p: Pos, t: nat, i: nat, k: nat)
    requires At(h, p) && i < |h| && k < |h[i].contents| && Pos(i, k).Before(p)
    ensures Spans(h, i, k, t) ==> BoundBy(h, p, t)
    ensures Protects(h, protected, i, k, t) ==> GuardedBy(h, protected, p, t)
    decreases p.msg, p.part
  {
    if p.part > 0 {
      if Pos(i, k) != Pos(p.msg, p.part - 1) {
        FoundAt(h, protected, Pos(p.msg, p.part - 1), t, i, k);
      }
    } else {
      FoundAt(h, protected, Pos(p.msg - 1, |h[p.msg - 1].contents|), t, i, k);
    }
  }

  /** At the end of the history everything has been found. */
  lemma {:induction false} FoundAll(h: seq<Message>, protected: set<Id>, t: nat)
    ensures BoundBy(h, Pos(|h|, 0), t) <==> Bound(h, t)
    ensures GuardedBy(h, protected, Pos(|h|, 0), t) <==> Guarded(h, protected, t)
  {
    hide Spans, Protects, BoundBy, GuardedBy;
    FoundBefore(h, protected, Pos(|h|, 0), t);
    if Bound(h, t) {
      var i: nat, k: nat :| i < |h| && k < |h[i].contents| && Spans(h, i, k, t);
      FoundAt(h, protected, Pos(|h|, 0), t, i, k);
    }
    if Guarded(h, protected, t) {
      var i: nat, k: nat :| i < |h| && k < |h[i].contents| && Protects(h, protected, i, k, t);
      FoundAt(h, protected, Pos(|h|, 0), t, i, k);
    }
  }

  /** Nothing read so far binds turns from the newest on. */
  lemma {:induction false} NotYetBound(h: seq<Message>, p: Pos, t: nat)
    requires p.msg < |h| && At(h, p) && TurnOf(h, p.msg) <= t
    ensures !BoundBy(h, p, t)
    decreases p.msg, p.part
  {
    if p.part > 0 {
      NotYetBound(h, Pos(p.msg, p.part - 1), t);
    } else if p.msg > 0 {
      NotYetBound(h, Pos(p.msg - 1, |h[p.msg - 1].contents|), t);
    }
  }

  /** The lowest turn of each turn's unit, when the turns bound together are those found up to p. */
  ghost predicate Units(h: seq<Message>, p: Pos, unit: seq<nat>) {
    && At(h, p) && |unit| == Turns(h)
    && (forall t :: 0 <= t < |unit| ==> unit[t] <= t)
    && (forall t :: 1 <= t < |unit| ==> unit[t] == if BoundBy(h, p, t - 1) then unit[t - 1] else t)
  }

  /** The turns that stay, as far as reading has come. */
  ghost predicate Keeps(h: seq<Message>, protected: set<Id>, p: Pos, keep: seq<bool>) {
    && At(h, p) && |keep| == Turns(h)
    && forall t :: 0 <= t < |keep| ==> (keep[t] <==> t == |keep| - 1 || GuardedBy(h, protected, p, t))
  }

  /** callTurn holds the turn of the most recent call of every ID. */
  ghost predicate CallTurns(h: seq<Message>, p: Pos, callTurn: map<Id, nat>) {
    && At(h, p) && callTurn.Keys == Last(h, p).Keys
    && forall id :: id in callTurn ==> Last(h, p)[id].msg < |h| && callTurn[id] == TurnOf(h, Last(h, p)[id].msg)
  }

  ghost predicate Grouped(h: seq<Message>, protected: set<Id>, p: Pos, unit: seq<nat>, keep: seq<bool>,
      callTurn: map<Id, nat>) {
    Units(h, p, unit) && Keeps(h, protected, p, keep) && CallTurns(h, p, callTurn)
  }

  /** Turns from+1..to join the unit of turn `from`. */
  method Merge(unit: array<nat>, from: nat, to: nat)
    requires from <= to < unit.Length
    modifies unit
    ensures unit[..] == Merged(old(unit[..]), from, to)
  {
    var t := from + 1;
    while t <= to
      invariant from < t <= to + 1
      invariant forall u :: 0 <= u < unit.Length ==> unit[u] == if from < u < t then old(unit[from]) else old(unit[u])
    {
      unit[t] := unit[from];
      t := t + 1;
    }
  }

  function Merged(unit: seq<nat>, from: nat, to: nat): (r: seq<nat>)
    requires from <= to < |unit|
  {
    seq(|unit|, t requires 0 <= t < |unit| => if from < t <= to then unit[from] else unit[t])
  }

  /** Overlapping merges leave units contiguous: each merge reaches the newest turn read so far. */
  lemma {:induction false} MergeKeepsUnits(h: seq<Message>, i: nat, k: nat, unit: seq<nat>, from: nat)
    requires i < |h| && k < |h[i].contents| && Units(h, Pos(i, k), unit) && from <= TurnOf(h, i) < |unit|
    requires forall t: nat :: Spans(h, i, k, t) <==> from <= t < TurnOf(h, i)
    ensures Units(h, Pos(i, k + 1), Merged(unit, from, TurnOf(h, i)))
  {
    hide Last, Spans;
    var after := Merged(unit, from, TurnOf(h, i));
    var p, q := Pos(i, k), Pos(i, k + 1);
    forall t | 1 <= t < |unit| ensures after[t] == if BoundBy(h, q, t - 1) then after[t - 1] else t {
      assert BoundBy(h, q, t - 1) <==> BoundBy(h, p, t - 1) || Spans(h, i, k, t - 1);
      if TurnOf(h, i) < t {
        NotYetBound(h, p, t - 1);
      }
    }
  }

  lemma OtherKeepsUnits(h: seq<Message>, i: nat, k: nat, unit: seq<nat>)
    requires i < |h| && k < |h[i].contents| && Units(h, Pos(i, k), unit)
    requires forall t: nat :: !Spans(h, i, k, t)
    ensures Units(h, Pos(i, k + 1), unit)
  {
    hide Last, Spans;
    var p, q := Pos(i, k), Pos(i, k + 1);
    forall t | 1 <= t < |unit| ensures unit[t] == if BoundBy(h, q, t - 1) then unit[t - 1] else t {
      assert BoundBy(h, q, t - 1) <==> BoundBy(h, p, t - 1) || Spans(h, i, k, t - 1);
    }
  }

  /** What Group does with one content. */
  ghost function UnitsNext(h: seq<Message>, i: nat, k: nat, unit: seq<nat>, callTurn: map<Id, nat>): seq<nat>
    requires i < |h| && k < |h[i].contents| && TurnOf(h, i) < |unit|
  {
    var c := h[i].contents[k];
    if c.FunctionResult? && c.id in callTurn && callTurn[c.id] < TurnOf(h, i) then
        Merged(unit, callTurn[c.id], TurnOf(h, i)) else unit
  }

  lemma {:induction false} UnitsStep(h: seq<Message>, i: nat, k: nat, unit: seq<nat>, callTurn: map<Id, nat>)
    requires i < |h| && k < |h[i].contents| && Units(h, Pos(i, k), unit) && CallTurns(h, Pos(i, k), callTurn)
      && TurnOf(h, i) < |unit|
    ensures Units(h, Pos(i, k + 1), UnitsNext(h, i, k, unit, callTurn))
  {
    hide Last, Units, Merged;
    var c := h[i].contents[k];
    if c.FunctionResult? && c.id in callTurn && callTurn[c.id] < TurnOf(h, i) {
      MergeKeepsUnits(h, i, k, unit, callTurn[c.id]);
    } else {
      OtherKeepsUnits(h, i, k, unit);
    }
  }

  lemma {:induction false} KeepsStep(h: seq<Message>, protected: set<Id>, i: nat, k: nat, keep: seq<bool>)
    requires i < |h| && k < |h[i].contents| && Keeps(h, protected, Pos(i, k), keep) && TurnOf(h, i) < |keep|
    ensures var c := h[i].contents[k];
      Keeps(h, protected, Pos(i, k + 1), if c.FunctionCall? && c.id in protected then keep[TurnOf(h, i) := true]
          else keep)
  {
    hide TurnOf;
  }

  lemma {:induction false} CallTurnsStep(h: seq<Message>, i: nat, k: nat, callTurn: map<Id, nat>)
    requires i < |h| && k < |h[i].contents| && CallTurns(h, Pos(i, k), callTurn)
    ensures var c := h[i].contents[k];
      CallTurns(h, Pos(i, k + 1), if c.FunctionCall? then callTurn[c.id := TurnOf(h, i)] else callTurn)
  {
    hide TurnOf;
  }

  lemma MessageStep(h: seq<Message>, protected: set<Id>, i: nat, unit: seq<nat>, keep: seq<bool>,
      callTurn: map<Id, nat>)
    requires i < |h| && Grouped(h, protected, Pos(i, |h[i].contents|), unit, keep, callTurn)
    ensures Grouped(h, protected, Pos(i + 1, 0), unit, keep, callTurn)
  {
    hide Last, Spans, Protects;
    var p, q := Pos(i, |h[i].contents|), Pos(i + 1, 0);
    forall t | 1 <= t < |unit| ensures unit[t] == if BoundBy(h, q, t - 1) then unit[t - 1] else t {
      assert BoundBy(h, q, t - 1) <==> BoundBy(h, p, t - 1);
    }
    forall t | 0 <= t < |keep| ensures keep[t] <==> t == |keep| - 1 || GuardedBy(h, protected, q, t) {
      assert GuardedBy(h, protected, q, t) <==> GuardedBy(h, protected, p, t);
    }
    SameLast(h, i);
  }

  lemma {:induction false} SameLast(h: seq<Message>, i: nat)
    requires i < |h|
    ensures Last(h, Pos(i + 1, 0)) == Last(h, Pos(i, |h[i].contents|))
  {
  }

  lemma GroupStart(h: seq<Message>, protected: set<Id>, unit: seq<nat>, keep: seq<bool>)
    requires |unit| == |keep| == Turns(h)
      && forall t :: 0 <= t < |unit| ==> unit[t] == t && (keep[t] <==> t == |unit| - 1)
    ensures Grouped(h, protected, Pos(0, 0), unit, keep, map[])
  {
  }

  /** One content of the scan, on the arrays. */
  method GroupContent(h: seq<Message>, turnOf: array<nat>, protected: set<Id>, unit: array<nat>, keep: array<bool>,
      i: nat, k: nat, callTurn: map<Id, nat>)
    returns (next: map<Id, nat>)
    requires i < |h| && k < |h[i].contents| && turnOf.Length == |h| && turnOf[i] == TurnOf(h, i) < unit.Length
    requires Grouped(h, protected, Pos(i, k), unit[..], keep[..], callTurn)
    modifies unit, keep
    ensures Grouped(h, protected, Pos(i, k + 1), unit[..], keep[..], next)
  {
    hide Units, Keeps, CallTurns, Merged;
    ghost var was := unit[..];
    ghost var kept := keep[..];
    KeepsLength(h, protected, Pos(i, k), kept, was);
    UnitsStep(h, i, k, was, callTurn);
    KeepsStep(h, protected, i, k, kept);
    CallTurnsStep(h, i, k, callTurn);
    next := callTurn;
    match h[i].contents[k] {
      case FunctionCall(id, _, _) =>
        next := callTurn[id := turnOf[i]];
        if id in protected {
          keep[turnOf[i]] := true;
          assert keep[..] == kept[TurnOf(h, i) := true];
        }
      case FunctionResult(id) =>
        if id in callTurn && callTurn[id] < turnOf[i] {
          Merge(unit, callTurn[id], turnOf[i]);
        }
      case Text(_) =>
    }
  }

  lemma KeepsLength(h: seq<Message>, protected: set<Id>, p: Pos, keep: seq<bool>, unit: seq<nat>)
    requires Keeps(h, protected, p, keep) && Units(h, p, unit)
    ensures |keep| == |unit|
  {
  }

  /** Which turns belong to one unit, and which turns stay whatever the budget. */
  method Group(h: seq<Message>, turnOf: array<nat>, turns: nat, protected: set<Id>)
    returns (unit: array<nat>, keep: array<bool>)
    requires h != [] && turns == Turns(h) && Numbered(h, turnOf[..], |h|)
    ensures fresh(unit) && fresh(keep)
    ensures Units(h, Pos(|h|, 0), unit[..]) && Keeps(h, protected, Pos(|h|, 0), keep[..])
  {
    hide Grouped;
    unit := new nat[turns](t => t);
    keep := new bool[turns](t => t == turns - 1);
    var callTurn: map<Id, nat> := map[];
    GroupStart(h, protected, unit[..], keep[..]);
    var i := 0;
    while i < |h|
      invariant 0 <= i <= |h| && Grouped(h, protected, Pos(i, 0), unit[..], keep[..], callTurn)
    {
      TurnsGrow(h, i, i);
      var k := 0;
      while k < |h[i].contents|
        invariant 0 <= k <= |h[i].contents| && Grouped(h, protected, Pos(i, k), unit[..], keep[..], callTurn)
      {
        callTurn := GroupContent(h, turnOf, protected, unit, keep, i, k, callTurn);
        k := k + 1;
      }
      MessageStep(h, protected, i, unit[..], keep[..], callTurn);
      i := i + 1;
    }
    GroupEnd(h, protected, unit[..], keep[..], callTurn);
  }

  lemma GroupEnd(h: seq<Message>, protected: set<Id>, unit: seq<nat>, keep: seq<bool>, callTurn: map<Id, nat>)
    requires Grouped(h, protected, Pos(|h|, 0), unit, keep, callTurn)
    ensures Units(h, Pos(|h|, 0), unit) && Keeps(h, protected, Pos(|h|, 0), keep)
  {
  }

  // ---------------------------------------------------------------- dropping

  lemma {:induction false} UnitsAgree(h: seq<Message>, unit: seq<nat>, a: nat, b: nat)
    requires Units(h, Pos(|h|, 0), unit) && a <= b < |unit|
    ensures unit[a] <= unit[b] && (unit[a] == unit[b] <==> Together(h, a, b))
    decreases b
  {
    hide BoundBy, Bound;
    if a < b {
      UnitsAgree(h, unit, a, b - 1);
      FoundAll(h, {}, b - 1);
      assert Together(h, a, b) <==> Together(h, a, b - 1) && Bound(h, b - 1);
    }
  }

  lemma UnitsMeet(h: seq<Message>, unit: seq<nat>, a: nat, b: nat)
    requires Units(h, Pos(|h|, 0), unit) && a < |unit| && b < |unit|
    ensures unit[a] == unit[b] <==> SameUnit(h, a, b)
  {
    hide Units, Bound;
    if a <= b {
      UnitsAgree(h, unit, a, b);
    } else {
      UnitsAgree(h, unit, b, a);
    }
  }

  /** The units of which some turn stays. */
  ghost predicate KeptUnits(h: seq<Message>, protected: set<Id>, unit: seq<nat>, kept: set<nat>) {
    forall t {:trigger unit[t]} :: 0 <= t < |unit| ==> (unit[t] in kept <==> !Loose(h, protected, t))
  }

  lemma KeptUnitsAre(h: seq<Message>, protected: set<Id>, unit: seq<nat>, keep: seq<bool>, kept: set<nat>)
    requires Units(h, Pos(|h|, 0), unit) && Keeps(h, protected, Pos(|h|, 0), keep)
    requires kept == set t | 0 <= t < |unit| && t < |keep| && keep[t] :: unit[t]
    ensures KeptUnits(h, protected, unit, kept)
  {
    hide Units, SameUnit, GuardedBy, Guarded;
    KeepsLength(h, protected, Pos(|h|, 0), keep, unit);
    forall t | 0 <= t < |unit| ensures unit[t] in kept <==> !Loose(h, protected, t) {
      forall u: nat | u < |unit| ensures unit[t] == unit[u] <==> SameUnit(h, t, u) {
        UnitsMeet(h, unit, t, u);
      }
      forall u: nat | u < |unit| ensures keep[u] <==> KeptTurn(h, protected, u) {
        FoundAll(h, protected, u);
      }
    }
  }

  method MarkKept(h: seq<Message>, protected: set<Id>, unit: array<nat>, keep: array<bool>) returns (kept: set<nat>)
    requires Units(h, Pos(|h|, 0), unit[..]) && Keeps(h, protected, Pos(|h|, 0), keep[..])
    ensures KeptUnits(h, protected, unit[..], kept)
  {
    hide Units, Keeps, KeptUnits;
    KeepsLength(h, protected, Pos(|h|, 0), keep[..], unit[..]);
    kept := {};
    var t := 0;
    while t < keep.Length
      invariant 0 <= t <= keep.Length
      invariant kept == set u | 0 <= u < t && keep[u] :: unit[u]
    {
      if keep[t] {
        kept := kept + {unit[t]};
      }
      t := t + 1;
    }
    assert kept == set u | 0 <= u < |unit[..]| && u < |keep[..]| && keep[..][u] :: unit[..][u];
    KeptUnitsAre(h, protected, unit[..], keep[..], kept);
  }

  ghost predicate Marks(h: seq<Message>, protected: set<Id>, s: nat, dropped: seq<bool>) {
    |dropped| == |h| && forall i {:trigger dropped[i]} :: 0 <= i < |h| ==> (dropped[i] <==> Gone(h, protected, s, i))
  }

  /** Turns s..e are one whole unit. */
  ghost predicate WholeUnit(h: seq<Message>, s: nat, e: nat) {
    s <= e < Turns(h) && Boundary(h, s) && Boundary(h, e + 1) && Together(h, s, e)
  }

  lemma UnitLoose(h: seq<Message>, protected: set<Id>, s: nat, e: nat, t: nat)
    requires WholeUnit(h, s, e) && s <= t <= e
    ensures Loose(h, protected, t) <==> Loose(h, protected, s)
  {
    hide Bound, Loose;
    LooseTogether(h, protected, s, t);
  }

  /** Passing a unit drops its turns if it is droppable and nothing otherwise. */
  lemma {:induction false} UnitGone(h: seq<Message>, protected: set<Id>, s: nat, e: nat, i: nat)
    requires WholeUnit(h, s, e) && i < |h|
    ensures Gone(h, protected, e + 1, i) <==>
      Gone(h, protected, s, i) || (Loose(h, protected, s) && s <= TurnOf(h, i) <= e)
  {
    hide Loose, WholeUnit, TurnOf;
    EndIsBoundary(h, s, e);
    if s <= TurnOf(h, i) <= e {
      UnitLoose(h, protected, s, e, TurnOf(h, i));
    }
  }

  lemma {:induction false} SameRest(h: seq<Message>, protected: set<Id>, s: nat, e: nat, n: nat)
    requires n <= |h| && forall i :: 0 <= i < |h| ==> (Gone(h, protected, s, i) <==> Gone(h, protected, e, i))
    ensures Without(h, protected, s, n) == Without(h, protected, e, n)
    ensures GoneMessages(h, protected, s, n) == GoneMessages(h, protected, e, n)
  {
    hide Gone;
    if n > 0 {
      SameRest(h, protected, s, e, n - 1);
    }
  }

  lemma {:induction false} UnitTurns(h: seq<Message>, protected: set<Id>, s: nat, e: nat, t: nat)
    requires WholeUnit(h, s, e) && s <= t <= e + 1
    ensures GoneTurns(h, protected, t) == GoneTurns(h, protected, s) + (if Loose(h, protected, s) then t - s else 0)
    decreases t
  {
    hide Loose, WholeUnit;
    if t > s {
      UnitTurns(h, protected, s, e, t - 1);
      UnitLoose(h, protected, s, e, t - 1);
    }
  }

  /** Where the scan over units stands. */
  ghost predicate Dropping(h: seq<Message>, protected: set<Id>, size: seq<Message> -> int, budget: int, s: nat,
      turns: nat, messages: nat) {
    && Boundary(h, s)
    && turns == GoneTurns(h, protected, s) && messages == GoneMessages(h, protected, s, |h|)
    && forall b: nat {:trigger Boundary(h, b)} :: b < s && Boundary(h, b) ==> size(Rest(h, protected, b)) > budget
  }

  lemma NoBoundaryInside(h: seq<Message>, s: nat, e: nat, b: nat)
    requires WholeUnit(h, s, e) && Boundary(h, b) && b <= e
    ensures b <= s
  {
    hide Bound;
  }

  lemma {:induction false} PassUnit(h: seq<Message>, protected: set<Id>, size: seq<Message> -> int, budget: int,
      s: nat, e: nat, turns: nat, messages: nat)
    requires WholeUnit(h, s, e) && Dropping(h, protected, size, budget, s, turns, messages)
    requires size(Rest(h, protected, s)) > budget
    ensures Dropping(h, protected, size, budget, e + 1,
                     turns + (if Loose(h, protected, s) then e - s + 1 else 0), GoneMessages(h, protected, e + 1, |h|))
  {
    hide Loose, WholeUnit, Boundary, Rest, GoneMessages, GoneTurns;
    EndIsBoundary(h, s, e);
    UnitTurns(h, protected, s, e, e + 1);
    forall b: nat {:trigger Boundary(h, b)} | b < e + 1 && Boundary(h, b) ensures size(Rest(h, protected, b)) > budget {
      NoBoundaryInside(h, s, e, b);
    }
  }

  lemma EndIsBoundary(h: seq<Message>, s: nat, e: nat)
    requires WholeUnit(h, s, e)
    ensures Boundary(h, e + 1) && s <= e < Turns(h)
  {
  }

  /** The last turn of the unit that starts at turn s. */
  method UnitEnd(h: seq<Message>, unit: array<nat>, s: nat) returns (e: nat)
    requires Units(h, Pos(|h|, 0), unit[..]) && s < unit.Length && Boundary(h, s)
    ensures WholeUnit(h, s, e)
  {
    hide Bound, BoundBy;
    e := s;
    while e + 1 < unit.Length && unit[e + 1] == unit[s]
      invariant s <= e < unit.Length && unit[e] == unit[s]
    {
      e := e + 1;
    }
    UnitsAgree(h, unit[..], s, e);
    if e + 1 < unit.Length {
      UnitsAgree(h, unit[..], e, e + 1);
      assert Together(h, e, e + 1) <==> Bound(h, e);
    }
  }

  /** Marks the messages of a droppable unit and counts them. */
  method MarkDropped(h: seq<Message>, protected: set<Id>, turnOf: array<nat>, dropped: array<bool>, s: nat, e: nat)
    returns (n: nat)
    requires Numbered(h, turnOf[..], |h|) && Marks(h, protected, s, dropped[..]) && WholeUnit(h, s, e)
      && Loose(h, protected, s)
    modifies dropped
    ensures Marks(h, protected, e + 1, dropped[..])
    ensures GoneMessages(h, protected, e + 1, |h|) == GoneMessages(h, protected, s, |h|) + n
  {
    hide Gone, Loose, WholeUnit, TurnOf;
    n := 0;
    var i := 0;
    while i < |h|
      invariant 0 <= i <= |h| && dropped.Length == |h|
      invariant forall j {:trigger dropped[j]} :: 0 <= j < i ==> (dropped[j] <==> Gone(h, protected, e + 1, j))
      invariant forall j {:trigger dropped[j]} :: i <= j < |h| ==> (dropped[j] <==> Gone(h, protected, s, j))
      invariant GoneMessages(h, protected, e + 1, i) == GoneMessages(h, protected, s, i) + n
    {
      UnitGone(h, protected, s, e, i);
      GoneBelow(h, protected, s, i);
      assert turnOf[..][i] == TurnOf(h, i);
      if turnOf[i] >= s && turnOf[i] <= e {
        dropped[i] := true;
        n := n + 1;
      }
      i := i + 1;
    }
  }

  lemma {:induction false} GoneBelow(h: seq<Message>, protected: set<Id>, s: nat, i: nat)
    requires i < |h|
    ensures Gone(h, protected, s, i) ==> TurnOf(h, i) < s
  {
  }

  method Rebuild(h: seq<Message>, protected: set<Id>, dropped: array<bool>, s: nat) returns (current: seq<Message>)
    requires Marks(h, protected, s, dropped[..])
    ensures current == Rest(h, protected, s)
  {
    hide Gone;
    current := [];
    var i := 0;
    while i < |h|
      invariant 0 <= i <= |h| && current == Without(h, protected, s, i)
    {
      assert dropped[..][i] <==> Gone(h, protected, s, i);
      if !dropped[i] {
        current := current + [h[i]];
      }
      i := i + 1;
    }
  }

  /** history.go Truncation; all counts. */
  datatype Truncation = Truncation(turnsDropped: int, messagesDropped: int, before: int, after: int, budget: int)

  const NO_TRUNCATION := Truncation(0, 0, 0, 0, 0)

  /** out is h without the droppable units before turn s, and s is the first boundary at which that
      fits the budget, or the end when none does. */
  ghost predicate OldestDropped(h: seq<Message>, budget: int, protected: set<Id>, size: seq<Message> -> int, s: nat,
      out: seq<Message>) {
    && Boundary(h, s) && out == Rest(h, protected, s)
    && (size(out) <= budget || s == Turns(h))
    && forall b: nat {:trigger Boundary(h, b)} :: b < s && Boundary(h, b) ==> size(Rest(h, protected, b)) > budget
  }

  /** A history, a budget and the protected calls leave one answer. */
  lemma OneAnswer(h: seq<Message>, budget: int, protected: set<Id>, size: seq<Message> -> int, s: nat,
      out: seq<Message>, s': nat, out': seq<Message>)
    requires OldestDropped(h, budget, protected, size, s, out) && OldestDropped(h, budget, protected, size, s', out')
    ensures s == s' && out == out'
  {
    hide Bound, Rest;
  }

  /** Drops the oldest droppable units until the estimate fits or none is left, and reports exact counts. */
  method Trim(h: seq<Message>, budget: int, protected: set<Id>, size: seq<Message> -> int)
    returns (out: seq<Message>, report: Truncation)
    ensures Trimmed(h, budget, protected, size, out)
    ensures budget <= 0 || h == [] || size(h) <= budget ==> out == h && report == NO_TRUNCATION
    ensures !(budget <= 0 || h == [] || size(h) <= budget) ==> exists s: nat ::
      && OldestDropped(h, budget, protected, size, s, out)
      && report == if out == h then NO_TRUNCATION
         else Truncation(GoneTurns(h, protected, s), |h| - |out|, size(h), size(out), budget)
  {
    hide Units, Keeps, Rest, Gone, Loose, Boundary, Dropping, WholeUnit, Marks, Numbered, KeptUnits, GoneTurns;
    hide GoneMessages;
    if budget <= 0 || |h| == 0 {
      return h, NO_TRUNCATION;
    }
    var before := size(h);
    if before <= budget {
      return h, NO_TRUNCATION;
    }
    var turnOf, turns := NumberTurns(h);
    var unit, keep := Group(h, turnOf, turns, protected);
    var unitKept := MarkKept(h, protected, unit, keep);
    var dropped := new bool[|h|](_ => false);
    var current := h;
    var estimate := before;
    var droppedTurns: nat, droppedMessages: nat := 0, 0;
    NothingDropped(h, protected, size, budget, dropped[..]);
    UnitsLength(h, unit[..]);
    var start := 0;
    while start < turns && estimate > budget
      invariant 0 <= start <= turns && turns == Turns(h) == unit.Length && fresh(dropped) && fresh(unit)
        && fresh(turnOf)
      invariant Units(h, Pos(|h|, 0), unit[..]) && Numbered(h, turnOf[..], |h|)
        && KeptUnits(h, protected, unit[..], unitKept)
      invariant Marks(h, protected, start, dropped[..])
        && Dropping(h, protected, size, budget, start, droppedTurns, droppedMessages)
      invariant current == Rest(h, protected, start) && estimate == size(current)
      decreases turns - start
    {
      AtBoundary(h, protected, size, budget, start, droppedTurns, droppedMessages);
      var end := UnitEnd(h, unit, start);
      EndIsBoundary(h, start, end);
      PassUnit(h, protected, size, budget, start, end, droppedTurns, droppedMessages);
      UnitIsKept(h, protected, unit[..], unitKept, start);
      if unit[start] !in unitKept {
        var n := MarkDropped(h, protected, turnOf, dropped, start, end);
        droppedMessages := droppedMessages + n;
        droppedTurns := droppedTurns + (end - start + 1);
        current := Rebuild(h, protected, dropped, end + 1);
        estimate := size(current);
      } else {
        PassKept(h, protected, start, end, dropped[..]);
      }
      start := end + 1;
    }
    AtBoundary(h, protected, size, budget, start, droppedTurns, droppedMessages);
    Outcome(h, protected, start, droppedTurns, droppedMessages, size, budget);
    if droppedTurns == 0 {
      assert OldestDropped(h, budget, protected, size, start, h);
      return h, NO_TRUNCATION;
    }
    assert OldestDropped(h, budget, protected, size, start, current);
    return current, Truncation(droppedTurns, droppedMessages, before, estimate, budget);
  }

  lemma NothingDropped(h: seq<Message>, protected: set<Id>, size: seq<Message> -> int, budget: int, dropped: seq<bool>)
    requires |dropped| == |h| && forall i :: 0 <= i < |h| ==> !dropped[i]
    ensures Marks(h, protected, 0, dropped) && Rest(h, protected, 0) == h
      && Dropping(h, protected, size, budget, 0, 0, 0)
  {
    NoneGone(h, protected, |h|);
    assert h[..|h|] == h;
  }

  lemma {:induction false} NoneGone(h: seq<Message>, protected: set<Id>, n: nat)
    requires n <= |h|
    ensures Without(h, protected, 0, n) == h[..n] && GoneMessages(h, protected, 0, n) == 0
  {
    if n > 0 {
      NoneGone(h, protected, n - 1);
      assert h[..n] == h[..n - 1] + [h[n - 1]];
    }
  }

  lemma UnitsLength(h: seq<Message>, unit: seq<nat>)
    requires Units(h, Pos(|h|, 0), unit)
    ensures |unit| == Turns(h)
  {
  }

  lemma {:induction false} AtBoundary(h: seq<Message>, protected: set<Id>, size: seq<Message> -> int, budget: int,
      s: nat, turns: nat, messages: nat)
    requires Dropping(h, protected, size, budget, s, turns, messages)
    ensures Boundary(h, s) && s <= Turns(h) && messages == GoneMessages(h, protected, s, |h|)
    ensures turns == GoneTurns(h, protected, s)
    ensures forall b: nat {:trigger Boundary(h, b)} :: b < s && Boundary(h, b) ==> size(Rest(h, protected, b)) > budget
  {
    hide Bound, Rest, GoneMessages, GoneTurns;
  }

  lemma UnitIsKept(h: seq<Message>, protected: set<Id>, unit: seq<nat>, kept: set<nat>, t: nat)
    requires KeptUnits(h, protected, unit, kept) && t < |unit|
    ensures unit[t] in kept <==> !Loose(h, protected, t)
  {
    hide Loose;
  }

  lemma {:induction false} PassKept(h: seq<Message>, protected: set<Id>, s: nat, e: nat, dropped: seq<bool>)
    requires WholeUnit(h, s, e) && !Loose(h, protected, s) && Marks(h, protected, s, dropped)
    ensures Marks(h, protected, e + 1, dropped) && Rest(h, protected, e + 1) == Rest(h, protected, s)
    ensures GoneMessages(h, protected, e + 1, |h|) == GoneMessages(h, protected, s, |h|)
  {
    hide Gone, Loose, WholeUnit, GoneMessages;
    forall i | 0 <= i < |h| ensures Gone(h, protected, s, i) <==> Gone(h, protected, e + 1, i) {
      UnitGone(h, protected, s, e, i);
    }
    SameRest(h, protected, s, e + 1, |h|);
  }

  /** A whole number of turns went exactly when some message went. */
  lemma {:induction false} Outcome(h: seq<Message>, protected: set<Id>, s: nat, turns: nat, messages: nat,
      size: seq<Message> -> int, budget: int)
    requires s <= Turns(h) && turns == GoneTurns(h, protected, s) && messages == GoneMessages(h, protected, s, |h|)
    ensures messages == |h| - |Rest(h, protected, s)|
    ensures turns == 0 <==> Rest(h, protected, s) == h
  {
    hide Gone, Loose, GoneTurns, GoneMessages, Without;
    CountsAddUp(h, protected, s, |h|);
    if turns == 0 {
      forall i | 0 <= i < |h| ensures !Gone(h, protected, s, i) {
        if Gone(h, protected, s, i) {
          GoneCounts(h, protected, s, TurnOf(h, i), i);
        }
      }
      NothingGone(h, protected, s, |h|);
      assert h[..|h|] == h;
    } else {
      var t := SomeGoneTurn(h, protected, s);
      var i := TurnHasMessage(h, t);
      GoneIf(h, protected, s, i);
      SomeGone(h, protected, s, |h|, i);
    }
  }

  lemma {:induction false} GoneIf(h: seq<Message>, protected: set<Id>, s: nat, i: nat)
    requires i < |h| && TurnOf(h, i) < s && Loose(h, protected, TurnOf(h, i))
    ensures Gone(h, protected, s, i)
  {
  }

  lemma {:induction false} GoneCounts(h: seq<Message>, protected: set<Id>, s: nat, t: nat, i: nat)
    requires i < |h| && Gone(h, protected, s, i) && t == TurnOf(h, i)
    ensures GoneTurns(h, protected, s) > 0
  {
    GoneTurnsGrow(h, protected, t + 1, s);
  }

  lemma {:induction false} GoneTurnsGrow(h: seq<Message>, protected: set<Id>, a: nat, b: nat)
    requires a <= b
    ensures GoneTurns(h, protected, a) <= GoneTurns(h, protected, b)
    decreases b
  {
    if a < b {
      GoneTurnsGrow(h, protected, a, b - 1);
    }
  }

  lemma {:induction false} NothingGone(h: seq<Message>, protected: set<Id>, s: nat, n: nat)
    requires n <= |h| && forall i :: 0 <= i < |h| ==> !Gone(h, protected, s, i)
    ensures Without(h, protected, s, n) == h[..n]
  {
    hide Gone;
    if n > 0 {
      NothingGone(h, protected, s, n - 1);
      assert h[..n] == h[..n - 1] + [h[n - 1]];
    }
  }

  lemma {:induction false} SomeGoneTurn(h: seq<Message>, protected: set<Id>, s: nat) returns (t: nat)
    requires GoneTurns(h, protected, s) > 0
    ensures t < s && Loose(h, protected, t)
  {
    hide Loose;
    t := s - 1;
    if !Loose(h, protected, s - 1) {
      t := SomeGoneTurn(h, protected, s - 1);
    }
  }

  lemma {:induction false} TurnHasMessage(h: seq<Message>, t: nat) returns (i: nat)
    requires t < Turns(h)
    ensures i < |h| && TurnOf(h, i) == t
  {
    i := |h| - 1;
    while TurnOf(h, i) != t
      invariant i < |h| && TurnOf(h, i) >= t
      decreases i
    {
      i := i - 1;
    }
  }

  lemma {:induction false} SomeGone(h: seq<Message>, protected: set<Id>, s: nat, n: nat, i: nat)
    requires i < n <= |h| && Gone(h, protected, s, i)
    ensures GoneMessages(h, protected, s, n) > 0
    decreases n
  {
    hide Gone;
    if i < n - 1 {
      SomeGone(h, protected, s, n - 1, i);
    }
  }

  // ---------------------------------------------------------------- what becomes of newly admitted inputs

  /** One user message with one text each. */
  predicate AllInputs(inputs: seq<Message>) {
    forall j :: 0 <= j < |inputs| ==> inputs[j].user && |inputs[j].contents| == 1 && inputs[j].contents[0].Text?
  }

  lemma {:induction false} TurnsOfPrefix(h0: seq<Message>, inputs: seq<Message>, i: nat)
    requires i < |h0|
    ensures TurnOf(h0 + inputs, i) == TurnOf(h0, i) < Turns(h0)
    decreases i
  {
    TurnsGrow(h0, i, i);
    if i > 0 {
      TurnsOfPrefix(h0, inputs, i - 1);
    }
  }

  /** Each input starts a turn of its own, after those of the history. */
  lemma {:induction false} InputTurn(h0: seq<Message>, inputs: seq<Message>, j: nat)
    requires AllInputs(inputs) && j < |inputs|
    ensures TurnOf(h0 + inputs, |h0| + j) == Turns(h0) + j
    decreases j
  {
    var h := h0 + inputs;
    assert h[|h0| + j] == inputs[j];
    if j > 0 {
      InputTurn(h0, inputs, j - 1);
    } else if h0 != [] {
      TurnsOfPrefix(h0, inputs, |h0| - 1);
    }
  }

  lemma InputTurns(h0: seq<Message>, inputs: seq<Message>)
    requires AllInputs(inputs) && inputs != []
    ensures Turns(h0 + inputs) == Turns(h0) + |inputs|
  {
    InputTurn(h0, inputs, |inputs| - 1);
  }

  /** No call and no result lies in the turn of an input or later. */
  lemma NothingLater(h0: seq<Message>, inputs: seq<Message>, protected: set<Id>, t: nat)
    requires AllInputs(inputs)
    ensures Turns(h0) <= t + 1 ==> !Bound(h0 + inputs, t)
    ensures Turns(h0) <= t ==> !Guarded(h0 + inputs, protected, t)
  {
    hide Last;
    var h := h0 + inputs;
    forall i: nat, k: nat | i < |h| && k < |h[i].contents| && !h[i].contents[k].Text? ensures TurnOf(h, i) < Turns(h0) {
      TurnsOfPrefix(h0, inputs, i);
    }
  }

  /** Every input but the latest is a droppable unit of its own. */
  lemma InputLoose(h0: seq<Message>, inputs: seq<Message>, protected: set<Id>, j: nat)
    requires AllInputs(inputs) && j < |inputs|
    ensures Loose(h0 + inputs, protected, Turns(h0) + j) <==> j + 1 < |inputs|
  {
    hide Bound, Guarded, TurnOf;
    var h, t := h0 + inputs, Turns(h0) + j;
    InputTurns(h0, inputs);
    assert SameUnit(h, t, t);
    NothingLater(h0, inputs, protected, t);
    if t > 0 {
      NothingLater(h0, inputs, protected, t - 1);
    }
    Alone(h, t);
  }

  lemma Alone(h: seq<Message>, t: nat)
    requires !Bound(h, t) && (t > 0 ==> !Bound(h, t - 1))
    ensures forall u: nat :: SameUnit(h, t, u) ==> u == t
  {
    hide Bound;
  }

  lemma InputGone(h0: seq<Message>, inputs: seq<Message>, protected: set<Id>, s: nat, j: nat)
    requires AllInputs(inputs) && j < |inputs|
    ensures Gone(h0 + inputs, protected, s, |h0| + j) <==> Turns(h0) + j < s && j + 1 < |inputs|
  {
    hide Loose, TurnOf;
    InputTurn(h0, inputs, j);
    InputLoose(h0, inputs, protected, j);
  }

  /** How many inputs are missing when everything droppable before turn s is. */
  function MissingInputs(h0: seq<Message>, inputs: seq<Message>, s: nat): (c: nat)
    requires inputs != []
    ensures c < |inputs|
  {
    if s <= Turns(h0) then 0 else if s - Turns(h0) < |inputs| then s - Turns(h0) else |inputs| - 1
  }

  lemma {:induction false} OneMore(h: seq<Message>, protected: set<Id>, s: nat, n: nat)
    requires n < |h|
    ensures Without(h, protected, s, n + 1)
      == Without(h, protected, s, n) + if Gone(h, protected, s, n) then [] else [h[n]]
  {
    hide Gone;
  }

  lemma {:induction false} InputsLeft(h0: seq<Message>, inputs: seq<Message>, protected: set<Id>, s: nat, n: nat)
    requires AllInputs(inputs) && inputs != [] && n <= |inputs|
    ensures var h := h0 + inputs; var c := MissingInputs(h0, inputs, s);
      Without(h, protected, s, |h0| + n) == Without(h, protected, s, |h0|) + (if n <= c then [] else inputs[c..n])
    decreases n
  {
    hide Gone, Without, AllInputs, Turns;
    var h := h0 + inputs;
    if n > 0 {
      InputsLeft(h0, inputs, protected, s, n - 1);
      InputGone(h0, inputs, protected, s, n - 1);
      OneMore(h, protected, s, |h0| + n - 1);
      assert h[|h0| + n - 1] == inputs[n - 1];
      var c := MissingInputs(h0, inputs, s);
      if c < n {
        assert inputs[c..n] == inputs[c..n - 1] + [inputs[n - 1]];
      }
    }
  }

  /** Input j is not the latest, and cutting the history at no boundary up to its turn makes it fit. */
  ghost predicate InputCut(h0: seq<Message>, inputs: seq<Message>, budget: int, protected: set<Id>,
      size: seq<Message> -> int, j: nat) {
    var h := h0 + inputs;
    j + 1 < |inputs| && forall b: nat {:trigger Boundary(h, b)} :: b <= Turns(h0) + j && Boundary(h, b) ==>
        size(Rest(h, protected, b)) > budget
  }

  /** The request ends with the inputs from some point on, and input j is missing from it exactly if it is
      not the latest and no cut up to its own turn is enough. */
  lemma {:induction false} InputsShown(h0: seq<Message>, inputs: seq<Message>, budget: int, protected: set<Id>,
      size: seq<Message> -> int, s: nat, out: seq<Message>)
    requires AllInputs(inputs) && inputs != [] && OldestDropped(h0 + inputs, budget, protected, size, s, out)
    ensures out == Without(h0 + inputs, protected, s, |h0|) + inputs[MissingInputs(h0, inputs, s)..]
    ensures forall j: nat ::
      j < |inputs| ==> (j < MissingInputs(h0, inputs, s) <==> InputCut(h0, inputs, budget, protected, size, j))
  {
    hide Boundary, Rest, Without;
    InputsLeft(h0, inputs, protected, s, |inputs|);
    RestIs(h0 + inputs, protected, s);
    InputTurns(h0, inputs);
    forall j: nat | j < |inputs|
      ensures j < MissingInputs(h0, inputs, s) <==> InputCut(h0, inputs, budget, protected, size, j)
    {
      if s <= Turns(h0) + j {
        assert Boundary(h0 + inputs, s);
      }
    }
  }

  lemma {:induction false} RestIs(h: seq<Message>, protected: set<Id>, s: nat)
    ensures Rest(h, protected, s) == Without(h, protected, s, |h|)
  {
  }

  /** The result of trimming, as Trim delivers it. */
  ghost predicate Trimmed(h: seq<Message>, budget: int, protected: set<Id>, size: seq<Message> -> int,
      out: seq<Message>) {
    if budget <= 0 || h == [] || size(h) <= budget then out == h
    else exists s: nat :: OldestDropped(h, budget, protected, size, s, out)
  }

  /** Exactly when a request leaves out an input that it is about to record as included: there are two at
      least, the history is over a positive budget, and no cut before the inputs makes it fit. */
  ghost predicate InputsCut(h0: seq<Message>, inputs: seq<Message>, budget: int, protected: set<Id>,
      size: seq<Message> -> int) {
    budget > 0 && size(h0 + inputs) > budget && InputCut(h0, inputs, budget, protected, size, 0)
  }

  lemma InputsInRequest(h0: seq<Message>, inputs: seq<Message>, budget: int, protected: set<Id>,
      size: seq<Message> -> int, out: seq<Message>)
    returns (older: seq<Message>, missing: nat)
    requires AllInputs(inputs) && Trimmed(h0 + inputs, budget, protected, size, out)
    ensures missing <= |inputs| && out == older + inputs[missing..]
    ensures missing > 0 <==> InputsCut(h0, inputs, budget, protected, size)
  {
    hide OldestDropped, InputCut;
    var h := h0 + inputs;
    if inputs == [] {
      older, missing := out, 0;
      NoInputsCut(h0, inputs, budget, protected, size);
    } else if budget <= 0 || size(h) <= budget {
      older, missing := h0, 0;
      assert inputs[0..] == inputs;
    } else {
      var s: nat :| OldestDropped(h, budget, protected, size, s, out);
      InputsShown(h0, inputs, budget, protected, size, s, out);
      older, missing := Without(h, protected, s, |h0|), MissingInputs(h0, inputs, s);
    }
  }

  lemma NoInputsCut(h0: seq<Message>, inputs: seq<Message>, budget: int, protected: set<Id>, size: seq<Message> -> int)
    requires inputs == []
    ensures !InputCut(h0, inputs, budget, protected, size, 0)
  {
  }

  /** It happens: two inputs or more at the start of a conversation that are together over the budget. */
  lemma InputCanBeDropped(inputs: seq<Message>, budget: int, protected: set<Id>, size: seq<Message> -> int)
    requires AllInputs(inputs) && |inputs| >= 2 && size(inputs) > budget > 0
    ensures InputsCut([], inputs, budget, protected, size)
  {
    assert [] + inputs == inputs && inputs[..|inputs|] == inputs;
    NoneGone(inputs, protected, |inputs|);
    RestIs(inputs, protected, 0);
  }

  // ---------------------------------------------------------------- what a cut takes

  /** The content at p is a result, and the one at q the most recent call before it under its ID. */
  ghost predicate Answers(h: seq<Message>, q: Pos, p: Pos) {
    && p.msg < |h| && p.part < |h[p.msg].contents| && h[p.msg].contents[p.part].FunctionResult?
    && q.msg < |h| && Latest(h, q, h[p.msg].contents[p.part].id, p)
  }

  ghost predicate Crosses(h: seq<Message>, q: Pos, p: Pos, t: int) {
    Answers(h, q, p) && TurnOf(h, q.msg) <= t < TurnOf(h, p.msg)
  }

  /** Some answer reaches across the gap after turn t. */
  ghost predicate Crossed(h: seq<Message>, t: nat) {
    exists q: Pos, p: Pos :: Crosses(h, q, p, t)
  }

  /** Two neighbouring turns are bound exactly if a result after them answers a call before them. */
  lemma BoundContract(h: seq<Message>, t: nat)
    ensures Bound(h, t) <==> Crossed(h, t)
  {
    if Bound(h, t) {
      var i: nat, k: nat :| i < |h| && k < |h[i].contents| && Spans(h, i, k, t);
      var id := h[i].contents[k].id;
      LastIsLatest(h, Pos(i, k), id);
      assert Crosses(h, Last(h, Pos(i, k))[id], Pos(i, k), t);
    }
    if Crossed(h, t) {
      var q: Pos, p: Pos :| Crosses(h, q, p, t);
      LastFound(h, q, p);
      assert Spans(h, p.msg, p.part, t);
    }
  }

  lemma {:induction false} LastFound(h: seq<Message>, q: Pos, p: Pos)
    requires Answers(h, q, p)
    ensures var id := h[p.msg].contents[p.part].id; id in Last(h, p) && Last(h, p)[id] == q
  {
    var id := h[p.msg].contents[p.part].id;
    hide Last;
    LastIsLatest(h, p, id);
    assert IsCall(h, q, id) && q.Before(p);
  }

  /** A message goes exactly if its turn lies before the cut and no turn that calls and results bind it to is the latest
      or holds a protected call; two turns are bound if some answer crosses each gap between them. */
  lemma {:induction false} CutContract(h: seq<Message>, protected: set<Id>, s: nat, i: nat)
    requires i < |h|
    ensures Gone(h, protected, s, i) <==>
      TurnOf(h, i) < s && forall u: nat :: u < Turns(h) && Tied(h, TurnOf(h, i), u) ==> !Needed(h, protected, u)
  {
    hide SameUnit, Guarded, HoldsProtected, Tied;
    forall u: nat
      ensures SameUnit(h, TurnOf(h, i), u) <==> Tied(h, TurnOf(h, i), u)
      ensures Guarded(h, protected, u) <==> HoldsProtected(h, protected, u)
    {
      TiedIs(h, TurnOf(h, i), u);
      ProtectedIs(h, protected, u);
    }
  }

  lemma TiedIs(h: seq<Message>, a: nat, b: nat)
    ensures SameUnit(h, a, b) <==> Tied(h, a, b)
  {
    forall t: nat ensures Bound(h, t) <==> Crossed(h, t) {
      BoundContract(h, t);
    }
    hide Bound, Crossed;
  }

  lemma ProtectedIs(h: seq<Message>, protected: set<Id>, u: nat)
    ensures Guarded(h, protected, u) <==> HoldsProtected(h, protected, u)
  {
    if Guarded(h, protected, u) {
      var i: nat, k: nat :| i < |h| && k < |h[i].contents| && Protects(h, protected, i, k, u);
      assert Holds(h, protected, u, Pos(i, k));
    }
    if HoldsProtected(h, protected, u) {
      var p: Pos :| Holds(h, protected, u, p);
      assert Protects(h, protected, p.msg, p.part, u);
    }
  }

  /** Answers reach across every gap between turns a and b. */
  ghost predicate Tied(h: seq<Message>, a: nat, b: nat) {
    (forall t: nat :: a <= t < b ==> Crossed(h, t)) && (forall t: nat :: b <= t < a ==> Crossed(h, t))
  }

  ghost predicate Needed(h: seq<Message>, protected: set<Id>, u: nat) {
    u + 1 == Turns(h) || HoldsProtected(h, protected, u)
  }

  ghost predicate HoldsProtected(h: seq<Message>, protected: set<Id>, u: nat) {
    exists p: Pos :: Holds(h, protected, u, p)
  }

  predicate Holds(h: seq<Message>, protected: set<Id>, u: nat, p: Pos) {
    && p.msg < |h| && p.part < |h[p.msg].contents| && TurnOf(h, p.msg) == u
    && h[p.msg].contents[p.part].FunctionCall? && h[p.msg].contents[p.part].id in protected
  }
}
