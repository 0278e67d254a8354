/** The resolution algorithm, step by step over the advertised tools. */
module Resolve {
  import opened Basics
  import opened Versions
  import opened Catalog

  /** What the matching selectors say about one tool. */
  datatype Selection = Selection(class_: Class, alias: Id, fromOp: bool, approval: bool)

  const NOTHING := Selection(Unclassified, "", false, false)

  function Merge(prev: Option<Selection>, s: Selector): Selection {
    var p := if prev.Some? then prev.value else NOTHING;
    var q := p.(approval := p.approval || s.approvalRequired);
    if s.ops != [] then q.(class_ := s.effect, alias := s.alias, fromOp := true) else q
  }

  // ---------------------------------------------------------------- folding over the selectors

  function OpFold(j: Journey, tools: seq<Descriptor>, d: Descriptor, n: nat): Option<Selection>
    requires n <= |j.tools|
  {
    if n == 0 then None
    else
      var prev := OpFold(j, tools, d, n - 1);
      if OpChooses(j, j.tools[n - 1], tools, d) then Some(Merge(prev, j.tools[n - 1])) else prev
  }

  function TagFold(j: Journey, tools: seq<Descriptor>, d: Descriptor, n: nat): Option<Selection>
    requires n <= |j.tools|
  {
    if n == 0 then OpFold(j, tools, d, |j.tools|)
    else
      var prev := TagFold(j, tools, d, n - 1);
      if TagChooses(j, j.tools[n - 1], d) then Some(Merge(prev, j.tools[n - 1])) else prev
  }

  ghost predicate OpApproves(j: Journey, tools: seq<Descriptor>, d: Descriptor, n: nat)
    requires n <= |j.tools|
  {
    exists k :: 0 <= k < n && OpChooses(j, j.tools[k], tools, d) && j.tools[k].approvalRequired
  }

  lemma {:induction false} OpFoldIs(j: Journey, tools: seq<Descriptor>, d: Descriptor, n: nat)
    requires n <= |j.tools|
    ensures var f := OpFold(j, tools, d, n); var k := LastOp(j, tools, d, n);
      && (f.Some? <==> k >= 0)
      && (f.Some? ==> f.value.fromOp && f.value.alias == j.tools[k].alias && f.value.class_ == j.tools[k].effect
                      && (f.value.approval <==> OpApproves(j, tools, d, n)))
  {
    hide First;
    if n > 0 {
      OpFoldIs(j, tools, d, n - 1);
      var s := j.tools[n - 1];
      if OpChooses(j, s, tools, d) {
        assert s.ops != [];
      }
      assert OpApproves(j, tools, d, n) <==>
          OpApproves(j, tools, d, n - 1) || (OpChooses(j, s, tools, d) && s.approvalRequired);
    }
  }

  ghost predicate TagsPicked(j: Journey, d: Descriptor, n: nat, approving: bool)
    requires n <= |j.tools|
  {
    exists k :: 0 <= k < n && TagChooses(j, j.tools[k], d) && (approving ==> j.tools[k].approvalRequired)
  }

  /** Tags add tools and approvals, and never change what an op selector said. */
  lemma {:induction false} TagFoldIs(j: Journey, tools: seq<Descriptor>, d: Descriptor, n: nat)
    requires n <= |j.tools|
    ensures var f := TagFold(j, tools, d, n); var g := OpFold(j, tools, d, |j.tools|);
      && (f.Some? <==> g.Some? || TagsPicked(j, d, n, false))
      && (f.Some? ==> f.value.(approval := false) == (if g.Some? then g.value else NOTHING).(approval := false)
                      && (f.value.approval <==> (g.Some? && g.value.approval) || TagsPicked(j, d, n, true)))
  {
    hide OpFold;
    if n > 0 {
      TagFoldIs(j, tools, d, n - 1);
      var s := j.tools[n - 1];
      assert TagsPicked(j, d, n, false) <==> TagsPicked(j, d, n - 1, false) || TagChooses(j, s, d);
      assert TagsPicked(j, d, n, true) <==>
          TagsPicked(j, d, n - 1, true) || (TagChooses(j, s, d) && s.approvalRequired);
      hide TagsPicked;
    }
  }

  function Final(j: Journey, tools: seq<Descriptor>, d: Descriptor): Option<Selection> {
    TagFold(j, tools, d, |j.tools|)
  }

  function SelectedAlias(s: Selection, key: Id): Id {
    if s.fromOp && s.alias != "" then s.alias else AliasFor(key)
  }

  function SelectedClass(s: Selection): Class {
    if s.fromOp && !s.class_.Unclassified? then s.class_ else Effectful
  }

  function BuildTool(d: Descriptor, s: Selection): Tool {
    Tool(SelectedAlias(s, d.key), d.key, d.name, d.description, d.schema, SelectedClass(s), !SelectedClass(s).ReadOnly?
        || s.approval)
  }

  /** The folded selection is the one the definition of a selected tool describes. */
  lemma FinalIs(j: Journey, tools: seq<Descriptor>, d: Descriptor)
    ensures Final(j, tools, d).Some? <==> Chosen(j, tools, d)
    ensures Final(j, tools, d).Some? ==>
      SelectedAlias(Final(j, tools, d).value, d.key) == AliasOf(j, tools, d)
          && BuildTool(d, Final(j, tools, d).value) == ToolOf(j, tools, d)
  {
    var n := |j.tools|;
    OpFoldIs(j, tools, d, n);
    TagFoldIs(j, tools, d, n);
    hide OpFold, TagFold, OpChooses, TagChooses;
    var k := LastOp(j, tools, d, n);
    assert Chosen(j, tools, d) <==> k >= 0 || TagsPicked(j, d, n, false) by {
      if k >= 0 {
        assert Chooses(j, j.tools[k], tools, d);
      }
      if TagsPicked(j, d, n, false) {
        var m :| 0 <= m < n && TagChooses(j, j.tools[m], d);
        assert Chooses(j, j.tools[m], tools, d);
      }
      if Chosen(j, tools, d) {
        var m :| 0 <= m < n && Chooses(j, j.tools[m], tools, d);
        assert OpChooses(j, j.tools[m], tools, d) || TagChooses(j, j.tools[m], d);
      }
    }
    assert Approves(j, tools, d) <==> OpApproves(j, tools, d, n) || TagsPicked(j, d, n, true) by {
      if Approves(j, tools, d) {
        var m :| 0 <= m < n && Chooses(j, j.tools[m], tools, d) && j.tools[m].approvalRequired;
        assert OpChooses(j, j.tools[m], tools, d) || TagChooses(j, j.tools[m], d);
      }
      if OpApproves(j, tools, d, n) {
        var m :| 0 <= m < n && OpChooses(j, j.tools[m], tools, d) && j.tools[m].approvalRequired;
        assert Chooses(j, j.tools[m], tools, d);
      }
      if TagsPicked(j, d, n, true) {
        var m :| 0 <= m < n && TagChooses(j, j.tools[m], d) && (true ==> j.tools[m].approvalRequired);
        assert Chooses(j, j.tools[m], tools, d);
      }
    }
    if OpApproves(j, tools, d, n) {
      var m :| 0 <= m < n && OpChooses(j, j.tools[m], tools, d) && j.tools[m].approvalRequired;
      assert k >= 0;
    }
  }

  // ---------------------------------------------------------------- op selectors

  predicate Keyed(j: Journey, tools: seq<Descriptor>, keys: seq<Id>) {
    |keys| == |tools| && forall i :: 0 <= i < |tools| ==> keys[i] == if Usable(j, tools[i]) then tools[i].key else ""
  }

  method IndexKeys(j: Journey, tools: seq<Descriptor>) returns (keys: seq<Id>)
    ensures Keyed(j, tools, keys)
  {
    keys := [];
    while |keys| < |tools|
      invariant |keys| <= |tools|
        && forall i :: 0 <= i < |keys| ==> keys[i] == if Usable(j, tools[i]) then tools[i].key else ""
    {
      var d := tools[|keys|];
      keys := keys + [if d.key != "" && d.key !in j.deny then d.key else ""];
    }
  }

  method Offers(j: Journey, s: Selector, op: Id, tools: seq<Descriptor>, keys: seq<Id>) returns (found: seq<nat>)
    requires Keyed(j, tools, keys) && op != ""
    ensures |found| == Candidates(j, s, op, tools)
    ensures forall i: nat :: i in found <==> i < |tools| && Candidate(j, s, op, tools[i])
  {
    found := [];
    var i := 0;
    while i < |tools|
      invariant 0 <= i <= |tools| && |found| == Count(tools[..i], d => Candidate(j, s, op, d))
      invariant forall k: nat :: k in found <==> k < i && Candidate(j, s, op, tools[k])
    {
      assert tools[..i + 1][..i] == tools[..i];
      if keys[i] == op && (!s.readOnlyHint || tools[i].readOnlyHint) {
        found := found + [i];
      }
      i := i + 1;
    }
    assert tools[..i] == tools;
  }

  datatype Pick = Found(i: nat) | Doubtful(op: Id) | Absent

  /** The first alternative with a candidate decides. */
  method TryOps(j: Journey, s: Selector, tools: seq<Descriptor>, keys: seq<Id>) returns (pick: Pick)
    requires Keyed(j, tools, keys) && s.ops != []
    ensures pick.Found? ==> pick.i < |tools| && OpChooses(j, s, tools, tools[pick.i])
    ensures pick.Found? ==> forall k :: 0 <= k < |tools| && OpChooses(j, s, tools, tools[k]) ==> k == pick.i
    ensures !pick.Found? ==> forall d :: !OpChooses(j, s, tools, d)
    ensures forall op :: DoubtfulAt(j, s, tools, op) <==> pick == Doubtful(op)
    ensures pick.Absent? <==> MissesAt(j, s, tools, s.ops[0])
  {
    hide Candidates, Candidate;
    var k := 0;
    while k < |s.ops|
      invariant 0 <= k <= |s.ops| && FirstFrom(j, s, tools, k) == First(j, s, tools)
    {
      var op := s.ops[k];
      var found: seq<nat> := [];
      NoEmptyKey(j, s, tools);
      if op != "" {
        found := Offers(j, s, op, tools, keys);
      }
      if |found| == 1 {
        assert found[0] in found && forall i :: i in found ==> i == found[0];
        return Found(found[0]);
      }
      if |found| > 1 {
        return Doubtful(op);
      }
      k := k + 1;
    }
    return Absent;
  }

  lemma NoEmptyKey(j: Journey, s: Selector, tools: seq<Descriptor>)
    ensures Candidates(j, s, "", tools) == 0
  {
    CountZero(tools, d => Candidate(j, s, "", d));
  }

  function Add(rs: seq<Unavailable>, u: Unavailable): seq<Unavailable> {
    if u in rs then rs else rs + [u]
  }

  predicate OpReason(j: Journey, s: Selector, tools: seq<Descriptor>, u: Unavailable) {
    match u.reason
    case Missing => MissesAt(j, s, tools, u.operation)
    case Ambiguous => DoubtfulAt(j, s, tools, u.operation)
    case _ => false
  }

  predicate OpReasons(j: Journey, tools: seq<Descriptor>, n: nat, u: Unavailable)
    requires n <= |j.tools|
  {
    exists k :: 0 <= k < n && OpReason(j, j.tools[k], tools, u)
  }

  ghost predicate OpsTracked(j: Journey, tools: seq<Descriptor>, n: nat, selected: map<nat, Selection>) {
    && n <= |j.tools| && (forall i :: i in selected ==> i < |tools|)
    && forall i {:trigger i in selected} :: 0 <= i < |tools| ==>
         && (i in selected <==> OpFold(j, tools, tools[i], n).Some?)
         && (i in selected ==> selected[i] == OpFold(j, tools, tools[i], n).value)
  }

  method ChooseOps(j: Journey, tools: seq<Descriptor>, keys: seq<Id>)
    returns (selected: map<nat, Selection>, reasons: seq<Unavailable>)
    requires Keyed(j, tools, keys)
    ensures OpsTracked(j, tools, |j.tools|, selected)
    ensures Distinct(reasons) && forall u :: u in reasons <==> OpReasons(j, tools, |j.tools|, u)
  {
    hide OpChooses, MissesAt, DoubtfulAt, First;
    selected, reasons := map[], [];
    var n := 0;
    while n < |j.tools|
      invariant 0 <= n <= |j.tools| && OpsTracked(j, tools, n, selected)
      invariant Distinct(reasons) && forall u :: u in reasons <==> OpReasons(j, tools, n, u)
    {
      var s := j.tools[n];
      ghost var was, given := selected, reasons;
      if s.ops == [] {
        NoOps(j, s, tools);
      } else {
        MissesFirst(j, s, tools);
        var pick := TryOps(j, s, tools, keys);
        match pick {
          case Found(i) => selected := selected[i := Merge(if i in selected then Some(selected[i]) else None, s)];
          case Doubtful(op) => reasons := Add(reasons, Unavailable(Ambiguous, op));
          case Absent => reasons := Add(reasons, Unavailable(Missing, s.ops[0]));
        }
      }
      assert OpsTracked(j, tools, n + 1, selected) by {
        forall i | 0 <= i < |tools|
          ensures i in selected <==> OpFold(j, tools, tools[i], n + 1).Some?
          ensures i in selected ==> selected[i] == OpFold(j, tools, tools[i], n + 1).value
        {
          assert i in was <==> OpFold(j, tools, tools[i], n).Some?;
        }
      }
      forall u ensures u in reasons <==> OpReasons(j, tools, n + 1, u) {
        assert OpReasons(j, tools, n + 1, u) <==> OpReasons(j, tools, n, u) || OpReason(j, s, tools, u);
      }
      n := n + 1;
    }
  }

  lemma NoOps(j: Journey, s: Selector, tools: seq<Descriptor>)
    requires s.ops == []
    ensures (forall d :: !OpChooses(j, s, tools, d)) && (forall u :: !OpReason(j, s, tools, u))
  {
  }

  lemma MissesFirst(j: Journey, s: Selector, tools: seq<Descriptor>)
    requires s.ops != []
    ensures forall op :: MissesAt(j, s, tools, op) <==> op == s.ops[0] && MissesAt(j, s, tools, s.ops[0])
  {
  }

  // ---------------------------------------------------------------- tag selectors

  /** Selectors before n have seen every tool; selector n has seen the first m. */
  function FoldAt(j: Journey, tools: seq<Descriptor>, n: nat, m: nat, i: nat): Option<Selection>
    requires i < |tools| && n <= |j.tools| && (n == |j.tools| ==> m == 0)
  {
    TagFold(j, tools, tools[i], if i < m then n + 1 else n)
  }

  ghost predicate TagsTracked(j: Journey, tools: seq<Descriptor>, n: nat, m: nat, selected: map<nat, Selection>) {
    && n <= |j.tools| && (n == |j.tools| ==> m == 0) && (forall i :: i in selected ==> i < |tools|)
    && forall i {:trigger i in selected} :: 0 <= i < |tools| ==>
         && (i in selected <==> FoldAt(j, tools, n, m, i).Some?)
         && (i in selected ==> selected[i] == FoldAt(j, tools, n, m, i).value)
  }

  lemma TagsNext(j: Journey, tools: seq<Descriptor>, n: nat, selected: map<nat, Selection>)
    requires n < |j.tools| && TagsTracked(j, tools, n, |tools|, selected)
    ensures TagsTracked(j, tools, n + 1, 0, selected)
  {
    hide TagFold;
  }

  lemma TagsSkipped(j: Journey, tools: seq<Descriptor>, n: nat, selected: map<nat, Selection>)
    requires n < |j.tools| && TagsTracked(j, tools, n, 0, selected) && (j.tools[n].ops != [] || j.tools[n].tags == [])
    ensures TagsTracked(j, tools, n + 1, 0, selected)
  {
    hide OpFold;
    forall i | 0 <= i < |tools| ensures FoldAt(j, tools, n + 1, 0, i) == FoldAt(j, tools, n, 0, i) {
    }
  }

  method ChooseTags(j: Journey, tools: seq<Descriptor>, keys: seq<Id>, chosen: map<nat, Selection>)
    returns (selected: map<nat, Selection>)
    requires Keyed(j, tools, keys) && OpsTracked(j, tools, |j.tools|, chosen)
    ensures TagsTracked(j, tools, |j.tools|, 0, selected)
  {
    hide OpFold, TagFold, TagsTracked;
    selected := chosen;
    TagsStart(j, tools, selected);
    var n := 0;
    while n < |j.tools|
      invariant 0 <= n <= |j.tools| && TagsTracked(j, tools, n, 0, selected)
    {
      var s := j.tools[n];
      if s.ops != [] || s.tags == [] {
        TagsSkipped(j, tools, n, selected);
      } else {
        var m := 0;
        while m < |tools|
          invariant 0 <= m <= |tools| && TagsTracked(j, tools, n, m, selected)
        {
          var d := tools[m];
          ghost var was := selected;
          if keys[m] != "" && (!s.readOnlyHint || d.readOnlyHint) && forall t :: t in s.tags ==> t in d.tags {
            selected := selected[m := Merge(if m in selected then Some(selected[m]) else None, s)];
          }
          TagStep(j, tools, n, m, was, selected);
          m := m + 1;
        }
        TagsNext(j, tools, n, selected);
      }
      n := n + 1;
    }
  }

  lemma TagsStart(j: Journey, tools: seq<Descriptor>, selected: map<nat, Selection>)
    requires OpsTracked(j, tools, |j.tools|, selected)
    ensures TagsTracked(j, tools, 0, 0, selected)
  {
    hide OpFold;
  }

  lemma TagStep(j: Journey, tools: seq<Descriptor>, n: nat, m: nat, was: map<nat, Selection>, now: map<nat, Selection>)
    requires n < |j.tools| && m < |tools| && TagsTracked(j, tools, n, m, was)
    requires now == if TagChooses(j, j.tools[n], tools[m]) then
        was[m := Merge(if m in was then Some(was[m]) else None, j.tools[n])] else was
    ensures TagsTracked(j, tools, n, m + 1, now)
  {
    hide OpFold, TagChooses;
    forall i | 0 <= i < |tools|
      ensures i in now <==> FoldAt(j, tools, n, m + 1, i).Some?
      ensures i in now ==> now[i] == FoldAt(j, tools, n, m + 1, i).value
    {
      assert i in was <==> FoldAt(j, tools, n, m, i).Some?;
    }
  }

  // ---------------------------------------------------------------- checks on what was selected

  /** The positions selected and what was said about each. */
  ghost predicate Picked(j: Journey, tools: seq<Descriptor>, selected: map<nat, Selection>) {
    && (forall i :: i in selected ==> i < |tools|)
    && forall i {:trigger i in selected} :: 0 <= i < |tools| ==>
         && (i in selected <==> Chosen(j, tools, tools[i]))
         && (i in selected ==> SelectedAlias(selected[i], tools[i].key) == AliasOf(j, tools, tools[i])
                               && BuildTool(tools[i], selected[i]) == ToolOf(j, tools, tools[i]) && Usable(j, tools[i]))
  }

  lemma AllPicked(j: Journey, tools: seq<Descriptor>, selected: map<nat, Selection>)
    requires TagsTracked(j, tools, |j.tools|, 0, selected)
    ensures Picked(j, tools, selected)
  {
    forall i | 0 <= i < |tools|
      ensures i in selected <==> Chosen(j, tools, tools[i])
      ensures i in selected ==> SelectedAlias(selected[i], tools[i].key) == AliasOf(j, tools, tools[i])
                                && BuildTool(tools[i], selected[i]) == ToolOf(j, tools, tools[i]) && Usable(j, tools[i])
    {
      hide TagFold, Chosen, AliasOf, ToolOf, BuildTool, SelectedAlias;
      FinalIs(j, tools, tools[i]);
      if Chosen(j, tools, tools[i]) {
        ChosenUsable(j, tools, tools[i]);
      }
    }
  }

  lemma KeyPositions(j: Journey, tools: seq<Descriptor>, keys: seq<Id>, selected: map<nat, Selection>, key: Id)
    requires Keyed(j, tools, keys) && Picked(j, tools, selected) && key != ""
    ensures KeyCount(j, tools, key) == |set i | i in selected && i < |keys| && keys[i] == key|
  {
    hide Chosen, AliasOf, ToolOf, BuildTool, SelectedAlias;
    var p := (d: Descriptor) => Chosen(j, tools, d) && d.key == key;
    PositionsCount(tools, p, |tools|);
    assert tools[..|tools|] == tools;
    var indexes := set i | i in selected && i < |keys| && keys[i] == key;
    forall i: nat ensures i in Positions(tools, p, |tools|) <==> i in indexes {
      assert i < |tools| ==> (i in selected <==> Chosen(j, tools, tools[i]));
    }
    assert Positions(tools, p, |tools|) == indexes;
  }

  lemma NoKeyCount(j: Journey, tools: seq<Descriptor>, key: Id)
    requires forall d :: d in tools && Chosen(j, tools, d) ==> d.key != key
    ensures KeyCount(j, tools, key) == 0
  {
    hide Chosen;
    CountZero(tools, d => Chosen(j, tools, d) && d.key == key);
  }

  lemma AllCounted(j: Journey, tools: seq<Descriptor>, selected: map<nat, Selection>)
    requires Picked(j, tools, selected)
    ensures ChosenCount(j, tools) == |selected|
  {
    hide Chosen, AliasOf, ToolOf, BuildTool, SelectedAlias;
    var p := (d: Descriptor) => Chosen(j, tools, d);
    PositionsCount(tools, p, |tools|);
    assert tools[..|tools|] == tools;
    assert Positions(tools, p, |tools|) == selected.Keys;
  }

  /** Two different remote tools for one operation key are ambiguous. */
  method CheckKeys(j: Journey, tools: seq<Descriptor>, keys: seq<Id>, selected: map<nat, Selection>,
      given: seq<Unavailable>) returns (reasons: seq<Unavailable>)
    requires Keyed(j, tools, keys) && Picked(j, tools, selected) && Distinct(given)
    ensures Distinct(reasons)
    ensures forall u :: u in reasons <==> u in given || (u.reason == Ambiguous && KeyCount(j, tools, u.operation) > 1)
  {
    hide Chosen, AliasOf, ToolOf, BuildTool, SelectedAlias, KeyCount;
    reasons := given;
    var all := set i | i in selected && i < |keys| :: keys[i];
    var todo := all;
    while todo != {}
      invariant todo <= all && Distinct(reasons)
      invariant forall u :: u in reasons <==>
        u in given || (u.reason == Ambiguous && u.operation in all && u.operation !in todo
            && KeyCount(j, tools, u.operation) > 1)
      decreases |todo|
    {
      var key :| key in todo;
      KeyPositions(j, tools, keys, selected, key);
      var indexes := set i | i in selected && i < |keys| && keys[i] == key;
      if |indexes| > 1 {
        reasons := Add(reasons, Unavailable(Ambiguous, key));
      }
      todo := todo - {key};
    }
    forall key | key !in all ensures KeyCount(j, tools, key) == 0 {
      forall d | d in tools && Chosen(j, tools, d) ensures d.key != key {
        var i: nat :| i < |tools| && tools[i] == d;
        assert i in selected && keys[i] in all;
      }
      NoKeyCount(j, tools, key);
    }
  }

  // ---------------------------------------------------------------- aliases

  function AliasAt(tools: seq<Descriptor>, selected: map<nat, Selection>, i: nat): Id
    requires i in selected && i < |tools|
  {
    SelectedAlias(selected[i], tools[i].key)
  }

  ghost predicate Within(tools: seq<Descriptor>, selected: map<nat, Selection>, done: set<nat>) {
    done <= selected.Keys && forall i :: i in selected ==> i < |tools|
  }

  /** The alias reasons of the positions looked at so far. */
  ghost predicate AliasReason(tools: seq<Descriptor>, selected: map<nat, Selection>, done: set<nat>, u: Unavailable)
    requires Within(tools, selected, done)
  {
    match u.reason
    case InvalidAlias => exists i ::
        i in done && tools[i].key == u.operation && !ValidAlias(AliasAt(tools, selected, i))
    case Collision =>
      ValidAlias(u.operation) &&
      if Reserved(u.operation) then exists i :: i in done && AliasAt(tools, selected, i) == u.operation
      else exists i, k ::
          i in done && k in done && AliasAt(tools, selected, i) == u.operation == AliasAt(tools, selected, k)
          && tools[i].key != tools[k].key
    case _ => false
  }

  /** Who was last seen under each alias; an alias with two keys has been reported. */
  ghost predicate Owners(tools: seq<Descriptor>, selected: map<nat, Selection>, done: set<nat>, owner: map<Id, Id>,
      reasons: seq<Unavailable>)
    requires Within(tools, selected, done)
  {
    && (forall a :: a in owner ==> ValidAlias(a) && !Reserved(a)
                                   && exists i :: i in done && AliasAt(tools, selected, i) == a
                                       && tools[i].key == owner[a])
    && (forall i :: i in done && ValidAlias(AliasAt(tools, selected, i)) && !Reserved(AliasAt(tools, selected, i)) ==>
          var a := AliasAt(tools, selected, i);
          a in owner && (owner[a] == tools[i].key || Unavailable(Collision, a) in reasons))
  }

  ghost predicate AliasesChecked(tools: seq<Descriptor>, selected: map<nat, Selection>, done: set<nat>,
      given: seq<Unavailable>, reasons: seq<Unavailable>)
    requires Within(tools, selected, done)
  {
    Distinct(reasons) && forall u :: u in reasons <==> u in given || AliasReason(tools, selected, done, u)
  }

  lemma MoreAliases(tools: seq<Descriptor>, selected: map<nat, Selection>, done: set<nat>, i: nat, u: Unavailable)
    requires Within(tools, selected, done + {i})
    ensures AliasReason(tools, selected, done + {i}, u) <==>
      || AliasReason(tools, selected, done, u)
      || (u.reason == InvalidAlias && tools[i].key == u.operation && !ValidAlias(AliasAt(tools, selected, i)))
      || (u.reason == Collision && ValidAlias(u.operation) && AliasAt(tools, selected, i) == u.operation
          && (Reserved(u.operation) || exists k ::
              k in done && AliasAt(tools, selected, k) == u.operation && tools[k].key != tools[i].key))
  {
    hide ValidAlias, AliasAt, Reserved;
  }

  /** Aliases must be valid, unreserved and unique within the journey. */
  method CheckAliases(tools: seq<Descriptor>, selected: map<nat, Selection>, given: seq<Unavailable>)
    returns (reasons: seq<Unavailable>)
    requires (forall i :: i in selected ==> i < |tools|) && Distinct(given)
      && forall u :: u in given ==> u.reason == Missing || u.reason == Ambiguous
    ensures AliasesChecked(tools, selected, selected.Keys, given, reasons)
  {
    hide ValidAlias, SelectedAlias, Reserved, AliasReason;
    reasons := given;
    var owner: map<Id, Id> := map[];
    ghost var done: set<nat> := {};
    var todo := selected.Keys;
    NoAliases(tools, selected);
    while todo != {}
      invariant done == selected.Keys - todo && todo <= selected.Keys
      invariant AliasesChecked(tools, selected, done, given, reasons) && Owners(tools, selected, done, owner, reasons)
      decreases |todo|
    {
      var i :| i in todo;
      ghost var was, before := reasons, owner;
      var key, alias := tools[i].key, SelectedAlias(selected[i], tools[i].key);
      if !ValidAlias(alias) {
        reasons := Add(reasons, Unavailable(InvalidAlias, key));
      } else if Reserved(alias) {
        reasons := Add(reasons, Unavailable(Collision, alias));
      } else {
        if alias in owner && owner[alias] != key {
          reasons := Add(reasons, Unavailable(Collision, alias));
        }
        owner := owner[alias := key];
      }
      AliasStep(tools, selected, done, i, given, was, reasons, before, owner);
      todo := todo - {i};
      done := done + {i};
    }
    assert done == selected.Keys;
  }

  lemma NoAliases(tools: seq<Descriptor>, selected: map<nat, Selection>)
    requires forall i :: i in selected ==> i < |tools|
    ensures forall u :: !AliasReason(tools, selected, {}, u)
  {
  }

  /** What one position does to the reasons and the owners. */
  ghost predicate AliasMove(tools: seq<Descriptor>, selected: map<nat, Selection>, i: nat, was: seq<Unavailable>,
      now: seq<Unavailable>, before: map<Id, Id>, after: map<Id, Id>)
    requires i in selected && i < |tools|
  {
    var key, alias := tools[i].key, SelectedAlias(selected[i], tools[i].key);
    if !ValidAlias(alias) then now == Add(was, Unavailable(InvalidAlias, key)) && after == before
    else if Reserved(alias) then now == Add(was, Unavailable(Collision, alias)) && after == before
    else
      && now == (if alias in before && before[alias] != key then Add(was, Unavailable(Collision, alias)) else was)
      && after == before[alias := key]
  }

  lemma AliasStep(tools: seq<Descriptor>, selected: map<nat, Selection>, done: set<nat>, i: nat,
      given: seq<Unavailable>,
      was: seq<Unavailable>, now: seq<Unavailable>, before: map<Id, Id>, after: map<Id, Id>)
    requires Within(tools, selected, done + {i}) && AliasMove(tools, selected, i, was, now, before, after)
    requires AliasesChecked(tools, selected, done, given, was) && Owners(tools, selected, done, before, was)
    requires forall u :: u in given ==> u.reason == Missing || u.reason == Ambiguous
    ensures AliasesChecked(tools, selected, done + {i}, given, now) && Owners(tools, selected, done + {i}, after, now)
  {
    ReasonStep(tools, selected, done, i, given, was, now, before, after);
    OwnerStep(tools, selected, done, i, was, now, before, after);
  }

  lemma OwnerStep(tools: seq<Descriptor>, selected: map<nat, Selection>, done: set<nat>, i: nat,
                  was: seq<Unavailable>, now: seq<Unavailable>, before: map<Id, Id>, after: map<Id, Id>)
    requires Within(tools, selected, done + {i}) && AliasMove(tools, selected, i, was, now, before, after)
    requires Owners(tools, selected, done, before, was)
    ensures Owners(tools, selected, done + {i}, after, now)
  {
    hide ValidAlias, SelectedAlias, Reserved;
    var key, alias := tools[i].key, AliasAt(tools, selected, i);
    forall a | a in after
      ensures ValidAlias(a) && !Reserved(a)
      ensures exists k :: k in done + {i} && AliasAt(tools, selected, k) == a && tools[k].key == after[a]
    {
      if a == alias && ValidAlias(alias) && !Reserved(alias) {
        assert i in done + {i};
      } else {
        var k :| k in done && AliasAt(tools, selected, k) == a && tools[k].key == before[a];
        assert k in done + {i};
      }
    }
  }

  lemma ReasonStep(tools: seq<Descriptor>, selected: map<nat, Selection>, done: set<nat>, i: nat,
      given: seq<Unavailable>,
      was: seq<Unavailable>, now: seq<Unavailable>, before: map<Id, Id>, after: map<Id, Id>)
    requires Within(tools, selected, done + {i}) && AliasMove(tools, selected, i, was, now, before, after)
    requires AliasesChecked(tools, selected, done, given, was) && Owners(tools, selected, done, before, was)
    requires forall u :: u in given ==> u.reason == Missing || u.reason == Ambiguous
    ensures AliasesChecked(tools, selected, done + {i}, given, now)
  {
    hide ValidAlias, SelectedAlias, Reserved, AliasReason;
    var key, alias := tools[i].key, AliasAt(tools, selected, i);
    forall u ensures u in now <==> u in given || AliasReason(tools, selected, done + {i}, u) {
      MoreAliases(tools, selected, done, i, u);
      assert u in was <==> u in given || AliasReason(tools, selected, done, u);
      if u == Unavailable(Collision, alias) && ValidAlias(alias) && !Reserved(alias) {
        Seen(tools, selected, done, before, was, i);
      }
    }
  }

  /** An alias seen under another key is reported now, or was reported before. */
  lemma Seen(tools: seq<Descriptor>, selected: map<nat, Selection>, done: set<nat>, owner: map<Id, Id>,
      reasons: seq<Unavailable>, i: nat)
    requires Within(tools, selected, done + {i}) && Owners(tools, selected, done, owner, reasons)
    requires ValidAlias(AliasAt(tools, selected, i)) && !Reserved(AliasAt(tools, selected, i))
    ensures var a := AliasAt(tools, selected, i);
      && ((exists k :: k in done && AliasAt(tools, selected, k) == a && tools[k].key != tools[i].key) ==>
            (a in owner && owner[a] != tools[i].key) || Unavailable(Collision, a) in reasons)
      && (a in owner && owner[a] != tools[i].key ==>
            exists k :: k in done && AliasAt(tools, selected, k) == a && tools[k].key != tools[i].key)
  {
    hide ValidAlias, SelectedAlias, Reserved;
    var a := AliasAt(tools, selected, i);
    if a in owner && owner[a] != tools[i].key {
      var k :| k in done && AliasAt(tools, selected, k) == a && tools[k].key == owner[a];
    }
  }

  // ---------------------------------------------------------------- the resolution

  /** At the end the alias reasons are those of the journey. */
  lemma AliasesDone(j: Journey, tools: seq<Descriptor>, selected: map<nat, Selection>, u: Unavailable)
    requires Picked(j, tools, selected) && (u.reason == InvalidAlias || u.reason == Collision)
    ensures AliasReason(tools, selected, selected.Keys, u) <==> HasReason(j, tools, u)
  {
    hide Chosen, AliasOf, ToolOf, BuildTool, SelectedAlias, ValidAlias, Reserved;
    if AliasReason(tools, selected, selected.Keys, u) {
      ReasonGiven(j, tools, selected, u);
    }
    if HasReason(j, tools, u) {
      ReasonFound(j, tools, selected, u);
    }
  }

  lemma At(j: Journey, tools: seq<Descriptor>, selected: map<nat, Selection>, i: nat)
    requires Picked(j, tools, selected) && i in selected
    ensures i < |tools| && tools[i] in tools && Chosen(j, tools, tools[i])
      && AliasAt(tools, selected, i) == AliasOf(j, tools, tools[i])
  {
    hide Chosen, AliasOf, ToolOf, BuildTool;
  }

  lemma ReasonGiven(j: Journey, tools: seq<Descriptor>, selected: map<nat, Selection>, u: Unavailable)
    requires Picked(j, tools, selected) && (u.reason == InvalidAlias || u.reason == Collision)
    requires AliasReason(tools, selected, selected.Keys, u)
    ensures HasReason(j, tools, u)
  {
    hide Chosen, AliasOf, AliasAt, ValidAlias, Reserved, ToolOf, BuildTool;
    if u.reason == InvalidAlias {
      var i :| i in selected.Keys && tools[i].key == u.operation && !ValidAlias(AliasAt(tools, selected, i));
      At(j, tools, selected, i);
    } else if Reserved(u.operation) {
      var i :| i in selected.Keys && AliasAt(tools, selected, i) == u.operation;
      At(j, tools, selected, i);
      assert Named(j, tools, u.operation, tools[i]);
    } else {
      var i, k :| i in selected.Keys && k in selected.Keys
          && AliasAt(tools, selected, i) == u.operation == AliasAt(tools, selected, k) && tools[i].key != tools[k].key;
      At(j, tools, selected, i);
      At(j, tools, selected, k);
      assert Named(j, tools, u.operation, tools[i]) && Named(j, tools, u.operation, tools[k]);
    }
  }

  lemma Where(j: Journey, tools: seq<Descriptor>, selected: map<nat, Selection>, d: Descriptor) returns (i: nat)
    requires Picked(j, tools, selected) && d in tools && Chosen(j, tools, d)
    ensures i in selected && i < |tools| && tools[i] == d && AliasAt(tools, selected, i) == AliasOf(j, tools, d)
  {
    hide Chosen, AliasOf, ToolOf, BuildTool;
    i :| i < |tools| && tools[i] == d;
    assert i in selected;
  }

  lemma ReasonFound(j: Journey, tools: seq<Descriptor>, selected: map<nat, Selection>, u: Unavailable)
    requires Picked(j, tools, selected) && (u.reason == InvalidAlias || u.reason == Collision)
    requires HasReason(j, tools, u)
    ensures AliasReason(tools, selected, selected.Keys, u)
  {
    hide Chosen, AliasOf, AliasAt, ValidAlias, Reserved, ToolOf, BuildTool;
    if u.reason == InvalidAlias {
      var d :| d in tools && Chosen(j, tools, d) && d.key == u.operation && !ValidAlias(AliasOf(j, tools, d));
      var i := Where(j, tools, selected, d);
    } else if Reserved(u.operation) {
      var d :| d in tools && Named(j, tools, u.operation, d);
      var i := Where(j, tools, selected, d);
    } else {
      var d, e :| d in tools && e in tools && Named(j, tools, u.operation, d) && Named(j, tools, u.operation, e)
          && d.key != e.key;
      var i := Where(j, tools, selected, d);
      var k := Where(j, tools, selected, e);
    }
  }

  /** Op reasons are the missing and ambiguous operations of the journey. */
  lemma OpReasonsDone(j: Journey, tools: seq<Descriptor>, u: Unavailable)
    ensures OpReasons(j, tools, |j.tools|, u) <==>
      (u.reason == Missing && MissingOp(j, tools, u.operation))
          || (u.reason == Ambiguous && AmbiguousOp(j, tools, u.operation))
  {
    hide MissesAt, DoubtfulAt;
    if u.reason == Missing && MissingOp(j, tools, u.operation) {
      var k :| 0 <= k < |j.tools| && MissesAt(j, j.tools[k], tools, u.operation);
      assert OpReason(j, j.tools[k], tools, u);
    }
    if u.reason == Ambiguous && AmbiguousOp(j, tools, u.operation) {
      var k :| 0 <= k < |j.tools| && DoubtfulAt(j, j.tools[k], tools, u.operation);
      assert OpReason(j, j.tools[k], tools, u);
    }
  }

  method Insert(tools: seq<Tool>, t: Tool) returns (r: seq<Tool>)
    requires ByAlias(tools)
    ensures ByAlias(r) && |r| == |tools| + 1 && (forall x :: x in r <==> x in tools || x == t)
    ensures Distinct(tools) && t !in tools ==> Distinct(r)
  {
    hide CompareText, ByAlias, Distinct;
    var i := |tools|;
    while i > 0 && CompareText(tools[i - 1].alias, t.alias) > 0
      invariant 0 <= i <= |tools| && forall k :: i <= k < |tools| ==> CompareText(t.alias, tools[k].alias) <= 0
    {
      TextMirrored(tools[i - 1].alias, t.alias);
      i := i - 1;
    }
    r := tools[..i] + [t] + tools[i..];
    Inserted(tools, t, i);
    MembersInsert(tools, t, i);
    if Distinct(tools) && t !in tools {
      DistinctInsert(tools, t, i);
    }
  }

  lemma Inserted(tools: seq<Tool>, t: Tool, i: nat)
    requires ByAlias(tools) && i <= |tools| && (i > 0 ==> CompareText(tools[i - 1].alias, t.alias) <= 0)
    requires forall k :: i <= k < |tools| ==> CompareText(t.alias, tools[k].alias) <= 0
    ensures ByAlias(tools[..i] + [t] + tools[i..])
  {
    hide CompareText;
    forall k | 0 <= k < i ensures CompareText(tools[k].alias, t.alias) <= 0 {
      if k < i - 1 {
        TextTransitive(tools[k].alias, tools[i - 1].alias, t.alias);
      }
    }
  }

  lemma TextMirrored(a: string, b: string)
    ensures CompareText(a, b) == -CompareText(b, a)
  {
    CharsOrdered();
    Mirrored(a, b, CompareChars);
  }

  lemma TextTransitive(a: string, b: string, c: string)
    requires CompareText(a, b) <= 0 && CompareText(b, c) <= 0
    ensures CompareText(a, c) <= 0
  {
    CharsOrdered();
    Transitive(a, b, c, CompareChars);
  }

  /** Without ambiguity, different positions give different tools. */
  method Build(j: Journey, tools: seq<Descriptor>, selected: map<nat, Selection>) returns (built: seq<Tool>)
    requires Picked(j, tools, selected) && forall key :: !HasReason(j, tools, Unavailable(Ambiguous, key))
    ensures ByAlias(built) && Distinct(built) && |built| == |selected|
    ensures forall t :: t in built <==> exists i :: i in selected && t == ToolOf(j, tools, tools[i])
  {
    hide Chosen, AliasOf, ToolOf, SelectedAlias, HasReason, ByAlias;
    built := [];
    NoTools();
    var todo := selected.Keys;
    while todo != {}
      invariant todo <= selected.Keys && ByAlias(built) && Distinct(built) && |built| == |selected| - |todo|
      invariant forall t :: t in built <==> exists i :: i in selected && i !in todo && t == ToolOf(j, tools, tools[i])
      decreases |todo|
    {
      var i :| i in todo;
      var t := BuildTool(tools[i], selected[i]);
      assert t !in built by {
        if t in built {
          var k :| k in selected && k !in todo && t == ToolOf(j, tools, tools[k]);
          SameToolSamePlace(j, tools, selected, i, k);
        }
      }
      built := Insert(built, t);
      ghost var before := todo;
      todo := todo - {i};
      forall x ensures x in built <==> exists k :: k in selected && k !in todo && x == ToolOf(j, tools, tools[k]) {
        if x == t {
          assert i in selected && i !in todo;
        }
      }
    }
  }

  lemma NoTools()
    ensures ByAlias([])
  {
  }

  lemma SameToolSamePlace(j: Journey, tools: seq<Descriptor>, selected: map<nat, Selection>, i: nat, k: nat)
    requires Picked(j, tools, selected) && i in selected && k in selected && i != k
    requires ToolOf(j, tools, tools[i]) == ToolOf(j, tools, tools[k])
    ensures exists key :: HasReason(j, tools, Unavailable(Ambiguous, key))
  {
    hide Chosen, AliasOf, SelectedAlias, AmbiguousOp, BuildTool, ToolOf, Count;
    var key := tools[i].key;
    ToolIs(j, tools, tools[i]);
    ToolIs(j, tools, tools[k]);
    var p := (d: Descriptor) => Chosen(j, tools, d) && d.key == key;
    PositionsCount(tools, p, |tools|);
    assert tools[..|tools|] == tools;
    var all := Positions(tools, p, |tools|);
    assert {i, k} <= all;
    assert |all - {i, k}| == |all| - 2;
    assert HasReason(j, tools, Unavailable(Ambiguous, key));
  }

  /** Resolves the journey against the advertised tools. */
  method ResolveJourney(j: Journey, version: string, tools: seq<Descriptor>) returns (r: Resolution)
    ensures Resolves(j, version, tools, r)
  {
    hide Chosen, AliasOf, ToolOf, ChosenCount, KeyCount, MissingOp, AmbiguousOp, BadAlias, Collides, Contains;
    hide OpReasons, ByAlias, TagsTracked, OpsTracked;
    if !(j.versions.min == "" && j.versions.maxExclusive == "") && !Contains(j.versions, version) {
      return Resolution(j.id, [], [Unavailable(Version, "")]);
    }
    var keys := IndexKeys(j, tools);
    var selected, reasons := ChooseOps(j, tools, keys);
    selected := ChooseTags(j, tools, keys, selected);
    AllPicked(j, tools, selected);
    forall u ensures OpReasons(j, tools, |j.tools|, u) <==>
      (u.reason == Missing && MissingOp(j, tools, u.operation))
          || (u.reason == Ambiguous && AmbiguousOp(j, tools, u.operation))
    {
      OpReasonsDone(j, tools, u);
    }
    reasons := CheckKeys(j, tools, keys, selected, reasons);
    ghost var given := reasons;
    reasons := CheckAliases(tools, selected, reasons);
    AllCounted(j, tools, selected);
    if |selected| > (if j.maxTools <= 0 then DEFAULT_MAX else j.maxTools) {
      reasons := Add(reasons, Unavailable(MaxTools, ""));
    }
    forall u ensures u in reasons <==> HasReason(j, tools, u) {
      if u.reason == InvalidAlias || u.reason == Collision {
        AliasesDone(j, tools, selected, u);
      }
    }
    if |reasons| > 0 {
      return Resolution(j.id, [], reasons);
    }
    var built := Build(j, tools, selected);
    AllBuilt(j, tools, selected, built);
    return Resolution(j.id, built, []);
  }

  lemma AllBuilt(j: Journey, tools: seq<Descriptor>, selected: map<nat, Selection>, built: seq<Tool>)
    requires Picked(j, tools, selected)
    requires forall t :: t in built <==> exists i :: i in selected && t == ToolOf(j, tools, tools[i])
    ensures forall t :: t in built <==> exists d :: d in tools && Chosen(j, tools, d) && t == ToolOf(j, tools, d)
  {
    hide Chosen, AliasOf, ToolOf, SelectedAlias, BuildTool;
    forall t ensures t in built <==> exists d :: d in tools && Chosen(j, tools, d) && t == ToolOf(j, tools, d) {
      if t in built {
        var i :| i in selected && t == ToolOf(j, tools, tools[i]);
        assert tools[i] in tools && Chosen(j, tools, tools[i]);
      }
      if exists d :: d in tools && Chosen(j, tools, d) && t == ToolOf(j, tools, d) {
        var d :| d in tools && Chosen(j, tools, d) && t == ToolOf(j, tools, d);
        var i := Where(j, tools, selected, d);
      }
    }
  }
}
