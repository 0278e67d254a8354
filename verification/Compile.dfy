/** What compilation checks about a set's selectors, and what follows for every snapshot. */
module Compile {
  import opened Basics
  import opened Versions
  import opened Catalog
  import opened Policies

  // ---------------------------------------------------------------- one journey's selectors

  function Elements(s: seq<Id>): set<Id> { set x | x in s }

  /** The operation keys of the first n selectors, in order. */
  function AllOps(tools: seq<Selector>, n: nat): seq<Id>
    requires n <= |tools|
  {
    if n == 0 then [] else AllOps(tools, n - 1) + tools[n - 1].ops
  }

  /** The aliases of the op selectors among the first n. */
  function Aliases(tools: seq<Selector>, n: nat): seq<Id>
    requires n <= |tools|
  {
    if n == 0 then [] else Aliases(tools, n - 1) + (if tools[n - 1].ops != [] then [tools[n - 1].alias] else [])
  }

  predicate TagsFine(s: Selector) {
    s.tags != [] && s.effect.Unclassified? && s.alias == "" && Distinct(s.tags) && "" !in s.tags
  }

  /** Exactly one of op and tags; aliases of op selectors valid and not the runtime's own. */
  predicate SelectorFine(s: Selector) {
    if s.ops != [] then s.tags == [] && ValidAlias(s.alias) && !Reserved(s.alias) else TagsFine(s)
  }

  /** What compileTools accepts: every operation key once, none empty or denied, every alias once. */
  predicate Compiled(j: Journey) {
    && j.tools != []
    && (forall k :: 0 <= k < |j.tools| ==> SelectorFine(j.tools[k]))
    && Distinct(AllOps(j.tools, |j.tools|)) && Distinct(Aliases(j.tools, |j.tools|))
    && forall key :: key in AllOps(j.tools, |j.tools|) ==> key != "" && key !in j.deny
  }

  lemma Repeats(s: seq<Id>, i: nat, k: nat)
    requires i < k < |s| && s[i] == s[k]
    ensures !Distinct(s)
  {
  }

  lemma DistinctAppend(s: seq<Id>, x: Id)
    ensures Distinct(s + [x]) <==> Distinct(s) && x !in s
  {
    if x in s {
      var i :| 0 <= i < |s| && s[i] == x;
      Repeats(s + [x], i, |s|);
    } else if Distinct(s + [x]) {
      DistinctPrefix(s, [x]);
    }
  }

  lemma {:induction false} DistinctPrefix(s: seq<Id>, t: seq<Id>)
    requires Distinct(s + t)
    ensures Distinct(s)
  {
    forall i, k | 0 <= i < k < |s| ensures s[i] != s[k] {
      assert (s + t)[i] != (s + t)[k];
    }
  }

  lemma {:induction false} OpsPrefix(tools: seq<Selector>, n: nat, m: nat)
    requires n <= m <= |tools|
    ensures Distinct(AllOps(tools, m)) ==> Distinct(AllOps(tools, n))
    ensures Distinct(Aliases(tools, m)) ==> Distinct(Aliases(tools, n))
    ensures forall key :: key in AllOps(tools, n) ==> key in AllOps(tools, m)
    decreases m
  {
    if n < m {
      OpsPrefix(tools, n, m - 1);
      if Distinct(AllOps(tools, m)) {
        DistinctPrefix(AllOps(tools, m - 1), tools[m - 1].ops);
      }
      if Distinct(Aliases(tools, m)) {
        DistinctPrefix(Aliases(tools, m - 1), if tools[m - 1].ops != [] then [tools[m - 1].alias] else []);
      }
    }
  }

  /** The keys of one selector, with what was seen before. */
  method CheckOps(j: Journey, n: nat, seen: set<Id>) returns (ok: bool, now: set<Id>)
    requires n < |j.tools| && seen == Elements(AllOps(j.tools, n)) && Distinct(AllOps(j.tools, n))
    ensures ok <==>
      Distinct(AllOps(j.tools, n + 1)) && forall key :: key in j.tools[n].ops ==> key != "" && key !in j.deny
    ensures ok ==> now == Elements(AllOps(j.tools, n + 1))
  {
    var ops := j.tools[n].ops;
    ghost var before := AllOps(j.tools, n);
    now := seen;
    var a := 0;
    assert before + ops[..0] == before;
    while a < |ops|
      invariant 0 <= a <= |ops| && Distinct(before + ops[..a]) && now == Elements(before + ops[..a])
      invariant forall key :: key in ops[..a] ==> key != "" && key !in j.deny
    {
      var key := ops[a];
      assert ops[..a + 1] == ops[..a] + [key] && before + ops[..a + 1] == before + ops[..a] + [key];
      DistinctAppend(before + ops[..a], key);
      if key == "" || key in now || key in j.deny {
        if key in now {
          assert before + ops == before + ops[..a + 1] + ops[a + 1..];
          if Distinct(before + ops) {
            DistinctPrefix(before + ops[..a + 1], ops[a + 1..]);
          }
        }
        assert key in ops;
        return false, now;
      }
      now := now + {key};
      a := a + 1;
    }
    assert ops[..a] == ops;
    ok := true;
  }

  method CheckNames(names: seq<Id>) returns (ok: bool)
    ensures ok <==> Distinct(names) && "" !in names
  {
    var seen: set<Id> := {};
    var i := 0;
    assert names[..0] == [];
    while i < |names|
      invariant 0 <= i <= |names| && seen == Elements(names[..i]) && Distinct(names[..i]) && "" !in names[..i]
    {
      assert names[..i + 1] == names[..i] + [names[i]];
      DistinctAppend(names[..i], names[i]);
      if names[i] == "" || names[i] in seen {
        assert names == names[..i + 1] + names[i + 1..];
        if Distinct(names) {
          DistinctPrefix(names[..i + 1], names[i + 1..]);
        }
        return false;
      }
      seen := seen + {names[i]};
      i := i + 1;
    }
    assert names[..i] == names;
    return true;
  }

  /** The first n selectors pass. */
  predicate PassedTo(j: Journey, n: nat) {
    && n <= |j.tools| && (forall k :: 0 <= k < n ==> SelectorFine(j.tools[k]))
    && Distinct(AllOps(j.tools, n)) && Distinct(Aliases(j.tools, n))
    && forall key :: key in AllOps(j.tools, n) ==> key != "" && key !in j.deny
  }

  lemma {:induction false} CompiledPasses(j: Journey, n: nat)
    requires Compiled(j) && n <= |j.tools|
    ensures PassedTo(j, n)
  {
    hide SelectorFine;
    OpsPrefix(j.tools, n, |j.tools|);
  }

  /** One selector beside those before it. */
  method CheckSelector(j: Journey, n: nat, seen: set<Id>, aliases: set<Id>)
    returns (ok: bool, nowSeen: set<Id>, nowAliases: set<Id>)
    requires n < |j.tools| && PassedTo(j, n)
    requires seen == Elements(AllOps(j.tools, n)) && aliases == Elements(Aliases(j.tools, n))
    ensures ok <==> PassedTo(j, n + 1)
    ensures ok ==> nowSeen == Elements(AllOps(j.tools, n + 1)) && nowAliases == Elements(Aliases(j.tools, n + 1))
  {
    hide ValidAlias, Reserved;
    var s := j.tools[n];
    nowSeen, nowAliases := seen, aliases;
    if (s.ops != []) == (s.tags != []) {
      return false, nowSeen, nowAliases;
    }
    assert forall key :: key in s.ops ==> key in AllOps(j.tools, n + 1);
    if s.ops != [] {
      ok, nowSeen := CheckOps(j, n, seen);
      if !ok {
        return;
      }
      DistinctAppend(Aliases(j.tools, n), s.alias);
      if !ValidAlias(s.alias) || Reserved(s.alias) || s.alias in aliases {
        return false, nowSeen, nowAliases;
      }
      nowAliases := aliases + {s.alias};
    } else {
      assert AllOps(j.tools, n) + [] == AllOps(j.tools, n);
      assert Aliases(j.tools, n) + [] == Aliases(j.tools, n);
      if !s.effect.Unclassified? || s.alias != "" {
        return false, nowSeen, nowAliases;
      }
      ok := CheckNames(s.tags);
    }
  }

  /** The checks across the selectors of one journey. */
  method CheckSelectors(j: Journey) returns (ok: bool)
    ensures ok <==> Compiled(j)
  {
    hide AllOps, Aliases, PassedTo, Compiled, Elements;
    AllPassed(j);
    if j.tools == [] {
      return false;
    }
    StartPasses(j);
    var seen, aliases: set<Id> := {}, {};
    var n := 0;
    while n < |j.tools|
      invariant 0 <= n <= |j.tools| && PassedTo(j, n)
      invariant seen == Elements(AllOps(j.tools, n)) && aliases == Elements(Aliases(j.tools, n))
    {
      ok, seen, aliases := CheckSelector(j, n, seen, aliases);
      if !ok {
        if Compiled(j) {
          CompiledPasses(j, n + 1);
        }
        return;
      }
      n := n + 1;
    }
    return true;
  }

  lemma AllPassed(j: Journey)
    ensures Compiled(j) <==> j.tools != [] && PassedTo(j, |j.tools|)
  {
    hide AllOps, Aliases, SelectorFine;
  }

  lemma StartPasses(j: Journey)
    ensures PassedTo(j, 0) && Elements(AllOps(j.tools, 0)) == {} && Elements(Aliases(j.tools, 0)) == {}
  {
  }

  // ---------------------------------------------------------------- from the configuration

  /** A tool entry as configured; op and tags are None when absent. */
  datatype RawTool = RawTool(
    ops: Option<seq<Id>>, tags: Option<seq<Id>>, alias: Id, readOnly: bool, effect: string, approval: string)

  datatype RawJourney = RawJourney(id: Id, tools: seq<RawTool>, deny: seq<Id>, maxTools: int, versions: VersionRange)

  function ClassNamed(s: string): Option<Class> {
    if s == "" then Some(Unclassified)
    else if s == "read_only" then Some(ReadOnly)
    else if s == "idempotent" then Some(Idempotent)
    else if s == "effectful" then Some(Effectful)
    else None
  }

  /** Exactly one of op and tags; a known class, idempotent only with a call-ID header; several
      alternatives only with an alias; class and alias only for op. */
  predicate RawFine(rt: RawTool, header: bool) {
    && rt.ops.Some? != rt.tags.Some?
    && ClassNamed(rt.effect).Some? && (ClassNamed(rt.effect) == Some(Idempotent) ==> header)
    && (rt.approval == "" || rt.approval == "required")
    && (rt.ops.Some? ==> rt.ops.value != [] && (rt.alias == "" ==> |rt.ops.value| == 1))
    && (rt.tags.Some? ==> rt.tags.value != [] && rt.effect == "" && rt.alias == "")
  }

  function Selected(rt: RawTool, header: bool): Selector
    requires RawFine(rt, header)
  {
    var ops := if rt.ops.Some? then rt.ops.value else [];
    var tags := if rt.tags.Some? then rt.tags.value else [];
    var alias := if rt.alias == "" && ops != [] then AliasFor(ops[0]) else rt.alias;
    Selector(ops, tags, alias, rt.readOnly, ClassNamed(rt.effect).value, rt.approval == "required")
  }

  function Derived(raw: RawJourney, header: bool): Journey
    requires forall k :: 0 <= k < |raw.tools| ==> RawFine(raw.tools[k], header)
  {
    Journey(raw.id, seq(|raw.tools|, k requires 0 <= k < |raw.tools| => Selected(raw.tools[k], header)),
            Elements(raw.deny), raw.maxTools, raw.versions)
  }

  predicate Acceptable(raw: RawJourney, header: bool) {
    && Distinct(raw.deny) && "" !in raw.deny
    && (forall k :: 0 <= k < |raw.tools| ==> RawFine(raw.tools[k], header))
    && Compiled(Derived(raw, header))
  }

  /** compileTools: the selectors with their aliases, derived from the key where none is given. */
  method CompileTools(raw: RawJourney, header: bool) returns (r: Option<Journey>)
    ensures r.Some? <==> Acceptable(raw, header)
    ensures r.Some? ==> r.value == Derived(raw, header) && Compiled(r.value)
  {
    hide Compiled, AliasFor, RawFine, Selected;
    var ok := CheckNames(raw.deny);
    if !ok {
      return None;
    }
    var tools: seq<Selector> := [];
    while |tools| < |raw.tools|
      invariant |tools| <= |raw.tools|
      invariant forall k ::
        0 <= k < |tools| ==> RawFine(raw.tools[k], header) && tools[k] == Selected(raw.tools[k], header)
    {
      var s := CompileTool(raw.tools[|tools|], header);
      if s.None? {
        return None;
      }
      tools := tools + [s.value];
    }
    var j := Journey(raw.id, tools, Elements(raw.deny), raw.maxTools, raw.versions);
    assert j.tools == Derived(raw, header).tools;
    ok := CheckSelectors(j);
    return if ok then Some(j) else None;
  }

  method CompileTool(rt: RawTool, header: bool) returns (s: Option<Selector>)
    ensures s.Some? <==> RawFine(rt, header)
    ensures s.Some? ==> s.value == Selected(rt, header)
  {
    hide AliasFor;
    if rt.ops.Some? == rt.tags.Some? {
      return None;
    }
    var effect := ClassNamed(rt.effect);
    if effect.None? || (effect == Some(Idempotent) && !header) {
      return None;
    }
    if rt.approval != "" && rt.approval != "required" {
      return None;
    }
    if rt.ops.Some? {
      var ops := rt.ops.value;
      if ops == [] {
        return None;
      }
      var alias := rt.alias;
      if alias == "" {
        if |ops| > 1 {
          return None;
        }
        alias := AliasFor(ops[0]);
      }
      return Some(Selector(ops, [], alias, rt.readOnly, effect.value, rt.approval == "required"));
    }
    if rt.effect != "" || rt.alias != "" || rt.tags.value == [] {
      return None;
    }
    return Some(Selector([], rt.tags.value, "", rt.readOnly, effect.value, rt.approval == "required"));
  }

  /** In a compiled journey one selector at most mentions a key. */
  lemma {:induction false} OneSelector(tools: seq<Selector>, n: nat, i: nat, k: nat, key: Id)
    requires i < k < n <= |tools| && key in tools[i].ops && key in tools[k].ops
    ensures !Distinct(AllOps(tools, n))
  {
    OpsPrefix(tools, k + 1, n);
    OpsPrefix(tools, i + 1, k);
    assert key in AllOps(tools, i + 1);
    var s, t := AllOps(tools, k), tools[k].ops;
    var a :| 0 <= a < |s| && s[a] == key;
    var b :| 0 <= b < |t| && t[b] == key;
    Repeats(s + t, a, |s| + b);
  }

  // ---------------------------------------------------------------- the policies of one journey

  function Normal(c: Class): Class { if c.Unclassified? then Effectful else c }

  function Rank(c: Class): nat { if c.ReadOnly? then 0 else if c.Idempotent? then 1 else 2 }

  /** Selector k mentions the key among the first n selectors and the first a keys of selector n. */
  predicate Mentions(j: Journey, n: nat, a: nat, key: Id, k: int): (r: bool)
    ensures r ==> 0 <= k < |j.tools|
  {
    0 <= k < |j.tools| && (if k < n then key in j.tools[k].ops
        else k == n && a <= |j.tools[k].ops| && key in j.tools[k].ops[..a])
  }

  /** The strictest class said so far, and whether any selector asked for approval. */
  ghost predicate Strictest(j: Journey, n: nat, a: nat, key: Id, p: Policy) {
    && (exists k :: Mentions(j, n, a, key, k) && Normal(j.tools[k].effect) == p.effect)
    && (forall k :: Mentions(j, n, a, key, k) ==> Rank(Normal(j.tools[k].effect)) <= Rank(p.effect))
    && (p.approval <==> exists k :: Mentions(j, n, a, key, k) && j.tools[k].approvalRequired)
  }

  /** The effective policy of a key in a journey: strictest class, and approval if any selector asks for
      it or the operation is not read-only. */
  ghost predicate PolicyIs(j: Journey, key: Id, p: Policy) {
    exists approval :: Strictest(j, |j.tools|, 0, key, Policy(p.effect, approval))
        && p.approval == (approval || !p.effect.ReadOnly?)
  }

  ghost predicate MergedSoFar(j: Journey, n: nat, a: nat, m: map<Id, Policy>) {
    && (forall key :: key in m <==> exists k :: Mentions(j, n, a, key, k))
    && (forall key :: key in m ==> Strictest(j, n, a, key, m[key]))
  }

  lemma MergeStep(j: Journey, n: nat, a: nat, m: map<Id, Policy>, p: Policy)
    requires n < |j.tools| && a < |j.tools[n].ops| && MergedSoFar(j, n, a, m)
    requires var key := j.tools[n].ops[a];
      var mine := Normal(j.tools[n].effect); var ask := j.tools[n].approvalRequired;
      p == if key in m then Policy(if Rank(m[key].effect) > Rank(mine) then m[key].effect else mine, ask
          || m[key].approval) else Policy(mine, ask)
    ensures MergedSoFar(j, n, a + 1, m[j.tools[n].ops[a] := p])
  {
    var added := j.tools[n].ops[a];
    var after, b := m[added := p], a + 1;
    assert j.tools[n].ops[..b] == j.tools[n].ops[..a] + [added];
    forall key, k ensures Mentions(j, n, b, key, k) <==> Mentions(j, n, a, key, k) || (key == added && k == n) {
    }
    hide Mentions;
    assert Mentions(j, n, b, added, n);
    forall key ensures key in after <==> exists k :: Mentions(j, n, b, key, k) {
      if key in m {
        var k :| Mentions(j, n, a, key, k);
        assert Mentions(j, n, b, key, k);
      }
    }
    forall key | key in after ensures Strictest(j, n, b, key, after[key]) {
      if key != added {
        assert Strictest(j, n, a, key, m[key]);
        var k :| Mentions(j, n, a, key, k) && Normal(j.tools[k].effect) == m[key].effect;
        assert Mentions(j, n, b, key, k);
      } else if key in m {
        assert Strictest(j, n, a, key, m[key]);
        var k :| Mentions(j, n, a, key, k) && Normal(j.tools[k].effect) == m[key].effect;
        assert Mentions(j, n, b, key, k);
      }
    }
  }

  lemma MergeNext(j: Journey, n: nat, m: map<Id, Policy>)
    requires n < |j.tools| && MergedSoFar(j, n, |j.tools[n].ops|, m)
    ensures MergedSoFar(j, n + 1, 0, m)
  {
    var a, next := |j.tools[n].ops|, n + 1;
    assert j.tools[n].ops[..a] == j.tools[n].ops;
    forall key, k ensures Mentions(j, next, 0, key, k) <==> Mentions(j, n, a, key, k) {
    }
    hide Mentions;
    forall key ensures key in m <==> exists k :: Mentions(j, next, 0, key, k) {
      if key in m {
        var k :| Mentions(j, n, a, key, k);
        assert Mentions(j, next, 0, key, k);
      }
    }
    forall key | key in m ensures Strictest(j, next, 0, key, m[key]) {
      assert Strictest(j, n, a, key, m[key]);
      var k :| Mentions(j, n, a, key, k) && Normal(j.tools[k].effect) == m[key].effect;
      assert Mentions(j, next, 0, key, k);
    }
  }

  method JourneyPolicies(j: Journey) returns (m: map<Id, Policy>)
    ensures forall key :: key in m <==> exists k :: 0 <= k < |j.tools| && key in j.tools[k].ops
    ensures forall key :: key in m ==> PolicyIs(j, key, m[key])
  {
    hide MergedSoFar, Strictest, PolicyIs;
    m := map[];
    MergedNone(j);
    var n := 0;
    while n < |j.tools|
      invariant 0 <= n <= |j.tools| && MergedSoFar(j, n, 0, m)
    {
      var s := j.tools[n];
      var a := 0;
      while a < |s.ops|
        invariant 0 <= a <= |s.ops| && MergedSoFar(j, n, a, m)
      {
        var key := s.ops[a];
        var next := Policy(if s.effect.Unclassified? then Effectful else s.effect, s.approvalRequired);
        if key in m {
          next := Policy(if Rank(m[key].effect) > Rank(next.effect) then m[key].effect else next.effect, next.approval
              || m[key].approval);
        }
        MergeStep(j, n, a, m, next);
        m := m[key := next];
        a := a + 1;
      }
      MergeNext(j, n, m);
      n := n + 1;
    }
    ghost var merged := m;
    MergedKeys(j, m);
    m := map key | key in m :: m[key].(approval := m[key].approval || !m[key].effect.ReadOnly?);
    forall key | key in m ensures PolicyIs(j, key, m[key]) {
      StrictestTells(j, key, merged[key]);
    }
  }

  lemma MergedNone(j: Journey)
    ensures MergedSoFar(j, 0, 0, map[])
  {
  }

  lemma StrictestTells(j: Journey, key: Id, p: Policy)
    requires Strictest(j, |j.tools|, 0, key, p)
    ensures PolicyIs(j, key, p.(approval := p.approval || !p.effect.ReadOnly?))
  {
    hide Strictest;
    assert Policy(p.effect, p.approval) == p;
  }

  lemma MergedKeys(j: Journey, m: map<Id, Policy>)
    requires MergedSoFar(j, |j.tools|, 0, m)
    ensures forall key :: key in m <==> exists k :: 0 <= k < |j.tools| && key in j.tools[k].ops
    ensures forall key :: key in m ==> Strictest(j, |j.tools|, 0, key, m[key])
  {
    forall key ensures key in m <==> exists k :: 0 <= k < |j.tools| && key in j.tools[k].ops {
      if k :| 0 <= k < |j.tools| && key in j.tools[k].ops {
        assert Mentions(j, |j.tools|, 0, key, k);
      }
      if key in m {
        var k :| Mentions(j, |j.tools|, 0, key, k);
      }
    }
  }

  /** A key has one effective policy in a journey. */
  lemma OnePolicy(j: Journey, key: Id, p: Policy, q: Policy)
    requires PolicyIs(j, key, p) && PolicyIs(j, key, q)
    ensures p == q
  {
    hide Mentions;
    var a :| Strictest(j, |j.tools|, 0, key, Policy(p.effect, a)) && p.approval == (a || !p.effect.ReadOnly?);
    var b :| Strictest(j, |j.tools|, 0, key, Policy(q.effect, b)) && q.approval == (b || !q.effect.ReadOnly?);
    var k :| Mentions(j, |j.tools|, 0, key, k) && Normal(j.tools[k].effect) == p.effect;
    var i :| Mentions(j, |j.tools|, 0, key, i) && Normal(j.tools[i].effect) == q.effect;
    assert Rank(p.effect) == Rank(q.effect);
  }

  /** What a selector alone says. */
  function Own(s: Selector): Policy {
    Policy(Normal(s.effect), s.approvalRequired || !Normal(s.effect).ReadOnly?)
  }

  /** In a compiled journey a key's policy is that of the one selector that mentions it. */
  lemma CompiledPolicy(j: Journey, k: nat, key: Id)
    requires Compiled(j) && k < |j.tools| && key in j.tools[k].ops
    ensures PolicyIs(j, key, Own(j.tools[k]))
  {
    forall i | Mentions(j, |j.tools|, 0, key, i) ensures i == k {
      if i < k {
        OneSelector(j.tools, |j.tools|, i, k, key);
      } else if k < i {
        OneSelector(j.tools, |j.tools|, k, i, key);
      }
    }
    assert Mentions(j, |j.tools|, 0, key, k);
    hide Mentions;
    assert Strictest(j, |j.tools|, 0, key, Policy(Own(j.tools[k]).effect, j.tools[k].approvalRequired));
  }

  // ---------------------------------------------------------------- across journeys

  const NUL := 0 as char

  predicate NulFree(parts: seq<Id>) {
    forall k :: 0 <= k < |parts| ==> NUL !in parts[k]
  }

  /** strings.Join with a NUL between the parts. */
  function Encode(parts: seq<Id>): string {
    if parts == [] then "" else if |parts| == 1 then parts[0] else parts[0] + [NUL] + Encode(parts[1..])
  }

  lemma {:induction false} SplitAtNul(x: string, r: string, y: string, s: string)
    requires NUL !in x && NUL !in y && x + [NUL] + r == y + [NUL] + s
    ensures x == y && r == s
  {
    if |x| < |y| {
      HeadsDiffer(x, r, y, s);
    } else if |y| < |x| {
      HeadsDiffer(y, s, x, r);
    } else {
      var z := x + [NUL] + r;
      assert z[..|x|] == x && (y + [NUL] + s)[..|x|] == y;
      assert z[|x| + 1..] == r && (y + [NUL] + s)[|x| + 1..] == s;
    }
  }

  lemma HeadsDiffer(x: string, r: string, y: string, s: string)
    requires NUL !in y && |x| < |y|
    ensures x + [NUL] + r != y + [NUL] + s
  {
    assert (x + [NUL] + r)[|x|] == NUL;
    assert (y + [NUL] + s)[|x|] == y[|x|] && y[|x|] in y;
  }

  lemma NulIn(x: string, r: string)
    ensures NUL in x + [NUL] + r
  {
    assert (x + [NUL] + r)[|x|] == NUL;
  }

  /** Encodings of NUL-free lists are equal only for equal lists. */
  lemma {:induction false} EncodeInjective(a: seq<Id>, b: seq<Id>)
    requires NulFree(a) && NulFree(b) && a != [] && b != [] && Encode(a) == Encode(b)
    ensures a == b
  {
    if |a| > 1 && |b| > 1 {
      SplitAtNul(a[0], Encode(a[1..]), b[0], Encode(b[1..]));
      EncodeInjective(a[1..], b[1..]);
      assert a == [a[0]] + a[1..] && b == [b[0]] + b[1..];
    } else if |a| > 1 {
      NulIn(a[0], Encode(a[1..]));
    } else if |b| > 1 {
      NulIn(b[0], Encode(b[1..]));
    }
  }

  /** With a NUL inside a key two different lists encode alike. */
  lemma EncodeCollides()
    ensures Encode([['a', NUL, 'b']]) == Encode([['a'], ['b']])
  {
    assert [['a'], ['b']][1..] == [['b']];
  }

  /** checkAliasOps accepts exactly this: one alias names one encoded list of operations everywhere. */
  ghost predicate AliasesAgree(js: seq<Journey>) {
    forall i, k, a, b {:trigger js[i].tools[a], js[k].tools[b]} ::
      0 <= i < |js| && 0 <= k < |js| && 0 <= a < |js[i].tools| && 0 <= b < |js[k].tools|
      && js[i].tools[a].alias != "" && js[i].tools[a].alias == js[k].tools[b].alias
      ==> Encode(js[i].tools[a].ops) == Encode(js[k].tools[b].ops)
  }

  /** (alias, encoded operations) of every aliased selector of a journey, then of the set. */
  function PairsOf(tools: seq<Selector>, n: nat): seq<(Id, string)>
    requires n <= |tools|
  {
    if n == 0 then []
    else PairsOf(tools, n - 1) + (if tools[n - 1].alias != "" then [(tools[n - 1].alias, Encode(tools[n - 1].ops))]
        else [])
  }

  function Pairs(js: seq<Journey>, n: nat): seq<(Id, string)>
    requires n <= |js|
  {
    if n == 0 then [] else Pairs(js, n - 1) + PairsOf(js[n - 1].tools, |js[n - 1].tools|)
  }

  ghost predicate Agree(ps: seq<(Id, string)>) {
    forall x, y :: x in ps && y in ps && x.0 == y.0 ==> x.1 == y.1
  }

  ghost predicate Listed(ps: seq<(Id, string)>, m: map<Id, string>) {
    (forall x :: x in ps ==> x.0 in m && m[x.0] == x.1) && (forall a :: a in m ==> (a, m[a]) in ps)
  }

  lemma {:induction false} PairsOfAre(tools: seq<Selector>, n: nat, x: (Id, string))
    requires n <= |tools|
    ensures x in PairsOf(tools, n) <==>
      exists k :: 0 <= k < n && tools[k].alias != "" && x == (tools[k].alias, Encode(tools[k].ops))
  {
    hide Encode;
    if n > 0 {
      PairsOfAre(tools, n - 1, x);
    }
  }

  lemma {:induction false} PairsAre(js: seq<Journey>, n: nat, x: (Id, string))
    requires n <= |js|
    ensures x in Pairs(js, n) <==>
      exists i, k :: 0 <= i < n && 0 <= k < |js[i].tools| && js[i].tools[k].alias != ""
          && x == (js[i].tools[k].alias, Encode(js[i].tools[k].ops))
  {
    hide Encode, PairsOf;
    if n > 0 {
      PairsAre(js, n - 1, x);
      PairsOfAre(js[n - 1].tools, |js[n - 1].tools|, x);
    }
  }

  lemma {:induction false} AgreeIs(js: seq<Journey>)
    ensures Agree(Pairs(js, |js|)) <==> AliasesAgree(js)
  {
    hide Encode, Pairs;
    forall x ensures x in Pairs(js, |js|) <==>
      exists i, k :: 0 <= i < |js| && 0 <= k < |js[i].tools| && js[i].tools[k].alias != ""
          && x == (js[i].tools[k].alias, Encode(js[i].tools[k].ops))
    {
      PairsAre(js, |js|, x);
    }
    if Agree(Pairs(js, |js|)) {
      forall i, k, a, b | 0 <= i < |js| && 0 <= k < |js| && 0 <= a < |js[i].tools| && 0 <= b < |js[k].tools|
        && js[i].tools[a].alias != "" && js[i].tools[a].alias == js[k].tools[b].alias
        ensures Encode(js[i].tools[a].ops) == Encode(js[k].tools[b].ops)
      {
        var x, y := (js[i].tools[a].alias, Encode(js[i].tools[a].ops)),
            (js[k].tools[b].alias, Encode(js[k].tools[b].ops));
        assert x in Pairs(js, |js|) && y in Pairs(js, |js|);
      }
    }
    if AliasesAgree(js) {
      forall x, y | x in Pairs(js, |js|) && y in Pairs(js, |js|) && x.0 == y.0 ensures x.1 == y.1 {
        var i, a :| 0 <= i < |js| && 0 <= a < |js[i].tools| && js[i].tools[a].alias != ""
            && x == (js[i].tools[a].alias, Encode(js[i].tools[a].ops));
        var k, b :| 0 <= k < |js| && 0 <= b < |js[k].tools| && js[k].tools[b].alias != ""
            && y == (js[k].tools[b].alias, Encode(js[k].tools[b].ops));
      }
    }
  }

  lemma {:induction false} PairsGrow(js: seq<Journey>, n: nat, m: nat, x: (Id, string))
    requires n <= m <= |js| && x in Pairs(js, n)
    ensures x in Pairs(js, m)
    decreases m
  {
    if n < m {
      PairsGrow(js, n, m - 1, x);
    }
  }

  lemma {:induction false} Disagree(before: seq<(Id, string)>, tools: seq<Selector>, k: nat, now: map<Id, string>)
    requires k < |tools| && Listed(before + PairsOf(tools, k), now) && tools[k].alias != "" && tools[k].alias in now
    requires now[tools[k].alias] != Encode(tools[k].ops)
    ensures !Agree(before + PairsOf(tools, |tools|))
  {
    hide Encode;
    var x, y := (tools[k].alias, now[tools[k].alias]), (tools[k].alias, Encode(tools[k].ops));
    PairsOfAre(tools, |tools|, y);
    if x in PairsOf(tools, k) {
      PairsOfAre(tools, k, x);
      PairsOfAre(tools, |tools|, x);
    }
    var all := before + PairsOf(tools, |tools|);
    assert x in all && y in all;
  }

  /** One journey's aliases against those seen so far; an alias that names other operations stops it. */
  method CheckJourneyAliases(js: seq<Journey>, i: nat, ops: map<Id, string>) returns (ok: bool, now: map<Id, string>)
    requires i < |js| && Listed(Pairs(js, i), ops)
    ensures ok ==> Listed(Pairs(js, i + 1), now)
    ensures !ok ==> !Agree(Pairs(js, i + 1))
  {
    hide Encode, Listed, Agree;
    now := ops;
    var tools := js[i].tools;
    ghost var before := Pairs(js, i);
    var k := 0;
    assert before + PairsOf(tools, 0) == before;
    while k < |tools|
      invariant 0 <= k <= |tools| && Listed(before + PairsOf(tools, k), now)
    {
      var s := tools[k];
      ListNext(before, tools, k, now);
      if s.alias != "" {
        var enc := Encode(s.ops);
        if s.alias !in now {
          now := now[s.alias := enc];
        } else if now[s.alias] != enc {
          Disagree(before, tools, k, now);
          return false, now;
        }
      }
      k := k + 1;
    }
    ok := true;
  }

  lemma {:induction false} ListNext(before: seq<(Id, string)>, tools: seq<Selector>, k: nat, now: map<Id, string>)
    requires k < |tools| && Listed(before + PairsOf(tools, k), now)
    ensures var s := tools[k];
      if s.alias == "" then Listed(before + PairsOf(tools, k + 1), now)
      else if s.alias !in now then Listed(before + PairsOf(tools, k + 1), now[s.alias := Encode(s.ops)])
      else now[s.alias] == Encode(s.ops) ==> Listed(before + PairsOf(tools, k + 1), now)
  {
    hide Encode;
    var s, seen := tools[k], before + PairsOf(tools, k);
    if s.alias == "" {
      assert PairsOf(tools, k + 1) == PairsOf(tools, k);
    } else {
      var x := (s.alias, Encode(s.ops));
      assert before + PairsOf(tools, k + 1) == seen + [x];
      hide PairsOf;
      forall y ensures y in seen + [x] <==> y in seen || y == x {
      }
    }
  }

  /** checkAliasOps. */
  method CheckAliasOps(js: seq<Journey>) returns (ok: bool)
    ensures ok <==> AliasesAgree(js)
  {
    AgreeIs(js);
    hide AliasesAgree, Listed, Agree;
    var ops: map<Id, string> := map[];
    ListedNone(js);
    var i := 0;
    while i < |js|
      invariant 0 <= i <= |js| && Listed(Pairs(js, i), ops)
    {
      ok, ops := CheckJourneyAliases(js, i, ops);
      if !ok {
        StaysApart(js, i + 1);
        return;
      }
      i := i + 1;
    }
    ListedAgrees(Pairs(js, |js|), ops);
    return true;
  }

  lemma {:induction false} ListedNone(js: seq<Journey>)
    ensures Listed(Pairs(js, 0), map[])
  {
  }

  lemma {:induction false} StaysApart(js: seq<Journey>, n: nat)
    requires n <= |js| && !Agree(Pairs(js, n))
    ensures !Agree(Pairs(js, |js|))
  {
    hide Pairs;
    var x, y :| x in Pairs(js, n) && y in Pairs(js, n) && x.0 == y.0 && x.1 != y.1;
    PairsGrow(js, n, |js|, x);
    PairsGrow(js, n, |js|, y);
  }

  lemma ListedAgrees(ps: seq<(Id, string)>, m: map<Id, string>)
    requires Listed(ps, m)
    ensures Agree(ps)
  {
  }

  /** checkPolicyConflicts accepts exactly this: a key has one effective policy in the whole set. */
  ghost predicate PoliciesAgree(js: seq<Journey>) {
    forall i, k, key, p, q :: 0 <= i < |js| && 0 <= k < |js| && PolicyIs(js[i], key, p) && PolicyIs(js[k], key, q) ==>
        p == q
  }

  /** One effective policy per key and journey. */
  ghost predicate Tabled(js: seq<Journey>, tables: seq<map<Id, Policy>>) {
    && |tables| <= |js|
    && (forall i, key :: 0 <= i < |tables| ==>
        (key in tables[i] <==> exists k :: 0 <= k < |js[i].tools| && key in js[i].tools[k].ops))
    && (forall i, key :: 0 <= i < |tables| && key in tables[i] ==> PolicyIs(js[i], key, tables[i][key]))
  }

  ghost predicate TablesAgree(tables: seq<map<Id, Policy>>, keys: set<Id>) {
    forall i, k, key ::
        0 <= i < |tables| && 0 <= k < |tables| && key in keys && key in tables[i] && key in tables[k] ==>
          tables[i][key] == tables[k][key]
  }

  lemma PolicyNeedsMention(j: Journey, key: Id, p: Policy)
    requires PolicyIs(j, key, p)
    ensures exists k :: 0 <= k < |j.tools| && key in j.tools[k].ops
  {
    var approval :| Strictest(j, |j.tools|, 0, key, Policy(p.effect, approval));
    var k :| Mentions(j, |j.tools|, 0, key, k);
  }

  lemma TablesTell(js: seq<Journey>, tables: seq<map<Id, Policy>>, keys: set<Id>)
    requires Tabled(js, tables) && |tables| == |js|
      && forall i, key :: 0 <= i < |tables| && key in tables[i] ==> key in keys
    ensures TablesAgree(tables, keys) <==> PoliciesAgree(js)
  {
    hide PolicyIs;
    if TablesAgree(tables, keys) {
      forall i, k, key, p, q | 0 <= i < |js| && 0 <= k < |js| && PolicyIs(js[i], key, p) && PolicyIs(js[k], key, q)
        ensures p == q
      {
        PolicyNeedsMention(js[i], key, p);
        PolicyNeedsMention(js[k], key, q);
        assert key in tables[i] && key in tables[k] && key in keys;
        assert tables[i][key] == tables[k][key];
        OnePolicy(js[i], key, p, tables[i][key]);
        OnePolicy(js[k], key, q, tables[k][key]);
      }
    }
  }

  /** One key over all journeys: compared with the first journey that has it. */
  method CheckKey(tables: seq<map<Id, Policy>>, key: Id) returns (ok: bool)
    ensures ok <==> TablesAgree(tables, {key})
  {
    var first := -1;
    var i := 0;
    while i < |tables|
      invariant 0 <= i <= |tables| && -1 <= first < i
      invariant first == -1 ==> forall k :: 0 <= k < i ==> key !in tables[k]
      invariant first >= 0 ==>
        key in tables[first] && forall k :: 0 <= k < i && key in tables[k] ==> tables[k][key] == tables[first][key]
    {
      if key in tables[i] {
        if first == -1 {
          first := i;
        } else if tables[i][key] != tables[first][key] {
          return false;
        }
      }
      i := i + 1;
    }
    return true;
  }

  lemma AgreeMore(tables: seq<map<Id, Policy>>, keys: set<Id>, key: Id)
    requires TablesAgree(tables, keys) && TablesAgree(tables, {key})
    ensures TablesAgree(tables, keys + {key})
  {
    forall i, k, x | 0 <= i < |tables| && 0 <= k < |tables| && x in keys + {key} && x in tables[i] && x in tables[k]
      ensures tables[i][x] == tables[k][x]
    {
      if x !in keys {
        assert x in {key};
      }
    }
  }

  /** checkPolicyConflicts. */
  method CheckPolicyConflicts(js: seq<Journey>) returns (ok: bool)
    ensures ok <==> PoliciesAgree(js)
  {
    hide PolicyIs, PoliciesAgree;
    var tables: seq<map<Id, Policy>> := [];
    var keys: set<Id> := {};
    while |tables| < |js|
      invariant Tabled(js, tables)
      invariant forall i, key :: 0 <= i < |tables| && key in tables[i] ==> key in keys
    {
      var m := JourneyPolicies(js[|tables|]);
      tables, keys := tables + [m], keys + m.Keys;
    }
    TablesTell(js, tables, keys);
    hide Tabled;
    var todo := keys;
    while todo != {}
      invariant todo <= keys && TablesAgree(tables, keys - todo)
      decreases |todo|
    {
      var key :| key in todo;
      var fine := CheckKey(tables, key);
      if !fine {
        return false;
      }
      AgreeMore(tables, keys - todo, key);
      assert keys - (todo - {key}) == keys - todo + {key};
      todo := todo - {key};
    }
    assert keys - todo == keys;
    return true;
  }

  // ---------------------------------------------------------------- compiled sets have no conflicts

  predicate OpsOnly(j: Journey) {
    forall k :: 0 <= k < |j.tools| ==> j.tools[k].ops != []
  }

  /** The selector behind a resolved tool. */
  ghost predicate From(j: Journey, t: Tool, k: int) {
    0 <= k < |j.tools| && t.key in j.tools[k].ops && t.alias == j.tools[k].alias && PolicyOf(t) == Own(j.tools[k])
  }

  lemma ChosenByKey(j: Journey, s: Selector, tools: seq<Descriptor>, d: Descriptor)
    requires OpChooses(j, s, tools, d)
    ensures d.key in s.ops
  {
    hide Candidates;
  }

  lemma ResolvedFrom(j: Journey, tools: seq<Descriptor>, d: Descriptor)
    requires Compiled(j) && OpsOnly(j) && Chosen(j, tools, d)
    ensures exists k :: From(j, ToolOf(j, tools, d), k)
  {
    hide OpChooses, ValidAlias, Reserved;
    var m :| 0 <= m < |j.tools| && Chooses(j, j.tools[m], tools, d);
    assert OpChooses(j, j.tools[m], tools, d);
    var k := LastOp(j, tools, d, |j.tools|);
    assert k >= 0;
    ChosenByKey(j, j.tools[k], tools, d);
    assert Approves(j, tools, d) <==> j.tools[k].approvalRequired by {
      assert Chooses(j, j.tools[k], tools, d);
      forall i | 0 <= i < |j.tools| && Chooses(j, j.tools[i], tools, d) ensures i == k {
        assert OpChooses(j, j.tools[i], tools, d);
        ChosenByKey(j, j.tools[i], tools, d);
        if i < k {
          OneSelector(j.tools, |j.tools|, i, k, d.key);
        }
      }
    }
    assert SelectorFine(j.tools[k]);
    NamedAlias(j.tools[k].alias);
    assert From(j, ToolOf(j, tools, d), k);
  }

  lemma NamedAlias(a: Id)
    requires ValidAlias(a)
    ensures a != ""
  {
  }

  /** What a set passes at compile time. */
  ghost predicate CompiledSet(js: seq<Journey>) {
    && (forall i :: 0 <= i < |js| ==> Compiled(js[i]) && OpsOnly(js[i]))
    && (forall i, k :: 0 <= i < |js| && 0 <= k < |js[i].tools| ==> NulFree(js[i].tools[k].ops))
    && AliasesAgree(js) && PoliciesAgree(js)
  }

  ghost predicate ResolvedSet(js: seq<Journey>, version: string, tools: seq<Descriptor>, rs: seq<Resolution>) {
    |rs| == |js| && forall i :: 0 <= i < |js| ==> Resolves(js[i], version, tools, rs[i])
  }

  /** For any set, tag selectors included, and any snapshot: after the check no operation key and no alias
      carries two policies among the journeys left available. */
  lemma ResolvedConsistent(js: seq<Journey>, version: string, tools: seq<Descriptor>, rs: seq<Resolution>,
      out: seq<Resolution>)
    requires ResolvedSet(js, version, tools, rs) && Checked(rs, out)
    ensures Consistent(out)
  {
    hide Checked, Consistent, Resolves;
    forall t | Offered(rs, t) ensures t.key != "" && t.alias != "" {
      var i :| 0 <= i < |rs| && rs[i].Available() && t in rs[i].tools;
      AvailableIsSound(js[i], version, tools, rs[i]);
      var k :| 0 <= k < |rs[i].tools| && rs[i].tools[k] == t;
      NamedAlias(rs[i].tools[k].alias);
    }
    NamedConsistent(rs, out);
  }

  lemma OfferedFrom(js: seq<Journey>, version: string, tools: seq<Descriptor>, rs: seq<Resolution>, t: Tool)
    requires CompiledSet(js) && ResolvedSet(js, version, tools, rs) && Offered(rs, t)
    ensures exists i, k :: 0 <= i < |js| && From(js[i], t, k)
  {
    hide From, Compiled, OpsOnly, AliasesAgree, PoliciesAgree, HasReason, Chosen, ToolOf, ChosenCount, ByAlias, InRange;
    hide Distinct;
    var i :| 0 <= i < |rs| && rs[i].Available() && t in rs[i].tools;
    assert Resolves(js[i], version, tools, rs[i]);
    var d :| d in tools && Chosen(js[i], tools, d) && t == ToolOf(js[i], tools, d);
    ResolvedFrom(js[i], tools, d);
    var k :| From(js[i], ToolOf(js[i], tools, d), k);
    assert From(js[i], t, k);
  }

  /** Tools of one key, or of one alias, agree across a compiled set: an alias names the same operations
      everywhere, and all operations of one selector share its policy. */
  lemma SamePolicy(js: seq<Journey>, t: Tool, i: nat, k: nat, u: Tool, m: nat, n: nat)
    requires CompiledSet(js) && i < |js| && m < |js| && From(js[i], t, k) && From(js[m], u, n)
      && (t.key == u.key || t.alias == u.alias)
    ensures PolicyOf(t) == PolicyOf(u)
  {
    hide PolicyIs, ValidAlias, Reserved, Encode;
    assert Compiled(js[i]) && Compiled(js[m]);
    CompiledPolicy(js[i], k, t.key);
    CompiledPolicy(js[m], n, u.key);
    if t.key != u.key {
      NamedAlias(js[i].tools[k].alias);
      assert Encode(js[i].tools[k].ops) == Encode(js[m].tools[n].ops);
      EncodeInjective(js[i].tools[k].ops, js[m].tools[n].ops);
      CompiledPolicy(js[i], k, u.key);
    }
  }

  /** A compiled set of op selectors passes the check over resolutions unchanged, whatever tools the
      endpoint advertises. */
  lemma StaticImpliesDynamic(js: seq<Journey>, version: string, tools: seq<Descriptor>, rs: seq<Resolution>,
      out: seq<Resolution>)
    requires CompiledSet(js) && ResolvedSet(js, version, tools, rs) && Checked(rs, out)
    ensures out == rs && Consistent(rs)
  {
    hide CompiledSet, ResolvedSet, From, Offered;
    forall t, u | Offered(rs, t) && Offered(rs, u) && (t.key == u.key || t.alias == u.alias)
      ensures PolicyOf(t) == PolicyOf(u)
    {
      OfferedFrom(js, version, tools, rs, t);
      OfferedFrom(js, version, tools, rs, u);
      var i, k :| 0 <= i < |js| && From(js[i], t, k);
      var m, n :| 0 <= m < |js| && From(js[m], u, n);
      FromIndex(js[i], t, k);
      FromIndex(js[m], u, n);
      SamePolicy(js, t, i, k, u, m, n);
    }
    assert Consistent(rs);
    forall i | 0 <= i < |rs| ensures out[i] == rs[i] {
      assert CheckedOne(rs, rs[i], out[i]);
    }
  }

  lemma FromIndex(j: Journey, t: Tool, k: int)
    requires From(j, t, k)
    ensures k >= 0
  {
  }

  // ---------------------------------------------------------------- what the tables hold

  predicate Says(j: Journey, key: Id, k: int) {
    0 <= k < |j.tools| && key in j.tools[k].ops
  }

  /** The policy of a key, class by class: effectful as soon as one selector says so or none says otherwise, read-only
      only if every selector says so; approval is needed unless all that mention it say read-only and none asks. */
  lemma PolicyContract(j: Journey, key: Id, p: Policy)
    requires PolicyIs(j, key, p)
    ensures p.effect == Effectful <==>
      exists k :: Says(j, key, k) && j.tools[k].effect in {Effectful, Unclassified}
    ensures p.effect == ReadOnly <==> forall k :: Says(j, key, k) ==> j.tools[k].effect == ReadOnly
    ensures p.effect == Idempotent <==>
      && (forall k :: Says(j, key, k) ==> j.tools[k].effect in {Idempotent, ReadOnly})
      && (exists k :: Says(j, key, k) && j.tools[k].effect == Idempotent)
    ensures p.approval <==>
      exists k :: Says(j, key, k) && (j.tools[k].approvalRequired || j.tools[k].effect != ReadOnly)
  {
    forall k ensures Mentions(j, |j.tools|, 0, key, k) <==> Says(j, key, k) {
    }
    var approval :| Strictest(j, |j.tools|, 0, key, Policy(p.effect, approval))
      && p.approval == (approval || !p.effect.ReadOnly?);
    hide Mentions;
  }

  /** A compiled entry says what the raw one says: its keys or its tags, the class by its name, approval if it is
      required, and its alias, or the one derived from its only key. */
  lemma SelectedContract(rt: RawTool, header: bool)
    requires RawFine(rt, header)
    ensures var s := Selected(rt, header);
      && (rt.ops.Some? ==> s.ops == rt.ops.value && s.tags == [])
      && (rt.tags.Some? ==> s.tags == rt.tags.value && s.ops == [])
      && s.readOnlyHint == rt.readOnly && (s.approvalRequired <==> rt.approval == "required")
      && (s.effect == ReadOnly <==> rt.effect == "read_only") && (s.effect == Idempotent <==> rt.effect == "idempotent")
      && (s.effect == Effectful <==> rt.effect == "effectful") && (s.effect == Unclassified <==> rt.effect == "")
      && (rt.alias != "" ==> s.alias == rt.alias)
      && (rt.alias == "" && rt.ops.Some? ==> |rt.ops.value| == 1 && s.alias == AliasFor(rt.ops.value[0]))
      && (rt.alias == "" && rt.tags.Some? ==> s.alias == "")
  {
  }
}
