/** Resolving a journey's reviewed selectors against the tools an endpoint advertises. */
module Catalog {
  import opened Basics
  import opened Versions

  datatype Class = Unclassified | ReadOnly | Idempotent | Effectful

  /** One of ops (alternatives in preference order) and tags is set; alias is "" for tags. */
  datatype Selector = Selector(ops: seq<Id>, tags: seq<Id>, alias: Id, readOnlyHint: bool, effect: Class,
      approvalRequired: bool)

  datatype Journey = Journey(id: Id, tools: seq<Selector>, deny: set<Id>, maxTools: int, versions: VersionRange)

  /** An advertised tool; key is its operation key, "" when it has none. */
  datatype Descriptor = Descriptor(name: Id, description: string, schema: string, key: Id, tags: set<Id>,
      readOnlyHint: bool)

  datatype Reason = Missing | Ambiguous | Collision | InvalidAlias | MaxTools | Version | PolicyConflict

  datatype Unavailable = Unavailable(reason: Reason, operation: Id)

  datatype Tool = Tool(alias: Id, key: Id, remote: Id, description: string, schema: string, effect: Class,
      requiresApproval: bool)

  datatype Resolution = Resolution(journey: Id, tools: seq<Tool>, unavailable: seq<Unavailable>)
  {
    predicate Available() { unavailable == [] }
  }

  const DEFAULT_MAX := 15

  // ---------------------------------------------------------------- aliases

  predicate Letter(c: char) { 'a' <= c <= 'z' || 'A' <= c <= 'Z' || c == '_' }

  predicate ValidAlias(s: string) {
    1 <= |s| <= 64 && Letter(s[0]) && forall i :: 0 <= i < |s| ==> Letter(s[i]) || IsDigit(s[i])
  }

  predicate Reserved(name: Id) {
    name == "request_user_input" || name == "read_skill_resource" || name == "activate_journey"
  }

  /** Every character outside letters, digits and '_' becomes '_'. */
  function AliasFor(op: Id): (r: string)
    ensures |r| == |op|
    ensures forall i :: 0 <= i < |op| ==> r[i] == if Letter(op[i]) || IsDigit(op[i]) then op[i] else '_'
  {
    if op == "" then "" else AliasFor(op[..|op| - 1]) + [if Letter(op[|op| - 1]) || IsDigit(op[|op| - 1]) then
        op[|op| - 1] else '_']
  }

  /** A derived alias is valid exactly when the key is not too long and does not start with a digit. */
  lemma {:induction false} DerivedAliasValid(op: Id)
    ensures ValidAlias(AliasFor(op)) <==> 1 <= |op| <= 64 && !IsDigit(op[0])
  {
  }

  // ---------------------------------------------------------------- counting

  function Count(tools: seq<Descriptor>, p: Descriptor -> bool): nat {
    if tools == [] then 0 else Count(tools[..|tools| - 1], p) + (if p(tools[|tools| - 1]) then 1 else 0)
  }

  lemma {:induction false} CountAdd(a: seq<Descriptor>, b: seq<Descriptor>, p: Descriptor -> bool)
    ensures Count(a + b, p) == Count(a, p) + Count(b, p)
  {
    if b == [] {
      assert a + b == a;
    } else {
      CountAdd(a, b[..|b| - 1], p);
      assert (a + b)[..|a + b| - 1] == a + b[..|b| - 1];
    }
  }

  /** The last element of a, and what is left when it is taken out of both. */
  lemma FindLast(a: seq<Descriptor>, b: seq<Descriptor>) returns (i: nat)
    requires multiset(a) == multiset(b) && a != []
    ensures i < |b| && b[i] == a[|a| - 1] && multiset(a[..|a| - 1]) == multiset(b[..i] + b[i + 1..])
  {
    var rest, x := a[..|a| - 1], a[|a| - 1];
    assert a == rest + [x];
    assert x in multiset(b);
    i :| 0 <= i < |b| && b[i] == x;
    assert b == b[..i] + [x] + b[i + 1..];
    assert multiset(rest) == multiset(a) - multiset{x};
    assert multiset(b[..i] + b[i + 1..]) == multiset(b) - multiset{x};
  }

  /** Counting does not depend on order. */
  lemma {:induction false} CountPermuted(a: seq<Descriptor>, b: seq<Descriptor>, p: Descriptor -> bool)
    requires multiset(a) == multiset(b)
    ensures Count(a, p) == Count(b, p)
  {
    if a == [] {
      assert |multiset(b)| == 0;
    } else {
      hide Count;
      var rest, x := a[..|a| - 1], a[|a| - 1];
      assert a == rest + [x];
      var i := FindLast(a, b);
      var before, after := b[..i], b[i + 1..];
      assert b == before + [x] + after;
      CountPermuted(rest, before + after, p);
      CountAdd(before, after, p);
      CountAdd(before + [x], after, p);
      CountAdd(before, [x], p);
      CountAdd(rest, [x], p);
    }
  }

  lemma DistinctInsert<T>(s: seq<T>, x: T, i: nat)
    requires i <= |s| && Distinct(s) && x !in s
    ensures Distinct(s[..i] + [x] + s[i..])
  {
  }

  lemma MembersInsert<T>(s: seq<T>, x: T, i: nat)
    requires i <= |s|
    ensures forall y :: y in s[..i] + [x] + s[i..] <==> y in s || y == x
  {
    assert s == s[..i] + s[i..];
  }

  lemma {:induction false} CountSame(tools: seq<Descriptor>, p: Descriptor -> bool, q: Descriptor -> bool)
    requires forall d :: d in tools ==> p(d) == q(d)
    ensures Count(tools, p) == Count(tools, q)
  {
    if tools != [] {
      CountSame(tools[..|tools| - 1], p, q);
    }
  }

  lemma {:induction false} CountZero(tools: seq<Descriptor>, p: Descriptor -> bool)
    ensures Count(tools, p) == 0 <==> forall d :: d in tools ==> !p(d)
  {
    if tools != [] {
      CountZero(tools[..|tools| - 1], p);
      assert tools == tools[..|tools| - 1] + [tools[|tools| - 1]];
    }
  }

  /** The positions that p picks number Count. */
  function Positions(tools: seq<Descriptor>, p: Descriptor -> bool, n: nat): set<nat>
    requires n <= |tools|
  {
    set i: nat | i < n && p(tools[i])
  }

  lemma {:induction false} PositionsCount(tools: seq<Descriptor>, p: Descriptor -> bool, n: nat)
    requires n <= |tools|
    ensures |Positions(tools, p, n)| == Count(tools[..n], p)
  {
    if n > 0 {
      PositionsCount(tools, p, n - 1);
      assert tools[..n][..n - 1] == tools[..n - 1];
      assert Positions(tools, p, n) == Positions(tools, p, n - 1) + (if p(tools[n - 1]) then {n - 1} else {});
    }
  }

  // ---------------------------------------------------------------- what a journey selects

  predicate Usable(j: Journey, d: Descriptor) {
    d.key != "" && d.key !in j.deny
  }

  predicate Candidate(j: Journey, s: Selector, op: Id, d: Descriptor) {
    Usable(j, d) && d.key == op && (!s.readOnlyHint || d.readOnlyHint)
  }

  function Candidates(j: Journey, s: Selector, op: Id, tools: seq<Descriptor>): nat {
    Count(tools, d => Candidate(j, s, op, d))
  }

  /** The first alternative from k on that some tool offers, or |s.ops|. */
  function FirstFrom(j: Journey, s: Selector, tools: seq<Descriptor>, k: nat): (r: nat)
    requires k <= |s.ops|
    ensures k <= r <= |s.ops| && (r < |s.ops| ==> Candidates(j, s, s.ops[r], tools) > 0)
    ensures forall i :: k <= i < r ==> Candidates(j, s, s.ops[i], tools) == 0
    decreases |s.ops| - k
  {
    if k == |s.ops| || Candidates(j, s, s.ops[k], tools) > 0 then k else FirstFrom(j, s, tools, k + 1)
  }

  function First(j: Journey, s: Selector, tools: seq<Descriptor>): nat {
    FirstFrom(j, s, tools, 0)
  }

  /** The preferred alternative on offer has exactly one candidate, and it is d. */
  predicate OpChooses(j: Journey, s: Selector, tools: seq<Descriptor>, d: Descriptor) {
    var k := First(j, s, tools);
    k < |s.ops| && Candidates(j, s, s.ops[k], tools) == 1 && Candidate(j, s, s.ops[k], d)
  }

  predicate TagChooses(j: Journey, s: Selector, d: Descriptor) {
    && s.ops == [] && s.tags != [] && Usable(j, d) && (!s.readOnlyHint || d.readOnlyHint)
    && forall t :: t in s.tags ==> t in d.tags
  }

  predicate Chooses(j: Journey, s: Selector, tools: seq<Descriptor>, d: Descriptor) {
    OpChooses(j, s, tools, d) || TagChooses(j, s, d)
  }

  predicate Chosen(j: Journey, tools: seq<Descriptor>, d: Descriptor) {
    exists k :: 0 <= k < |j.tools| && Chooses(j, j.tools[k], tools, d)
  }

  /** The last of the first n selectors that chooses d by operation; -1 when none does. */
  function LastOp(j: Journey, tools: seq<Descriptor>, d: Descriptor, n: nat): (r: int)
    requires n <= |j.tools|
    ensures -1 <= r < n && (r >= 0 ==> OpChooses(j, j.tools[r], tools, d))
    ensures forall k :: r < k < n ==> !OpChooses(j, j.tools[k], tools, d)
  {
    if n == 0 then -1 else if OpChooses(j, j.tools[n - 1], tools, d) then n - 1 else LastOp(j, tools, d, n - 1)
  }

  predicate Approves(j: Journey, tools: seq<Descriptor>, d: Descriptor) {
    exists k :: 0 <= k < |j.tools| && Chooses(j, j.tools[k], tools, d) && j.tools[k].approvalRequired
  }

  function AliasOf(j: Journey, tools: seq<Descriptor>, d: Descriptor): Id {
    var k := LastOp(j, tools, d, |j.tools|);
    if k >= 0 && j.tools[k].alias != "" then j.tools[k].alias else AliasFor(d.key)
  }

  function ClassOf(j: Journey, tools: seq<Descriptor>, d: Descriptor): Class {
    var k := LastOp(j, tools, d, |j.tools|);
    if k >= 0 && !j.tools[k].effect.Unclassified? then j.tools[k].effect else Effectful
  }

  function ToolOf(j: Journey, tools: seq<Descriptor>, d: Descriptor): Tool {
    var effect := ClassOf(j, tools, d);
    Tool(AliasOf(j, tools, d), d.key, d.name, d.description, d.schema, effect, !effect.ReadOnly?
        || Approves(j, tools, d))
  }

  function Limit(j: Journey): int { if j.maxTools <= 0 then DEFAULT_MAX else j.maxTools }

  predicate InRange(j: Journey, version: string) {
    (j.versions.min == "" && j.versions.maxExclusive == "") || Contains(j.versions, version)
  }

  // ---------------------------------------------------------------- why a journey is unavailable

  /** Some op selector has no alternative on offer; its first one is reported. */
  predicate MissingOp(j: Journey, tools: seq<Descriptor>, op: Id) {
    exists k :: 0 <= k < |j.tools| && MissesAt(j, j.tools[k], tools, op)
  }

  predicate MissesAt(j: Journey, s: Selector, tools: seq<Descriptor>, op: Id) {
    s.ops != [] && First(j, s, tools) == |s.ops| && op == s.ops[0]
  }

  predicate AmbiguousOp(j: Journey, tools: seq<Descriptor>, op: Id) {
    exists k :: 0 <= k < |j.tools| && DoubtfulAt(j, j.tools[k], tools, op)
  }

  predicate DoubtfulAt(j: Journey, s: Selector, tools: seq<Descriptor>, op: Id) {
    First(j, s, tools) < |s.ops| && op == s.ops[First(j, s, tools)] && Candidates(j, s, op, tools) > 1
  }

  /** How many advertised tools are selected under an operation key. */
  function KeyCount(j: Journey, tools: seq<Descriptor>, key: Id): nat {
    Count(tools, d => Chosen(j, tools, d) && d.key == key)
  }

  function ChosenCount(j: Journey, tools: seq<Descriptor>): nat {
    Count(tools, d => Chosen(j, tools, d))
  }

  predicate BadAlias(j: Journey, tools: seq<Descriptor>, key: Id) {
    exists d :: d in tools && Chosen(j, tools, d) && d.key == key && !ValidAlias(AliasOf(j, tools, d))
  }

  predicate Named(j: Journey, tools: seq<Descriptor>, alias: Id, d: Descriptor) {
    d in tools && Chosen(j, tools, d) && AliasOf(j, tools, d) == alias
  }

  predicate Collides(j: Journey, tools: seq<Descriptor>, alias: Id) {
    ValidAlias(alias) &&
    if Reserved(alias) then exists d :: d in tools && Named(j, tools, alias, d)
    else exists d, e ::
        d in tools && e in tools && Named(j, tools, alias, d) && Named(j, tools, alias, e) && d.key != e.key
  }

  predicate HasReason(j: Journey, tools: seq<Descriptor>, u: Unavailable) {
    match u.reason
    case Missing => MissingOp(j, tools, u.operation)
    case Ambiguous => AmbiguousOp(j, tools, u.operation) || KeyCount(j, tools, u.operation) > 1
    case InvalidAlias => BadAlias(j, tools, u.operation)
    case Collision => Collides(j, tools, u.operation)
    case MaxTools => u.operation == "" && ChosenCount(j, tools) > Limit(j)
    case Version => false
    case PolicyConflict => false
  }

  predicate Distinct<T(==)>(s: seq<T>) {
    forall i, j :: 0 <= i < j < |s| ==> s[i] != s[j]
  }

  /** The reasons of a resolution are exactly those that hold, each once; without any, its tools are
      exactly those selected, in order of alias. */
  ghost predicate Resolves(j: Journey, version: string, tools: seq<Descriptor>, r: Resolution) {
    && r.journey == j.id && Distinct(r.unavailable)
    && (r.unavailable != [] ==> r.tools == [])
    && if !InRange(j, version) then r.unavailable == [Unavailable(Version, "")]
       else
         && (forall u :: u in r.unavailable <==> HasReason(j, tools, u))
         && (r.unavailable == [] ==>
               && (forall t :: t in r.tools <==> exists d ::
                   d in tools && Chosen(j, tools, d) && t == ToolOf(j, tools, d))
               && |r.tools| == ChosenCount(j, tools) && Distinct(r.tools)
               && ByAlias(r.tools))
  }

  predicate ByAlias(tools: seq<Tool>) {
    forall i, k :: 0 <= i < k < |tools| ==> CompareText(tools[i].alias, tools[k].alias) <= 0
  }

  // ---------------------------------------------------------------- order independence

  lemma SameCandidates(j: Journey, s: Selector, a: seq<Descriptor>, b: seq<Descriptor>)
    requires multiset(a) == multiset(b)
    ensures forall op :: Candidates(j, s, op, a) == Candidates(j, s, op, b)
  {
    forall op ensures Candidates(j, s, op, a) == Candidates(j, s, op, b) {
      CountPermuted(a, b, d => Candidate(j, s, op, d));
    }
  }

  lemma {:induction false} SameFirstFrom(j: Journey, s: Selector, a: seq<Descriptor>, b: seq<Descriptor>, k: nat)
    requires multiset(a) == multiset(b) && k <= |s.ops|
    ensures FirstFrom(j, s, a, k) == FirstFrom(j, s, b, k)
    decreases |s.ops| - k
  {
    SameCandidates(j, s, a, b);
    if k < |s.ops| {
      SameFirstFrom(j, s, a, b, k + 1);
    }
  }

  lemma SameChooses(j: Journey, s: Selector, a: seq<Descriptor>, b: seq<Descriptor>, d: Descriptor)
    requires multiset(a) == multiset(b)
    ensures OpChooses(j, s, a, d) == OpChooses(j, s, b, d) && Chooses(j, s, a, d) == Chooses(j, s, b, d)
  {
    SameFirstFrom(j, s, a, b, 0);
    SameCandidates(j, s, a, b);
  }

  lemma {:induction false} SameLastOp(j: Journey, a: seq<Descriptor>, b: seq<Descriptor>, d: Descriptor, n: nat)
    requires multiset(a) == multiset(b) && n <= |j.tools|
    ensures LastOp(j, a, d, n) == LastOp(j, b, d, n)
  {
    if n > 0 {
      SameChooses(j, j.tools[n - 1], a, b, d);
      SameLastOp(j, a, b, d, n - 1);
    }
  }

  /** What is selected, and as what, does not depend on the order of the advertised tools. */
  lemma SameSelection(j: Journey, a: seq<Descriptor>, b: seq<Descriptor>, d: Descriptor)
    requires multiset(a) == multiset(b)
    ensures Chosen(j, a, d) == Chosen(j, b, d) && ToolOf(j, a, d) == ToolOf(j, b, d)
  {
    forall k | 0 <= k < |j.tools| ensures Chooses(j, j.tools[k], a, d) == Chooses(j, j.tools[k], b, d) {
      SameChooses(j, j.tools[k], a, b, d);
    }
    hide Chooses;
    SameLastOp(j, a, b, d, |j.tools|);
  }

  lemma SameMembers(a: seq<Descriptor>, b: seq<Descriptor>)
    requires multiset(a) == multiset(b)
    ensures forall d :: d in a <==> d in b
  {
    forall d ensures d in a <==> d in b {
      assert d in a <==> d in multiset(a);
      assert d in b <==> d in multiset(b);
    }
  }

  lemma SameCounts(j: Journey, a: seq<Descriptor>, b: seq<Descriptor>, key: Id)
    requires multiset(a) == multiset(b)
    ensures ChosenCount(j, a) == ChosenCount(j, b) && KeyCount(j, a, key) == KeyCount(j, b, key)
  {
    hide Chosen, ToolOf;
    forall d ensures Chosen(j, a, d) == Chosen(j, b, d) {
      SameSelection(j, a, b, d);
    }
    CountPermuted(a, b, d => Chosen(j, a, d));
    CountSame(b, d => Chosen(j, a, d), d => Chosen(j, b, d));
    CountPermuted(a, b, d => Chosen(j, a, d) && d.key == key);
    CountSame(b, d => Chosen(j, a, d) && d.key == key, d => Chosen(j, b, d) && d.key == key);
  }

  lemma SameDoubts(j: Journey, a: seq<Descriptor>, b: seq<Descriptor>, op: Id)
    requires multiset(a) == multiset(b)
    ensures MissingOp(j, a, op) == MissingOp(j, b, op) && AmbiguousOp(j, a, op) == AmbiguousOp(j, b, op)
  {
    forall k | 0 <= k < |j.tools|
      ensures MissesAt(j, j.tools[k], a, op) == MissesAt(j, j.tools[k], b, op)
      ensures DoubtfulAt(j, j.tools[k], a, op) == DoubtfulAt(j, j.tools[k], b, op)
    {
      SameFirstFrom(j, j.tools[k], a, b, 0);
      SameCandidates(j, j.tools[k], a, b);
    }
    hide MissesAt, DoubtfulAt;
  }

  lemma SameAliases(j: Journey, a: seq<Descriptor>, b: seq<Descriptor>, name: Id)
    requires multiset(a) == multiset(b)
    ensures BadAlias(j, a, name) == BadAlias(j, b, name) && Collides(j, a, name) == Collides(j, b, name)
  {
    hide Chosen;
    SameMembers(a, b);
    forall d ensures Chosen(j, a, d) == Chosen(j, b, d) && AliasOf(j, a, d) == AliasOf(j, b, d) {
      SameSelection(j, a, b, d);
    }
    hide AliasOf;
  }

  lemma SameReasons(j: Journey, a: seq<Descriptor>, b: seq<Descriptor>, u: Unavailable)
    requires multiset(a) == multiset(b)
    ensures HasReason(j, a, u) == HasReason(j, b, u)
  {
    hide MissingOp, AmbiguousOp, KeyCount, ChosenCount, BadAlias, Collides;
    SameCounts(j, a, b, u.operation);
    SameDoubts(j, a, b, u.operation);
    SameAliases(j, a, b, u.operation);
  }

  lemma {:induction false} SortedSame(a: seq<Tool>, b: seq<Tool>)
    requires ByAlias(a) && ByAlias(b) && UniqueAliases(a) && UniqueAliases(b) && (forall t :: t in a <==> t in b)
    ensures a == b
  {
    if b != [] {
      HasMember(b, a);
    }
    if a != [] {
      assert a[0] in b && b[0] in a;
      FirstSame(a, b);
      forall t ensures t in a[1..] <==> t in b[1..] {
        InTail(a, t);
        InTail(b, t);
      }
      SortedSame(a[1..], b[1..]);
      assert a == [a[0]] + a[1..] && b == [b[0]] + b[1..];
    }
  }

  lemma HasMember(b: seq<Tool>, a: seq<Tool>)
    requires b != [] && forall t :: t in b ==> t in a
    ensures a != []
  {
    assert b[0] in a;
  }

  lemma InTail(s: seq<Tool>, t: Tool)
    requires s != [] && UniqueAliases(s)
    ensures t in s[1..] <==> t in s && t != s[0]
  {
    assert s == [s[0]] + s[1..];
  }

  predicate UniqueAliases(tools: seq<Tool>) {
    forall i, k :: 0 <= i < k < |tools| ==> tools[i].alias != tools[k].alias
  }

  lemma FirstSame(a: seq<Tool>, b: seq<Tool>)
    requires ByAlias(a) && ByAlias(b) && UniqueAliases(a) && UniqueAliases(b) && a != [] && b != [] && a[0] in b
      && b[0] in a
    ensures a[0] == b[0]
  {
    var i :| 0 <= i < |b| && b[i] == a[0];
    var k :| 0 <= k < |a| && a[k] == b[0];
    if i > 0 && k > 0 {
      assert CompareText(b[0].alias, b[i].alias) <= 0 && CompareText(a[0].alias, a[k].alias) <= 0;
      CharsOrdered();
      Mirrored(a[0].alias, b[0].alias, CompareChars);
      SameText(a[0].alias, b[0].alias);
    }
  }

  // ---------------------------------------------------------------- what an available journey offers

  /** One tool per operation key, valid, unreserved and unique aliases, and no more than the limit. */
  predicate Sound(j: Journey, r: Resolution) {
    && |r.tools| <= Limit(j) && UniqueAliases(r.tools)
    && (forall i, k :: 0 <= i < k < |r.tools| ==> r.tools[i].key != r.tools[k].key)
    && forall i :: 0 <= i < |r.tools| ==>
         && ValidAlias(r.tools[i].alias) && !Reserved(r.tools[i].alias)
         && r.tools[i].key != "" && r.tools[i].key !in j.deny
  }

  lemma {:induction false} TwoCounted(tools: seq<Descriptor>, p: Descriptor -> bool, d: Descriptor, e: Descriptor)
    requires d in tools && e in tools && d != e && p(d) && p(e)
    ensures Count(tools, p) > 1
  {
    var i: nat :| i < |tools| && tools[i] == d;
    var k: nat :| k < |tools| && tools[k] == e;
    var all := Positions(tools, p, |tools|);
    assert {i, k} <= all;
    PositionsCount(tools, p, |tools|);
    assert tools[..|tools|] == tools;
    assert |all - {i, k}| == |all| - 2;
  }

  lemma ChosenUsable(j: Journey, tools: seq<Descriptor>, d: Descriptor)
    requires Chosen(j, tools, d)
    ensures Usable(j, d)
  {
  }

  /** Without an ambiguity, one key means one tool. */
  lemma OnePerKey(j: Journey, tools: seq<Descriptor>, d: Descriptor, e: Descriptor)
    requires !HasReason(j, tools, Unavailable(Ambiguous, d.key))
    requires d in tools && e in tools && Chosen(j, tools, d) && Chosen(j, tools, e) && d.key == e.key
    ensures d == e
  {
    hide Chosen, AmbiguousOp;
    if d != e {
      TwoCounted(tools, x => Chosen(j, tools, x) && x.key == d.key, d, e);
    }
  }

  /** A journey that resolves offers what its definition promises. */
  lemma AvailableIsSound(j: Journey, version: string, tools: seq<Descriptor>, r: Resolution)
    requires Resolves(j, version, tools, r) && r.Available()
    ensures Sound(j, r)
  {
    hide Chosen, Collides, BadAlias, MissingOp, AmbiguousOp, KeyCount, ChosenCount, CompareText, ToolOf, InRange;
    assert !HasReason(j, tools, Unavailable(MaxTools, ""));
    forall i | 0 <= i < |r.tools|
      ensures ValidAlias(r.tools[i].alias) && !Reserved(r.tools[i].alias) && r.tools[i].key != ""
        && r.tools[i].key !in j.deny
    {
      assert r.tools[i] in r.tools;
      var d :| d in tools && Chosen(j, tools, d) && r.tools[i] == ToolOf(j, tools, d);
      FineAlias(j, tools, d);
    }
    forall i, k | 0 <= i < k < |r.tools|
      ensures r.tools[i].key != r.tools[k].key && r.tools[i].alias != r.tools[k].alias
    {
      assert r.tools[i] in r.tools && r.tools[k] in r.tools && r.tools[i] != r.tools[k];
      var d :| d in tools && Chosen(j, tools, d) && r.tools[i] == ToolOf(j, tools, d);
      var e :| e in tools && Chosen(j, tools, e) && r.tools[k] == ToolOf(j, tools, e);
      assert !HasReason(j, tools, Unavailable(Ambiguous, d.key))
          && !HasReason(j, tools, Unavailable(Collision, r.tools[i].alias));
      ToolIs(j, tools, d);
      ToolIs(j, tools, e);
      FineAlias(j, tools, d);
      if d.key == e.key {
        OnePerKey(j, tools, d, e);
        assert false;
      }
      if r.tools[i].alias == r.tools[k].alias {
        SharedAlias(j, tools, d, e);
      }
    }
  }

  lemma ToolIs(j: Journey, tools: seq<Descriptor>, d: Descriptor)
    ensures ToolOf(j, tools, d).key == d.key && ToolOf(j, tools, d).alias == AliasOf(j, tools, d)
  {
  }

  lemma FineAlias(j: Journey, tools: seq<Descriptor>, d: Descriptor)
    requires d in tools && Chosen(j, tools, d)
    requires !HasReason(j, tools, Unavailable(InvalidAlias, d.key))
      && !HasReason(j, tools, Unavailable(Collision, AliasOf(j, tools, d)))
    ensures ValidAlias(AliasOf(j, tools, d)) && !Reserved(AliasOf(j, tools, d)) && d.key != "" && d.key !in j.deny
    ensures ToolOf(j, tools, d).key == d.key && ToolOf(j, tools, d).alias == AliasOf(j, tools, d)
  {
    ChosenUsable(j, tools, d);
    hide Chosen;
    assert Named(j, tools, AliasOf(j, tools, d), d);
  }

  lemma SharedAlias(j: Journey, tools: seq<Descriptor>, d: Descriptor, e: Descriptor)
    requires d in tools && e in tools && Chosen(j, tools, d) && Chosen(j, tools, e) && d.key != e.key
    requires AliasOf(j, tools, d) == AliasOf(j, tools, e) && ValidAlias(AliasOf(j, tools, d))
      && !Reserved(AliasOf(j, tools, d))
    ensures HasReason(j, tools, Unavailable(Collision, AliasOf(j, tools, d)))
  {
    hide Chosen, AliasOf;
    var a := AliasOf(j, tools, d);
    assert Named(j, tools, a, d) && Named(j, tools, a, e);
  }

  /** Order independence: the same tools in another order give the same availability, the same reasons
      and the same resolved list. */
  lemma OrderIndependent(j: Journey, version: string, a: seq<Descriptor>, b: seq<Descriptor>, r: Resolution,
      q: Resolution)
    requires multiset(a) == multiset(b) && Resolves(j, version, a, r) && Resolves(j, version, b, q)
    ensures r.Available() == q.Available() && r.tools == q.tools
      && (forall u :: u in r.unavailable <==> u in q.unavailable)
  {
    hide HasReason, Chosen, ToolOf, InRange, ChosenCount, ByAlias, Sound;
    if InRange(j, version) {
      forall u ensures u in r.unavailable <==> u in q.unavailable {
        SameReasons(j, a, b, u);
      }
      assert r.unavailable == [] <==> q.unavailable == [] by {
        if r.unavailable != [] { assert r.unavailable[0] in q.unavailable; }
        if q.unavailable != [] { assert q.unavailable[0] in r.unavailable; }
      }
      if r.Available() {
        SameTools(j, version, a, b, r, q);
      }
    }
  }

  lemma SameTools(j: Journey, version: string, a: seq<Descriptor>, b: seq<Descriptor>, r: Resolution, q: Resolution)
    requires multiset(a) == multiset(b) && Resolves(j, version, a, r) && Resolves(j, version, b, q) && r.Available()
      && q.Available()
    ensures r.tools == q.tools
  {
    AvailableIsSound(j, version, a, r);
    AvailableIsSound(j, version, b, q);
    hide HasReason, Chosen, ToolOf, InRange, ChosenCount, ByAlias;
    SameMembers(a, b);
    forall d ensures Chosen(j, a, d) == Chosen(j, b, d) && ToolOf(j, a, d) == ToolOf(j, b, d) {
      SameSelection(j, a, b, d);
    }
    forall t ensures t in r.tools <==> t in q.tools {
      if t in r.tools {
        var d :| d in a && Chosen(j, a, d) && t == ToolOf(j, a, d);
        assert d in b && Chosen(j, b, d) && t == ToolOf(j, b, d);
      }
      if t in q.tools {
        var d :| d in b && Chosen(j, b, d) && t == ToolOf(j, b, d);
        assert d in a && Chosen(j, a, d) && t == ToolOf(j, a, d);
      }
    }
    SortedSame(r.tools, q.tools);
  }

  // ---------------------------------------------------------------- what an available journey offers

  /** d can be had under the key: it carries it, the journey does not deny it, and it is marked read-only where the
      selector insists on that. */
  predicate Serves(j: Journey, s: Selector, key: Id, d: Descriptor) {
    d.key == key && key != "" && key !in j.deny && (s.readOnlyHint ==> d.readOnlyHint)
  }

  /** d is the only tool that serves the first key of the selector that any tool serves. */
  predicate PickedByKey(j: Journey, s: Selector, tools: seq<Descriptor>, d: Descriptor) {
    exists a ::
      && 0 <= a < |s.ops| && Serves(j, s, s.ops[a], d) && OnlyAt(j, s, tools, a)
      && forall b, p :: 0 <= b < a && 0 <= p < |tools| ==> !Serves(j, s, s.ops[b], tools[p])
  }

  predicate OnlyAt(j: Journey, s: Selector, tools: seq<Descriptor>, a: nat)
    requires a < |s.ops|
  {
    && (exists p :: 0 <= p < |tools| && Serves(j, s, s.ops[a], tools[p]))
    && forall p, q |
         0 <= p < |tools| && 0 <= q < |tools| && Serves(j, s, s.ops[a], tools[p]) && Serves(j, s, s.ops[a], tools[q]) ::
         p == q
  }

  /** d carries every tag of a selector by tags. */
  predicate PickedByTags(j: Journey, s: Selector, d: Descriptor) {
    s.ops == [] && s.tags != [] && Serves(j, s, d.key, d) && forall t :: t in s.tags ==> t in d.tags
  }

  lemma OneCandidate(j: Journey, s: Selector, tools: seq<Descriptor>, a: nat)
    requires a < |s.ops|
    ensures Candidates(j, s, s.ops[a], tools) == 1 <==> OnlyAt(j, s, tools, a)
    ensures Candidates(j, s, s.ops[a], tools) == 0 <==>
      forall p :: 0 <= p < |tools| ==> !Serves(j, s, s.ops[a], tools[p])
  {
    var test := d => Candidate(j, s, s.ops[a], d);
    var found := Positions(tools, test, |tools|);
    PositionsCount(tools, test, |tools|);
    assert tools[..|tools|] == tools;
    assert forall p :: p in found <==> 0 <= p < |tools| && Serves(j, s, s.ops[a], tools[p]);
    if |found| == 1 {
      var p :| p in found;
      assert found == {p} by {
        assert |found - {p}| == 0;
      }
    }
    if OnlyAt(j, s, tools, a) {
      var p :| 0 <= p < |tools| && Serves(j, s, s.ops[a], tools[p]);
      assert found == {p};
    }
    if forall p :: 0 <= p < |tools| ==> !Serves(j, s, s.ops[a], tools[p]) {
      assert found == {};
    }
  }

  lemma KeyPicks(j: Journey, s: Selector, tools: seq<Descriptor>, d: Descriptor)
    ensures OpChooses(j, s, tools, d) <==> PickedByKey(j, s, tools, d)
  {
    var k := First(j, s, tools);
    forall a | 0 <= a < |s.ops|
      ensures Candidates(j, s, s.ops[a], tools) == 1 <==> OnlyAt(j, s, tools, a)
      ensures Candidates(j, s, s.ops[a], tools) == 0 <==>
        forall p :: 0 <= p < |tools| ==> !Serves(j, s, s.ops[a], tools[p])
    {
      OneCandidate(j, s, tools, a);
    }
    hide Candidates, OnlyAt;
    if PickedByKey(j, s, tools, d) {
      var a :| 0 <= a < |s.ops| && Serves(j, s, s.ops[a], d) && OnlyAt(j, s, tools, a)
        && forall b, p :: 0 <= b < a && 0 <= p < |tools| ==> !Serves(j, s, s.ops[b], tools[p]);
      assert k == a;
    }
  }

  predicate Picked(j: Journey, s: Selector, tools: seq<Descriptor>, d: Descriptor) {
    PickedByKey(j, s, tools, d) || PickedByTags(j, s, d)
  }

  /** Selector k picks d by its key, and no later one does. */
  predicate LastPick(j: Journey, tools: seq<Descriptor>, d: Descriptor, k: int) {
    && 0 <= k < |j.tools| && PickedByKey(j, j.tools[k], tools, d)
    && forall i :: k < i < |j.tools| ==> !PickedByKey(j, j.tools[i], tools, d)
  }

  /** The class and the alias are those of the last selector that picks d by its key, where it names them; a tool is
      effectful and has the alias of its key otherwise.  Approval is needed for everything that is not read-only, and
      wherever a selector that picks d asks for it. */
  ghost predicate SaidOf(j: Journey, tools: seq<Descriptor>, d: Descriptor, t: Tool) {
    && t.key == d.key && t.remote == d.name && t.description == d.description && t.schema == d.schema
    && (forall k :: LastPick(j, tools, d, k) ==>
          && t.effect == (if j.tools[k].effect == Unclassified then Effectful else j.tools[k].effect)
          && t.alias == (if j.tools[k].alias == "" then AliasFor(d.key) else j.tools[k].alias))
    && ((forall k :: 0 <= k < |j.tools| ==> !PickedByKey(j, j.tools[k], tools, d)) ==>
          t.effect == Effectful && t.alias == AliasFor(d.key))
    && (t.requiresApproval <==>
          || t.effect != ReadOnly
          || exists k :: 0 <= k < |j.tools| && Picked(j, j.tools[k], tools, d) && j.tools[k].approvalRequired)
  }

  lemma ToolIsSaid(j: Journey, tools: seq<Descriptor>, d: Descriptor)
    ensures SaidOf(j, tools, d, ToolOf(j, tools, d))
    ensures Chosen(j, tools, d) <==> exists k :: 0 <= k < |j.tools| && Picked(j, j.tools[k], tools, d)
  {
    forall k | 0 <= k < |j.tools|
      ensures OpChooses(j, j.tools[k], tools, d) <==> PickedByKey(j, j.tools[k], tools, d)
      ensures Chooses(j, j.tools[k], tools, d) <==> Picked(j, j.tools[k], tools, d)
    {
      KeyPicks(j, j.tools[k], tools, d);
    }
    hide OpChooses, PickedByKey, PickedByTags, TagChooses;
    var last := LastOp(j, tools, d, |j.tools|);
    forall k | LastPick(j, tools, d, k) ensures k == last {
      assert PickedByKey(j, j.tools[k], tools, d) && OpChooses(j, j.tools[k], tools, d);
    }
  }

  /** An available journey offers exactly the tools that some selector picks, each as it is said. */
  lemma OffersExactly(j: Journey, version: string, tools: seq<Descriptor>, r: Resolution)
    requires Resolves(j, version, tools, r) && r.Available()
    ensures forall t :: t in r.tools ==> exists d :: d in tools && IsPicked(j, tools, d) && SaidOf(j, tools, d, t)
    ensures forall d :: d in tools && IsPicked(j, tools, d) ==> exists t :: t in r.tools && SaidOf(j, tools, d, t)
  {
    hide ToolOf, SaidOf, Chosen, HasReason, ChosenCount, InRange, ByAlias, Distinct;
    forall d ensures SaidOf(j, tools, d, ToolOf(j, tools, d)) && (Chosen(j, tools, d) <==> IsPicked(j, tools, d)) {
      ToolIsSaid(j, tools, d);
    }
  }

  ghost predicate IsPicked(j: Journey, tools: seq<Descriptor>, d: Descriptor) {
    exists k :: 0 <= k < |j.tools| && Picked(j, j.tools[k], tools, d)
  }

  /** The first key that any tool serves is served by exactly one. */
  ghost predicate Finds(j: Journey, s: Selector, tools: seq<Descriptor>) {
    exists a: nat :: FindsAt(j, s, tools, a)
  }

  predicate FindsAt(j: Journey, s: Selector, tools: seq<Descriptor>, a: nat) {
    && a < |s.ops| && OnlyAt(j, s, tools, a)
    && forall b, p :: 0 <= b < a && 0 <= p < |tools| ==> !Serves(j, s, s.ops[b], tools[p])
  }

  lemma FindsOne(j: Journey, s: Selector, tools: seq<Descriptor>)
    requires s.ops != []
    ensures Finds(j, s, tools) <==>
      First(j, s, tools) < |s.ops| && Candidates(j, s, s.ops[First(j, s, tools)], tools) == 1
  {
    var k := First(j, s, tools);
    forall a | 0 <= a < |s.ops|
      ensures Candidates(j, s, s.ops[a], tools) == 1 <==> OnlyAt(j, s, tools, a)
      ensures Candidates(j, s, s.ops[a], tools) == 0 <==>
        forall p :: 0 <= p < |tools| ==> !Serves(j, s, s.ops[a], tools[p])
    {
      OneCandidate(j, s, tools, a);
    }
    hide Candidates, OnlyAt;
    if Finds(j, s, tools) {
      var a: nat :| FindsAt(j, s, tools, a);
      assert k == a;
    }
    if k < |s.ops| && Candidates(j, s, s.ops[k], tools) == 1 {
      assert FindsAt(j, s, tools, k);
    }
  }

  /** The advertised tools that are picked, by position. */
  ghost function PickedAt(j: Journey, tools: seq<Descriptor>): (r: set<nat>)
    ensures forall p :: p in r <==> 0 <= p < |tools| && IsPicked(j, tools, tools[p])
  {
    set p: nat | p < |tools| && IsPicked(j, tools, tools[p])
  }

  /** Picked tools have valid aliases that are not the runtime's own; no two share a key or an alias; and they are no
      more than the journey allows. */
  ghost predicate PicksAreSound(j: Journey, tools: seq<Descriptor>) {
    var picked := PickedAt(j, tools);
    && (forall p :: p in picked ==> ValidAlias(AliasOf(j, tools, tools[p])) && !Reserved(AliasOf(j, tools, tools[p])))
    && (forall p, q :: p in picked && q in picked && p != q ==>
          tools[p].key != tools[q].key && AliasOf(j, tools, tools[p]) != AliasOf(j, tools, tools[q]))
    && |picked| <= (if j.maxTools <= 0 then 15 else j.maxTools)
  }

  /** When a journey is available: its range holds the version, every selector by key finds exactly one tool for the
      first key that any tool serves, and what is picked is sound. */
  lemma AvailableExactly(j: Journey, version: string, tools: seq<Descriptor>, r: Resolution)
    requires Resolves(j, version, tools, r)
    ensures r.Available() <==>
      && (j.versions.min == "" || Compare(version, j.versions.min) >= 0)
      && (j.versions.maxExclusive == "" || Compare(version, j.versions.maxExclusive) < 0)
      && (forall k :: 0 <= k < |j.tools| && j.tools[k].ops != [] ==> Finds(j, j.tools[k], tools))
      && PicksAreSound(j, tools)
  {
    hide Compare, HasReason, Finds, PicksAreSound;
    assert Distinct([Unavailable(Version, "")]);
    NoneMissing(j, tools);
    NoneUnsound(j, tools);
    if InRange(j, version) && Finding(j, tools) && PicksAreSound(j, tools) {
      forall u ensures !HasReason(j, tools, u) {
        Because(j, tools, u);
      }
      FirstIn(r.unavailable);
    }
    if InRange(j, version) && r.Available() {
      assert forall u :: !HasReason(j, tools, u);
    }
  }

  lemma FirstIn(us: seq<Unavailable>)
    ensures us == [] || us[0] in us
  {
  }

  ghost predicate Finding(j: Journey, tools: seq<Descriptor>) {
    forall k :: 0 <= k < |j.tools| && j.tools[k].ops != [] ==> Finds(j, j.tools[k], tools)
  }

  ghost predicate NoDoubt(j: Journey, tools: seq<Descriptor>) {
    forall op :: !MissingOp(j, tools, op) && !AmbiguousOp(j, tools, op)
  }

  ghost predicate NoFlaw(j: Journey, tools: seq<Descriptor>) {
    && (forall key :: KeyCount(j, tools, key) <= 1 && !BadAlias(j, tools, key) && !Collides(j, tools, key))
    && ChosenCount(j, tools) <= Limit(j)
  }

  lemma Because(j: Journey, tools: seq<Descriptor>, u: Unavailable)
    requires NoDoubt(j, tools) && NoFlaw(j, tools)
    ensures !HasReason(j, tools, u)
  {
    hide MissingOp, AmbiguousOp, KeyCount, BadAlias, Collides, ChosenCount;
  }

  /** Nothing is missing or ambiguous exactly if every selector by key finds its tool. */
  lemma NoneMissing(j: Journey, tools: seq<Descriptor>)
    ensures Finding(j, tools) <==> NoDoubt(j, tools)
    ensures (forall u :: !HasReason(j, tools, u)) ==> NoDoubt(j, tools)
  {
    forall k | 0 <= k < |j.tools| && j.tools[k].ops != []
      ensures Finds(j, j.tools[k], tools) <==>
        First(j, j.tools[k], tools) < |j.tools[k].ops|
        && Candidates(j, j.tools[k], j.tools[k].ops[First(j, j.tools[k], tools)], tools) == 1
    {
      FindsOne(j, j.tools[k], tools);
    }
    hide Finds, Candidates, First, KeyCount, BadAlias, Collides, ChosenCount;
    if NoDoubt(j, tools) {
      forall k | 0 <= k < |j.tools| && j.tools[k].ops != [] ensures Finds(j, j.tools[k], tools) {
        var s := j.tools[k];
        assert !MissingOp(j, tools, s.ops[0]) && !MissesAt(j, s, tools, s.ops[0]);
        assert !AmbiguousOp(j, tools, s.ops[First(j, s, tools)]) && !DoubtfulAt(j, s, tools, s.ops[First(j, s, tools)]);
      }
    }
    if forall u :: !HasReason(j, tools, u) {
      forall op ensures !MissingOp(j, tools, op) && !AmbiguousOp(j, tools, op) {
        assert !HasReason(j, tools, Unavailable(Missing, op)) && !HasReason(j, tools, Unavailable(Ambiguous, op));
      }
    }
  }

  lemma PicksAreChosen(j: Journey, tools: seq<Descriptor>)
    ensures forall d :: Chosen(j, tools, d) <==> IsPicked(j, tools, d)
  {
    hide Chosen, Picked;
    forall d ensures Chosen(j, tools, d) <==> IsPicked(j, tools, d) {
      ToolIsSaid(j, tools, d);
    }
  }

  lemma PickedCount(j: Journey, tools: seq<Descriptor>)
    ensures |PickedAt(j, tools)| == ChosenCount(j, tools)
  {
    hide Chosen, IsPicked;
    PicksAreChosen(j, tools);
    PositionsCount(tools, d => Chosen(j, tools, d), |tools|);
    assert tools[..|tools|] == tools;
    assert PickedAt(j, tools) == Positions(tools, d => Chosen(j, tools, d), |tools|);
  }

  ghost predicate OneKey(j: Journey, tools: seq<Descriptor>, key: Id) {
    forall p, q :: p in PickedAt(j, tools) && q in PickedAt(j, tools) && tools[p].key == key && tools[q].key == key ==>
      p == q
  }

  lemma KeyOnce(j: Journey, tools: seq<Descriptor>, key: Id)
    ensures KeyCount(j, tools, key) <= 1 <==> OneKey(j, tools, key)
  {
    hide Chosen, IsPicked;
    PicksAreChosen(j, tools);
    var test := d => Chosen(j, tools, d) && d.key == key;
    var found := Positions(tools, test, |tools|);
    PositionsCount(tools, test, |tools|);
    assert tools[..|tools|] == tools;
    assert forall p :: p in found <==> p in PickedAt(j, tools) && tools[p].key == key;
    if found != {} {
      var p :| p in found;
      if OneKey(j, tools, key) {
        assert found == {p};
      }
      if |found| <= 1 {
        assert |found - {p}| == 0;
        assert found == {p};
      }
    }
  }

  ghost predicate AliasesSound(j: Journey, tools: seq<Descriptor>) {
    var picked := PickedAt(j, tools);
    && (forall p :: p in picked ==> ValidAlias(AliasOf(j, tools, tools[p])) && !Reserved(AliasOf(j, tools, tools[p])))
    && (forall p, q :: p in picked && q in picked && tools[p].key != tools[q].key ==>
          AliasOf(j, tools, tools[p]) != AliasOf(j, tools, tools[q]))
  }

  lemma AliasesFlawless(j: Journey, tools: seq<Descriptor>)
    ensures AliasesSound(j, tools) <==> forall key :: !BadAlias(j, tools, key) && !Collides(j, tools, key)
  {
    hide Chosen, IsPicked, AliasOf, ValidAlias, Reserved;
    PicksAreChosen(j, tools);
    if forall key :: !BadAlias(j, tools, key) && !Collides(j, tools, key) {
      forall p | p in PickedAt(j, tools)
        ensures ValidAlias(AliasOf(j, tools, tools[p])) && !Reserved(AliasOf(j, tools, tools[p]))
      {
        assert !BadAlias(j, tools, tools[p].key) && !Collides(j, tools, AliasOf(j, tools, tools[p]));
        assert tools[p] in tools && Named(j, tools, AliasOf(j, tools, tools[p]), tools[p]);
      }
      forall p, q | p in PickedAt(j, tools) && q in PickedAt(j, tools) && tools[p].key != tools[q].key
        ensures AliasOf(j, tools, tools[p]) != AliasOf(j, tools, tools[q])
      {
        var alias := AliasOf(j, tools, tools[p]);
        assert !Collides(j, tools, alias);
        assert tools[p] in tools && tools[q] in tools && Named(j, tools, alias, tools[p]);
        assert Named(j, tools, AliasOf(j, tools, tools[q]), tools[q]);
      }
    }
    if AliasesSound(j, tools) {
      forall key ensures !BadAlias(j, tools, key) && !Collides(j, tools, key) {
        Flawless(j, tools, key);
      }
    }
  }

  lemma Flawless(j: Journey, tools: seq<Descriptor>, name: Id)
    requires AliasesSound(j, tools) && forall d :: Chosen(j, tools, d) <==> IsPicked(j, tools, d)
    ensures !BadAlias(j, tools, name) && !Collides(j, tools, name)
  {
    hide Chosen, IsPicked, AliasOf, ValidAlias, Reserved;
    forall d | d in tools && Chosen(j, tools, d) ensures exists p :: p in PickedAt(j, tools) && tools[p] == d {
      var p :| 0 <= p < |tools| && tools[p] == d;
      assert p in PickedAt(j, tools);
    }
  }

  /** What is picked is sound exactly if there is no reason of these kinds. */
  lemma NoneUnsound(j: Journey, tools: seq<Descriptor>)
    ensures PicksAreSound(j, tools) <==> NoFlaw(j, tools)
    ensures (forall u :: !HasReason(j, tools, u)) ==> NoFlaw(j, tools)
  {
    PickedCount(j, tools);
    AliasesFlawless(j, tools);
    forall key ensures KeyCount(j, tools, key) <= 1 <==> OneKey(j, tools, key) {
      KeyOnce(j, tools, key);
    }
    SoundParts(j, tools);
    hide KeyCount, BadAlias, Collides, ChosenCount, OneKey, AliasesSound, PicksAreSound, HasReason;
    if forall u :: !HasReason(j, tools, u) {
      forall key ensures KeyCount(j, tools, key) <= 1 && !BadAlias(j, tools, key) && !Collides(j, tools, key) {
        assert !HasReason(j, tools, Unavailable(Ambiguous, key));
        assert !HasReason(j, tools, Unavailable(InvalidAlias, key));
        assert !HasReason(j, tools, Unavailable(Collision, key));
        ReasonsOf(j, tools, key);
      }
      assert !HasReason(j, tools, Unavailable(MaxTools, ""));
      ReasonsOf(j, tools, "");
    }
  }

  lemma ReasonsOf(j: Journey, tools: seq<Descriptor>, key: Id)
    ensures KeyCount(j, tools, key) > 1 ==> HasReason(j, tools, Unavailable(Ambiguous, key))
    ensures BadAlias(j, tools, key) ==> HasReason(j, tools, Unavailable(InvalidAlias, key))
    ensures Collides(j, tools, key) ==> HasReason(j, tools, Unavailable(Collision, key))
    ensures ChosenCount(j, tools) > Limit(j) ==> HasReason(j, tools, Unavailable(MaxTools, ""))
  {
    hide KeyCount, BadAlias, Collides, ChosenCount;
  }

  lemma SoundParts(j: Journey, tools: seq<Descriptor>)
    ensures PicksAreSound(j, tools) <==>
      && AliasesSound(j, tools) && (forall key :: OneKey(j, tools, key)) && |PickedAt(j, tools)| <= Limit(j)
  {
    hide AliasOf, ValidAlias, Reserved, IsPicked;
    if forall key :: OneKey(j, tools, key) {
      forall p, q | p in PickedAt(j, tools) && q in PickedAt(j, tools) && p != q ensures tools[p].key != tools[q].key {
        assert OneKey(j, tools, tools[p].key);
      }
    }
  }
}
