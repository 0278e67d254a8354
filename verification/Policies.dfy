/** One operation, one policy: the check over resolved journeys, the check over compiled definitions,
    and why the second makes the first a formality for operation selectors. */
module Policies {
  import opened Basics
  import opened Versions
  import opened Catalog
  import Resolve

  datatype Policy = Policy(effect: Class, approval: bool)

  function PolicyOf(t: Tool): Policy { Policy(t.effect, t.requiresApproval) }

  // ---------------------------------------------------------------- conflicts between resolutions

  /** t is a tool of some available resolution. */
  predicate Offered(rs: seq<Resolution>, t: Tool) {
    exists i :: 0 <= i < |rs| && rs[i].Available() && t in rs[i].tools
  }

  /** Two offered tools under one key carry different policies. */
  ghost predicate KeyConflict(rs: seq<Resolution>, key: Id) {
    exists t, u :: Offered(rs, t) && Offered(rs, u) && t.key == key && u.key == key && PolicyOf(t) != PolicyOf(u)
  }

  ghost predicate AliasConflict(rs: seq<Resolution>, alias: Id) {
    exists t, u :: Offered(rs, t) && Offered(rs, u) && t.alias == alias && u.alias == alias
        && PolicyOf(t) != PolicyOf(u)
  }

  /** What a conflicting tool is reported as: its key, or else its alias; "" when it has no conflict. */
  ghost function ConflictName(rs: seq<Resolution>, t: Tool): Id {
    if KeyConflict(rs, t.key) then t.key else if AliasConflict(rs, t.alias) then t.alias else ""
  }

  ghost predicate Conflicts(rs: seq<Resolution>, r: Resolution, name: Id) {
    name != "" && exists t :: t in r.tools && ConflictName(rs, t) == name
  }

  ghost predicate Conflicting(rs: seq<Resolution>, r: Resolution) {
    r.Available() && exists t :: t in r.tools && ConflictName(rs, t) != ""
  }

  predicate Ascending(names: seq<Id>) {
    forall i, k :: 0 <= i < k < |names| ==> CompareText(names[i], names[k]) <= 0
  }

  /** q is r after the check: unchanged unless it conflicts, and then without tools and with the
      conflicting names, each once, in order. */
  ghost predicate CheckedOne(rs: seq<Resolution>, r: Resolution, q: Resolution) {
    if !Conflicting(rs, r) then q == r
    else
      && q.journey == r.journey && q.tools == [] && q.unavailable != [] && Distinct(q.unavailable)
      && (forall u :: u in q.unavailable ==> u.reason == PolicyConflict)
      && Ascending(seq(|q.unavailable|, k requires 0 <= k < |q.unavailable| => q.unavailable[k].operation))
      && forall name :: Unavailable(PolicyConflict, name) in q.unavailable <==> Conflicts(rs, r, name)
  }

  ghost predicate Checked(rs: seq<Resolution>, out: seq<Resolution>) {
    |out| == |rs| && forall i :: 0 <= i < |rs| ==> CheckedOne(rs, rs[i], out[i])
  }

  /** Exactly the conflicting resolutions change, and what stays available was available. */
  lemma RemovesOnlyConflicting(rs: seq<Resolution>, out: seq<Resolution>, i: nat)
    requires Checked(rs, out) && i < |rs|
    ensures out[i] != rs[i] <==> Conflicting(rs, rs[i])
    ensures out[i].Available() <==> rs[i].Available() && !Conflicting(rs, rs[i])
  {
    hide Conflicting, Conflicts;
    assert Conflicting(rs, rs[i]) ==> rs[i].Available() by { ConflictingAvailable(rs, rs[i]); }
    assert CheckedOne(rs, rs[i], out[i]);
  }

  lemma ConflictingAvailable(rs: seq<Resolution>, r: Resolution)
    ensures Conflicting(rs, r) ==> r.Available()
  {
  }

  /** What is offered afterwards was offered before, without a reportable conflict. */
  lemma StillOffered(rs: seq<Resolution>, out: seq<Resolution>, t: Tool)
    requires Checked(rs, out) && Offered(out, t)
    ensures Offered(rs, t) && ConflictName(rs, t) == ""
  {
    hide ConflictName;
    var i :| 0 <= i < |out| && out[i].Available() && t in out[i].tools;
    RemovesOnlyConflicting(rs, out, i);
    assert out[i] == rs[i];
    assert Offered(rs, t);
  }

  ghost predicate Consistent(rs: seq<Resolution>) {
    (forall key :: !KeyConflict(rs, key)) && (forall alias :: !AliasConflict(rs, alias))
  }

  /** t is a tool of an available resolution that has no reportable conflict. */
  ghost predicate Untouched(rs: seq<Resolution>, t: Tool) {
    exists i :: 0 <= i < |rs| && rs[i].Available() && !Conflicting(rs, rs[i]) && t in rs[i].tools
  }

  /** Two tools that the check has no name for: both lack a key, or both lack an alias. */
  predicate BothNameless(t: Tool, u: Tool) {
    (t.key == "" && u.key == "") || (t.alias == "" && u.alias == "")
  }

  /** Resolutions without a reportable conflict agree on the policy of their nameless tools. */
  ghost predicate NamelessAgree(rs: seq<Resolution>) {
    forall t, u :: Untouched(rs, t) && Untouched(rs, u) && BothNameless(t, u) ==> PolicyOf(t) == PolicyOf(u)
  }

  lemma OfferedIffUntouched(rs: seq<Resolution>, out: seq<Resolution>, t: Tool)
    requires Checked(rs, out)
    ensures Offered(out, t) <==> Untouched(rs, t)
  {
    hide Conflicting, CheckedOne;
    if Offered(out, t) {
      var i :| 0 <= i < |out| && out[i].Available() && t in out[i].tools;
      RemovesOnlyConflicting(rs, out, i);
    }
    if Untouched(rs, t) {
      var i :| 0 <= i < |rs| && rs[i].Available() && !Conflicting(rs, rs[i]) && t in rs[i].tools;
      RemovesOnlyConflicting(rs, out, i);
    }
  }

  lemma StillConflicts(rs: seq<Resolution>, out: seq<Resolution>, t: Tool, u: Tool)
    requires Checked(rs, out) && Offered(out, t) && Offered(out, u) && PolicyOf(t) != PolicyOf(u)
    ensures t.key == u.key ==> t.key == ""
    ensures t.alias == u.alias ==> t.alias == "" || (t.key == "" && u.key == "")
  {
    StillOffered(rs, out, t);
    StillOffered(rs, out, u);
    hide Offered;
    if t.key == u.key {
      assert KeyConflict(rs, t.key);
    }
    if t.alias == u.alias {
      assert AliasConflict(rs, t.alias);
    }
  }

  /** After the check no key and no alias has two policies, exactly if beforehand the nameless tools of the
      resolutions without a reportable conflict agreed. */
  lemma ConsistentAfterwards(rs: seq<Resolution>, out: seq<Resolution>)
    requires Checked(rs, out)
    ensures Consistent(out) <==> NamelessAgree(rs)
  {
    hide Checked, Consistent, Untouched, Offered;
    forall t ensures Offered(out, t) <==> Untouched(rs, t) {
      OfferedIffUntouched(rs, out, t);
    }
    if NamelessAgree(rs) {
      AgreeingIsConsistent(rs, out);
    }
    if Consistent(out) {
      forall t, u | Untouched(rs, t) && Untouched(rs, u) && BothNameless(t, u) ensures PolicyOf(t) == PolicyOf(u) {
        ConsistentAgrees(out, t, u);
      }
    }
  }

  lemma AgreeingIsConsistent(rs: seq<Resolution>, out: seq<Resolution>)
    requires Checked(rs, out)
      && forall t, u :: Offered(out, t) && Offered(out, u) && BothNameless(t, u) ==> PolicyOf(t) == PolicyOf(u)
    ensures Consistent(out)
  {
    hide Offered, Checked;
    forall key ensures !KeyConflict(out, key) {
      if KeyConflict(out, key) {
        var t, u :| Offered(out, t) && Offered(out, u) && t.key == key && u.key == key && PolicyOf(t) != PolicyOf(u);
        StillConflicts(rs, out, t, u);
      }
    }
    forall alias ensures !AliasConflict(out, alias) {
      if AliasConflict(out, alias) {
        var t, u :| Offered(out, t) && Offered(out, u) && t.alias == alias && u.alias == alias
            && PolicyOf(t) != PolicyOf(u);
        StillConflicts(rs, out, t, u);
      }
    }
  }

  lemma ConsistentAgrees(out: seq<Resolution>, t: Tool, u: Tool)
    requires Consistent(out) && Offered(out, t) && Offered(out, u) && BothNameless(t, u)
    ensures PolicyOf(t) == PolicyOf(u)
  {
    hide Offered;
    assert !KeyConflict(out, "") && !AliasConflict(out, "");
  }

  /** Tools with a key and an alias cannot escape. */
  lemma NamedConsistent(rs: seq<Resolution>, out: seq<Resolution>)
    requires Checked(rs, out) && forall t :: Offered(rs, t) ==> t.key != "" && t.alias != ""
    ensures Consistent(out)
  {
    hide Checked, Consistent, Conflicting;
    forall t | Untouched(rs, t) ensures Offered(rs, t) {
    }
    ConsistentAfterwards(rs, out);
  }

  /** Two tools without an operation key escape the check. */
  lemma NamelessEscape()
    ensures var t := Tool("a", "", "x", "", "", ReadOnly, false);
      var u := Tool("b", "", "y", "", "", Effectful, true);
      var rs := [Resolution("j", [t], []), Resolution("k", [u], [])];
      Checked(rs, rs) && KeyConflict(rs, "")
  {
    var t := Tool("a", "", "x", "", "", ReadOnly, false);
    var u := Tool("b", "", "y", "", "", Effectful, true);
    var rs := [Resolution("j", [t], []), Resolution("k", [u], [])];
    assert t in rs[0].tools && u in rs[1].tools && Offered(rs, t) && Offered(rs, u);
    forall x | Offered(rs, x) ensures x == t || x == u {
    }
    assert KeyConflict(rs, "");
    assert ConflictName(rs, t) == "" && ConflictName(rs, u) == "";
    hide ConflictName, KeyConflict;
    assert !Conflicting(rs, rs[0]) && !Conflicting(rs, rs[1]);
  }

  lemma ConflictStays(rs: seq<Resolution>, out: seq<Resolution>, key: Id, alias: Id)
    requires Checked(rs, out)
    ensures KeyConflict(out, key) ==> KeyConflict(rs, key)
    ensures AliasConflict(out, alias) ==> AliasConflict(rs, alias)
  {
    hide Offered, Checked, ConflictName;
    if KeyConflict(out, key) {
      var t, u :| Offered(out, t) && Offered(out, u) && t.key == key && u.key == key && PolicyOf(t) != PolicyOf(u);
      StillOffered(rs, out, t);
      StillOffered(rs, out, u);
    }
    if AliasConflict(out, alias) {
      var t, u :| Offered(out, t) && Offered(out, u) && t.alias == alias && u.alias == alias
          && PolicyOf(t) != PolicyOf(u);
      StillOffered(rs, out, t);
      StillOffered(rs, out, u);
    }
  }

  lemma NothingNamed(rs: seq<Resolution>, out: seq<Resolution>, t: Tool)
    requires Checked(rs, out) && Offered(out, t)
    ensures ConflictName(out, t) == ""
  {
    hide Offered, Checked;
    if KeyConflict(out, t.key) {
      ConflictStays(rs, out, t.key, t.alias);
      StillOffered(rs, out, t);
    } else if AliasConflict(out, t.alias) {
      var x, u :| Offered(out, x) && Offered(out, u) && x.alias == t.alias && u.alias == t.alias
          && PolicyOf(x) != PolicyOf(u);
      StillConflicts(rs, out, x, u);
      if t.alias != "" {
        ConflictStays(rs, out, t.key, t.alias);
        StillOffered(rs, out, t);
      }
    }
  }

  /** Checking twice changes nothing more. */
  lemma Idempotent(rs: seq<Resolution>, out: seq<Resolution>, again: seq<Resolution>)
    requires Checked(rs, out) && Checked(out, again)
    ensures again == out
  {
    forall i | 0 <= i < |out| ensures again[i] == out[i] {
      assert CheckedOne(out, out[i], again[i]);
      forall t | out[i].Available() && t in out[i].tools ensures ConflictName(out, t) == "" {
        assert Offered(out, t);
        NothingNamed(rs, out, t);
      }
      hide ConflictName;
    }
  }

  // ---------------------------------------------------------------- the check over resolutions

  type Noted = map<Id, set<Policy>>

  function Note(m: Noted, name: Id, p: Policy): Noted {
    m[name := (if name in m then m[name] else {}) + {p}]
  }

  function PoliciesIn(m: Noted, name: Id): set<Policy> {
    if name in m then m[name] else {}
  }

  /** The tools of the available resolutions before i, and of resolution i before its tool k. */
  predicate OfferedBefore(rs: seq<Resolution>, i: nat, k: nat, t: Tool) {
    || (exists a :: 0 <= a < i && a < |rs| && rs[a].Available() && t in rs[a].tools)
    || (i < |rs| && rs[i].Available() && exists b :: 0 <= b < k && b < |rs[i].tools| && rs[i].tools[b] == t)
  }

  ghost predicate NotedAll(rs: seq<Resolution>, i: nat, k: nat, keys: Noted, aliases: Noted) {
    && (forall name, p :: p in PoliciesIn(keys, name) <==> exists t ::
        OfferedBefore(rs, i, k, t) && t.key == name && PolicyOf(t) == p)
    && (forall name, p :: p in PoliciesIn(aliases, name) <==> exists t ::
        OfferedBefore(rs, i, k, t) && t.alias == name && PolicyOf(t) == p)
  }

  lemma NoteStep(rs: seq<Resolution>, i: nat, k: nat, keys: Noted, aliases: Noted)
    requires i < |rs| && rs[i].Available() && k < |rs[i].tools| && NotedAll(rs, i, k, keys, aliases)
    ensures
      var t := rs[i].tools[k];
      NotedAll(rs, i, k + 1, Note(keys, t.key, PolicyOf(t)), Note(aliases, t.alias, PolicyOf(t)))
  {
    var t := rs[i].tools[k];
    forall u ensures OfferedBefore(rs, i, k + 1, u) <==> OfferedBefore(rs, i, k, u) || u == t {
    }
    hide OfferedBefore;
    var newKeys, newAliases := Note(keys, t.key, PolicyOf(t)), Note(aliases, t.alias, PolicyOf(t));
    forall name, p
      ensures p in PoliciesIn(newKeys, name) <==> exists u ::
          OfferedBefore(rs, i, k + 1, u) && u.key == name && PolicyOf(u) == p
    {
      assert p in PoliciesIn(newKeys, name) <==> p in PoliciesIn(keys, name) || (name == t.key && p == PolicyOf(t));
      assert OfferedBefore(rs, i, k + 1, t);
    }
    forall name, p
      ensures p in PoliciesIn(newAliases, name) <==> exists u ::
          OfferedBefore(rs, i, k + 1, u) && u.alias == name && PolicyOf(u) == p
    {
      assert p in PoliciesIn(newAliases, name) <==>
          p in PoliciesIn(aliases, name) || (name == t.alias && p == PolicyOf(t));
      assert OfferedBefore(rs, i, k + 1, t);
    }
  }

  lemma NoteNext(rs: seq<Resolution>, i: nat, k: nat, keys: Noted, aliases: Noted)
    requires i < |rs| && NotedAll(rs, i, k, keys, aliases) && k == if rs[i].Available() then |rs[i].tools| else 0
    ensures NotedAll(rs, i + 1, 0, keys, aliases)
  {
    forall t ensures OfferedBefore(rs, i, k, t) <==> OfferedBefore(rs, i + 1, 0, t) {
    }
    hide OfferedBefore;
  }

  method Collect(rs: seq<Resolution>) returns (keys: Noted, aliases: Noted)
    ensures NotedAll(rs, |rs|, 0, keys, aliases)
  {
    keys, aliases := map[], map[];
    hide NotedAll;
    NotedNone(rs);
    var i := 0;
    while i < |rs|
      invariant 0 <= i <= |rs| && NotedAll(rs, i, 0, keys, aliases)
    {
      var k := 0;
      if rs[i].Available() {
        while k < |rs[i].tools|
          invariant 0 <= k <= |rs[i].tools| && NotedAll(rs, i, k, keys, aliases)
        {
          var t := rs[i].tools[k];
          NoteStep(rs, i, k, keys, aliases);
          keys, aliases := Note(keys, t.key, PolicyOf(t)), Note(aliases, t.alias, PolicyOf(t));
          k := k + 1;
        }
      }
      NoteNext(rs, i, k, keys, aliases);
      i := i + 1;
    }
  }

  lemma NotedNone(rs: seq<Resolution>)
    ensures NotedAll(rs, 0, 0, map[], map[])
  {
  }

  lemma Several(s: set<Policy>)
    ensures |s| > 1 <==> exists p, q :: p in s && q in s && p != q
  {
    if |s| > 1 {
      var p :| p in s;
      assert |s - {p}| == |s| - 1;
      var q :| q in s - {p};
    }
    if p, q :| p in s && q in s && p != q {
      assert |s - {p} - {q}| == |s| - 2;
    }
  }

  lemma ConflictsNoted(rs: seq<Resolution>, keys: Noted, aliases: Noted, key: Id, alias: Id)
    requires NotedAll(rs, |rs|, 0, keys, aliases)
    ensures |PoliciesIn(keys, key)| > 1 <==> KeyConflict(rs, key)
    ensures |PoliciesIn(aliases, alias)| > 1 <==> AliasConflict(rs, alias)
  {
    OfferedAll(rs);
    hide OfferedBefore, Offered, PoliciesIn;
    KeyNoted(rs, PoliciesIn(keys, key), key);
    AliasNoted(rs, PoliciesIn(aliases, alias), alias);
  }

  lemma OfferedAll(rs: seq<Resolution>)
    ensures forall t :: OfferedBefore(rs, |rs|, 0, t) <==> Offered(rs, t)
  {
  }

  lemma KeyNoted(rs: seq<Resolution>, found: set<Policy>, key: Id)
    requires forall p :: p in found <==> exists t :: Offered(rs, t) && t.key == key && PolicyOf(t) == p
    ensures |found| > 1 <==> KeyConflict(rs, key)
  {
    hide Offered;
    Several(found);
    if KeyConflict(rs, key) {
      var t, u :| Offered(rs, t) && Offered(rs, u) && t.key == key && u.key == key && PolicyOf(t) != PolicyOf(u);
      assert PolicyOf(t) in found && PolicyOf(u) in found;
    }
    if p, q :| p in found && q in found && p != q {
      var t :| Offered(rs, t) && t.key == key && PolicyOf(t) == p;
      var u :| Offered(rs, u) && u.key == key && PolicyOf(u) == q;
    }
  }

  lemma AliasNoted(rs: seq<Resolution>, found: set<Policy>, alias: Id)
    requires forall p :: p in found <==> exists t :: Offered(rs, t) && t.alias == alias && PolicyOf(t) == p
    ensures |found| > 1 <==> AliasConflict(rs, alias)
  {
    hide Offered;
    Several(found);
    if AliasConflict(rs, alias) {
      var t, u :| Offered(rs, t) && Offered(rs, u) && t.alias == alias && u.alias == alias
          && PolicyOf(t) != PolicyOf(u);
      assert PolicyOf(t) in found && PolicyOf(u) in found;
    }
    if p, q :| p in found && q in found && p != q {
      var t :| Offered(rs, t) && t.alias == alias && PolicyOf(t) == p;
      var u :| Offered(rs, u) && u.alias == alias && PolicyOf(u) == q;
    }
  }

  method InsertName(names: seq<Id>, name: Id) returns (r: seq<Id>)
    requires Ascending(names) && Distinct(names) && name !in names
    ensures Ascending(r) && Distinct(r) && |r| == |names| + 1 && forall x :: x in r <==> x in names || x == name
  {
    hide CompareText, Ascending, Distinct;
    var i := |names|;
    while i > 0 && CompareText(names[i - 1], name) > 0
      invariant 0 <= i <= |names| && forall k :: i <= k < |names| ==> CompareText(name, names[k]) <= 0
    {
      Resolve.TextMirrored(names[i - 1], name);
      i := i - 1;
    }
    r := names[..i] + [name] + names[i..];
    NameInserted(names, name, i);
    MembersInsert(names, name, i);
    DistinctInsert(names, name, i);
  }

  lemma NameInserted(names: seq<Id>, name: Id, i: nat)
    requires Ascending(names) && i <= |names| && (i > 0 ==> CompareText(names[i - 1], name) <= 0)
    requires forall k :: i <= k < |names| ==> CompareText(name, names[k]) <= 0
    ensures Ascending(names[..i] + [name] + names[i..])
  {
    hide CompareText;
    forall k | 0 <= k < i ensures CompareText(names[k], name) <= 0 {
      if k < i - 1 {
        Resolve.TextTransitive(names[k], names[i - 1], name);
      }
    }
  }

  /** The names under which one resolution conflicts. */
  method NamesOf(rs: seq<Resolution>, r: Resolution, keys: Noted, aliases: Noted) returns (names: seq<Id>)
    requires NotedAll(rs, |rs|, 0, keys, aliases)
    ensures Ascending(names) && Distinct(names) && forall name :: name in names <==> Conflicts(rs, r, name)
  {
    hide NotedAll, PoliciesIn, Ascending, KeyConflict, AliasConflict;
    names := [];
    NoNames();
    var k := 0;
    while k < |r.tools|
      invariant 0 <= k <= |r.tools| && Ascending(names) && Distinct(names)
      invariant forall name ::
        name in names <==> name != "" && exists b :: 0 <= b < k && ConflictName(rs, r.tools[b]) == name
    {
      var t := r.tools[k];
      ConflictsNoted(rs, keys, aliases, t.key, t.alias);
      var name := "";
      if |PoliciesIn(keys, t.key)| > 1 {
        name := t.key;
      } else if |PoliciesIn(aliases, t.alias)| > 1 {
        name := t.alias;
      }
      assert name == ConflictName(rs, t);
      if name != "" && name !in names {
        names := InsertName(names, name);
      }
      k := k + 1;
    }
    forall name ensures name in names <==> Conflicts(rs, r, name) {
      if Conflicts(rs, r, name) {
        var t :| t in r.tools && ConflictName(rs, t) == name;
        var b :| 0 <= b < |r.tools| && r.tools[b] == t;
      }
    }
  }

  lemma NoNames()
    ensures Ascending([])
  {
  }

  /** Marks unavailable every available resolution that shares an operation key or an alias with another
      one under a different policy. */
  method CheckPolicies(rs: seq<Resolution>) returns (out: seq<Resolution>)
    ensures Checked(rs, out)
  {
    hide NotedAll, Ascending, ConflictName;
    var keys, aliases := Collect(rs);
    out := [];
    while |out| < |rs|
      invariant |out| <= |rs| && forall i :: 0 <= i < |out| ==> CheckedOne(rs, rs[i], out[i])
    {
      var r := rs[|out|];
      var q := r;
      if r.Available() {
        var names := NamesOf(rs, r, keys, aliases);
        if names != [] {
          q := Resolution(r.journey, [],
              seq(|names|, k requires 0 <= k < |names| => Unavailable(PolicyConflict, names[k])));
        }
        Reported(rs, r, names, q);
      }
      out := out + [q];
    }
  }

  lemma Reported(rs: seq<Resolution>, r: Resolution, names: seq<Id>, q: Resolution)
    requires r.Available() && Ascending(names) && Distinct(names)
      && forall name :: name in names <==> Conflicts(rs, r, name)
    requires q == if names == [] then r
                  else Resolution(r.journey, [],
                      seq(|names|, k requires 0 <= k < |names| => Unavailable(PolicyConflict, names[k])))
    ensures CheckedOne(rs, r, q)
  {
    hide ConflictName;
    assert names != [] <==> Conflicting(rs, r) by {
      if names != [] {
        assert names[0] in names;
      }
      if Conflicting(rs, r) {
        var t :| t in r.tools && ConflictName(rs, t) != "";
        assert Conflicts(rs, r, ConflictName(rs, t));
      }
    }
    if names != [] {
      hide Conflicts, Conflicting;
      assert seq(|q.unavailable|, k requires 0 <= k < |q.unavailable| => q.unavailable[k].operation) == names;
      forall name ensures Unavailable(PolicyConflict, name) in q.unavailable <==> name in names {
        if name in names {
          var k :| 0 <= k < |names| && names[k] == name;
          assert q.unavailable[k] == Unavailable(PolicyConflict, name);
        }
      }
    }
  }
}
