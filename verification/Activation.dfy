/** The activation command (defstore/activate.go) against a store that other replicas keep changing,
    and the store's own activation transaction as the code performs it. */
module ActivationCommand {
  import opened Basics
  import opened Journal
  import opened Rollout

  const ATTEMPTS := 5
  const CALLS := 4  // database calls of one attempt: current, activated, referenced, compare-and-set

  datatype Outcome = Activated | AlreadyCurrent | Superseded | Refused

  /** What the command reports, and the view its verdict was read from. */
  datatype Report = Report(outcome: Outcome, current: Option<Digest>, decided: nat)

  function Expect(current: Option<Digest>): Digest {
    if current.Some? then current.value else ""
  }

  /** What one attempt must have loaded: the candidate and every digest then referenced. */
  function Needed(views: seq<Tables>, at: nat, candidate: Digest): set<Digest>
    requires at + CALLS < |views|
  {
    {candidate} + views[at + 2].referenced
  }

  /** One attempt; None means that current or the references moved, and it is to be tried again.
      views[k] is the store as the k-th database call finds it.  loadable is what the loader can
      compile; loaded what it has compiled by the time of the compare-and-set. */
  function Try(views: seq<Tables>, at: nat, candidate: Digest, rollback: bool, loadable: set<Digest>,
      loaded: set<Digest>): (r: Option<Report>)
    requires at + CALLS < |views|
    ensures r.Some? ==> at <= r.value.decided < at + CALLS
  {
    if views[at].current == Some(candidate) then Some(Report(AlreadyCurrent, Some(candidate), at))
    else if !rollback && candidate in views[at + 1].activated then
        Some(Report(Outcome.Superseded, views[at].current, at + 1))
    else if !(Needed(views, at, candidate) <= loadable) then Some(Report(Refused, None, at + 2))
    else
      var r := Activate(views[at + 3], Expect(views[at].current), candidate, loaded, rollback);
      if r.err == Ok then Some(Report(Activated, Some(candidate), at + 3))
      else if r.err == ErrDefinitionSuperseded then Some(Report(Outcome.Superseded, views[at + 4].current, at + 3))
      else None
  }

  function Attempt(views: seq<Tables>, candidate: Digest, rollback: bool, loadable: set<Digest>, loaded: set<Digest>,
      n: nat): (r: Report)
    requires n <= ATTEMPTS && |views| > ATTEMPTS * CALLS
    ensures r.decided < |views|
    decreases ATTEMPTS - n
  {
    var at := n * CALLS;
    if n == ATTEMPTS then Report(Refused, None, at)
    else
      var more := loaded + Needed(views, at, candidate);
      var r := Try(views, at, candidate, rollback, loadable, more);
      if r.Some? then r.value else Attempt(views, candidate, rollback, loadable, more, n + 1)
  }

  /** The command itself, as a bounded retry loop. */
  method ActivateSet(views: seq<Tables>, candidate: Digest, rollback: bool, loadable: set<Digest>)
    returns (report: Report)
    requires |views| > ATTEMPTS * CALLS
    ensures report == Attempt(views, candidate, rollback, loadable, {}, 0)
  {
    var loaded := {};
    var n := 0;
    while n < ATTEMPTS
      invariant 0 <= n <= ATTEMPTS
      invariant Attempt(views, candidate, rollback, loadable, {}, 0)
        == Attempt(views, candidate, rollback, loadable, loaded, n)
    {
      var verdict;
      verdict, loaded := TryOnce(views, n * CALLS, candidate, rollback, loadable, loaded);
      if verdict.Some? {
        return verdict.value;
      }
      n := n + 1;
    }
    return Report(Refused, None, ATTEMPTS * CALLS);
  }

  method TryOnce(views: seq<Tables>, at: nat, candidate: Digest, rollback: bool, loadable: set<Digest>,
      before: set<Digest>)
    returns (verdict: Option<Report>, loaded: set<Digest>)
    requires at + CALLS < |views|
    ensures verdict == Try(views, at, candidate, rollback, loadable, before + Needed(views, at, candidate))
    ensures verdict.None? ==> loaded == before + Needed(views, at, candidate)
  {
    loaded := before;
    var current := views[at].current;
    if current == Some(candidate) {
      return Some(Report(AlreadyCurrent, current, at)), loaded;
    }
    if !rollback && candidate in views[at + 1].activated {
      return Some(Report(Outcome.Superseded, current, at + 1)), loaded;
    }
    var needed := {candidate} + views[at + 2].referenced;
    if !(needed <= loadable) {
      return Some(Report(Refused, None, at + 2)), loaded;
    }
    loaded := loaded + needed;
    var r := Activate(views[at + 3], Expect(current), candidate, loaded, rollback);
    if r.err == Ok {
      return Some(Report(Activated, Some(candidate), at + 3)), loaded;
    }
    if r.err == ErrDefinitionSuperseded {
      return Some(Report(Outcome.Superseded, views[at + 4].current, at + 3)), loaded;
    }
    return None, loaded;
  }

  // ---------------------------------------------------------------- what the report means

  /** Everything loaded before attempt m. */
  function LoadedBefore(views: seq<Tables>, candidate: Digest, m: nat): set<Digest>
    requires m <= ATTEMPTS && |views| > ATTEMPTS * CALLS
  {
    if m == 0 then {} else LoadedBefore(views, candidate, m - 1) + Needed(views, (m - 1) * CALLS, candidate)
  }

  /** The compare-and-set of attempt m: the only call of the command that can write. */
  function Swap(views: seq<Tables>, candidate: Digest, rollback: bool, m: nat): Activation
    requires m < ATTEMPTS && |views| > ATTEMPTS * CALLS
  {
    var loaded := LoadedBefore(views, candidate, m + 1);
    Activate(views[m * CALLS + 3], Expect(views[m * CALLS].current), candidate, loaded, rollback)
  }

  /** Attempt m got as far as its compare-and-set and was turned away there. */
  predicate TurnedAway(views: seq<Tables>, candidate: Digest, rollback: bool, m: nat)
    requires m < ATTEMPTS && |views| > ATTEMPTS * CALLS
  {
    && views[m * CALLS].current != Some(candidate)
    && (rollback || candidate !in views[m * CALLS + 1].activated)
    && Swap(views, candidate, rollback, m).err == ErrDefinition
  }

  /** The report is true of the tables at the call that decided it, and only an Activated report leaves
      a trace: every compare-and-set before the deciding call left the tables as it found them. */
  ghost predicate Truthful(views: seq<Tables>, candidate: Digest, rollback: bool, loadable: set<Digest>, r: Report)
    requires |views| > ATTEMPTS * CALLS
  {
    && r.decided <= ATTEMPTS * CALLS
    && (forall m: nat :: m < ATTEMPTS && m * CALLS + 3 < r.decided ==>
          TurnedAway(views, candidate, rollback, m)
              && Swap(views, candidate, rollback, m).tables == views[m * CALLS + 3])
    && match r.outcome
       case Activated =>
         exists m: nat :: m < ATTEMPTS && r.decided == m * CALLS + 3
           && Swap(views, candidate, rollback, m).err == Ok
           && Swap(views, candidate, rollback, m).tables
              == Rollout.MarkActivated(views[r.decided].(current := Some(candidate)), candidate)
       case AlreadyCurrent => views[r.decided].current == Some(candidate)
       case Superseded =>
         && !rollback && candidate in views[r.decided].activated
         && (forall m: nat :: m < ATTEMPTS && r.decided == m * CALLS + 3 ==>
             Swap(views, candidate, rollback, m).tables == views[r.decided])
       case Refused =>
         || r.decided == ATTEMPTS * CALLS
         || exists m: nat :: m < ATTEMPTS && r.decided == m * CALLS + 2
             && !(Needed(views, m * CALLS, candidate) <= loadable)
  }

  lemma {:induction false} AttemptIsTruthful(views: seq<Tables>, candidate: Digest, rollback: bool,
      loadable: set<Digest>, n: nat)
    requires n <= ATTEMPTS && |views| > ATTEMPTS * CALLS
    requires forall m: nat :: m < n ==> TurnedAway(views, candidate, rollback, m)
    ensures Truthful(views, candidate, rollback, loadable,
        Attempt(views, candidate, rollback, loadable, LoadedBefore(views, candidate, n), n))
    decreases ATTEMPTS - n
  {
    hide Needed, MarkActivated, TurnedAway;
    var r := Attempt(views, candidate, rollback, loadable, LoadedBefore(views, candidate, n), n);
    if n < ATTEMPTS {
      var at := n * CALLS;
      var more := LoadedBefore(views, candidate, n + 1);
      var here := Try(views, at, candidate, rollback, loadable, more);
      Unwritten(views, candidate, rollback, n);
      if here.None? {
        NoneTurnsAway(views, candidate, rollback, loadable, n);
        AttemptIsTruthful(views, candidate, rollback, loadable, n + 1);
      } else {
        EarlierWroteNothing(views, candidate, rollback, r.decided, n);
      }
    } else {
      EarlierWroteNothing(views, candidate, rollback, r.decided, n);
    }
  }

  lemma {:induction false} NoneTurnsAway(views: seq<Tables>, candidate: Digest, rollback: bool,
      loadable: set<Digest>, n: nat)
    requires n < ATTEMPTS && |views| > ATTEMPTS * CALLS
    requires Try(views, n * CALLS, candidate, rollback, loadable, LoadedBefore(views, candidate, n + 1)).None?
    ensures TurnedAway(views, candidate, rollback, n)
  {
  }

  lemma EarlierWroteNothing(views: seq<Tables>, candidate: Digest, rollback: bool, decided: nat, n: nat)
    requires n <= ATTEMPTS && |views| > ATTEMPTS * CALLS && decided < n * CALLS + CALLS
    requires forall m: nat :: m < n ==> TurnedAway(views, candidate, rollback, m)
    ensures forall m: nat :: m < ATTEMPTS && m * CALLS + 3 < decided ==>
      TurnedAway(views, candidate, rollback, m) && Swap(views, candidate, rollback, m).tables == views[m * CALLS + 3]
  {
    forall m: nat | m < ATTEMPTS && m * CALLS + 3 < decided
      ensures TurnedAway(views, candidate, rollback, m)
        && Swap(views, candidate, rollback, m).tables == views[m * CALLS + 3]
    {
      Unwritten(views, candidate, rollback, m);
    }
  }

  lemma Unwritten(views: seq<Tables>, candidate: Digest, rollback: bool, m: nat)
    requires m < ATTEMPTS && |views| > ATTEMPTS * CALLS
    ensures Swap(views, candidate, rollback, m).err != Ok ==>
      Swap(views, candidate, rollback, m).tables == views[m * CALLS + 3]
  {
  }

  /** Every report is true of what was committed. */
  lemma {:induction false} ReportIsTruthful(views: seq<Tables>, candidate: Digest, rollback: bool,
      loadable: set<Digest>)
    requires |views| > ATTEMPTS * CALLS
    ensures Truthful(views, candidate, rollback, loadable, Attempt(views, candidate, rollback, loadable, {}, 0))
  {
    AttemptIsTruthful(views, candidate, rollback, loadable, 0);
  }

  /** Some attempt from n on is reached, all before it having been turned away, whose first read does not
      find the candidate current and whose second read finds it activated and current. */
  predicate Raced(views: seq<Tables>, candidate: Digest, rollback: bool, loadable: set<Digest>, n: nat)
    requires n <= ATTEMPTS && |views| > ATTEMPTS * CALLS
    decreases ATTEMPTS - n
  {
    n < ATTEMPTS && !rollback && views[n * CALLS].current != Some(candidate) &&
    if candidate in views[n * CALLS + 1].activated then views[n * CALLS + 1].current == Some(candidate)
    else
      && Needed(views, n * CALLS, candidate) <= loadable
      && TurnedAway(views, candidate, rollback, n)
      && Raced(views, candidate, rollback, loadable, n + 1)
  }

  lemma {:induction false} AttemptRaced(views: seq<Tables>, candidate: Digest, rollback: bool, loadable: set<Digest>,
      n: nat)
    requires n <= ATTEMPTS && |views| > ATTEMPTS * CALLS
    ensures var r := Attempt(views, candidate, rollback, loadable, LoadedBefore(views, candidate, n), n);
      r.outcome.Superseded? && views[r.decided].current == Some(candidate) <==>
          Raced(views, candidate, rollback, loadable, n)
    decreases ATTEMPTS - n
  {
    hide Needed, MarkActivated;
    if n < ATTEMPTS {
      AttemptRaced(views, candidate, rollback, loadable, n + 1);
    }
  }

  /** Superseded is documented to mean "activated before, and not current".  It is reported while the
      candidate is current exactly when another replica activates the candidate between the two reads of an
      attempt that is reached. */
  lemma {:induction false} SupersededIsWrongIffRaced(views: seq<Tables>, candidate: Digest, rollback: bool,
      loadable: set<Digest>)
    requires |views| > ATTEMPTS * CALLS
    ensures var r := Attempt(views, candidate, rollback, loadable, {}, 0);
      r.outcome.Superseded? && views[r.decided].current == Some(candidate) <==>
          Raced(views, candidate, rollback, loadable, 0)
  {
    AttemptRaced(views, candidate, rollback, loadable, 0);
  }

  /** The race: another replica activates the same candidate between the two reads, and this one
      reports Superseded while the candidate is current. */
  lemma {:induction false} SupersededWhileCurrent(old_: Digest, candidate: Digest, loadable: set<Digest>)
    requires old_ != candidate
    ensures var before := Tables(Some(old_), {old_, candidate}, {old_}, {old_});
      var after := Tables(Some(candidate), {old_, candidate}, {old_, candidate}, {candidate});
      var views := [before] + seq(ATTEMPTS * CALLS, _ => after);
      && Activate(before, old_, candidate, {old_, candidate}, false).err == (if |candidate| == 64 then Ok
          else ErrDefinition)
      && var r := Attempt(views, candidate, false, loadable, {}, 0);
         r.outcome == Outcome.Superseded && views[r.decided].current == Some(candidate) && r.current == Some(old_)
  {
  }

  lemma {:induction false} AttemptSucceeds(views: seq<Tables>, candidate: Digest, rollback: bool,
      loadable: set<Digest>, k: nat, n: nat)
    requires n < ATTEMPTS && |views| > ATTEMPTS * CALLS && |candidate| == 64
    requires k < ATTEMPTS * CALLS && forall i :: k <= i < |views| ==> views[i].current == Some(candidate)
    requires forall m: nat :: m < ATTEMPTS ==> Needed(views, m * CALLS, candidate) <= loadable
    ensures !Attempt(views, candidate, rollback, loadable, LoadedBefore(views, candidate, n), n).outcome.Refused?
    decreases ATTEMPTS - n
  {
    hide MarkActivated;
    if Try(views, n * CALLS, candidate, rollback, loadable, LoadedBefore(views, candidate, n + 1)).None? {
      assert n < ATTEMPTS - 1;
      AttemptSucceeds(views, candidate, rollback, loadable, k, n + 1);
    }
  }

  /** Repeated and concurrent commands succeed: once the candidate is current to stay, at any moment up to
      the command's last compare-and-set, the command does not fail, if what is referenced can be loaded. */
  lemma {:induction false} ConcurrentRunsSucceed(views: seq<Tables>, candidate: Digest, rollback: bool,
      loadable: set<Digest>, k: nat)
    requires |views| > ATTEMPTS * CALLS && |candidate| == 64
    requires k < ATTEMPTS * CALLS && forall i :: k <= i < |views| ==> views[i].current == Some(candidate)
    requires forall m: nat :: m < ATTEMPTS ==> Needed(views, m * CALLS, candidate) <= loadable
    ensures !Attempt(views, candidate, rollback, loadable, {}, 0).outcome.Refused?
  {
    AttemptSucceeds(views, candidate, rollback, loadable, k, 0);
  }

  /** What the command does when nobody interferes, so that every call finds the same tables: a candidate that is not
      current and, unless it rolls back, was never activated is activated, if what is in use can be loaded. */
  lemma {:induction false} UndisturbedCommand(views: seq<Tables>, d: Tables, candidate: Digest, rollback: bool,
      loadable: set<Digest>)
    requires |views| > ATTEMPTS * CALLS && |candidate| == 64 && forall i :: 0 <= i < |views| ==> views[i] == d
    requires d.current.Some? ==> d.current.value in d.referenced && d.current.value != ""
    ensures var r := Attempt(views, candidate, rollback, loadable, {}, 0);
      && (r.outcome == AlreadyCurrent <==> d.current == Some(candidate))
      && (r.outcome == Outcome.Superseded <==>
            d.current != Some(candidate) && !rollback && candidate in d.activated)
      && (r.outcome == Activated <==>
            && d.current != Some(candidate) && (rollback || candidate !in d.activated)
            && candidate in loadable && forall x :: x in d.referenced ==> x in loadable)
      && (r.outcome == Activated ==> r.current == Some(candidate))
      && (r.outcome in {AlreadyCurrent, Outcome.Superseded} ==> r.current == d.current)
  {
    hide MarkActivated;
    var needed := Needed(views, 0, candidate);
    assert needed == {candidate} + d.referenced && {} + needed == needed;
    assert Try(views, 0, candidate, rollback, loadable, needed).Some?;
  }

  // ---------------------------------------------------------------- the command inside the system

  /** The systems that the command's calls find: it stores the candidate, and before every call others take
      any steps.  Its own reads and refused writes leave no trace, so nothing else is between two calls. */
  ghost predicate Meets(
      s: System, now: int, candidate: Digest, files: map<string, string>, others: seq<seq<Timed>>,
      systems: seq<System>, views: seq<Tables>)
  {
    && |others| == |systems| == |views| > ATTEMPTS * CALLS
    && systems[0] == Rollout.Run(NextSystem(s, now, Put(candidate, files)), others[0])
    && (forall j :: 1 <= j < |systems| ==> systems[j] == Rollout.Run(systems[j - 1], others[j]))
    && (forall j :: 0 <= j < |systems| ==> views[j] == View(systems[j]))
  }

  /** The compare-and-set of attempt m as a step of the system. */
  function SwapStep(views: seq<Tables>, candidate: Digest, rollback: bool, m: nat): SystemStep
    requires m < ATTEMPTS && |views| > ATTEMPTS * CALLS
  {
    Move(Expect(views[m * CALLS].current), candidate, LoadedBefore(views, candidate, m + 1), rollback)
  }

  lemma {:induction false} StoredStays(s: System, trace: seq<Timed>)
    ensures s.stored <= Rollout.Run(s, trace).stored
    decreases |trace|
  {
    hide Apply, Activate, Referenced, Hexadecimal;
    if trace != [] {
      StoredStays(NextSystem(s, trace[0].now, trace[0].step), trace[1..]);
    }
  }

  lemma {:induction false} CandidateStored(
      s: System, now: int, candidate: Digest, files: map<string, string>, others: seq<seq<Timed>>,
      systems: seq<System>, views: seq<Tables>, j: nat)
    requires Storable(candidate, files) && Meets(s, now, candidate, files, others, systems, views) && j < |systems|
    ensures candidate in systems[j].stored
    decreases j
  {
    hide Storable, Rollout.Run;
    if j == 0 {
      StoredStays(NextSystem(s, now, Put(candidate, files)), others[0]);
    } else {
      CandidateStored(s, now, candidate, files, others, systems, views, j - 1);
      StoredStays(systems[j - 1], others[j]);
    }
  }

  lemma SwapInSystem(s: System, now: int, views: seq<Tables>, candidate: Digest, rollback: bool, m: nat)
    requires m < ATTEMPTS && |views| > ATTEMPTS * CALLS && views[m * CALLS + 3] == View(s) && candidate in s.stored
    ensures
      var r := Swap(views, candidate, rollback, m);
      var u := NextSystem(s, now, SwapStep(views, candidate, rollback, m));
      && (r.err != Ok ==> u == s)
      && (r.err == Ok ==> u.current == Some(candidate) && candidate in u.activated && u.threads == s.threads)
  {
    hide Referenced, LoadedBefore;
  }

  predicate Activates(s: System, candidate: Digest) {
    s.current == Some(candidate) && candidate in s.activated
  }

  /** The call at `decided` is the compare-and-set of an attempt, and as a step of the system it makes the
      candidate current and marks it. */
  ghost predicate SwappedIn(
      systems: seq<System>, now: int, views: seq<Tables>, candidate: Digest, rollback: bool, decided: nat)
    requires |systems| == |views| > ATTEMPTS * CALLS
  {
    exists m: nat ::
      && m < ATTEMPTS && decided == m * CALLS + 3
      && Activates(NextSystem(systems[decided], now, SwapStep(views, candidate, rollback, m)), candidate)
  }

  /** What a report means for the system around the command: Activated left the candidate current and marked,
      AlreadyCurrent and Superseded hold of the system that was read, and no other write left a trace. */
  lemma {:induction false} ReportInSystem(
      s: System, now: int, candidate: Digest, files: map<string, string>, rollback: bool, loadable: set<Digest>,
      others: seq<seq<Timed>>, systems: seq<System>, views: seq<Tables>)
    requires Storable(candidate, files) && Meets(s, now, candidate, files, others, systems, views)
    ensures var r := Attempt(views, candidate, rollback, loadable, {}, 0);
      && r.decided < |systems|
      && (forall m: nat :: m < ATTEMPTS && m * CALLS + 3 < r.decided ==>
            NextSystem(systems[m * CALLS + 3], now, SwapStep(views, candidate, rollback, m)) == systems[m * CALLS + 3])
      && (r.outcome.Activated? ==> SwappedIn(systems, now, views, candidate, rollback, r.decided))
      && (r.outcome.AlreadyCurrent? ==> systems[r.decided].current == Some(candidate))
      && (r.outcome.Superseded? ==> candidate in systems[r.decided].activated)
  {
    hide Attempt, NextSystem, Swap, SwapStep, LoadedBefore, Rollout.Run, Storable, TurnedAway, Needed;
    ReportIsTruthful(views, candidate, rollback, loadable);
    var r := Attempt(views, candidate, rollback, loadable, {}, 0);
    forall m: nat | m < ATTEMPTS
      ensures
        var here := m * CALLS + 3;
        var u := NextSystem(systems[here], now, SwapStep(views, candidate, rollback, m));
        && (Swap(views, candidate, rollback, m).err != Ok ==> u == systems[here])
        && (Swap(views, candidate, rollback, m).err == Ok ==> Activates(u, candidate))
    {
      CandidateStored(s, now, candidate, files, others, systems, views, m * CALLS + 3);
      SwapInSystem(systems[m * CALLS + 3], now, views, candidate, rollback, m);
    }
    forall m: nat | m < ATTEMPTS && m * CALLS + 3 < r.decided
      ensures NextSystem(systems[m * CALLS + 3], now, SwapStep(views, candidate, rollback, m)) == systems[m * CALLS + 3]
    {
      TurnedAwayFails(views, candidate, rollback, m);
    }
  }

  lemma TurnedAwayFails(views: seq<Tables>, candidate: Digest, rollback: bool, m: nat)
    requires m < ATTEMPTS && |views| > ATTEMPTS * CALLS && TurnedAway(views, candidate, rollback, m)
    ensures Swap(views, candidate, rollback, m).err != Ok
  {
  }

  /** definitions.go activate over its tables: the referenced rows are checked one by one. */
  class Store {
    var current: Option<Digest>
    var stored: map<Digest, map<string, string>>
    var activated: set<Digest>

    ghost function Seen(referenced: seq<Digest>): Tables
      reads this
    {
      Tables(current, stored.Keys, activated, set d | d in referenced)
    }

    /** Append-only: the first files stored under a digest stay. */
    method Put(digest: Digest, files: map<string, string>) returns (err: Error)
      modifies this`stored
      ensures err == if Storable(digest, files) then Ok else ErrDefinition
      ensures stored.Keys == old(stored.Keys) + (if err == Ok then {digest} else {})
      ensures forall d :: d in old(stored) ==> stored[d] == old(stored)[d]
      ensures err == Ok && digest !in old(stored) ==> stored[digest] == files
    {
      if !Hexadecimal(digest) || |files| == 0 {
        return ErrDefinition;
      }
      if exists path :: path in files && path == "" {
        return ErrDefinition;
      }
      if digest !in stored {
        stored := stored[digest := files];
      }
      return Ok;
    }

    method Activate(referenced: seq<Digest>, expected: Digest, candidate: Digest, served: set<Digest>, rollback: bool)
      returns (err: Error)
      modifies this`current, this`activated
      ensures Seen(referenced) == Rollout.Activate(old(Seen(referenced)), expected, candidate, served, rollback).tables
      ensures err == Rollout.Activate(old(Seen(referenced)), expected, candidate, served, rollback).err
    {
      if |candidate| != 64 || candidate !in served {
        return ErrDefinition;
      }
      if current == Some(candidate) {
        MarkActivated(candidate);
        return Ok;
      }
      if !rollback && candidate in activated {
        return ErrDefinitionSuperseded;
      }
      var k := 0;
      while k < |referenced|
        invariant 0 <= k <= |referenced|
        invariant forall j :: 0 <= j < k ==> referenced[j] in served
      {
        if referenced[k] !in served {
          return ErrDefinition;
        }
        k := k + 1;
      }
      if current.None? {
        if expected != "" {
          return ErrDefinition;
        }
      } else if current.value !in served || current.value != expected {
        return ErrDefinition;
      }
      current := Some(candidate);
      MarkActivated(candidate);
      return Ok;
    }

    method MarkActivated(candidate: Digest)
      modifies this`activated
      ensures activated == if candidate in stored then old(activated) + {candidate} else old(activated)
    {
      if candidate in stored {
        activated := activated + {candidate};
      }
    }
  }
}
