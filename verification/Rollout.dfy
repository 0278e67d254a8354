/** The definition rollout: one shared current pointer, the pins of the conversations that must be
    served, forward-only activation, and the activation command's retry loop over what it reads. */
module Rollout {
  import opened Basics
  import opened EventLog
  import opened Journal
  import opened JournalInvariant
  import opened JournalSteps
  import opened JournalTheorems
  import JournalContract

  // ---------------------------------------------------------------- one activation

  /** The rollout tables one transaction sees: the current pointer, the stored sets, those with an
      activation time, and the digests every replica must serve. */
  datatype Tables = Tables(current: Option<Digest>, stored: set<Digest>, activated: set<Digest>,
      referenced: set<Digest>)

  datatype Activation = Activation(tables: Tables, err: Error)

  /** A stored set records its first activation. */
  function MarkActivated(d: Tables, candidate: Digest): Tables {
    if candidate in d.stored then d.(activated := d.activated + {candidate}) else d
  }

  /** definitions.go activate; expected "" stands for an absent current. */
  function Activate(d: Tables, expected: Digest, candidate: Digest, served: set<Digest>, rollback: bool): Activation {
    if |candidate| != 64 || candidate !in served then Activation(d, ErrDefinition)
    else if d.current == Some(candidate) then Activation(MarkActivated(d, candidate), Ok)
    else if !rollback && candidate in d.activated then Activation(d, ErrDefinitionSuperseded)
    else if !(d.referenced <= served) then Activation(d, ErrDefinition)
    else if d.current.None? && expected != "" then Activation(d, ErrDefinition)
    else if d.current.Some? && (d.current.value !in served || d.current.value != expected) then
        Activation(d, ErrDefinition)
    else Activation(MarkActivated(d.(current := Some(candidate)), candidate), Ok)
  }

  /** A move of current is made by a replica that serves the candidate, the old current and every
      referenced digest, against the current it read; otherwise current stays. */
  lemma MoveIsServed(d: Tables, expected: Digest, candidate: Digest, served: set<Digest>, rollback: bool)
    requires d.current.Some? ==> d.current.value in d.referenced
    ensures var r := Activate(d, expected, candidate, served, rollback);
      && (r.err != Ok ==> r.tables == d)
      && (r.err == Ok ==> r.tables.current == Some(candidate))
      && (r.tables.current != d.current ==>
            r.err == Ok && candidate in served && d.referenced <= served
            && (if d.current.None? then expected == "" else d.current.value == expected && expected in served)
            && (!rollback ==> candidate !in d.activated))
  {
  }

  /** When an activation is accepted, and what it leaves.  A set that is current already is only marked; otherwise
      the caller serves the candidate, every digest in use and the current set, current is what it expected, and,
      unless it rolls back, the candidate has no activation time.  Only that last failure is reported as superseded. */
  lemma ActivationContract(d: Tables, expected: Digest, candidate: Digest, served: set<Digest>, rollback: bool)
    ensures var r := Activate(d, expected, candidate, served, rollback);
      var servable := |candidate| == 64 && candidate in served;
      && (r.err == Ok <==>
            && servable
            && (d.current == Some(candidate)
                || (&& (rollback || candidate !in d.activated)
                    && (forall x :: x in d.referenced ==> x in served)
                    && (if d.current == None then expected == ""
                        else d.current == Some(expected) && expected in served))))
      && (r.err == ErrDefinitionSuperseded <==>
            servable && d.current != Some(candidate) && !rollback && candidate in d.activated)
      && (r.err in {Ok, ErrDefinitionSuperseded} || r.err == ErrDefinition)
      && r.tables.stored == d.stored && r.tables.referenced == d.referenced
      && r.tables.current == (if r.err == Ok then Some(candidate) else d.current)
      && (forall x :: x in r.tables.activated <==>
            x in d.activated || (r.err == Ok && x == candidate && candidate in d.stored))
  {
  }

  // ---------------------------------------------------------------- the whole system

  datatype System = System(
    current: Option<Digest>, stored: set<Digest>, activated: set<Digest>, threads: map<Id, Thread>)

  ghost predicate LiveContinuation(t: Thread) {
    exists i :: i in t.interactions && t.interactions[i].state.Answered?
      && t.interactions[i].continuation in t.runs && t.runs[t.interactions[i].continuation].state.Live()
  }

  /** A pinned conversation that is not idle: its pin must stay loadable. */
  ghost predicate NeedsPin(t: Thread) {
    t.pin.Some? && (HasOpenInteraction(t) || LiveContinuation(t) || AnyUnresolved(t))
  }

  ghost function Referenced(s: System): set<Digest> {
    (if s.current.Some? then {s.current.value} else {})
    + (set id | id in s.threads && NeedsPin(s.threads[id]) :: s.threads[id].pin.value)
  }

  ghost function View(s: System): Tables {
    Tables(s.current, s.stored, s.activated, Referenced(s))
  }

  datatype SystemStep =
    | OnThread(thread: Id, step: Step)
    | Move(expected: Digest, candidate: Digest, served: set<Digest>, rollback: bool)
    | Put(digest: Digest, files: map<string, string>)

  /** A digest is in use exactly if it is current, or the pin of a conversation in which an interaction is open, the
      continuation of an answer is under way, or a call is unresolved. */
  lemma ReferencedContract(s: System, d: Digest)
    ensures d in Referenced(s) <==>
      s.current == Some(d) || exists id :: id in s.threads && s.threads[id].pin == Some(d) && InUse(s.threads[id])
  {
    forall id | id in s.threads ensures NeedsPin(s.threads[id]) <==> s.threads[id].pin.Some? && InUse(s.threads[id]) {
    }
  }

  ghost predicate InUse(t: Thread) {
    || (exists i :: i in t.interactions && t.interactions[i].state == Open)
    || (exists i :: i in t.interactions && t.interactions[i].state == Answered
                    && JournalContract.IsLive(t, t.interactions[i].continuation))
    || (exists c :: c in t.operations && t.operations[c].outcome in {Dispatching, Unknown})
  }

  /** A digest as the store accepts it: 64 lower-case hexadecimal digits. */
  predicate Hexadecimal(d: Digest) {
    |d| == 64 && forall i :: 0 <= i < |d| ==> '0' <= d[i] <= '9' || 'a' <= d[i] <= 'f'
  }

  predicate Storable(digest: Digest, files: map<string, string>) {
    Hexadecimal(digest) && files != map[] && "" !in files
  }

  ghost function NextSystem(s: System, now: int, step: SystemStep): System {
    match step
    case OnThread(id, local) =>
      if id in s.threads then
        var r := Apply(s.threads[id], now, s.current, local);
        s.(current := r.current, threads := s.threads[id := r.thread])
      else if local.StepAdmit? && local.c.interactionID == "" then
        var r := Apply(NewThread(id, local.c.principal), now, s.current, local);
        if r.err == Ok then s.(threads := s.threads[id := r.thread]) else s
      else s
    case Move(expected, candidate, served, rollback) =>
      var r := Activate(View(s), expected, candidate, served, rollback).tables;
      s.(current := r.current, activated := r.activated)
    case Put(digest, files) =>
      if Storable(digest, files) then s.(stored := s.stored + {digest}) else s
  }

  datatype Timed = Timed(now: int, step: SystemStep)

  ghost function Run(s: System, trace: seq<Timed>): System
    decreases |trace|
  {
    if trace == [] then s else Run(NextSystem(s, trace[0].now, trace[0].step), trace[1..])
  }

  ghost predicate SystemInv(s: System) {
    forall id :: id in s.threads ==> Inv(s.threads[id])
  }

  lemma SystemStepKeeps(s: System, now: int, step: SystemStep)
    requires SystemInv(s)
    ensures SystemInv(NextSystem(s, now, step))
    ensures s.threads.Keys <= NextSystem(s, now, step).threads.Keys
  {
    hide Inv, Apply, Evolves;
    if step.OnThread? {
      if step.thread in s.threads {
        StepKeeps(s.threads[step.thread], now, s.current, step.step);
      } else if step.step.StepAdmit? {
        InitialInv(step.thread, step.step.c.principal);
        StepKeeps(NewThread(step.thread, step.step.c.principal), now, s.current, step.step);
      }
    }
  }

  /** Every thread of every reachable system satisfies the journal invariant. */
  lemma {:induction false} SystemReachable(s: System, trace: seq<Timed>)
    requires SystemInv(s)
    ensures SystemInv(Run(s, trace))
    decreases |trace|
  {
    hide SystemInv, NextSystem;
    if trace != [] {
      SystemStepKeeps(s, trace[0].now, trace[0].step);
      SystemReachable(NextSystem(s, trace[0].now, trace[0].step), trace[1..]);
    }
  }

  /** The transactions of one thread inside a run of the system. */
  ghost function TicksOf(s: System, trace: seq<Timed>, id: Id): seq<Tick>
    decreases |trace|
  {
    if trace == [] then []
    else
      var rest := TicksOf(NextSystem(s, trace[0].now, trace[0].step), trace[1..], id);
      if trace[0].step.OnThread? && trace[0].step.thread == id
      then [Tick(trace[0].now, s.current, trace[0].step.step)] + rest else rest
  }

  /** What the whole system does to a thread is what the thread's own transactions do. */
  lemma {:induction false} ThreadInSystem(s: System, trace: seq<Timed>, id: Id)
    requires id in s.threads
    ensures id in Run(s, trace).threads
    ensures Run(s, trace).threads[id] == After(s.threads[id], TicksOf(s, trace, id))
    decreases |trace|
  {
    hide Apply;
    if trace != [] {
      var u := NextSystem(s, trace[0].now, trace[0].step);
      ThreadInSystem(u, trace[1..], id);
      if trace[0].step.OnThread? && trace[0].step.thread == id {
        var k := Tick(trace[0].now, s.current, trace[0].step.step);
        assert TicksOf(s, trace, id)[0] == k;
        assert TicksOf(s, trace, id)[1..] == TicksOf(u, trace[1..], id);
        assert u.threads[id] == Next(s.threads[id], k);
      } else {
        assert u.threads[id] == s.threads[id];
      }
    }
  }

  /** Owners are not forged, and time does not go back, anywhere in the system. */
  ghost predicate Lawful(s: System, from: int, trace: seq<Timed>)
    decreases |trace|
  {
    trace == [] ||
    (&& from <= trace[0].now
     && (trace[0].step.OnThread? && trace[0].step.thread in s.threads && OwnerOf(trace[0].step.step).Some? ==>
           Issued(s.threads[trace[0].step.thread], OwnerOf(trace[0].step.step).value))
     && Lawful(NextSystem(s, trace[0].now, trace[0].step), trace[0].now, trace[1..]))
  }

  lemma OtherThread(s: System, now: int, step: SystemStep, id: Id)
    requires id in s.threads && !(step.OnThread? && step.thread == id)
    ensures var u := NextSystem(s, now, step); id in u.threads && u.threads[id] == s.threads[id]
  {
    hide Apply, Activate, Referenced;
  }

  lemma OwnThread(s: System, now: int, step: SystemStep, id: Id)
    requires id in s.threads && step.OnThread? && step.thread == id
    ensures var u := NextSystem(s, now, step);
      id in u.threads && u.threads[id] == Next(s.threads[id], Tick(now, s.current, step.step))
  {
    hide Apply;
  }

  /** In a lawful run of the system each thread's own transactions are a schedule of that thread. */
  lemma {:induction false} ThreadSchedule(s: System, from: int, trace: seq<Timed>, id: Id)
    requires id in s.threads && Lawful(s, from, trace)
    ensures Schedule(s.threads[id], from, TicksOf(s, trace, id))
    decreases |trace|
  {
    hide NextSystem, Issued, Next;
    if trace != [] {
      var u := NextSystem(s, trace[0].now, trace[0].step);
      if trace[0].step.OnThread? && trace[0].step.thread == id {
        OwnThread(s, trace[0].now, trace[0].step, id);
        ThreadSchedule(u, trace[0].now, trace[1..], id);
        var ticks := TicksOf(s, trace, id);
        assert ticks[0] == Tick(trace[0].now, s.current, trace[0].step.step);
        assert ticks[1..] == TicksOf(u, trace[1..], id);
      } else {
        OtherThread(s, trace[0].now, trace[0].step, id);
        ThreadSchedule(u, trace[0].now, trace[1..], id);
        ScheduleFrom(s.threads[id], trace[0].now, from, TicksOf(u, trace[1..], id));
      }
    }
  }

  /** Some transactions lead from a new thread to t. */
  ghost predicate Grown(id: Id, t: Thread) {
    exists principal, ticks :: t == After(NewThread(id, principal), ticks)
  }

  lemma OneMore(id: Id, t: Thread, k: Tick)
    requires Grown(id, t)
    ensures Grown(id, Next(t, k))
  {
    hide Next;
    var principal, ticks :| t == After(NewThread(id, principal), ticks);
    AfterThen(NewThread(id, principal), ticks, [k]);
    assert After(t, [k]) == Next(t, k) by {
      assert [k][1..] == [];
    }
    assert Next(t, k) == After(NewThread(id, principal), ticks + [k]);
  }

  ghost predicate AllGrown(s: System) {
    forall id :: id in s.threads ==> Grown(id, s.threads[id])
  }

  lemma GrownStep(s: System, now: int, step: SystemStep)
    requires AllGrown(s)
    ensures AllGrown(NextSystem(s, now, step))
  {
    hide Grown;
    var u := NextSystem(s, now, step);
    forall id | id in u.threads ensures Grown(id, u.threads[id]) {
      if id in s.threads && step.OnThread? && step.thread == id {
        OwnThread(s, now, step, id);
        OneMore(id, s.threads[id], Tick(now, s.current, step.step));
      } else if id in s.threads {
        OtherThread(s, now, step, id);
      } else {
        FirstTick(s, now, step, id);
      }
    }
  }

  lemma FirstTick(s: System, now: int, step: SystemStep, id: Id)
    requires id !in s.threads && id in NextSystem(s, now, step).threads
    ensures Grown(id, NextSystem(s, now, step).threads[id])
  {
    hide Apply, Activate, Referenced;
    var principal := step.step.c.principal;
    var k := Tick(now, s.current, step.step);
    assert NextSystem(s, now, step).threads[id] == Next(NewThread(id, principal), k);
    assert After(NewThread(id, principal), [k]) == Next(NewThread(id, principal), k) by {
      assert [k][1..] == [];
    }
  }

  /** From a system without conversations, every thread there ever is grew from a new thread by its own
      transactions: what is proved of those holds of every conversation of every run of the system. */
  lemma {:induction false} EveryThreadGrows(s: System, trace: seq<Timed>)
    requires AllGrown(s)
    ensures AllGrown(Run(s, trace))
    decreases |trace|
  {
    hide NextSystem, AllGrown;
    if trace != [] {
      GrownStep(s, trace[0].now, trace[0].step);
      EveryThreadGrows(NextSystem(s, trace[0].now, trace[0].step), trace[1..]);
    }
  }

  /** Pin stability in the whole system: while the wait or its live continuation holds the conversation,
      no interleaving with other conversations and activations changes its definition digest. */
  lemma {:induction false} SystemPinStable(s: System, from: int, trace: seq<Timed>, id: Id, i: Id)
    requires SystemInv(s) && id in s.threads && Lawful(s, from, trace) && HeldBy(s.threads[id], i)
    requires id in Run(s, trace).threads && HeldBy(Run(s, trace).threads[id], i)
    ensures Run(s, trace).threads[id].pin == s.threads[id].pin && s.threads[id].pin.Some?
  {
    hide Inv, HeldBy, Run, TicksOf, Lawful, Schedule, After;
    ThreadInSystem(s, trace, id);
    ThreadSchedule(s, from, trace, id);
    PinStable(s.threads[id], i, from, TicksOf(s, trace, id));
  }

  /** Fencing in the whole system: an issued owner that fails the check never passes again. */
  lemma {:induction false} SystemLostForever(s: System, from: int, trace: seq<Timed>, id: Id, o: Owner, later: int)
    requires SystemInv(s) && id in s.threads && Lawful(s, from, trace) && from <= later
    requires Issued(s.threads[id], o) && LockOwner(s.threads[id], from, o) != Ok
    ensures id in Run(s, trace).threads && LockOwner(Run(s, trace).threads[id], later, o) != Ok
  {
    hide Inv, Run, TicksOf, Lawful, Schedule, After, Issued, LockOwner;
    ThreadInSystem(s, trace, id);
    ThreadSchedule(s, from, trace, id);
    LostForever(s.threads[id], from, o, TicksOf(s, trace, id), later);
  }

  /** A wait that is open, or whose continuation is live, keeps its conversation's digest referenced,
      so no replica that cannot serve it can move current. */
  lemma HeldPinIsReferenced(s: System, id: Id, i: Id, expected: Digest, candidate: Digest, served: set<Digest>,
      rollback: bool)
    requires SystemInv(s) && id in s.threads && HeldBy(s.threads[id], i)
    ensures s.threads[id].pin.Some? && s.threads[id].pin.value in Referenced(s)
    ensures NextSystem(s, 0, Move(expected, candidate, served, rollback)).current != s.current ==>
      s.threads[id].pin.value in served
  {
    hide Inv;
    var t := s.threads[id];
    HeldPinned(t, i);
    if t.interactions[i].state.Open? {
      assert HasOpenInteraction(t);
    } else {
      assert LiveContinuation(t);
    }
    assert NeedsPin(t);
  }

  // ---------------------------------------------------------------- forward only

  /** Current, if any, is a stored set with an activation time. */
  predicate CurrentMarked(s: System) {
    s.current.Some? ==> s.current.value in s.stored && s.current.value in s.activated
  }

  /** A forward step: activations do not roll back and activate stored sets, and no run starts
      before there is a current set. */
  predicate Forward(s: System, step: SystemStep) {
    match step
    case Move(_, candidate, _, rollback) => !rollback && candidate in s.stored
    case OnThread(_, local) => local.StepStart? ==> s.current.Some?
    case Put(_, _) => true
  }

  ghost predicate ForwardRun(s: System, trace: seq<Timed>)
    decreases |trace|
  {
    trace == [] || (Forward(s, trace[0].step) && ForwardRun(NextSystem(s, trace[0].now, trace[0].step), trace[1..]))
  }

  /** The digests that became current, in order. */
  ghost function Moves(s: System, trace: seq<Timed>): seq<Digest>
    decreases |trace|
  {
    if trace == [] then []
    else
      var u := NextSystem(s, trace[0].now, trace[0].step);
      (if u.current != s.current && u.current.Some? then [u.current.value] else []) + Moves(u, trace[1..])
  }

  lemma StartKeepsCurrent(t: Thread, now: int, current: Option<Digest>, s: Step)
    requires s.StepStart? ==> current.Some?
    ensures Apply(t, now, current, s).current == current
  {
    hide ApplyLocal, AppendAll;
  }

  lemma ForwardStep(s: System, now: int, step: SystemStep)
    requires CurrentMarked(s) && Forward(s, step)
    ensures var u := NextSystem(s, now, step);
      && CurrentMarked(u) && s.stored <= u.stored && s.activated <= u.activated
      && (u.current != s.current ==>
          u.current.Some? && u.current.value !in s.activated && u.current.value in u.activated)
  {
    hide Apply, Referenced;
    if step.OnThread? {
      if step.thread in s.threads {
        StartKeepsCurrent(s.threads[step.thread], now, s.current, step.step);
      }
    }
  }

  /** Forward-only rollout: no digest becomes current twice, and none that had been activated before. */
  lemma {:induction false} NeverCurrentTwice(s: System, trace: seq<Timed>)
    requires CurrentMarked(s) && ForwardRun(s, trace)
    ensures forall i, j :: 0 <= i < j < |Moves(s, trace)| ==> Moves(s, trace)[i] != Moves(s, trace)[j]
    ensures forall i :: 0 <= i < |Moves(s, trace)| ==> Moves(s, trace)[i] !in s.activated
    decreases |trace|
  {
    hide NextSystem, CurrentMarked;
    if trace != [] {
      var u := NextSystem(s, trace[0].now, trace[0].step);
      ForwardStep(s, trace[0].now, trace[0].step);
      NeverCurrentTwice(u, trace[1..]);
    }
  }

  predicate NoRollback(trace: seq<Timed>) {
    forall k :: 0 <= k < |trace| && trace[k].step.Move? ==> !trace[k].step.rollback
  }

  lemma ForwardMove(s: System, now: int, step: SystemStep)
    requires s.current.Some? && (step.Move? ==> !step.rollback)
    ensures var u := NextSystem(s, now, step);
      && u.current.Some? && s.activated <= u.activated
      && (u.current != s.current ==> u.current.value !in s.activated)
  {
    hide Apply, Referenced;
    if step.OnThread? {
      if step.thread in s.threads {
        StartKeepsCurrent(s.threads[step.thread], now, s.current, step.step);
      }
    }
  }

  /** Whatever else happens, unstored candidates and starting runs included: once a set has an activation
      time, current never moves to it again without a rollback. */
  lemma {:induction false} MarkedNeverReturns(s: System, trace: seq<Timed>, d: Digest)
    requires s.current.Some? && d in s.activated && NoRollback(trace)
    ensures d !in Moves(s, trace)
    decreases |trace|
  {
    hide NextSystem;
    if trace != [] {
      var u := NextSystem(s, trace[0].now, trace[0].step);
      ForwardMove(s, trace[0].now, trace[0].step);
      MarkedNeverReturns(u, trace[1..], d);
    }
  }

  /** Exactly when a digest can come back: after current moved forward from d to an unmarked e, a forward
      activation of d is accepted if and only if d had no activation time. */
  lemma ComesBackIffUnmarked(d: Tables, first: Digest, second: Digest, served: set<Digest>)
    requires |first| == 64 && |second| == 64 && first != second
    requires d.current == Some(first) && d.referenced <= served && first in served && second in served
    requires second !in d.activated
    ensures Activate(d, first, second, served, false).err == Ok
    ensures Activate(Activate(d, first, second, served, false).tables, second, first, served, false).err == Ok
      <==> first !in d.activated
  {
  }

  // ---------------------------------------------------------------- a run that starts without a current set

  const HELLO := Command("r", "m", "u", "", "hi", "", "", Clarification, Malformed)
  const STARTER := Owner(HELLO, "o", 1)

  /** A thread with one run and nothing else, at the given stage of it. */
  ghost predicate Simple(t: Thread, run: Journal.Run, epoch: nat) {
    && t.principal == "u" && t.epoch == epoch && t.pin.None? && t.runs == map["r" := run]
    && t.commands == [CommandRow(HELLO, "r", false, NoReason)]
    && t.interactions == map[] && t.operations == map[]
  }

  lemma Admitted(t: Thread)
    requires t == NewThread("t", "u")
    ensures Admit(t, 0, HELLO).err == Ok
    ensures Simple(Admit(t, 0, HELLO).thread, Journal.Run(Pending, "", 0, LEASE, "", None, None, ""), 0)
  {
    hide AppendAll;
    assert LiveRun(t.runs) == "" && Overdue(t.interactions, 0) == "";
  }

  lemma Claimed(t: Thread)
    requires Simple(t, Journal.Run(Pending, "", 0, LEASE, "", None, None, ""), 0)
    ensures Issued(Claim(t, 0, HELLO, "o", 10).thread, STARTER)
    ensures Simple(Claim(t, 0, HELLO, "o", 10).thread, Journal.Run(Running, "o", 1, 10, "", None, None, ""), 1)
  {
    hide AppendAll;
    assert t.commands[0].cmd == HELLO && t.commands[0].execution == HELLO.runID;
  }

  lemma Started(t: Thread, first: Digest)
    requires Simple(t, Journal.Run(Running, "o", 1, 10, "", None, None, ""), 1) && |first| == 64
    ensures var r := Start(t, 0, STARTER, "", first, None); r.current == Some(first) && !NeedsPin(r.thread)
  {
    assert LockOwner(t, 0, STARTER) == Ok;
  }

  function Bootstrap(first: Digest, second: Digest, files: map<string, string>): seq<Timed> {
    var both := {first, second};
    [Timed(0, Put(first, files)), Timed(0, Put(second, files)),
     Timed(0, OnThread("t", StepAdmit(HELLO))), Timed(0, OnThread("t", StepClaim(HELLO, "o", 10))),
     Timed(0, OnThread("t", StepStart(STARTER, "", first))),
     Timed(0, Move(first, second, both, false)), Timed(0, Move(second, first, both, false))]
  }

  /** The conversation of the bootstrap: admitted, claimed, started. */
  lemma BootstrapThread(s: System, first: Digest) returns (u: System)
    requires s.current.None? && s.threads == map[] && |first| == 64
    ensures var s1 := NextSystem(s, 0, OnThread("t", StepAdmit(HELLO)));
      var s2 := NextSystem(s1, 0, OnThread("t", StepClaim(HELLO, "o", 10)));
      && s1.current.None? && s2.current.None?
      && "t" in s2.threads && Issued(s2.threads["t"], STARTER)
      && u == NextSystem(s2, 0, OnThread("t", StepStart(STARTER, "", first)))
    ensures u.current == Some(first) && u.stored == s.stored && u.activated == s.activated && Referenced(u) == {first}
  {
    hide Admit, Claim, Start, Simple;
    Admitted(NewThread("t", "u"));
    var s1 := NextSystem(s, 0, OnThread("t", StepAdmit(HELLO)));
    Claimed(s1.threads["t"]);
    var s2 := NextSystem(s1, 0, OnThread("t", StepClaim(HELLO, "o", 10)));
    Started(s2.threads["t"], first);
    u := NextSystem(s2, 0, OnThread("t", StepStart(STARTER, "", first)));
  }

  /** Two forward moves away from an unmarked current and back. */
  lemma {:induction false} ThereAndBack(s: System, first: Digest, second: Digest)
    requires |first| == 64 && |second| == 64 && first != second
    requires s.current == Some(first) && s.stored == {first, second} && s.activated == {} && Referenced(s) == {first}
    ensures [second, first]
      == Moves(s, [Timed(0, Move(first, second, {first, second}, false)),
                   Timed(0, Move(second, first, {first, second}, false))])
  {
    var both := {first, second};
    var trace := [Timed(0, Move(first, second, both, false)), Timed(0, Move(second, first, both, false))];
    var s1 := NextSystem(s, 0, trace[0].step);
    assert s1.current == Some(second) && s1.activated == {second} && s1.threads == s.threads;
    assert Referenced(s1) <= both;
    var s2 := NextSystem(s1, 0, trace[1].step);
    assert s2.current == Some(first);
    assert trace[1..] == [trace[1]] && [trace[1]][1..] == [];
    assert Moves(s1, [trace[1]]) == [first] + Moves(s2, []);
  }

  /** Why current must be created by an activation: from the empty system, two sets are stored and one
      conversation is admitted, claimed and started.  Start makes the first set current without an activation
      time, and after one forward move the next forward move brings it back. */
  lemma BootstrapRepeats(first: Digest, second: Digest, files: map<string, string>)
    requires Storable(first, files) && Storable(second, files) && first != second
    ensures var empty := System(None, {}, {}, map[]);
      && NoRollback(Bootstrap(first, second, files)) && Lawful(empty, 0, Bootstrap(first, second, files))
      && Moves(empty, Bootstrap(first, second, files)) == [first, second, first]
  {
    hide Moves, NextSystem, Lawful, Issued, Storable;
    BootstrapLawful(first, second, files);
    BootstrapMoves(first, second, files);
  }

  lemma BootstrapMoves(first: Digest, second: Digest, files: map<string, string>)
    requires Storable(first, files) && Storable(second, files) && first != second
    ensures Moves(System(None, {}, {}, map[]), Bootstrap(first, second, files)) == [first, second, first]
  {
    hide Moves, NextSystem, Issued;
    var trace := Bootstrap(first, second, files);
    var s0 := System(None, {}, {}, map[]);
    BothStored(first, second, files);
    var s2 := System(None, {first, second}, {}, map[]);
    var s5 := BootstrapThread(s2, first);
    ThereAndBack(s5, first, second);
    var s3 := NextSystem(s2, 0, trace[2].step);
    var s4 := NextSystem(s3, 0, trace[3].step);
    assert trace[5..] == [trace[5], trace[6]];
    FirstMove(s4, trace[4..]);
    assert trace[4..][1..] == trace[5..];
    FirstMove(s3, trace[3..]);
    assert trace[3..][1..] == trace[4..];
    FirstMove(s2, trace[2..]);
    assert trace[2..][1..] == trace[3..];
    FirstMove(NextSystem(s0, 0, trace[0].step), trace[1..]);
    assert trace[1..][1..] == trace[2..];
    FirstMove(s0, trace);
  }

  lemma BootstrapLawful(first: Digest, second: Digest, files: map<string, string>)
    requires Storable(first, files) && Storable(second, files)
    ensures Lawful(System(None, {}, {}, map[]), 0, Bootstrap(first, second, files))
  {
    hide Lawful, NextSystem, Issued;
    var trace := Bootstrap(first, second, files);
    var s0 := System(None, {}, {}, map[]);
    BothStored(first, second, files);
    var s1 := NextSystem(s0, 0, trace[0].step);
    var s2 := System(None, {first, second}, {}, map[]);
    var s5 := BootstrapThread(s2, first);
    var s3 := NextSystem(s2, 0, trace[2].step);
    var s4 := NextSystem(s3, 0, trace[3].step);
    var s6 := NextSystem(s5, 0, trace[5].step);
    assert trace[7..] == [];
    LawfulNone(NextSystem(s6, 0, trace[6].step), 0);
    assert trace[6..][1..] == trace[7..] && trace[5..][1..] == trace[6..] && trace[4..][1..] == trace[5..];
    LawfulFirst(s6, trace[6..]);
    LawfulFirst(s5, trace[5..]);
    LawfulFirst(s4, trace[4..]);
    assert trace[3..][1..] == trace[4..] && trace[2..][1..] == trace[3..] && trace[1..][1..] == trace[2..];
    LawfulFirst(s3, trace[3..]);
    LawfulFirst(s2, trace[2..]);
    LawfulFirst(s1, trace[1..]);
    LawfulFirst(s0, trace);
  }

  lemma {:induction false} LawfulNone(s: System, from: int)
    ensures Lawful(s, from, [])
  {
  }

  lemma {:induction false} LawfulFirst(s: System, trace: seq<Timed>)
    requires trace != [] && trace[0].now == 0 && Lawful(NextSystem(s, 0, trace[0].step), 0, trace[1..])
    requires trace[0].step.OnThread? && trace[0].step.thread in s.threads && OwnerOf(trace[0].step.step).Some? ==>
      Issued(s.threads[trace[0].step.thread], OwnerOf(trace[0].step.step).value)
    ensures Lawful(s, 0, trace)
  {
    hide NextSystem, Issued;
  }

  lemma {:induction false} FirstMove(s: System, trace: seq<Timed>)
    requires trace != []
    ensures var u := NextSystem(s, trace[0].now, trace[0].step);
      Moves(s, trace)
      == (if u.current != s.current && u.current.Some? then [u.current.value] else []) + Moves(u, trace[1..])
  {
    hide NextSystem;
  }

  lemma BothStored(first: Digest, second: Digest, files: map<string, string>)
    requires Storable(first, files) && Storable(second, files)
    ensures var s := NextSystem(System(None, {}, {}, map[]), 0, Put(first, files));
      s.current.None? && NextSystem(s, 0, Put(second, files)) == System(None, {first, second}, {}, map[])
  {
    hide Hexadecimal;
  }

  // ---------------------------------------------------------------- a rollout reaches every conversation

  /** The conversation's next message can give it the shared definition: its run is no reply, nothing of it waits for an
      answer and none of its calls is unresolved. */
  ghost predicate FreeToMove(s: System, id: Id, now: int, o: Owner) {
    && id in s.threads && JournalContract.Fenced(s.threads[id], now, o) && JournalContract.Free(s.threads[id], o)
  }

  /** After current has moved to d, by whatever rollout, every conversation that resolves its definition while it is
      free, on a replica that serves d, is pinned to d: the call returns d and changes that conversation alone. */
  lemma RolloutReaches(s: System, id: Id, now: int, o: Owner, served: set<Digest>, expected: Digest, d: Digest,
      moverServed: set<Digest>, rollback: bool)
    requires FreeToMove(s, id, now, o) && d in served
    requires Activate(View(s), expected, d, moverServed, rollback).err == Ok
    ensures var moved := NextSystem(s, now, Move(expected, d, moverServed, rollback));
      var u := NextSystem(moved, now, OnThread(id, StepResolve(o, served)));
      && u.current == Some(d) && id in u.threads && u.threads[id].pin == Some(d)
      && Apply(moved.threads[id], now, moved.current, StepResolve(o, served)).digest == d
      && u.stored == moved.stored && u.activated == moved.activated && u.threads.Keys == s.threads.Keys
      && forall x :: x in s.threads && x != id ==> u.threads[x] == s.threads[x]
  {
    hide Apply, Referenced;
    var moved := NextSystem(s, now, Move(expected, d, moverServed, rollback));
    ActivationContract(View(s), expected, d, moverServed, rollback);
    JournalContract.ResolveContract(moved.threads[id], Tick(now, Some(d), StepResolve(o, served)));
  }

  /** And a conversation that is not free keeps its digest through it, and needs it served. */
  lemma RolloutSpares(s: System, id: Id, now: int, o: Owner, served: set<Digest>)
    requires id in s.threads && JournalContract.Fenced(s.threads[id], now, o)
    requires s.threads[id].pin != None && !JournalContract.Free(s.threads[id], o)
    ensures NextSystem(s, now, OnThread(id, StepResolve(o, served))) == s
    ensures Apply(s.threads[id], now, s.current, StepResolve(o, served)).err == Ok <==>
      s.threads[id].pin.value in served
  {
    hide Apply;
    JournalContract.ResolveContract(s.threads[id], Tick(now, s.current, StepResolve(o, served)));
    assert s.threads[id := s.threads[id]] == s.threads;
  }
}
