/** The conversation loop of one run: model requests, the calls they propose, waits for people, and the
    active journeys, over a journal that other replicas use at the same time. */
module Harness {
  import opened Basics
  import opened EventLog
  import opened Journal
  import opened JournalInvariant
  import opened JournalSteps
  import opened JournalTheorems
  import JournalHistory
  import opened GuardedCall
  import opened Questions
  import opened History
  import opened Dispatch
  import JournalStore
  import TrimHistory
  import Journeys

  // ---------------------------------------------------------------- the run's surroundings

  datatype Tool = Tool(key: Id, nameDigest: Id, schemaDigest: Id, policy: Policy, requiresApproval: bool)

  /** One buffered model turn: it fails before or after the request was dispatched, proposes calls, or answers. */
  datatype ModelReply = Broken(dispatched: bool) | Calls(calls: seq<Content>) | Said(text: string)

  datatype Reading = Unavailable | Material(journey: Id) | ReadFails

  /** Everything the loop does not decide: the others' transactions and the clock around its store
      calls, the model, the tools, and how text decodes. */
  datatype World = World(
    start: int, visit: nat -> Visit, reply: nat -> ModelReply, remote: nat -> Remote, cancelled: nat -> bool,
    read: Content -> Reading, activation: string -> Option<Id>, canonical: string -> Option<string>,
    questions: string -> Option<seq<Question>>, size: seq<Message> -> int, callID: nat -> Id, interactionID: nat -> Id)

  datatype Setup = Setup(
    version: string, digest: Digest, limit: int, budget: int, available: set<Id>,
    tool: (Id, Id) -> Option<Tool>, offers: seq<Id> -> bool, question: Tool)

  function StartOf(w: World, n: nat): int {
    if n == 0 then w.start else w.visit(n - 1).now
  }

  /** Others' transactions only, in time order; and no response uses a call ID twice, or one that was open
      when the run started. */
  ghost predicate Fair(w: World, o: Owner, base: set<Id>) {
    && (forall n: nat :: ForeignTicks(w.visit(n).others, o, StartOf(w, n), w.visit(n).now))
    && (forall n: nat :: w.reply(n).Calls? ==>
          w.reply(n).calls != [] && DistinctCalls(w.reply(n).calls) && base !! IdsFrom(w.reply(n).calls, 0))
  }

  /** Why a run stops with an error. */
  datatype Cause =
    | Store(err: Error) | Call(verdict: Verdict) | ModelFailed | NoAnswer | RepairsExhausted | RoundsExhausted
    | NotAllowed | BadArguments | ReadFailed | BadCheckpoint | BadLimit | JourneyUnavailable | ActivationRefused

  datatype Output =
    | Waiting(history: seq<Message>, call: Id)
    | Finished(history: seq<Message>, text: string)
    | Stopped(history: seq<Message>, cause: Cause)

  // ---------------------------------------------------------------- own transactions

  /** The loop's own writes besides tool attempts. */
  predicate Plain(s: Step, o: Owner) {
    OwnerOf(s) == Some(o) && (s.StepIncluded? || s.StepNote? || s.StepActive? || s.StepSupersede? || s.StepWait?
        || s.StepFinish?)
  }

  predicate Passed(err: Error) {
    err == Ok || err == ErrPending
  }

  /** x is the open interaction that p proposed. */
  predicate Opens(x: Interaction, p: Proposal) {
    x.state.Open? && x.kind == p.kind && x.callID == p.callID && x.name == p.name && x.binding == p.binding
        && x.saved == p.saved
  }

  /** The loop's writes that leave interactions alone. */
  predicate Aside(s: Step) {
    s.StepIncluded? || s.StepNote? || s.StepActive?
  }

  /** Of the commands there were, exactly the named ones have become included, and of those added since
      no other one is. */
  predicate Marked(before: seq<CommandRow>, communications: seq<Id>, after: seq<CommandRow>) {
    && |before| <= |after|
    && (forall k :: 0 <= k < |before| ==>
          && after[k].cmd == before[k].cmd
          && (after[k].included <==> before[k].included || before[k].cmd.communicationID in communications))
    && (forall k :: |before| <= k < |after| && after[k].included ==> after[k].cmd.communicationID in communications)
  }

  lemma AppendedMore(before: seq<CommandRow>, mid: seq<CommandRow>, after: seq<CommandRow>)
    requires Appended(before, mid) && Appended(mid, after)
    ensures Appended(before, after)
  {
  }

  lemma AppendedSame(rows: seq<CommandRow>)
    ensures Appended(rows, rows)
  {
  }

  lemma MarkedSince(before: seq<CommandRow>, mid: seq<CommandRow>, communications: seq<Id>, after: seq<CommandRow>)
    requires Appended(before, mid) && Marked(mid, communications, after)
    ensures Marked(before, communications, after)
  {
  }

  lemma NewerUnmarked(before: seq<CommandRow>, communications: seq<Id>, mid: seq<CommandRow>, after: seq<CommandRow>)
    requires Marked(before, communications, mid) && Appended(mid, after)
    ensures Marked(before, communications, after)
  {
  }

  function Communications(inbox: seq<CommandRow>): (r: seq<Id>)
    ensures |r| == |inbox| && forall k :: 0 <= k < |inbox| ==> r[k] == inbox[k].cmd.communicationID
  {
    seq(|inbox|, k requires 0 <= k < |inbox| => inbox[k].cmd.communicationID)
  }

  /** The user messages of an inbox: one per command with a text, in order. */
  function Texts(inbox: seq<CommandRow>): seq<Message> {
    if inbox == [] then []
    else
      var c := inbox[|inbox| - 1].cmd;
      Texts(inbox[..|inbox| - 1]) + (if c.text != "" then [Message(true, [Text(c.text)])] else [])
  }

  lemma {:induction false} TextsNone(inbox: seq<CommandRow>)
    ensures Texts(inbox[..0]) == []
  {
  }

  lemma {:induction false} TextsNext(inbox: seq<CommandRow>, k: nat)
    requires k < |inbox|
    ensures Texts(inbox[..k + 1])
      == Texts(inbox[..k]) + if inbox[k].cmd.text != "" then [Message(true, [Text(inbox[k].cmd.text)])] else []
  {
    assert inbox[..k + 1][..k] == inbox[..k];
  }

  lemma {:induction false} TextsAreInputs(inbox: seq<CommandRow>)
    ensures TrimHistory.AllInputs(Texts(inbox))
  {
    if inbox != [] {
      TextsAreInputs(inbox[..|inbox| - 1]);
    }
  }

  /** One request: the commands when the inbox was read, the inbox, what is left of the older history, and
      how many of the inbox's texts are missing. */
  datatype Turn = Turn(rows: seq<CommandRow>, inbox: seq<CommandRow>, older: seq<Message>, missing: nat)

  function Contents(reply: ModelReply): seq<Content>
    requires !reply.Broken?
  {
    if reply.Calls? then reply.calls else [Text(reply.text)]
  }

  lemma PlainEffect(t: Thread, now: int, s: Step, o: Owner)
    requires Inv(t) && Plain(s, o) && Passed(Apply(t, now, None, s).err)
    ensures var u := Apply(t, now, None, s);
      && Holds(t, now, o)
      && ((s.StepFinish? && u.err == Ok && !s.state.Completed?) || u.thread.operations == t.operations)
      && u.thread.active == (if s.StepActive? then s.ids else t.active)
      && (u.err == ErrPending ==> s.StepWait? || (s.StepFinish? && s.state.Completed?))
      && (s.StepWait? && u.err == Ok ==> s.p.id in u.thread.interactions && Opens(u.thread.interactions[s.p.id], s.p))
      && (Aside(s) ==> u.thread.interactions == t.interactions)
      && (s.StepNote? || s.StepActive? ==> u.thread.commands == t.commands)
      && (s.StepIncluded? ==> Marked(t.commands, s.communications, u.thread.commands))
  {
    hide Inv, AppendAll, BindCall, HasPending, AnyUnresolved, DisposeRows, DisposeEvents, InFlight, MarkAttempts;
    hide WellAsked, Marked, IncludeAll;
    if s.StepIncluded? {
      IncludeTouches(t, o.Run(), s.communications);
      UniqueCommunications(t);
      IncludeMarks(t, o.Run(), s.communications);
    }
  }

  predicate Unrepeated(rows: seq<CommandRow>) {
    forall j, k :: 0 <= j < k < |rows| ==> rows[j].cmd.communicationID != rows[k].cmd.communicationID
  }

  lemma UniqueCommunications(t: Thread)
    requires Inv(t)
    ensures Unrepeated(t.commands)
  {
    hide JournalInvariant.Waiting, JournalInvariant.Calls, PinOk, InputsOk, EpochsOk;
  }

  lemma {:induction false} IncludeMarks(t: Thread, run: Id, communications: seq<Id>)
    requires Unrepeated(t.commands)
    ensures var r := IncludeAll(t, run, communications);
      r.Some? ==> |r.value.commands| == |t.commands| && Marked(t.commands, communications, r.value.commands)
    decreases |communications|
  {
    hide AppendAll, Marked, Unrepeated;
    if communications == [] {
      MarkNone(t.commands);
    } else {
      var next := IncludeOne(t, run, communications[0]);
      if next.Some? {
        var k := RowOf(t.commands, communications[0]);
        MarkOne(t.commands, k);
        IncludeMarks(next.value, run, communications[1..]);
        var r := IncludeAll(t, run, communications);
        if r.Some? {
          MarkMore(t.commands, k, communications[1..], r.value.commands);
          assert communications == [communications[0]] + communications[1..];
        }
      }
    }
  }

  lemma MarkNone(rows: seq<CommandRow>)
    ensures Marked(rows, [], rows)
  {
  }

  lemma MarkOne(rows: seq<CommandRow>, k: nat)
    requires Unrepeated(rows) && k < |rows|
    ensures Unrepeated(rows[k := rows[k].(included := true)])
  {
  }

  lemma MarkMore(rows: seq<CommandRow>, k: nat, more: seq<Id>, after: seq<CommandRow>)
    requires Unrepeated(rows) && k < |rows| && |after| == |rows|
      && Marked(rows[k := rows[k].(included := true)], more, after)
    ensures Marked(rows, [rows[k].cmd.communicationID] + more, after)
  {
    var next := rows[k := rows[k].(included := true)];
    forall j | 0 <= j < |rows|
      ensures after[j].cmd == rows[j].cmd
      ensures after[j].included <==>
        rows[j].included || rows[j].cmd.communicationID in [rows[k].cmd.communicationID] + more
    {
      assert next[j].cmd == rows[j].cmd;
      assert j != k ==> rows[j].cmd.communicationID != rows[k].cmd.communicationID;
    }
  }

  lemma {:induction false} IncludeTouches(t: Thread, run: Id, communications: seq<Id>)
    ensures var r := IncludeAll(t, run, communications);
      r.Some? ==>
        && r.value.operations == t.operations && r.value.active == t.active
        && r.value.interactions == t.interactions
    decreases |communications|
  {
    hide AppendAll;
    if communications != [] {
      var next := IncludeOne(t, run, communications[0]);
      if next.Some? {
        IncludeTouches(next.value, run, communications[1..]);
      }
    }
  }

  lemma StepIssued(t: Thread, k: Tick, o: Owner)
    requires Inv(t) && Issued(t, o)
    ensures Issued(Next(t, k), o)
  {
    hide Inv, Evolves, Apply, Issued;
    StepKeeps(t, k.now, k.current, k.step);
    IssuedStays(t, Next(t, k), o);
  }

  lemma {:induction false} LaterIssued(t: Thread, ticks: seq<Tick>, o: Owner)
    requires Inv(t) && Issued(t, o)
    ensures Issued(After(t, ticks), o)
  {
    hide Inv, Evolves, After, Issued;
    Reachable(t, ticks);
    IssuedStays(t, After(t, ticks), o);
  }

  lemma StepStands(t: Thread, k: Tick, o: Owner, base: set<Id>)
    requires Inv(t) && Issued(t, o) && JournalHistory.Stands(t, o.Run(), base)
    ensures JournalHistory.Stands(Next(t, k), o.Run(), base)
  {
    hide Inv, Apply, JournalHistory.Stands, JournalHistory.Remains;
    JournalHistory.TickRemains(t, k, o.Run());
    JournalHistory.StillStands(t, Next(t, k), o.Run(), base);
  }

  lemma {:induction false} LaterStands(t: Thread, ticks: seq<Tick>, o: Owner, base: set<Id>)
    requires Inv(t) && Issued(t, o) && JournalHistory.Stands(t, o.Run(), base)
    ensures JournalHistory.Stands(After(t, ticks), o.Run(), base)
  {
    hide Inv, After, JournalHistory.Stands, JournalHistory.Remains;
    JournalHistory.AfterRemains(t, ticks, o.Run());
    JournalHistory.StillStands(t, After(t, ticks), o.Run(), base);
  }

  lemma SameOperations(t: Thread, u: Thread)
    requires u.operations == t.operations
    ensures AnyUnresolved(u) == AnyUnresolved(t)
  {
  }

  /** The journey order the run holds, in memory and as last written, and its conversation. */
  class Conversation {
    const store: JournalStore.ThreadStore
    const o: Owner
    const w: World
    const setup: Setup
    ghost const base: set<Id>  // the calls that the stored history leaves open and this run does not answer
    var clock: nat
    var calls: nat
    var history: seq<Message>
    var repairs: int
    var active: Journeys.ActiveSet
    var persisted: seq<Id>
    var sent: seq<seq<Message>>

    constructor (store: JournalStore.ThreadStore, o: Owner, w: World, setup: Setup)
      ensures this.store == store && this.o == o && this.w == w && this.setup == setup
      ensures base == JournalHistory.Base(store.View(), o.Run())
      ensures fresh(active) && active.ids == [] && clock == 0 && calls == 0 && sent == [] && history == []
        && persisted == []
    {
      this.store, this.o, this.w, this.setup := store, o, w, setup;
      base := JournalHistory.Base(store.View(), o.Run());
      clock, calls, history, repairs, persisted, sent := 0, 0, [], 1, [], [];
      active := new Journeys.ActiveSet([]);
    }

    /** The store is sound, the run's owner is one it issued, and what it found stored is still there while
        it is running. */
    ghost predicate Ready()
      reads this, store, active
    {
      && store.Valid() && Issued(store.View(), o) && Fair(w, o, base) && Journeys.Proper(active.ids)
      && JournalHistory.Stands(store.View(), o.Run(), base)
    }

    /** Nothing is unresolved on the thread, and the stored order is the one last written. */
    ghost predicate Synced()
      reads this, store, active
    {
      Ready() && store.active == persisted && !AnyUnresolved(store.View())
    }

    /** Every provider request so far had a result for each of its calls but those the run found open. */
    ghost predicate RequestsFit()
      reads this
    {
      forall k :: 0 <= k < |sent| ==> History.Open(sent[k]).Some? && History.Open(sent[k]).value <= base
    }

    /** The history leaves open these calls besides those the run found. */
    ghost predicate Leaves(ids: set<Id>)
      reads this
    {
      base !! ids && History.Open(history) == Some(base + ids)
    }

    /** A write of the run's own, after others had their turn. */
    method Own(s: Step) returns (err: Error)
      requires Ready() && Plain(s, o) && JournalHistory.Fits(s, base)
      modifies this`clock, store
      ensures Ready() && clock == old(clock) + 1
      ensures Passed(err) ==>
        (s.StepFinish? && err == Ok && !s.state.Completed?) || store.operations == old(store.operations)
      ensures Passed(err) ==> store.active == if s.StepActive? then s.ids else old(store.active)
      ensures err == ErrPending ==> s.StepWait? || (s.StepFinish? && s.state.Completed?)
      ensures s.StepWait? && err == Ok ==> s.p.id in store.interactions && Opens(store.interactions[s.p.id], s.p)
      ensures Passed(err) && Aside(s) ==> store.interactions == old(store.interactions)
      ensures s.StepFinish? && err == Ok ==> Ends(store.View(), o.Run(), s)
      ensures Passed(err) && (s.StepNote? || s.StepActive?) ==> Appended(old(store.commands), store.commands)
      ensures Passed(err) && s.StepIncluded? ==> Marked(old(store.commands), s.communications, store.commands)
    {
      hide Inv, After, Apply, Issued, Fair, Journeys.Proper, Opens, JournalHistory.Stands, JournalHistory.Fits, Ends;
      var v := Visiting();
      ghost var t := store.View();
      LaterIssued(t, v.others, o);
      LaterStands(t, v.others, o, base);
      Elapse(store, v.others);
      if v.fault.NotCommitted? {
        return ErrStorage;
      }
      ghost var u := store.View();
      var tick := Tick(v.now, None, s);
      StepIssued(u, tick, o);
      StepStands(u, tick, o, base);
      JournalHistory.FitsTidily(u, tick, base);
      err := PerformTidily(store, tick);
      if Passed(err) {
        PlainEffect(u, v.now, s, o);
        if s.StepFinish? && err == Ok {
          FinishEnds(u, v.now, s);
        }
        HeldThroughout(t, o, v.others, StartOf(w, old(clock)), v.now);
      }
      if v.fault.Unacknowledged? {
        return ErrStorage;
      }
    }

    /** The loop's own transactions fit the history that is stored when they happen. */
    method PerformTidily(store: JournalStore.ThreadStore, k: Tick) returns (err: Error)
      requires store.Valid() && JournalHistory.Tidy(store.View(), k)
      modifies store
      ensures store.View() == Next(old(store.View()), k) && store.Valid()
      ensures err == Apply(old(store.View()), k.now, k.current, k.step).err
    {
      hide Inv, Apply;
      err := Perform(store, k);
    }

    method Visiting() returns (v: Visit)
      requires Fair(w, o, base)
      modifies this`clock
      ensures clock == old(clock) + 1 && v == w.visit(old(clock))
      ensures ForeignTicks(v.others, o, StartOf(w, old(clock)), v.now)
    {
      v := w.visit(clock);
      clock := clock + 1;
    }

    /** A fenced store call that reads, or writes nothing modelled here (Check, Continuation, RecordUsage). */
    method Fence() returns (err: Error, now: int)
      requires Ready()
      modifies this`clock, store
      ensures Ready() && clock == old(clock) + 1
      ensures err == Ok ==> store.operations == old(store.operations) && store.active == old(store.active)
      ensures err == Ok ==>
        store.interactions == old(store.interactions) && Appended(old(store.commands), store.commands)
      ensures err == Ok ==> Journal.LockOwner(store.View(), now, o) == Ok
    {
      hide Inv, After, Issued, Fair, Journeys.Proper, JournalHistory.Stands;
      var v := Visiting();
      now := v.now;
      ghost var t := store.View();
      LaterIssued(t, v.others, o);
      LaterStands(t, v.others, o, base);
      Elapse(store, v.others);
      if !v.fault.Sound? {
        return ErrStorage, now;
      }
      err := store.LockOwner(v.now, o);
      if err == Ok {
        HeldThroughout(t, o, v.others, StartOf(w, old(clock)), v.now);
      }
    }

    // -------------------------------------------------------------- active journeys

    /** Writes the order when touches changed it. */
    method Flush() returns (err: Error)
      requires Synced()
      modifies this`clock, this`persisted, store
      ensures Ready()
      ensures err == Ok ==> Synced() && persisted == active.ids && store.operations == old(store.operations)
    {
      hide Inv, Issued, Fair, Journeys.Proper, JournalHistory.Stands, AnyUnresolved;
      ghost var t := store.View();
      err := WriteOrder(active.ids, persisted);
      if err == Ok {
        SameOperations(t, store.View());
        persisted := active.ids;
      }
    }

    /** Writes an order that differs from the stored one. */
    method WriteOrder(ids: seq<Id>, stored: seq<Id>) returns (err: Error)
      requires Ready() && store.active == stored
      modifies this`clock, store
      ensures Ready()
      ensures err == Ok ==>
        store.active == ids && store.operations == old(store.operations)
        && store.interactions == old(store.interactions)
    {
      hide Inv, Issued, Fair, Journeys.Proper, JournalHistory.Stands, Appended, Marked, Opens;
      if ids == stored {
        return Ok;
      }
      err := Own(StepActive(o, ids));
    }

    /** One activate_journey call.  The set is rebuilt from the journal; because nothing was touched since
        the last write, that is the set in memory, so no use is forgotten. */
    method ActivateJourney(arguments: string) returns (fault: Option<Cause>)
      requires Synced() && active.ids == persisted
      modifies this, store
      ensures Ready() && unchanged(this`history, this`repairs, this`sent, this`calls)
      ensures active == old(active) || fresh(active)
      ensures fault.None? ==> Synced() && active.ids == persisted && store.operations == old(store.operations)
      ensures fault.None? && active != old(active) ==>
        && w.activation(arguments).Some?
        && Activates(old(active.ids), w.activation(arguments).value, setup.limit, store.View(), o.Run(), active.ids)
      ensures active == old(active) ==> active.ids == old(active.ids)
      ensures fault.None? ==>
        forall j :: j in old(active.ids) && j in PinnedJourneys(store.View(), o.Run()) ==> j in active.ids
      ensures fault.Some? ==> !fault.value.RoundsExhausted?
    {
      hide Inv, Issued, Fair, Journeys.Proper, JournalHistory.Stands, AnyUnresolved, Journeys.Apply;
      hide Journeys.Evicted, Journeys.Verdict;
      hide PinnedJourneys, Appended;
      var target := w.activation(arguments);
      if target.None? || target.value == "" {
        return None;
      }
      if target.value !in setup.available {
        return None;
      }
      ghost var t := store.View();
      var err, now := Fence();
      if err != Ok {
        return Some(Store(err));
      }
      SameOperations(t, store.View());
      var stored, pinned, lock := store.ActiveJourneys(now, o);
      Journeys.LoadedSame(active.ids);
      var next := new Journeys.ActiveSet(stored);
      ProperStep(next.ids, Journeys.Activate(target.value, setup.limit, pinned));
      var evicted, status := next.Activate(target.value, setup.limit, pinned);
      if status.ErrRefused? {
        return None;
      }
      if !status.Fine? {
        return Some(BadLimit);
      }
      t := store.View();
      err := WriteOrder(next.ids, stored);
      if err != Ok {
        return Some(Store(err));
      }
      SameOperations(t, store.View());
      SamePins(t, store.View(), o.Run());
      PinnedActive(active.ids, target.value, setup.limit, pinned);
      active := next;
      persisted := next.ids;
      return None;
    }

    method Touch(journey: Id)
      requires Ready()
      modifies active
      ensures Ready() && active.ids == Journeys.Apply(old(active.ids), Journeys.Touch(journey))
    {
      hide Inv, Issued, Fair, Journeys.Proper, JournalHistory.Stands, Journeys.Apply;
      ProperStep(active.ids, Journeys.Touch(journey));
      var changed := active.Touch(journey);
    }

    // -------------------------------------------------------------- the history

    method AddResult(id: Id, ghost ids: set<Id>)
      modifies this`history
      ensures history == old(history) + [ResultMessage(id)]
      ensures old(Leaves(ids)) && id in ids ==> Leaves(ids - {id})
    {
      if Leaves(ids) && id in ids {
        ResultCloses(history, id);
        assert base + ids - {id} == base + (ids - {id});
      }
      history := history + [ResultMessage(id)];
    }

    method AddInputs(inbox: seq<CommandRow>)
      modifies this`history
      ensures history == old(history) + Texts(inbox)
      ensures History.Open(history) == History.Open(old(history))
    {
      hide History.Open, Texts;
      var k := 0;
      TextsNone(inbox);
      while k < |inbox|
        invariant 0 <= k <= |inbox| && history == old(history) + Texts(inbox[..k])
        invariant History.Open(history) == History.Open(old(history))
      {
        TextsNext(inbox, k);
        if inbox[k].cmd.text != "" {
          TextOpensNothing(history, true, inbox[k].cmd.text);
          history := history + [Message(true, [Text(inbox[k].cmd.text)])];
        }
        k := k + 1;
      }
      assert inbox[..k] == inbox;
    }

    /** One provider request.  The inbox joins the history, the request is trimmed, and the inputs are
        recorded as included; on any failure the history is as it was. */
    method Invoke(protected: set<Id>) returns (fault: Option<Cause>, reply: ModelReply, ghost turn: Turn)
      requires Synced() && Leaves({}) && RequestsFit()
      modifies this`clock, this`history, this`sent, store
      ensures Ready() && RequestsFit()
      ensures fault.Some? ==> history == old(history) && |old(sent)| <= |sent| <= |old(sent)| + 1
      ensures fault.None? ==> Synced() && !reply.Broken? && reply == w.reply(|old(sent)|)
      ensures fault.None? ==> Appended(old(store.commands), turn.rows) && turn.inbox == PendingOf(turn.rows, o.Run())
      ensures fault.None? ==> history == old(history) + Texts(turn.inbox) + [Message(false, Contents(reply))]
      ensures fault.None? ==> Marked(turn.rows, Communications(turn.inbox), store.commands)
      ensures fault.None? ==>
        turn.missing <= |Texts(turn.inbox)| && sent == old(sent) + [turn.older + Texts(turn.inbox)[turn.missing..]]
      ensures fault.None? ==>
        (turn.missing > 0 <==> TrimHistory.InputsCut(old(history), Texts(turn.inbox), setup.budget, protected, w.size))
      ensures fault.None? && reply.Said? ==> Leaves({})
      ensures fault.None? && reply.Calls? ==> DistinctCalls(reply.calls) && Leaves(IdsFrom(reply.calls, 0))
      ensures fault.Some? ==> !fault.value.RoundsExhausted?
    {
      hide Inv, Issued, Fair, Journeys.Proper, JournalHistory.Stands, AnyUnresolved, History.Open, Marked, Appended;
      hide PendingOf;
      hide TrimHistory.InputsCut, Texts;
      hide TrimHistory.AllInputs, TrimHistory.Trimmed;
      ghost var t := store.View();
      turn := Turn([], [], [], 0);
      var round := |sent|;
      reply := w.reply(round);
      FairReply(w, o, base, round);
      var err, now := Fence();
      if err != Ok {
        return Some(Store(err)), reply, turn;
      }
      var inbox, lock := store.Pending(now, o);
      ghost var rows := store.commands;
      var before := |history|;
      AddInputs(inbox);
      var kept, truncation := TrimRequest(protected);
      TextsAreInputs(inbox);
      ghost var older, missing := TrimHistory.InputsInRequest(old(history), Texts(inbox), setup.budget, protected,
          w.size, kept);
      turn := Turn(rows, inbox, older, missing);
      fault := Request(round, inbox, kept, truncation.turnsDropped > 0);
      if fault.Some? {
        assert history[..before] == old(history);
        history := history[..before];
        return;
      }
      SameOperations(t, store.View());
      assert base + {} == base;
      match reply {
        case Calls(cs) =>
          ResponseOpens(history, cs);
          history := history + [Message(false, cs)];
        case Said(text) =>
          TextOpensNothing(history, false, text);
          history := history + [Message(false, [Text(text)])];
      }
    }

    /** Only the request is trimmed; the history keeps every turn. */
    method TrimRequest(protected: set<Id>) returns (kept: seq<Message>, truncation: TrimHistory.Truncation)
      requires Leaves({})
      ensures History.Open(kept).Some? && History.Open(kept).value <= base
      ensures TrimHistory.Trimmed(history, setup.budget, protected, w.size, kept)
    {
      kept, truncation := TrimHistory.Trim(history, setup.budget, protected, w.size);
      if kept != history {
        ghost var s: nat :| TrimHistory.OldestDropped(history, setup.budget, protected, w.size, s, kept);
        TrimHistory.TrimKeepsOpen(history, protected, s);
      }
    }

    /** The dispatch of one request and the store calls around it. */
    method Request(round: nat, inbox: seq<CommandRow>, kept: seq<Message>, truncated: bool)
      returns (fault: Option<Cause>)
      requires Ready() && History.Open(kept).Some? && History.Open(kept).value <= base && RequestsFit()
      modifies this`clock, this`sent, store
      ensures Ready() && RequestsFit()
      ensures fault.None? ==>
        store.operations == old(store.operations) && store.active == old(store.active) && !w.reply(round).Broken?
      ensures fault.None? ==> Marked(old(store.commands), Communications(inbox), store.commands)
      ensures sent == old(sent) || sent == old(sent) + [kept]
      ensures fault.None? ==> sent == old(sent) + [kept]
      ensures fault.Some? ==> !fault.value.RoundsExhausted?
    {
      hide Inv, Issued, Fair, Journeys.Proper, JournalHistory.Stands, Marked, Appended, Communications, History.Open;
      var err: Error, now;
      ghost var rows := store.commands;
      AppendedSame(rows);
      if truncated {
        err := Own(StepNote(o));
        if err != Ok {
          return Some(Store(err));
        }
      }
      ghost var noted := store.commands;
      err, now := Fence();
      if err != Ok {
        return Some(Store(err));
      }
      var reply := w.reply(round);
      sent := sent + [kept];
      if reply.Broken? && !reply.dispatched {
        return Some(ModelFailed);
      }
      AppendedMore(rows, noted, store.commands);
      ghost var dispatched := store.commands;
      err := Own(StepIncluded(o, Communications(inbox)));
      if err != Ok {
        return Some(Store(err));
      }
      MarkedSince(rows, dispatched, Communications(inbox), store.commands);
      ghost var included := store.commands;
      if reply.Broken? {
        return Some(ModelFailed);
      }
      err, now := Fence();
      if err != Ok {
        return Some(Store(err));
      }
      NewerUnmarked(rows, Communications(inbox), included, store.commands);
      return None;
    }

    /** The proposal with the checkpoint of this moment. */
    function Saving(p: Proposal): Proposal
      reads this
    {
      p.(saved := Saved(p.saved.provider, p.saved.arguments, history, repairs, true))
    }

    /** Opens one interaction with the history so far.  ErrPending means steering arrived first. */
    method WaitFor(p: Proposal) returns (err: Error)
      requires Synced() && Leaves({p.saved.provider})
      modifies this`clock, store
      ensures Ready() && (Passed(err) ==> Synced() && store.operations == old(store.operations))
      ensures err == Ok ==> p.id in store.interactions && Opens(store.interactions[p.id], Saving(p))
    {
      hide Inv, Issued, Fair, Journeys.Proper, JournalHistory.Stands, AnyUnresolved, Opens;
      ghost var t := store.View();
      err := Own(StepWait(o, Saving(p)));
      if Passed(err) {
        SameOperations(t, store.View());
      }
    }

    /** Records a dispatch result; a business rejection spends the repair budget. */
    method Settle(id: Id, verdict: Verdict, ghost ids: set<Id>) returns (fault: Option<Cause>)
      modifies this`history, this`repairs
      ensures fault.Some? <==> verdict.ReportRejected? && old(repairs) == 0
      ensures fault.Some? ==> fault.value == RepairsExhausted
      ensures repairs == old(repairs) - (if fault.None? && verdict.ReportRejected? then 1 else 0)
      ensures fault.Some? ==> history == old(history)
      ensures fault.None? ==> history == old(history) + [ResultMessage(id)]
      ensures fault.None? && old(Leaves(ids)) && id in ids ==> Leaves(ids - {id})
    {
      if verdict.ReportRejected? {
        if repairs == 0 {
          return Some(RepairsExhausted);
        }
        repairs := repairs - 1;
      }
      AddResult(id, ids);
      return None;
    }

    method NextCallID() returns (id: Id)
      modifies this`calls
    {
      calls := calls + 1;
      id := w.callID(calls);
    }

    function Bind(journey: Id, tool: Tool, arguments: string): Option<CallBinding>
    {
      BindCall(CallBinding(journey, tool.key, tool.nameDigest, tool.schemaDigest, w.canonical(arguments),
                           setup.version, o.command.principal, store.id, setup.digest))
    }

    /** The dispatch of one bound call; when it comes back without error nothing on the thread is unresolved. */
    method CallTool(op: Journal.Call, approval: Id) returns (verdict: Verdict)
      requires Synced()
      modifies this`clock, store
      ensures Ready()
      ensures verdict.Nil() || verdict == Refused(1, ErrSuperseded) ==> Synced()
      ensures verdict.Nil() ==> SentUnder(store.operations, old(store.operations), op.callID, op.binding)
      ensures verdict == Refused(1, ErrSuperseded) ==> Mismatched(old(store.interactions), approval, op)
    {
      hide Inv, Issued, Journeys.Proper, AnyUnresolved, CallAt, ForeignTicks, Mismatched;
      ghost var t := store.View();
      var n := clock;
      var rounds := [Round(w.visit(n), w.remote(n), w.visit(n + 1), w.cancelled(n)),
                     Round(w.visit(n + 2), w.remote(n + 2), w.visit(n + 3), w.cancelled(n + 2))];
      ghost var f0 := ForeignTicks(w.visit(n).others, o, StartOf(w, n), w.visit(n).now);
      ghost var f1 := ForeignTicks(w.visit(n + 1).others, o, StartOf(w, n + 1), w.visit(n + 1).now);
      ghost var f2 := ForeignTicks(w.visit(n + 2).others, o, StartOf(w, n + 2), w.visit(n + 2).now);
      ghost var f3 := ForeignTicks(w.visit(n + 3).others, o, StartOf(w, n + 3), w.visit(n + 3).now);
      assert f0 && f1 && f2 && f3;
      var sends;
      verdict, sends := Guarded(store, o, op, approval, rounds, StartOf(w, n));
      if verdict.Nil() {
        CallStands(store.View(), o, op, sends, OutcomeOf(rounds[sends - 1].remote));
      }
      clock := clock + 4;
      if verdict == Refused(1, ErrSuperseded) {
        SameOperations(t, store.View());
      }
    }

    // -------------------------------------------------------------- one round

    /** Closes the calls after cs[k], so that only cs[k] is left open for the person to answer. */
    method DeferSiblings(cs: seq<Content>, k: nat)
      requires DistinctCalls(cs) && k < |cs| && Leaves(IdsFrom(cs, k))
      modifies this`history
      ensures Leaves({cs[k].id})
    {
      hide History.Open;
      assert IdsFrom(cs, k) == {cs[k].id} + IdsFrom(cs, k + 1);
      var j := k + 1;
      while j < |cs|
        invariant k < j <= |cs| && Leaves({cs[k].id} + IdsFrom(cs, j))
      {
        NextIds(cs, j);
        AddResult(cs[j].id, {cs[k].id} + IdsFrom(cs, j));
        assert {cs[k].id} + IdsFrom(cs, j) - {cs[j].id} == {cs[k].id} + IdsFrom(cs, j + 1);
        j := j + 1;
      }
      assert {cs[k].id} + IdsFrom(cs, j) == {cs[k].id};
    }

    /** A question or a call that needs approval: its siblings are deferred and the run waits; if
        steering arrived first the call is closed too and the round ends. */
    method Ask(cs: seq<Content>, k: nat, p: Proposal) returns (fault: Option<Cause>, waiting: Option<Id>)
      requires Synced() && DistinctCalls(cs) && k < |cs| && Leaves(IdsFrom(cs, k))
      requires p.saved.provider == cs[k].id
      modifies this`clock, this`history, this`persisted, store
      ensures Ready() && (fault.Some? ==> History.Open(history).Some? && waiting.None?)
      ensures fault.None? ==> Synced() && active.ids == persisted
      ensures fault.None? && waiting.None? ==> Leaves({})
      ensures waiting.Some? ==> Leaves({cs[k].id}) && waiting.value == cs[k].id
      ensures waiting.Some? ==>
        p.id in store.interactions && Matches(store.interactions[p.id], p.kind, p.name, Some(p.binding))
      ensures waiting.Some? ==> Parked(store.interactions, history, cs[k].id)
      ensures fault.Some? ==> !fault.value.RoundsExhausted?
    {
      hide Inv, Issued, Fair, Journeys.Proper, JournalHistory.Stands, AnyUnresolved, History.Open;
      waiting := None;
      DeferSiblings(cs, k);
      var questions := [];
      if p.kind.Clarification? {
        var decoded := w.questions(cs[k].arguments);
        if decoded.None? {
          return Some(BadArguments), None;
        }
        questions := decoded.value;
      }
      var err := Flush();
      if err != Ok {
        return Some(Store(err)), None;
      }
      err := WaitFor(p.(questions := questions));
      if err == ErrPending {
        AddResult(cs[k].id, {cs[k].id});
        assert {cs[k].id} - {cs[k].id} == {};
        return None, None;
      }
      if err != Ok {
        return Some(Store(err)), None;
      }
      return None, Some(cs[k].id);
    }

    /** A call that is carried out now, on behalf of the journey that owns it. */
    method Carry(cs: seq<Content>, k: nat, op: Journal.Call, journey: Id) returns (fault: Option<Cause>)
      requires Synced() && DistinctCalls(cs) && k < |cs| && Leaves(IdsFrom(cs, k))
      modifies this`clock, this`history, this`repairs, store, active
      ensures Ready()
      ensures fault.Some? ==> History.Open(history).Some?
      ensures fault.None? ==> Synced() && Leaves(IdsFrom(cs, k + 1))
      ensures fault.None? ==> SentUnder(store.operations, old(store.operations), op.callID, op.binding)
      ensures fault.Some? ==> !fault.value.RoundsExhausted?
    {
      hide Inv, Issued, Fair, Journeys.Proper, JournalHistory.Stands, AnyUnresolved, History.Open, Journeys.Apply;
      hide SentUnder;
      Touch(journey);
      var verdict := CallTool(op, "");
      if !verdict.Nil() {
        return Some(Cause.Call(verdict));
      }
      NextIds(cs, k);
      fault := Settle(cs[k].id, verdict, IdsFrom(cs, k));
    }

    /** One planned call.  done means the round is over because steering superseded a wait. */
    method PlanStep(cs: seq<Content>, k: nat, kind: CallKind)
      returns (fault: Option<Cause>, waiting: Option<Id>, done: bool)
      requires Synced() && DistinctCalls(cs) && k < |cs| && Leaves(IdsFrom(cs, k))
      requires kind.Activating? ==> active.ids == persisted
      modifies this, store, active
      ensures Ready() && sent == old(sent) && (active == old(active) || fresh(active))
      ensures fault.Some? ==> History.Open(history).Some? && waiting.None?
      ensures fault.None? ==> Synced()
      ensures fault.None? && waiting.None? && !done ==> Leaves(IdsFrom(cs, k + 1))
      ensures fault.None? && waiting.None? && done ==> Leaves({}) && active.ids == persisted
      ensures waiting.Some? ==>
        waiting.value == cs[k].id && Leaves({cs[k].id}) && active.ids == persisted
      ensures waiting.Some? ==> Parked(store.interactions, history, cs[k].id)
      ensures kind.NotExecuted? || kind.Inactive? ==> unchanged(store)
      ensures fault.None? && (kind.Activating? || kind.Reading?) ==> store.operations == old(store.operations)
      ensures fault.None? && kind.Alias? ==> setup.tool(kind.journey, cs[k].name).Some?
      ensures fault.None? && kind.Alias? ==> (done <==> setup.tool(kind.journey, cs[k].name).value.requiresApproval)
      ensures fault.None? ==> (kind.Asking? ==> done) && (done ==> kind.Asking? || kind.Alias?)
      ensures fault.None? && kind.Alias? && waiting.None? && !done ==>
        SentWith(store.operations, old(store.operations),
            Bind(kind.journey, setup.tool(kind.journey, cs[k].name).value, cs[k].arguments))
      ensures kind.Activating? || kind.NotExecuted? ==>
        !done && waiting.None? && (fault.None? && old(active.ids == persisted) ==> active.ids == persisted)
      ensures fault.Some? ==> !fault.value.RoundsExhausted?
    {
      hide Inv, Issued, Fair, Journeys.Proper, JournalHistory.Stands, AnyUnresolved, History.Open, Journeys.Apply;
      NextIds(cs, k);
      waiting, done, fault := None, false, None;
      calls := calls + 1;
      match kind {
        case NotExecuted => AddResult(cs[k].id, IdsFrom(cs, k));
        case Inactive => AddResult(cs[k].id, IdsFrom(cs, k));
        case Activating =>
          fault := ActivateJourney(cs[k].arguments);
          if fault.None? {
            AddResult(cs[k].id, IdsFrom(cs, k));
          }
        case Reading =>
          match w.read(cs[k]) {
            case ReadFails => fault := Some(ReadFailed);
            case Unavailable => AddResult(cs[k].id, IdsFrom(cs, k));
            case Material(journey) =>
              Touch(journey);
              AddResult(cs[k].id, IdsFrom(cs, k));
          }
        case Asking => fault, waiting, done := Propose(cs, k, "", setup.question, Clarification);
        case Alias(journey) =>
          var tool := setup.tool(journey, cs[k].name);
          if tool.None? {
            fault := Some(NotAllowed);
          } else {
            fault, waiting, done := Propose(cs, k, journey, tool.value, Approval);
          }
      }
    }

    /** A bound call: it waits for a person, or is carried out. */
    method Propose(cs: seq<Content>, k: nat, journey: Id, tool: Tool, kind: Kind)
      returns (fault: Option<Cause>, waiting: Option<Id>, done: bool)
      requires Synced() && DistinctCalls(cs) && k < |cs| && Leaves(IdsFrom(cs, k))
      modifies this`clock, this`history, this`repairs, this`persisted, this`calls, store, active
      ensures Ready()
      ensures fault.Some? ==> History.Open(history).Some? && waiting.None?
      ensures fault.None? ==> Synced()
      ensures fault.None? && waiting.None? && !done ==> Leaves(IdsFrom(cs, k + 1))
      ensures fault.None? && waiting.None? && done ==> Leaves({}) && active.ids == persisted
      ensures waiting.Some? ==>
        waiting.value == cs[k].id && Leaves({cs[k].id}) && active.ids == persisted
      ensures waiting.Some? ==> Asked(store.interactions, kind, cs[k].name, Bind(journey, tool, cs[k].arguments))
      ensures waiting.Some? ==> Parked(store.interactions, history, cs[k].id)
      ensures fault.None? && !done ==>
        SentWith(store.operations, old(store.operations), Bind(journey, tool, cs[k].arguments))
      ensures fault.None? ==> (done <==> kind.Clarification? || tool.requiresApproval)
      ensures fault.Some? ==> !fault.value.RoundsExhausted?
    {
      hide Inv, Issued, Fair, Journeys.Proper, JournalHistory.Stands, AnyUnresolved, History.Open, BindCall;
      waiting, done := None, false;
      var callID := NextCallID();
      var call := cs[k];
      var binding := Bind(journey, tool, call.arguments);
      if binding.None? {
        return Some(BadArguments), None, false;
      }
      var arguments := w.canonical(call.arguments);
      if kind.Clarification? || tool.requiresApproval {
        var saved := Unsaid(call.id, call.arguments);
        var p := Proposal(
          w.interactionID(calls), kind, [], callID, saved, call.name, binding.value, journey, tool.key,
          tool.nameDigest, tool.schemaDigest, arguments);
        fault, waiting := Ask(cs, k, p);
        done := true;
      } else {
        var op := Journal.Call(
          callID, call.name, tool.key, tool.nameDigest, tool.schemaDigest, arguments, binding.value, tool.policy,
          tool.requiresApproval, journey);
        fault := Carry(cs, k, op, journey);
      }
    }

    /** The calls of one response.  An activation finds the journal's order equal to the one in memory,
        because it is never planned beside a call that touches a journey. */
    method CarryOut(cs: seq<Content>) returns (fault: Option<Cause>, waiting: Option<Id>)
      requires Synced() && active.ids == persisted && DistinctCalls(cs) && Leaves(IdsFrom(cs, 0))
      modifies this, store, active
      ensures Ready() && sent == old(sent) && (active == old(active) || fresh(active))
      ensures fault.Some? ==> History.Open(history).Some? && waiting.None?
      ensures fault.None? ==> Synced() && active.ids == persisted
      ensures fault.None? && waiting.None? ==> Leaves({})
      ensures waiting.Some? ==>
        Leaves({waiting.value}) && Parked(store.interactions, history, waiting.value)
      ensures fault.Some? ==> !fault.value.RoundsExhausted?
    {
      hide Inv, Issued, Fair, Journeys.Proper, JournalHistory.Stands, AnyUnresolved, History.Open, Parked;
      var order, tool := active.ids, setup.tool;
      var owner := (alias: Id) => Dispatch.Owner(order, (j: Id, a: Id) => tool(j, a).Some?, alias);
      var plan := PlanCalls(cs, setup.offers(order), owner);
      ghost var activating := HasActivation(cs);
      var k := 0;
      var done := false;
      while k < |plan| && !done
        invariant 0 <= k <= |plan| == |cs| && Synced() && sent == old(sent) && (active == old(active) || fresh(active))
        invariant activating || done ==> active.ids == persisted
        invariant Leaves(if done then {} else IdsFrom(cs, k))
        decreases |plan| - k
      {
        PlanActivates(cs, setup.offers(order), owner, plan, k);
        fault, waiting, done := PlanStep(cs, k, plan[k].kind);
        if fault.Some? || waiting.Some? {
          return;
        }
        k := k + 1;
      }
      waiting := None;
      NoIds(cs);
      var err := Flush();
      if err != Ok {
        return Some(Store(err)), None;
      }
      fault := None;
    }

    // -------------------------------------------------------------- the run

    /** A new approval for the same action; the provider's call stays open unless steering arrived. */
    method WaitAgain(x: Interaction, tool: Tool) returns (fault: Option<Cause>, waiting: Option<Id>)
      requires Synced() && Leaves({x.saved.provider})
      modifies this`clock, this`history, this`calls, store
      ensures Ready() && (fault.Some? ==> History.Open(history).Some? && waiting.None? && !fault.value.Call?)
      ensures fault.None? ==> Synced() && store.operations == old(store.operations)
      ensures fault.None? && waiting.None? ==> Leaves({})
      ensures waiting.Some? ==> waiting.value == x.saved.provider && Leaves({x.saved.provider})
      ensures waiting.Some? ==> Parked(store.interactions, history, x.saved.provider)
      ensures fault.Some? ==> !fault.value.RoundsExhausted?
    {
      hide Inv, Issued, Fair, Journeys.Proper, JournalHistory.Stands, AnyUnresolved, History.Open, BindCall;
      waiting := None;
      var binding := Bind(x.journey, tool, x.saved.arguments);
      if binding.None? {
        return Some(BadArguments), None;
      }
      var callID := NextCallID();
      var saved := Unsaid(x.saved.provider, x.saved.arguments);
      var p := Proposal(
        w.interactionID(calls), Approval, [], callID, saved, x.name, binding.value, x.journey, tool.key,
        tool.nameDigest, tool.schemaDigest, w.canonical(x.saved.arguments));
      var err := WaitFor(p);
      if err == ErrPending {
        AddResult(x.saved.provider, {x.saved.provider});
        assert {x.saved.provider} - {x.saved.provider} == {};
        return None, None;
      }
      if err != Ok {
        return Some(Store(err)), None;
      }
      return None, Some(x.saved.provider);
    }

    /** The journey still offers the approved call, under the binding that was approved. */
    predicate Offered(x: Interaction) {
      && x.journey in setup.available && setup.tool(x.journey, x.name).Some?
      && Bind(x.journey, setup.tool(x.journey, x.name).value, x.saved.arguments) == Some(x.binding)
    }

    /** The approved call of a continuation: it is dispatched once if the journey still offers it under
        the approved binding, and superseded or asked about again otherwise.  Because the call is built from the
        approval's own row, the journal never finds the approval superseded at dispatch, so every wait is
        entered with the order written. */
    method Resume(i: Id, x: Interaction) returns (fault: Option<Cause>, waiting: Option<Id>)
      requires Synced() && active.ids == persisted && Leaves({x.saved.provider})
      requires i in store.interactions && store.interactions[i] == x
      modifies this, store, active
      ensures Ready() && sent == old(sent) && active == old(active)
      ensures fault.Some? ==> History.Open(history).Some? && waiting.None?
      ensures fault.None? ==> Synced() && active.ids == persisted
      ensures fault.None? && waiting.None? ==> Leaves({})
      ensures waiting.Some? ==> waiting.value == x.saved.provider && Leaves({x.saved.provider})
      ensures waiting.Some? ==> Parked(store.interactions, history, x.saved.provider)
      ensures fault != Some(Cause.Call(Refused(1, ErrSuperseded)))
      ensures fault.Some? ==> !fault.value.RoundsExhausted?
      ensures fault.None? && Offered(x) ==>
        SentUnder(store.operations, old(store.operations), x.callID, x.binding) && waiting.None?
      ensures fault.None? && !Offered(x) ==> store.operations == old(store.operations)
    {
      hide Inv, Issued, Fair, Journeys.Proper, JournalHistory.Stands, AnyUnresolved, History.Open, Journeys.Apply;
      hide BindCall, SentUnder, Parked;
      waiting, fault := None, None;
      assert {x.saved.provider} - {x.saved.provider} == {};
      var tool := if x.journey in setup.available then setup.tool(x.journey, x.name) else None;
      if tool.None? {
        var err := OwnSupersede(i);
        if err != Ok {
          return Some(Store(err)), None;
        }
        AddResult(x.saved.provider, {x.saved.provider});
      } else {
        var binding := Bind(x.journey, tool.value, x.saved.arguments);
        if binding.None? {
          return Some(BadArguments), None;
        }
        if binding.value != x.binding {
          var err := OwnSupersede(i);
          if err != Ok {
            return Some(Store(err)), None;
          }
          fault, waiting := WaitAgain(x, tool.value);
          if fault.Some? || waiting.Some? {
            return;
          }
        } else {
          fault := SendApproved(i, x, tool.value, binding.value);
          if fault.Some? {
            return;
          }
        }
      }
      var err := Flush();
      if err != Ok {
        return Some(Store(err)), None;
      }
    }

    /** Sends the approved call under the binding it was approved with. */
    method SendApproved(i: Id, x: Interaction, tool: Tool, binding: CallBinding) returns (fault: Option<Cause>)
      requires Synced() && Leaves({x.saved.provider})
      requires i in store.interactions && store.interactions[i] == x && binding == x.binding
      modifies this`clock, this`history, this`repairs, this`calls, store, active
      ensures Ready()
      ensures fault.Some? ==> History.Open(history).Some?
      ensures fault.None? ==> Synced() && Leaves({})
      ensures fault.None? ==> SentUnder(store.operations, old(store.operations), x.callID, x.binding)
      ensures fault != Some(Cause.Call(Refused(1, ErrSuperseded)))
      ensures fault.Some? ==> !fault.value.RoundsExhausted?
    {
      hide Inv, Issued, Fair, Journeys.Proper, JournalHistory.Stands, AnyUnresolved, History.Open, Journeys.Apply;
      hide SentUnder;
      calls := calls + 1;
      Touch(x.journey);
      var op := Journal.Call(x.callID, x.name, tool.key, tool.nameDigest, tool.schemaDigest,
                             w.canonical(x.saved.arguments), binding, tool.policy, true, x.journey);
      var verdict := CallTool(op, i);
      if !verdict.Nil() {
        return Some(Cause.Call(verdict));
      }
      assert {x.saved.provider} - {x.saved.provider} == {};
      fault := Settle(x.saved.provider, verdict, {x.saved.provider});
    }

    method OwnSupersede(i: Id) returns (err: Error)
      requires Synced()
      modifies this`clock, store
      ensures Ready() && (err == Ok ==> Synced() && store.operations == old(store.operations))
    {
      hide Inv, Issued, Fair, Journeys.Proper, JournalHistory.Stands, AnyUnresolved;
      ghost var t := store.View();
      err := Own(StepSupersede(o, i));
      if err == Ok {
        SameOperations(t, store.View());
      }
    }

    /** The deferred closing of a run that stops with an error. */
    method Stop(cause: Cause) returns (out: Output)
      requires History.Open(history).Some?
      ensures out.Stopped? && out.cause == cause && Closed(out.history)
    {
      if history == [] {
        return Stopped([], cause);
      }
      var closed := CloseOpen(history);
      return Stopped(closed, cause);
    }

    /** What the caller of the loop may rely on: a final answer leaves open exactly what the run found open, and
        an error nothing; a wait adds exactly its own call, parks that call and that history in an open
        interaction, and has written the active order; and neither an answer nor a wait is reached while any
        operation of the thread is unresolved. */
    ghost predicate Delivers(out: Output)
      reads this, store, active
    {
      && RequestsFit()
      && match out
         case Waiting(h, call) =>
           && call !in base && History.Open(h) == Some(base + {call}) && Parked(store.interactions, h, call)
           && active.ids == persisted && store.active == persisted && !AnyUnresolved(store.View())
         case Finished(h, text) =>
           && sent != [] && w.reply(|sent| - 1) == Said(text) && h == history
           && History.Open(h) == Some(base) && text != "" && !AnyUnresolved(store.View())
         case Stopped(h, _) => Closed(h)
    }

    /** runHarness, from any history whose calls and results match so far.  The first iteration of a
        continuation works from the checkpoint of its own wait. */
    method RunHarness(loaded: seq<Message>, iteration: nat) returns (out: Output)
      requires Synced() && active.ids == persisted && RequestsFit()
      requires Loadable(loaded, iteration)
      modifies this, store, active
      ensures Ready() && Delivers(out) && (active == old(active) || fresh(active))
      ensures |old(sent)| <= |sent| <= |old(sent)| + 16
      ensures out.Stopped? && out.cause.RoundsExhausted? ==> |sent| == |old(sent)| + 16
    {
      hide Inv, Issued, Fair, Journeys.Proper, JournalHistory.Stands, AnyUnresolved, History.Open, Parked;
      hide Marked, Appended, TrimHistory.InputsCut;
      history := loaded;
      repairs := 1;
      var fault, waiting, protected := Begin(iteration);
      if fault.Some? {
        out := Stop(fault.value);
        return;
      }
      if waiting.Some? {
        return Waiting(history, waiting.value);
      }
      var round := 0;
      while round < 16
        invariant Synced() && active.ids == persisted && Leaves({}) && RequestsFit()
          && (active == old(active) || fresh(active))
        invariant 0 <= round <= 16 && |sent| == |old(sent)| + round
      {
        var ending := Work(protected);
        if ending.Some? {
          return ending.value;
        }
        round := round + 1;
      }
      out := Stop(RoundsExhausted);
    }

    /** One round of the loop: a request, and the calls of its response; None when there is another one. */
    method Work(protected: set<Id>) returns (ending: Option<Output>)
      requires Synced() && active.ids == persisted && Leaves({}) && RequestsFit()
      modifies this, store, active
      ensures Ready() && (active == old(active) || fresh(active))
      ensures ending.None? ==> Synced() && active.ids == persisted && Leaves({}) && RequestsFit()
      ensures |old(sent)| <= |sent| <= |old(sent)| + 1 && (ending.None? ==> |sent| == |old(sent)| + 1)
      ensures ending.Some? && ending.value.Stopped? ==> !ending.value.cause.RoundsExhausted?
      ensures ending.Some? ==> Delivers(ending.value)
    {
      hide Inv, Issued, Fair, Journeys.Proper, JournalHistory.Stands, AnyUnresolved, History.Open, Parked;
      hide Marked, Appended, TrimHistory.InputsCut, Texts, PendingOf, Communications, DistinctCalls, IdsFrom;
      var out;
      var fault, reply, turn := Invoke(protected);
      if fault.Some? {
        out := Stop(fault.value);
        return Some(out);
      }
      if reply.Said? {
        out := Answer(reply.text);
        return Some(out);
      }
      var waiting;
      fault, waiting := CarryOut(reply.calls);
      if fault.Some? {
        out := Stop(fault.value);
        return Some(out);
      }
      return if waiting.Some? then Some(Waiting(history, waiting.value)) else None;
    }

    method Answer(text: string) returns (out: Output)
      requires Synced() && Leaves({}) && RequestsFit() && sent != [] && w.reply(|sent| - 1) == Said(text)
      modifies this`clock, this`persisted, store
      ensures Ready() && Delivers(out) && (out.Stopped? ==> !out.cause.RoundsExhausted?)
    {
      hide Inv, Issued, Fair, Journeys.Proper, JournalHistory.Stands, AnyUnresolved, History.Open;
      if text == "" {
        out := Stop(NoAnswer);
        return;
      }
      var err := Flush();
      if err != Ok {
        out := Stop(Store(err));
        return;
      }
      assert base + {} == base;
      return Finished(history, text);
    }

    /** What the run works from.  It leaves open the calls of earlier waits; for the first iteration of a
        continuation it is the checkpoint of its own wait, which leaves that wait's call open too. */
    ghost predicate Loadable(loaded: seq<Message>, iteration: nat)
      reads this, store
    {
      var i := o.command.interactionID;
      if i != "" && iteration == 0 then
        && History.Open(loaded).Some?
        && (i in store.interactions && store.interactions[i].continuation == o.Run() ==>
              JournalHistory.Adds(store.interactions[i].saved, base))
      else History.Open(loaded) == Some(base)
    }

    /** Loads the continuation, if there is one, and settles the call it waited for. */
    method Begin(iteration: nat) returns (fault: Option<Cause>, waiting: Option<Id>, protected: set<Id>)
      requires Synced() && active.ids == persisted && Loadable(history, iteration)
      modifies this, store, active
      ensures Ready() && sent == old(sent) && active == old(active)
      ensures fault.Some? ==> History.Open(history).Some? && waiting.None?
      ensures fault.None? ==> Synced() && active.ids == persisted
      ensures fault.None? && waiting.None? ==> Leaves({})
      ensures waiting.Some? ==>
        Leaves({waiting.value}) && Parked(store.interactions, history, waiting.value)
      ensures waiting.Some? ==>
        && o.command.interactionID in old(store.interactions)
        && waiting.value == old(store.interactions)[o.command.interactionID].saved.provider
      ensures fault.Some? ==> !fault.value.RoundsExhausted?
      ensures fault.None? && (o.command.interactionID == "" || iteration > 0) ==>
        history == old(history) && repairs == old(repairs) && store.operations == old(store.operations)
      ensures fault.None? && o.command.interactionID != "" && iteration == 0 ==>
        && o.command.interactionID in old(store.interactions)
        && var x := old(store.interactions)[o.command.interactionID];
           if x.kind.Approval? && x.approved then
             if Offered(x) then SentUnder(store.operations, old(store.operations), x.callID, x.binding)
             else store.operations == old(store.operations)
           else
             && store.operations == old(store.operations) && repairs == x.saved.repairs
             && history == x.saved.history + [ResultMessage(x.saved.provider)]
    {
      hide Inv, Issued, Fair, Journeys.Proper, JournalHistory.Stands, AnyUnresolved, History.Open, Parked;
      waiting, fault, protected := None, None, {};
      assert base + {} == base;
      var i := o.command.interactionID;
      if i == "" {
        return;
      }
      ghost var t := store.View();
      var err, now := Fence();
      if err != Ok {
        return Some(Store(err)), None, {};
      }
      SameOperations(t, store.View());
      var row;
      row, err := store.Continuation(now, o);
      if err != Ok {
        return Some(Store(err)), None, {};
      }
      var x := row.value;
      protected := {x.saved.provider};
      if iteration > 0 {
        return;
      }
      if !x.saved.resumable {
        return Some(BadCheckpoint), None, protected;
      }
      repairs, history := x.saved.repairs, x.saved.history;
      if x.kind.Approval? && x.approved {
        fault, waiting := Resume(i, x);
      } else {
        AddResult(x.saved.provider, {x.saved.provider});
        assert {x.saved.provider} - {x.saved.provider} == {};
      }
    }

    /** converse: the stored journeys that are still available, cut to the limit, with the explicit
        target on top, are written back before the loop starts. */
    method Converse(loaded: seq<Message>, iteration: nat, target: Id) returns (out: Output)
      requires Ready() && !AnyUnresolved(store.View()) && RequestsFit()
      requires Loadable(loaded, iteration)
      modifies this, store, active
      ensures Ready() && Delivers(out) && (active == old(active) || fresh(active))
    {
      hide Inv, Issued, Fair, Journeys.Proper, JournalHistory.Stands, AnyUnresolved, History.Open, Closed;
      EmptyClosed();
      var fault := Prepare(target);
      if fault.Some? {
        return Stopped([], fault.value);
      }
      ghost var t := store.View();
      var err, now := Fence();
      if err != Ok {
        return Stopped([], Store(err));
      }
      SameOperations(t, store.View());
      out := RunHarness(loaded, iteration);
    }

    /** One iteration of execute.  A final answer is committed only with nothing unresolved; and when
        input arrived first, the next iteration starts from the answered history and a clean thread. */
    method Iterate(loaded: seq<Message>, iteration: nat, target: Id, ending: Cause -> RunState)
      returns (next: Option<seq<Message>>, out: Output, ended: bool)
      requires Ready() && !AnyUnresolved(store.View()) && RequestsFit()
      requires Loadable(loaded, iteration)
      requires forall c :: Terminal(ending(c)) && !ending(c).Completed?
      modifies this, store, active
      ensures Ready() && RequestsFit() && (active == old(active) || fresh(active))
      ensures next.Some? ==> History.Open(next.value) == Some(base) && !AnyUnresolved(store.View()) && !ended
      ensures out.Waiting? ==> Delivers(out) && next.None? && !ended
      ensures ended ==> Committed(store.View(), o.Run(), out, ending)
    {
      hide Inv, Issued, Fair, Journeys.Proper, JournalHistory.Stands, AnyUnresolved, History.Open, Parked, Ends;
      out := Converse(loaded, iteration, target);
      if out.Waiting? || (out.Stopped? && LostOwnership(out.cause)) {
        return None, out, false;
      }
      var state := if out.Finished? then Completed else ending(out.cause);
      ghost var t := store.View();
      var delivered := if out.history == [] then None else Some(out.history);
      var step := StepFinish(o, state, delivered, if out.Finished? then out.text else "", "", "");
      var err := Own(step);
      if err == ErrPending {
        SameOperations(t, store.View());
        return Some(out.history), out, false;
      }
      if err == Ok {
        EndsCommitted(store.View(), step, out, ending);
      }
      return None, out, err == Ok;
    }

    /** execute: as long as its answer loses the final commit to new input, the run goes on, for any number of
        iterations; `patience` is how many of them are looked at. */
    method Execute(loaded: seq<Message>, target: Id, ending: Cause -> RunState, patience: nat)
      returns (next: Option<seq<Message>>, out: Option<Output>, ended: bool)
      requires Ready() && !AnyUnresolved(store.View()) && RequestsFit() && Loadable(loaded, 0)
      requires forall c :: Terminal(ending(c)) && !ending(c).Completed?
      modifies this, store, active
      ensures Ready() && RequestsFit()
      ensures next.Some? ==> !AnyUnresolved(store.View()) && !ended && Loadable(next.value, patience)
      ensures out.None? ==> patience == 0
      ensures next.None? ==> out.Some? && (out.value.Waiting? ==> Delivers(out.value) && !ended)
      ensures ended ==> out.Some? && Committed(store.View(), o.Run(), out.value, ending)
    {
      hide Inv, Issued, Fair, Journeys.Proper, JournalHistory.Stands, AnyUnresolved, History.Open, Parked, Committed;
      next, out, ended := Some(loaded), None, false;
      var iteration := 0;
      while iteration < patience
        invariant Ready() && RequestsFit() && (active == old(active) || fresh(active)) && iteration <= patience
        invariant next.Some? && !ended && !AnyUnresolved(store.View()) && Loadable(next.value, iteration)
        invariant iteration > 0 ==> out.Some?
      {
        var output;
        next, output, ended := Iterate(next.value, iteration, target, ending);
        out := Some(output);
        if next.None? {
          return;
        }
        iteration := iteration + 1;
      }
    }

    method Prepare(target: Id) returns (fault: Option<Cause>)
      requires Ready() && !AnyUnresolved(store.View())
      modifies this`clock, this`active, this`persisted, store
      ensures Ready() && fresh(active)
      ensures fault.None? ==> Synced() && active.ids == persisted
      ensures fault.None? ==> store.interactions == old(store.interactions)
      ensures fault.None? ==> OpensWith(old(store.active), setup, store.View(), o.Run(), target, active.ids)
      ensures fault.None? ==> forall j :: j in active.ids ==> j in setup.available
      ensures fault.None? && target in setup.available && target != "" ==>
        active.ids != [] && active.ids[|active.ids| - 1] == target
    {
      hide Inv, Issued, Fair, Journeys.Proper, JournalHistory.Stands, AnyUnresolved, Journeys.Apply;
      hide Journeys.Verdict, Journeys.Evicted;
      hide Opening, PinnedJourneys;
      active := new Journeys.ActiveSet([]);
      if setup.limit < 1 {
        return Some(BadLimit);
      }
      ghost var t := store.View();
      var err, now := Fence();
      if err != Ok {
        return Some(Store(err));
      }
      SameOperations(t, store.View());
      var stored, pinned, lock := store.ActiveJourneys(now, o);
      var next;
      next, fault := Choose(stored, pinned, target);
      if fault.Some? {
        return;
      }
      t := store.View();
      err := WriteOrder(next.ids, stored);
      if err != Ok {
        return Some(Store(err));
      }
      SameOperations(t, store.View());
      SamePins(t, store.View(), o.Run());
      active := next;
      persisted := next.ids;
      return None;
    }

    /** The set the run starts with: what was stored and is available, cut to the limit, the target on top. */
    method Choose(stored: seq<Id>, pinned: seq<Id>, target: Id) returns (next: Journeys.ActiveSet, fault: Option<Cause>)
      requires setup.limit >= 1
      ensures fresh(next) && Journeys.Proper(next.ids)
      ensures fault.None? ==> next.ids == Opening(stored, setup.available, setup.limit, pinned, target)
      ensures fault.None? ==> forall j :: j in next.ids ==> j in setup.available
      ensures fault.None? && target in setup.available && target != "" ==>
        next.ids != [] && next.ids[|next.ids| - 1] == target
    {
      hide Journeys.Proper, Journeys.Apply, Journeys.Verdict, Journeys.Evicted, Kept, Journeys.Loaded;
      next := new Journeys.ActiveSet(stored);
      Keep(next);
      ProperStep(next.ids, Journeys.Fit(setup.limit, pinned));
      Shrinks(next.ids, setup.limit, pinned);
      var evicted, status := next.Fit(setup.limit, pinned);
      var continuing := o.command.interactionID != "";
      if target != "" && !(continuing && target !in setup.available) {
        if target !in setup.available {
          return next, Some(JourneyUnavailable);
        }
        ProperStep(next.ids, Journeys.Activate(target, setup.limit, pinned));
        Tops(next.ids, target, setup.limit, pinned);
        evicted, status := next.Activate(target, setup.limit, pinned);
        if !status.Fine? {
          return next, Some(ActivationRefused);
        }
      }
      return next, None;
    }

    /** Journeys that are not available to this user leave the set. */
    method Keep(next: Journeys.ActiveSet)
      requires Journeys.Proper(next.ids)
      modifies next
      ensures Journeys.Proper(next.ids) && next.ids == Kept(old(next.ids), setup.available)
    {
      hide Journeys.Proper, Journeys.Apply, Journeys.Without, Kept;
      var ids := next.ids;
      KeptEnds(ids, setup.available);
      var k := 0;
      while k < |ids|
        invariant 0 <= k <= |ids| && Journeys.Proper(next.ids) && next.ids == Kept(ids[..k], setup.available) + ids[k..]
      {
        KeptNext(ids, k, setup.available);
        if ids[k] !in setup.available {
          ProperStep(next.ids, Journeys.Remove([ids[k]]));
          Journeys.RemoveIs(next.ids, [ids[k]]);
          var removed := next.Remove([ids[k]]);
        }
        k := k + 1;
      }
    }
  }

  lemma {:induction false} KeptEnds(ids: seq<Id>, available: set<Id>)
    ensures Kept(ids[..0], available) + ids[0..] == ids
    ensures Kept(ids[..|ids|], available) + ids[|ids|..] == Kept(ids, available)
  {
    assert ids[..|ids|] == ids;
  }

  lemma {:induction false} KeptNext(ids: seq<Id>, k: nat, available: set<Id>)
    requires k < |ids| && Journeys.Proper(Kept(ids[..k], available) + ids[k..])
    ensures var now := Kept(ids[..k], available) + ids[k..];
      Kept(ids[..k + 1], available) + ids[k + 1..] == if ids[k] in available then now
          else Journeys.Without(now, [ids[k]])
  {
    hide Journeys.Without, Journeys.Distinct;
    var before := Kept(ids[..k], available);
    var now := before + ids[k..];
    assert ids[..k + 1][..k] == ids[..k];
    assert ids[k..] == [ids[k]] + ids[k + 1..];
    hide Kept;
    if ids[k] !in available {
      Journeys.WithoutOne(now, |before|);
      assert now[..|before|] == before && now[|before| + 1..] == ids[k + 1..];
    }
  }

  /** The journeys of the list that are available, in order. */
  function Kept(ids: seq<Id>, available: set<Id>): (r: seq<Id>)
    ensures forall j :: j in r <==> j in ids && j in available
  {
    if ids == [] then []
    else Kept(ids[..|ids| - 1], available) + (if ids[|ids| - 1] in available then [ids[|ids| - 1]] else [])
  }

  /** The order a run opens with: stored and available journeys, cut to the limit, the target used last. */
  function Opening(stored: seq<Id>, available: set<Id>, limit: int, pinned: seq<Id>, target: Id): seq<Id> {
    var fitted := Journeys.Apply(Kept(Journeys.Loaded(stored), available), Journeys.Fit(limit, pinned));
    if target != "" && target in available then Journeys.Apply(fitted, Journeys.Activate(target, limit, pinned))
        else fitted
  }

  /** The pins are those of the thread as the run finds it. */
  ghost predicate Pins(pinned: seq<Id>, t: Thread, run: Id) {
    forall j :: j in pinned <==> j in PinnedJourneys(t, run)
  }

  lemma SamePins(t: Thread, u: Thread, run: Id)
    requires u.interactions == t.interactions && u.operations == t.operations
    ensures PinnedJourneys(u, run) == PinnedJourneys(t, run)
  {
  }

  /** `after` is `before` with the journey activated under the thread's pins. */
  ghost predicate Activates(before: seq<Id>, id: Id, limit: int, t: Thread, run: Id, after: seq<Id>) {
    exists pinned :: Pins(pinned, t, run) && after == Journeys.Apply(before, Journeys.Activate(id, limit, pinned))
  }

  /** `ids` is the order a run opens with under the thread's pins. */
  ghost predicate OpensWith(stored: seq<Id>, setup: Setup, t: Thread, run: Id, target: Id, ids: seq<Id>) {
    exists pinned :: Pins(pinned, t, run) && ids == Opening(stored, setup.available, setup.limit, pinned, target)
  }

  lemma PinnedActive(ids: seq<Id>, id: Id, limit: int, pinned: seq<Id>)
    ensures forall x :: x in ids && x in pinned ==> x in Journeys.Apply(ids, Journeys.Activate(id, limit, pinned))
  {
    hide Journeys.Apply;
    forall x | x in ids && x in pinned ensures x in Journeys.Apply(ids, Journeys.Activate(id, limit, pinned)) {
      Journeys.PinnedStay(ids, id, limit, pinned, x);
    }
  }

  /** A run never opens without a pinned journey that was stored and is available. */
  lemma OpeningKeepsPinned(stored: seq<Id>, setup: Setup, t: Thread, run: Id, target: Id, ids: seq<Id>, j: Id)
    requires OpensWith(stored, setup, t, run, target, ids)
    requires j in stored && j != "" && j in setup.available && j in PinnedJourneys(t, run)
    ensures j in ids
  {
    hide Journeys.Apply, PinnedJourneys, Kept;
    var pinned :| Pins(pinned, t, run) && ids == Opening(stored, setup.available, setup.limit, pinned, target);
    var kept := Kept(Journeys.Loaded(stored), setup.available);
    Journeys.PinnedStay(kept, target, setup.limit, pinned, j);
    Journeys.PinnedStay(Journeys.Apply(kept, Journeys.Fit(setup.limit, pinned)), target, setup.limit, pinned, j);
  }

  /** A run without a target opens with all stored journeys that are available, in their order, when the limit allows,
      and a target is put on top of them. */
  lemma {:induction false} OpensWithAll(stored: seq<Id>, setup: Setup, t: Thread, run: Id, target: Id, ids: seq<Id>)
    requires OpensWith(stored, setup, t, run, target, ids) && Journeys.Proper(stored)
    requires |Kept(stored, setup.available)| <= setup.limit
    ensures target == "" || target !in setup.available ==> ids == Kept(stored, setup.available)
    ensures target in Kept(stored, setup.available) && target != "" && setup.limit >= 1 ==>
      ids == Journeys.Without(Kept(stored, setup.available), [target]) + [target]
  {
    var kept := Kept(stored, setup.available);
    hide Kept, PinnedJourneys, Journeys.Apply, Journeys.Verdict, Journeys.Evicted;
    var pinned :| Pins(pinned, t, run) && ids == Opening(stored, setup.available, setup.limit, pinned, target);
    Journeys.LoadedSame(stored);
    KeptProper(stored, setup.available);
    FitsAll(kept, setup.limit, pinned);
    if target in kept && target != "" && setup.limit >= 1 {
      Journeys.ActivateAgain(kept, target, setup.limit, pinned);
    }
  }

  lemma FitsAll(ids: seq<Id>, limit: int, pinned: seq<Id>)
    requires |ids| <= limit
    ensures Journeys.Apply(ids, Journeys.Fit(limit, pinned)) == ids
  {
    hide Journeys.Without;
    Journeys.WithoutNone(ids, []);
  }

  lemma {:induction false} KeptProper(ids: seq<Id>, available: set<Id>)
    requires Journeys.Proper(ids)
    ensures Journeys.Proper(Kept(ids, available))
  {
    if ids != [] {
      KeptProper(ids[..|ids| - 1], available);
    }
  }

  ghost predicate StillParked(t: Thread, u: Thread, i: Id, h: seq<Message>, base: set<Id>) {
    && i in t.interactions && i in u.interactions && t.interactions[i].state.Open?
    && t.interactions[i].saved.history == h && u.interactions[i].saved == t.interactions[i].saved
    && JournalHistory.Adds(u.interactions[i].saved, base)
  }

  /** What a wait parks is what its continuation needs: through any later transactions the checkpoint stays
      as it was written, with exactly its own call open. */
  lemma {:induction false} ParkedStays(t: Thread, ticks: seq<Tick>, h: seq<Message>, call: Id, base: set<Id>)
    requires Inv(t) && Parked(t.interactions, h, call) && call !in base && History.Open(h) == Some(base + {call})
    ensures exists i :: StillParked(t, After(t, ticks), i, h, base)
  {
    hide Inv, After, RowsMove, RunsMove, OperationsMove, History.Open;
    Reachable(t, ticks);
    var i :| i in t.interactions && t.interactions[i].state.Open? && t.interactions[i].saved.resumable
      && t.interactions[i].saved.provider == call && t.interactions[i].saved.history == h;
    assert InteractionMoves(t.interactions[i], After(t, ticks).interactions[i]);
    assert StillParked(t, After(t, ticks), i, h, base);
  }

  /** The run has changed hands: whoever owns it now finishes it. */
  predicate LostOwnership(cause: Cause) {
    || cause == Store(ErrOwnership)
    || (cause.Call?
        && (cause.verdict == Unsaved(1, ErrOwnership) || cause.verdict == Unsaved(2, ErrOwnership)
            || cause.verdict == Refused(1, ErrOwnership) || cause.verdict == Refused(2, ErrOwnership)))
  }

  /** The run ended as the step says. */
  predicate Ends(t: Thread, run: Id, s: Step) {
    && s.StepFinish? && run in t.runs && t.runs[run].state == s.state && t.runs[run].answer == s.answer
    && (s.history.Some? && t.runs[run].digest.Some? ==> t.history == s.history.value)
  }

  lemma FinishEnds(t: Thread, now: int, s: Step)
    requires s.StepFinish? && Apply(t, now, None, s).err == Ok
    ensures Ends(Apply(t, now, None, s).thread, s.o.Run(), s)
  {
    hide AppendAll, DisposeRows, DisposeEvents, InFlight, MarkAttempts, HasPending;
  }

  /** An answer or an error is on record as the run's end, with its history if it has one and is pinned. */
  ghost predicate Committed(t: Thread, run: Id, out: Output, ending: Cause -> RunState) {
    && !out.Waiting? && run in t.runs
    && t.runs[run].state == (if out.Finished? then Completed else ending(out.cause))
    && (out.Finished? ==> t.runs[run].answer == out.text)
    && (out.history != [] && t.runs[run].digest.Some? ==> t.history == out.history)
  }

  lemma EndsCommitted(t: Thread, s: Step, out: Output, ending: Cause -> RunState)
    requires s.StepFinish? && Ends(t, s.o.Run(), s) && !out.Waiting?
    requires s.state == if out.Finished? then Completed else ending(out.cause)
    requires s.history == (if out.history == [] then None else Some(out.history))
    requires s.answer == if out.Finished? then out.text else ""
    ensures Committed(t, s.o.Run(), out, ending)
  {
  }

  lemma Shrinks(ids: seq<Id>, limit: int, pinned: seq<Id>)
    ensures forall j :: j in Journeys.Apply(ids, Journeys.Fit(limit, pinned)) ==> j in ids
  {
  }

  lemma Tops(ids: seq<Id>, target: Id, limit: int, pinned: seq<Id>)
    requires Journeys.Proper(ids)
    ensures var after := Journeys.Apply(ids, Journeys.Activate(target, limit, pinned));
      && (forall j :: j in after ==> j in ids || j == target)
      && (Journeys.Verdict(ids, Journeys.Activate(target, limit, pinned)).Fine? ==>
            after != [] && after[|after| - 1] == target)
  {
  }

  /** A new operation under the call's ID carries its binding. */
  predicate SentUnder(now: map<Id, Operation>, before: map<Id, Operation>, callID: Id, binding: CallBinding) {
    callID !in before && callID in now && now[callID].binding == binding
  }

  ghost predicate SentWith(now: map<Id, Operation>, before: map<Id, Operation>, binding: Option<CallBinding>) {
    exists id :: id in now && id !in before && binding == Some(now[id].binding)
  }

  predicate Matches(x: Interaction, kind: Kind, name: Id, binding: Option<CallBinding>) {
    x.state.Open? && x.kind == kind && x.name == name && binding == Some(x.binding)
  }

  /** An open interaction holds the call that this history leaves open, and the history itself. */
  ghost predicate Parked(interactions: map<Id, Interaction>, h: seq<Message>, call: Id) {
    exists i :: i in interactions && interactions[i].state.Open? && interactions[i].saved.resumable
      && interactions[i].saved.provider == call && interactions[i].saved.history == h
  }

  /** A checkpoint before anything is written to it. */
  function Unsaid(provider: Id, arguments: string): Saved {
    Saved(provider, arguments, [], 0, false)
  }

  /** A person is asked about the call under this binding. */
  ghost predicate Asked(interactions: map<Id, Interaction>, kind: Kind, name: Id, binding: Option<CallBinding>) {
    exists i :: i in interactions && Matches(interactions[i], kind, name, binding)
  }

  lemma CallStands(t: Thread, o: Owner, op: Journal.Call, attempt: int, outcome: Journal.Outcome)
    requires CallAt(t, o, op, attempt, outcome)
    ensures op.callID in t.operations && t.operations[op.callID].binding == op.binding
  {
  }

  /** A run that starts on a thread whose stored history leaves open exactly the calls of the owed waits can
      load it, whatever runs came before. */
  lemma StartsLoadable(c: Conversation, owed: set<Id>)
    requires c.store.Valid() && Issued(c.store.View(), c.o) && JournalHistory.Settles(c.store.View(), owed)
    requires c.store.runs[c.o.Run()].state.Running?
    requires c.base == JournalHistory.Base(c.store.View(), c.o.Run())
    ensures c.Loadable(c.store.history, 0)
    ensures c.base == JournalHistory.Providers(
                        c.store.View(), owed - JournalHistory.ContinuedBy(c.store.View(), c.o.Run()))
  {
    hide Inv, History.Open;
    var t, r := c.store.View(), c.o.Run();
    JournalHistory.Loads(t, owed, r);
    if c.o.command.interactionID == "" {
      ContinuesNone(t, c.o);
    }
  }

  lemma ContinuesNone(t: Thread, o: Owner)
    requires Inv(t) && Issued(t, o) && o.command.interactionID == ""
    ensures JournalHistory.ContinuedBy(t, o.Run()) == {}
  {
    hide JournalInvariant.Calls, PinOk, InputsOk, EpochsOk, ActivityOk, MarkersOk;
    var k :| 0 <= k < |t.commands| && t.commands[k].cmd == o.command;
    assert t.commands[k].cmd.runID == o.Run() && o.Run() != "";
    forall i | i in t.interactions ensures t.interactions[i].continuation != o.Run() {
      assert i != "";
    }
  }

  lemma NextIds(cs: seq<Content>, k: nat)
    requires DistinctCalls(cs) && k < |cs|
    ensures cs[k].id in IdsFrom(cs, k) && IdsFrom(cs, k) - {cs[k].id} == IdsFrom(cs, k + 1)
  {
  }

  lemma NoIds(cs: seq<Content>)
    requires AllCalls(cs)
    ensures IdsFrom(cs, |cs|) == {}
  {
  }

  lemma PlanActivates(cs: seq<Content>, resources: bool, owner: Id -> Option<Id>, plan: seq<Planned>, k: nat)
    requires AllCalls(cs) && PlanFits(cs, resources, owner, plan) && k < |plan|
    ensures HasActivation(cs) ==> plan[k].kind.Activating? || plan[k].kind.NotExecuted?
    ensures !HasActivation(cs) ==> !plan[k].kind.Activating? && !plan[k].kind.NotExecuted?
  {
  }

  lemma FairReply(w: World, o: Owner, base: set<Id>, n: nat)
    requires Fair(w, o, base)
    ensures w.reply(n).Calls? ==>
      DistinctCalls(w.reply(n).calls) && w.reply(n).calls != [] && base !! IdsFrom(w.reply(n).calls, 0)
  {
  }

  lemma ProperStep(ids: seq<Id>, op: Journeys.Op)
    requires Journeys.Proper(ids)
    ensures Journeys.Proper(Journeys.Apply(ids, op))
  {
    Journeys.LoadedByRecency(ids);
    Journeys.StepKeepsOrder(ids, ids, op);
  }
}
