/** The conversation's stored history: who writes it, and when it is closed. */
module JournalHistory {
  import opened Basics
  import opened EventLog
  import opened Journal
  import opened JournalInvariant
  import opened JournalSteps
  import opened JournalTheorems
  import History

  // ---------------------------------------------------------------- what runs hand to the store

  /** The waits that a run continues: one at most. */
  function ContinuedBy(t: Thread, run: Id): set<Id> {
    set i | i in t.interactions && t.interactions[i].continuation == run
  }

  /** The provider calls that these waits left open. */
  function Providers(t: Thread, waits: set<Id>): set<Id> {
    set i | i in waits && i in t.interactions :: t.interactions[i].saved.provider
  }

  /** The calls that the stored history leaves open and that a run does not answer: all but its own wait's. */
  function Base(t: Thread, run: Id): set<Id> {
    if History.Open(t.history).None? then {}
    else History.Open(t.history).value - Providers(t, ContinuedBy(t, run))
  }

  /** A checkpoint that leaves open the call it waits for, besides those that were open before. */
  predicate Adds(saved: Saved, base: set<Id>) {
    saved.provider !in base && History.Open(saved.history) == Some(base + {saved.provider})
  }

  /** What a run that started with the calls `base` open hands to the store: a wait adds its own call, an
      answer leaves open what it found, and an error closes everything. */
  predicate Fits(s: Step, base: set<Id>) {
    match s
    case StepWait(_, p) => Adds(p.saved, base)
    case StepFinish(_, state, history, _, _, _) =>
      history.Some? ==> History.Open(history.value) == Some(if state.Completed? then base else {})
    case _ => true
  }

  /** What is parked or delivered fits the history that is stored. */
  ghost predicate Tidy(t: Thread, k: Tick) {
    Parks(t, k) || Delivers(t, k) ==> Fits(k.step, Base(t, k.step.o.Run()))
  }

  // ---------------------------------------------------------------- who writes it

  /** The step parks a wait. */
  ghost predicate Parks(t: Thread, k: Tick) {
    k.step.StepWait? && Wait(t, k.now, k.step.o, k.step.p).err == Ok
  }

  /** The step ends a pinned run that delivers a history. */
  ghost predicate Delivers(t: Thread, k: Tick) {
    && k.step.StepFinish? && k.step.history.Some?
    && Apply(t, k.now, k.current, k.step).err == Ok
    && k.step.o.Run() in t.runs && t.runs[k.step.o.Run()].digest.Some?
  }

  predicate LapsedIn(t: Thread, u: Thread, i: Id) {
    && i in t.interactions && t.interactions[i].state.Open?
    && i in u.interactions && u.interactions[i].state.Lapsed?
  }

  ghost predicate Expires(t: Thread, u: Thread) {
    exists i :: LapsedIn(t, u, i)
  }

  /** What overdue work does to the history: nothing, or it closes the lapsed checkpoint. */
  ghost predicate Swept(t: Thread, u: Thread) {
    && u.interactions.Keys == t.interactions.Keys
    && if Expires(t, u)
       then exists i :: LapsedIn(t, u, i) && u.history == ClosedBy(t.interactions[i].saved)
       else u.history == t.history
  }

  lemma ExpireSweeps(t: Thread, now: int)
    ensures Swept(t, ExpireInteractions(t, now))
  {
    hide AppendAll;
    var i := Overdue(t.interactions, now);
    if i != "" {
      assert LapsedIn(t, ExpireInteractions(t, now), i);
    }
  }

  lemma InterruptSame(t: Thread, now: int, candidate: Id)
    ensures var u := InterruptExpired(t, now, candidate); u.history == t.history && u.interactions == t.interactions
  {
    hide AppendAll, DisposeRows, DisposeEvents, LiveRun, InFlight, MarkAttempts, Lost;
  }

  lemma ReapSweeps(t: Thread, now: int, candidate: Id)
    ensures Swept(t, Reap(t, now, candidate))
  {
    hide InterruptExpired, ExpireInteractions;
    var u := InterruptExpired(t, now, candidate);
    InterruptSame(t, now, candidate);
    ExpireSweeps(u, now);
    SweptFrom(t, u, Reap(t, now, candidate));
  }

  lemma SweptFrom(t: Thread, u: Thread, v: Thread)
    requires u.history == t.history && u.interactions == t.interactions && Swept(u, v)
    ensures Swept(t, v)
  {
    if Expires(u, v) {
      var i :| LapsedIn(u, v, i) && v.history == ClosedBy(u.interactions[i].saved);
      assert LapsedIn(t, v, i);
    } else if Expires(t, v) {
      var i :| LapsedIn(t, v, i);
      assert LapsedIn(u, v, i);
    }
  }

  lemma SameIsSwept(t: Thread, u: Thread)
    requires u.history == t.history && u.interactions.Keys == t.interactions.Keys
    requires forall i :: i in t.interactions && t.interactions[i].state.Open? ==> !u.interactions[i].state.Lapsed?
    ensures Swept(t, u) && !Expires(t, u)
  {
  }

  lemma AdmitSweeps(t: Thread, now: int, c: Command)
    requires Inv(t)
    ensures Swept(t, Admit(t, now, c).thread)
  {
    hide Inv, AppendAll, InterruptExpired, ExpireInteractions, Swept;
    SameIsSwept(t, t);
    if c.interactionID != "" {
      ExpireSweeps(t, now);
      if Admit(t, now, c).err == Ok {
        SameIsSwept(t, Admit(t, now, c).thread);
      }
    } else {
      var u := Reap(t, now, "");
      ReapSweeps(t, now, "");
      var v := AdmitFresh(t, u, now, c);
      AdmitFreshCases(t, u, now, c);
      if v.err == Ok {
        SweptOn(t, u, v.thread);
      }
    }
  }

  lemma SweptOn(t: Thread, u: Thread, v: Thread)
    requires Swept(t, u) && v.history == u.history && v.interactions == u.interactions
    ensures Swept(t, v)
  {
    if Expires(t, u) {
      var i :| LapsedIn(t, u, i) && u.history == ClosedBy(t.interactions[i].saved);
      assert LapsedIn(t, v, i);
    } else if Expires(t, v) {
      var i :| LapsedIn(t, v, i);
      assert LapsedIn(t, u, i);
    }
  }

  lemma {:induction false} IncludeSame(t: Thread, run: Id, communications: seq<Id>)
    ensures var r := IncludeAll(t, run, communications);
      r.Some? ==> r.value.history == t.history && r.value.interactions == t.interactions
    decreases |communications|
  {
    hide AppendAll;
    if communications != [] {
      var next := IncludeOne(t, run, communications[0]);
      if next.Some? {
        IncludeSame(next.value, run, communications[1..]);
      }
    }
  }

  /** Transactions that neither park, deliver nor sweep leave the history, and let no wait lapse. */
  lemma OthersSweep(t: Thread, k: Tick)
    requires !k.step.StepAdmit? && !k.step.StepReap? && !Parks(t, k) && !k.step.StepFinish?
    ensures Swept(t, Next(t, k)) && !Expires(t, Next(t, k))
  {
    hide AppendAll, BindCall, WellAsked, HasPending, AnyUnresolved, IncludeAll, Accepted, Recoverable, Swept;
    hide BeginAttempt, LockOwner, Expires, Start, ResolveDefinition, RecordScope, SetActive, Note;
    match k.step {
      case StepStart(_, _, _) => SetupWrites(t, k);
      case StepResolve(_, _) => SetupWrites(t, k);
      case StepScope(_, _) => SetupWrites(t, k);
      case StepActive(_, _) => SetupWrites(t, k);
      case StepNote(_) => SetupWrites(t, k);
      case StepIncluded(o, communications) => IncludeSame(t, o.Run(), communications);
      case StepBegin(o, op, attempt, approval) => BeginWrites(t, k.now, o, op, attempt, approval);
      case _ =>
    }
    SameIsSwept(t, Next(t, k));
  }

  lemma FinishWrites(t: Thread, k: Tick)
    requires k.step.StepFinish?
    ensures var u := Next(t, k);
      u.interactions == t.interactions && u.history == if Delivers(t, k) then k.step.history.value else t.history
  {
    hide AppendAll, DisposeRows, DisposeEvents, InFlight, MarkAttempts, HasPending;
  }

  lemma WaitWrites(t: Thread, k: Tick)
    requires Parks(t, k)
    ensures var u := Next(t, k); var p := k.step.p;
      && p.id !in t.interactions && p.id in u.interactions
      && u.interactions == t.interactions[p.id := u.interactions[p.id]]
      && u.interactions[p.id].state.Open? && u.interactions[p.id].saved == p.saved && u.history == p.saved.history
  {
    hide AppendAll, BindCall, WellAsked, HasPending;
  }

  /** The stored history changes in three ways only: a wait writes its checkpoint, an expiry closes one,
      and a pinned run that ends with a history delivers it.  Interruption is not among them. */
  lemma HistoryStep(t: Thread, k: Tick)
    requires Inv(t)
    ensures var u := Next(t, k);
      if Parks(t, k) then u.history == k.step.p.saved.history && !Expires(t, u)
      else if Delivers(t, k) then u.history == k.step.history.value && !Expires(t, u)
      else Swept(t, u)
    ensures forall i :: i in Next(t, k).interactions && i !in t.interactions ==> Parks(t, k) && i == k.step.p.id
  {
    hide Inv, Apply, Swept, Admit, Reap;
    var u := Next(t, k);
    if Parks(t, k) {
      WaitWrites(t, k);
    } else if k.step.StepFinish? {
      FinishWrites(t, k);
      if !Delivers(t, k) {
        SameIsSwept(t, u);
      }
    } else {
      if k.step.StepAdmit? {
        AdmitSweeps(t, k.now, k.step.c);
        AdmitIs(t, k);
      } else if k.step.StepReap? {
        ReapSweeps(t, k.now, k.step.candidate);
        ReapDoes(t, k);
      } else {
        OthersSweep(t, k);
      }
      SweptKeys(t, u);
    }
  }

  lemma ReapDoes(t: Thread, k: Tick)
    requires k.step.StepReap?
    ensures Next(t, k) == Reap(t, k.now, k.step.candidate)
  {
    hide Reap;
  }

  lemma SweptKeys(t: Thread, u: Thread)
    requires Swept(t, u)
    ensures u.interactions.Keys == t.interactions.Keys
  {
  }

  // ---------------------------------------------------------------- which calls it leaves open

  /** The waits that lapse between t and u. */
  function Lapses(t: Thread, u: Thread): set<Id> {
    set i | i in t.interactions && LapsedIn(t, u, i)
  }

  /** The waits whose calls the stored history leaves open.  A wait adds itself.  It goes when it expires, when
      its own continuation waits again or answers, and when any run ends with an error and delivers a history.
      An answer of another run, an interruption and an ending without a history leave it. */
  ghost function OwedNext(t: Thread, owed: set<Id>, k: Tick): set<Id> {
    if Parks(t, k) then owed - ContinuedBy(t, k.step.o.Run()) + {k.step.p.id}
    else if Delivers(t, k) then (if k.step.state.Completed? then owed - ContinuedBy(t, k.step.o.Run()) else {})
    else owed - Lapses(t, Next(t, k))
  }

  ghost function OwedAfter(t: Thread, owed: set<Id>, ticks: seq<Tick>): set<Id>
    decreases |ticks|
  {
    if ticks == [] then owed else OwedAfter(Next(t, ticks[0]), OwedNext(t, owed, ticks[0]), ticks[1..])
  }

  ghost predicate AllTidy(t: Thread, ticks: seq<Tick>)
    decreases |ticks|
  {
    ticks == [] || (Tidy(t, ticks[0]) && AllTidy(Next(t, ticks[0]), ticks[1..]))
  }

  /** Wait i is open, or its continuation is live. */
  ghost predicate Pends(t: Thread, i: Id) {
    && i in t.interactions
    && (t.interactions[i].state.Open?
        || (t.interactions[i].state.Answered? && t.interactions[i].continuation in t.runs
            && t.runs[t.interactions[i].continuation].state.Live()))
  }

  /** The waits are there, none has lapsed, and no two are for one call. */
  ghost predicate Debts(t: Thread, owed: set<Id>) {
    && (forall i :: i in owed ==> i in t.interactions && !t.interactions[i].state.Lapsed?)
    && (forall i, j :: i in owed && j in owed && t.interactions[i].saved.provider == t.interactions[j].saved.provider
          ==> i == j)
  }

  /** The stored history leaves open exactly the calls of the owed waits; and a wait that pends is owed, and its
      checkpoint is what is stored. */
  ghost predicate Settles(t: Thread, owed: set<Id>) {
    && Debts(t, owed) && History.Open(t.history) == Some(Providers(t, owed))
    && forall i :: Pends(t, i) ==> i in owed && t.history == t.interactions[i].saved.history
  }

  /** What a live run finds: its own wait's checkpoint, or the calls of other waits only. */
  lemma Loads(t: Thread, owed: set<Id>, r: Id)
    requires Inv(t) && Settles(t, owed) && r in t.runs && t.runs[r].state.Live()
    ensures Base(t, r) == Providers(t, owed - ContinuedBy(t, r))
    ensures forall i :: i in ContinuedBy(t, r) ==>
      i in owed && t.interactions[i].saved.history == t.history && Adds(t.interactions[i].saved, Base(t, r))
    ensures ContinuedBy(t, r) == {} ==> History.Open(t.history) == Some(Base(t, r))
  {
    hide Calls, PinOk, History.Open, ActivityOk, MarkersOk, WaitsOk;
    forall i | i in ContinuedBy(t, r)
      ensures Pends(t, i) && forall j :: j in ContinuedBy(t, r) ==> j == i
    {
      assert r != "";
    }
    var mine := ContinuedBy(t, r);
    if mine == {} {
      assert Providers(t, mine) == {} && owed - mine == owed;
    } else {
      var i :| i in mine;
      assert mine == {i} && i in owed;
      assert Providers(t, mine) == {t.interactions[i].saved.provider};
      assert Providers(t, owed - {i}) == Providers(t, owed) - {t.interactions[i].saved.provider};
      assert Providers(t, owed) == Base(t, r) + {t.interactions[i].saved.provider};
    }
  }

  /** A wait that pends after a transaction and was there before it pended before. */
  lemma PendedBefore(t: Thread, k: Tick, i: Id)
    requires Inv(t) && i in t.interactions && Pends(Next(t, k), i)
    ensures Pends(t, i)
  {
    hide Ledger, Calls, PinOk, ActivityOk, MarkersOk, WaitsOk, Apply, RowsMove, OperationsMove;
    StepKeeps(t, k.now, k.current, k.step);
    var u := Next(t, k);
    assert InteractionMoves(t.interactions[i], u.interactions[i]);
    if t.interactions[i].state.Answered? {
      var r := t.interactions[i].continuation;
      assert RunMoves(t.runs[r], u.runs[r]);
    }
  }

  /** When the live run parks or delivers, nothing that was there pends any longer. */
  lemma NoneLeft(t: Thread, k: Tick, i: Id)
    requires Inv(t) && i in t.interactions && (Parks(t, k) || Delivers(t, k))
    ensures !Pends(Next(t, k), i)
  {
    hide Inv, Apply, RowsMove, OperationsMove, RunsMove, InteractionMoves;
    var r, u := k.step.o.Run(), Next(t, k);
    Active(t, k);
    OnlyTheLive(t, k, r);
    if Pends(u, i) {
      PendedBefore(t, k, i);
      NothingOpen(t, r);
      SavedStays(t, k, i);
    }
  }

  /** Whoever parks or delivers is a run in the middle of its work. */
  lemma Active(t: Thread, k: Tick)
    requires Parks(t, k) || Delivers(t, k)
    ensures k.step.o.Run() in t.runs && t.runs[k.step.o.Run()].state.Running?
  {
    hide AppendAll, BindCall, WellAsked, HasPending, DisposeRows, DisposeEvents, InFlight, MarkAttempts, Park;
  }

  lemma SavedStays(t: Thread, k: Tick, i: Id)
    requires Inv(t) && i in t.interactions
    ensures i in Next(t, k).interactions && Next(t, k).interactions[i].saved == t.interactions[i].saved
    ensures !t.interactions[i].state.Open? ==>
      && Next(t, k).interactions[i].state == t.interactions[i].state
      && Next(t, k).interactions[i].continuation == t.interactions[i].continuation
  {
    hide Inv, Apply, RowsMove, RunsMove, OperationsMove;
    StepKeeps(t, k.now, k.current, k.step);
    assert InteractionMoves(t.interactions[i], Next(t, k).interactions[i]);
  }

  lemma ProvidersStay(t: Thread, k: Tick, waits: set<Id>)
    requires Inv(t) && forall i :: i in waits ==> i in t.interactions
    ensures Providers(Next(t, k), waits) == Providers(t, waits)
  {
    hide Inv, Apply;
    forall i | i in waits ensures i in Next(t, k).interactions
        && Next(t, k).interactions[i].saved == t.interactions[i].saved {
      SavedStays(t, k, i);
    }
  }

  lemma ParksSettles(t: Thread, owed: set<Id>, k: Tick)
    requires Inv(t) && Settles(t, owed) && Tidy(t, k) && Parks(t, k)
    ensures Settles(Next(t, k), OwedNext(t, owed, k))
  {
    hide Inv, Apply, History.Open, Wait, Pends;
    var r, u, p := k.step.o.Run(), Next(t, k), k.step.p;
    var rest := owed - ContinuedBy(t, r);
    Active(t, k);
    Loads(t, owed, r);
    WaitWrites(t, k);
    forall i | Pends(u, i) ensures i == p.id {
      PendsThere(u, i);
      if i in t.interactions {
        NoneLeft(t, k, i);
      }
    }
    assert Providers(u, rest + {p.id}) == Providers(t, rest) + {p.saved.provider};
  }

  lemma DeliversSettles(t: Thread, owed: set<Id>, k: Tick)
    requires Inv(t) && Settles(t, owed) && Tidy(t, k) && Delivers(t, k) && !Parks(t, k)
    ensures Settles(Next(t, k), OwedNext(t, owed, k))
  {
    hide Inv, Apply, History.Open, Wait, Pends;
    var r, u := k.step.o.Run(), Next(t, k);
    Active(t, k);
    Loads(t, owed, r);
    FinishWrites(t, k);
    forall i | Pends(u, i) ensures false {
      PendsThere(u, i);
      NoneLeft(t, k, i);
    }
    assert Providers(u, owed - ContinuedBy(t, r)) == Providers(t, owed - ContinuedBy(t, r));
    assert Providers(u, {}) == {};
  }

  /** While a wait is open nothing else pends. */
  lemma OpenAlone(t: Thread, i: Id, j: Id)
    requires Inv(t) && i in t.interactions && t.interactions[i].state.Open? && Pends(t, j)
    ensures j == i
  {
    hide Ledger, Calls, PinOk, MarkersOk, WaitsOk, ContinuationsOk;
  }

  lemma LapseSettles(t: Thread, owed: set<Id>, k: Tick, i: Id)
    requires Inv(t) && Settles(t, owed) && !Parks(t, k) && !Delivers(t, k)
    requires LapsedIn(t, Next(t, k), i) && Next(t, k).history == ClosedBy(t.interactions[i].saved)
    requires Next(t, k).interactions.Keys == t.interactions.Keys
    ensures Settles(Next(t, k), OwedNext(t, owed, k))
  {
    hide Inv, Apply, History.Open, Parks, Delivers;
    var u := Next(t, k);
    assert Pends(t, i);
    forall j | Pends(u, j) ensures false {
      PendedBefore(t, k, j);
      OpenAlone(t, i, j);
    }
    forall j | j in Lapses(t, u) ensures j == i {
      OpenAlone(t, i, j);
    }
    assert Lapses(t, u) == {i};
    forall j | j in owed - {i} ensures !u.interactions[j].state.Lapsed? {
      if t.interactions[j].state.Open? {
        OpenAlone(t, i, j);
      }
      SavedStays(t, k, j);
    }
    ProvidersStay(t, k, owed - {i});
    assert Providers(t, owed) - {t.interactions[i].saved.provider} == Providers(t, owed - {i});
    History.ExpiryCloses(t.history, t.interactions[i].saved.provider);
    forall j | j in owed ensures u.interactions[j].saved == t.interactions[j].saved {
      SavedStays(t, k, j);
    }
  }

  lemma PendsThere(t: Thread, i: Id)
    requires Pends(t, i)
    ensures i in t.interactions
  {
  }

  lemma StaySettles(t: Thread, owed: set<Id>, k: Tick)
    requires Inv(t) && Settles(t, owed) && !Parks(t, k) && !Delivers(t, k)
    requires !Expires(t, Next(t, k)) && Next(t, k).history == t.history
    requires Next(t, k).interactions.Keys == t.interactions.Keys
    ensures Settles(Next(t, k), OwedNext(t, owed, k))
  {
    hide Inv, Apply, History.Open, Parks, Delivers, Pends;
    var u := Next(t, k);
    forall j | Pends(u, j) ensures Pends(t, j) && u.interactions[j].saved == t.interactions[j].saved {
      PendsThere(u, j);
      PendedBefore(t, k, j);
      PendsThere(t, j);
      SavedStays(t, k, j);
    }
    assert Lapses(t, u) == {} && owed - {} == owed;
    ProvidersStay(t, k, owed);
    forall j | j in owed
      ensures u.interactions[j].saved == t.interactions[j].saved && !u.interactions[j].state.Lapsed?
    {
      SavedStays(t, k, j);
      assert !LapsedIn(t, u, j);
    }
  }

  lemma SettlesStep(t: Thread, owed: set<Id>, k: Tick)
    requires Inv(t) && Settles(t, owed) && Tidy(t, k)
    ensures Settles(Next(t, k), OwedNext(t, owed, k))
  {
    hide Inv, Apply, Settles, OwedNext, Tidy, Parks, Delivers;
    var u := Next(t, k);
    HistoryStep(t, k);
    if Parks(t, k) {
      ParksSettles(t, owed, k);
    } else if Delivers(t, k) {
      DeliversSettles(t, owed, k);
    } else if Expires(t, u) {
      var i :| LapsedIn(t, u, i) && u.history == ClosedBy(t.interactions[i].saved);
      LapseSettles(t, owed, k, i);
    } else {
      StaySettles(t, owed, k);
    }
  }

  lemma {:induction false} SettlesAfter(t: Thread, owed: set<Id>, ticks: seq<Tick>)
    requires Inv(t) && Settles(t, owed) && AllTidy(t, ticks)
    ensures Settles(After(t, ticks), OwedAfter(t, owed, ticks))
    decreases |ticks|
  {
    hide Inv, Apply, Evolves, Settles, Tidy, OwedNext;
    if ticks != [] {
      SettlesStep(t, owed, ticks[0]);
      StepKeeps(t, ticks[0].now, ticks[0].current, ticks[0].step);
      SettlesAfter(Next(t, ticks[0]), OwedNext(t, owed, ticks[0]), ticks[1..]);
    }
  }

  /** In every reachable conversation the stored history leaves open exactly the calls of the owed waits, so
      it is closed exactly if no wait is owed. */
  lemma {:induction false} ClosedUnlessOwed(id: Id, principal: Id, ticks: seq<Tick>)
    requires AllTidy(NewThread(id, principal), ticks)
    ensures
      var t := After(NewThread(id, principal), ticks);
      var owed := OwedAfter(NewThread(id, principal), {}, ticks);
      && Debts(t, owed) && History.Open(t.history) == Some(Providers(t, owed))
      && (History.Closed(t.history) <==> owed == {})
  {
    hide After, OwedAfter, AllTidy, Inv;
    InitialInv(id, principal);
    assert Providers(NewThread(id, principal), {}) == {};
    SettlesAfter(NewThread(id, principal), {}, ticks);
    var t := After(NewThread(id, principal), ticks);
    var owed := OwedAfter(NewThread(id, principal), {}, ticks);
    if owed == {} {
      assert Providers(t, owed) == {};
    } else {
      var i :| i in owed;
      assert t.interactions[i].saved.provider in Providers(t, owed);
    }
  }

  /** Between runs every owed wait was answered, and its continuation has ended. */
  lemma OwedAtRest(t: Thread, owed: set<Id>, i: Id)
    requires Inv(t) && Settles(t, owed) && i in owed && !HasOpenInteraction(t)
    requires forall r :: r in t.runs ==> !t.runs[r].state.Live()
    ensures t.interactions[i].state.Answered? && t.interactions[i].continuation in t.runs
    ensures var state := t.runs[t.interactions[i].continuation].state; state.Interrupted? || Terminal(state)
  {
    hide Ledger, Calls, PinOk, ActivityOk, MarkersOk;
  }

  /** How a continuation leaves its own call: open as long as it lives; and once it stops, open exactly if it
      neither waits again nor ends with a history.  So an interruption leaves it open. */
  lemma ContinuationEnds(t: Thread, owed: set<Id>, i: Id, k: Tick)
    requires Inv(t) && Settles(t, owed) && Tidy(t, k) && Pends(t, i) && t.interactions[i].state.Answered?
    ensures var u := Next(t, k); var r := t.interactions[i].continuation;
      && r in u.runs
      && (u.runs[r].state.Live() ==> i in OwedNext(t, owed, k) && u.history == t.interactions[i].saved.history)
      && (!u.runs[r].state.Live() ==> (i in OwedNext(t, owed, k) <==> !Parks(t, k) && !Delivers(t, k)))
      && (u.runs[r].state.Interrupted? ==> i in OwedNext(t, owed, k))
  {
    hide Inv, Apply, RowsMove, OperationsMove, InteractionsMove, History.Open, Settles, Wait;
    var u, r := Next(t, k), t.interactions[i].continuation;
    Owes(t, owed, i);
    StepKeeps(t, k.now, k.current, k.step);
    assert RunMoves(t.runs[r], u.runs[r]);
    NothingOpen(t, r);
    if Parks(t, k) || Delivers(t, k) {
      Active(t, k);
      OnlyTheLive(t, k, r);
      NewWait(t, k);
    } else {
      HistoryStep(t, k);
      assert !Expires(t, u) && i !in Lapses(t, u);
    }
  }

  lemma Owes(t: Thread, owed: set<Id>, i: Id)
    requires Settles(t, owed) && Pends(t, i)
    ensures i in owed && t.history == t.interactions[i].saved.history
  {
  }

  lemma NewWait(t: Thread, k: Tick)
    ensures Parks(t, k) ==> k.step.p.id !in t.interactions
  {
    hide History.Open;
    if Parks(t, k) {
      WaitWrites(t, k);
    }
  }

  lemma NothingOpen(t: Thread, r: Id)
    requires Inv(t) && r in t.runs && t.runs[r].state.Live()
    ensures forall i :: i in t.interactions ==> !t.interactions[i].state.Open?
    ensures forall s :: s in t.runs && t.runs[s].state.Live() ==> s == r
  {
    hide Ledger, Calls, PinOk, WaitsOk, ContinuationsOk, MarkersOk;
  }

  /** Whoever parks or delivers is the live run, and it stops. */
  lemma OnlyTheLive(t: Thread, k: Tick, r: Id)
    requires Inv(t) && r in t.runs && t.runs[r].state.Live() && (Parks(t, k) || Delivers(t, k))
    ensures r in Next(t, k).runs && !Next(t, k).runs[r].state.Live() && !Next(t, k).runs[r].state.Interrupted?
  {
    hide Inv, AppendAll, BindCall, WellAsked, HasPending, DisposeRows, DisposeEvents, InFlight, MarkAttempts;
    NothingOpen(t, r);
  }

  // ---------------------------------------------------------------- as long as a run is running

  /** If the run is still running, it was, and what it found is still stored. */
  ghost predicate Remains(t: Thread, u: Thread, run: Id) {
    && run in t.runs && run in u.runs
    && (u.runs[run].state.Running? ==>
          t.runs[run].state.Running? && u.history == t.history && Base(u, run) == Base(t, run))
  }

  /** As long as the run is running, `base` is what it found open and does not answer. */
  ghost predicate Stands(t: Thread, run: Id, base: set<Id>) {
    run in t.runs && t.runs[run].state.Running? ==> Base(t, run) == base
  }

  lemma StillStands(t: Thread, u: Thread, run: Id, base: set<Id>)
    requires Stands(t, run, base) && Remains(t, u, run)
    ensures Stands(u, run, base)
  {
    hide Base;
  }

  /** What fits the run fits the thread. */
  lemma FitsTidily(t: Thread, k: Tick, base: set<Id>)
    requires (Parks(t, k) || Delivers(t, k)) ==> Stands(t, k.step.o.Run(), base)
    requires Fits(k.step, base)
    ensures Tidy(t, k)
  {
    hide Base, Fits, Wait, Apply;
    if Parks(t, k) || Delivers(t, k) {
      Active(t, k);
    }
  }

  lemma RemainsThen(t: Thread, u: Thread, v: Thread, run: Id)
    requires Remains(t, u, run) && Remains(u, v, run)
    ensures Remains(t, v, run)
  {
    hide Base;
  }

  /** Whoever works on the thread: what a claimed run found stays stored until that run stops. */
  lemma TickRemains(t: Thread, k: Tick, run: Id)
    requires Inv(t) && run in t.runs && t.runs[run].epoch > 0
    ensures Remains(t, Next(t, k), run)
  {
    hide Inv, Apply, RowsMove, OperationsMove, InteractionsMove, History.Open, Wait;
    var u := Next(t, k);
    StepKeeps(t, k.now, k.current, k.step);
    assert RunMoves(t.runs[run], u.runs[run]);
    if u.runs[run].state.Running? {
      NothingOpen(t, run);
      if Parks(t, k) || Delivers(t, k) {
        Active(t, k);
        OnlyTheLive(t, k, run);
        assert false;
      }
      HistoryStep(t, k);
      assert !Expires(t, u);
      SweptKeys(t, u);
      forall i | i in t.interactions
        ensures u.interactions[i].saved == t.interactions[i].saved
        ensures u.interactions[i].continuation == t.interactions[i].continuation
      {
        SavedStays(t, k, i);
      }
      assert ContinuedBy(u, run) == ContinuedBy(t, run);
    }
  }

  lemma {:induction false} AfterRemains(t: Thread, ticks: seq<Tick>, run: Id)
    requires Inv(t) && run in t.runs && t.runs[run].epoch > 0
    ensures Remains(t, After(t, ticks), run)
    decreases |ticks|
  {
    hide Inv, Apply, RowsMove, OperationsMove, InteractionsMove, Base;
    if ticks != [] {
      var u := Next(t, ticks[0]);
      TickRemains(t, ticks[0], run);
      StepKeeps(t, ticks[0].now, ticks[0].current, ticks[0].step);
      assert RunMoves(t.runs[run], u.runs[run]);
      AfterRemains(u, ticks[1..], run);
    }
  }
}
