/** The guarded tool call: at most two dispatches of one call, each recorded in the journal before it
    is sent and after it returns, while other replicas work on the same thread. */
module GuardedCall {
  import opened Basics
  import opened EventLog
  import opened Journal
  import opened JournalInvariant
  import opened JournalSteps
  import opened JournalEffects
  import opened JournalTheorems
  import JournalHistory
  import JournalStore

  // ---------------------------------------------------------------- the rest of the world

  predicate SameCredentials(o: Owner, p: Owner) {
    o.Run() == p.Run() && o.id == p.id && o.epoch == p.epoch
  }

  /** A transaction that can happen while owner o is inside one tool call: anything by anyone else,
      and o's own heartbeat. */
  predicate Foreign(s: Step, o: Owner) {
    s.StepRenew? || OwnerOf(s).None? || !SameCredentials(o, OwnerOf(s).value)
  }

  predicate ForeignTicks(ticks: seq<Tick>, o: Owner, from: int, to: int) {
    && from <= to
    && (forall i :: 0 <= i < |ticks| ==> Foreign(ticks[i].step, o) && from <= ticks[i].now <= to)
    && (forall i, j :: 0 <= i < j < |ticks| ==> ticks[i].now <= ticks[j].now)
  }

  /** Commands were only added, and none of those is included. */
  predicate Appended(before: seq<CommandRow>, after: seq<CommandRow>) {
    && |before| <= |after|
    && (forall k :: 0 <= k < |before| ==> after[k] == before[k])
    && (forall k :: |before| <= k < |after| ==> !after[k].included)
  }

  /** What o's tool call depends on is as it was. */
  ghost predicate Undisturbed(t: Thread, u: Thread, run: Id) {
    && u.id == t.id && u.principal == t.principal && u.active == t.active
    && u.operations == t.operations && u.attempts == t.attempts && u.interactions == t.interactions
    && Appended(t.commands, u.commands)
    && run in t.runs && run in u.runs
    && u.runs[run].scope == t.runs[run].scope && u.runs[run].digest == t.runs[run].digest
    && u.runs[run].journey == t.runs[run].journey
  }

  /** While o holds, nothing else is live and nothing waits. */
  lemma HoldsAlone(t: Thread, now: int, o: Owner)
    requires Inv(t) && Holds(t, now, o)
    ensures forall r :: r in t.runs && t.runs[r].state.Live() ==> r == o.Run()
    ensures !HasOpenInteraction(t) && o.Run() != "" && Overdue(t.interactions, now) == ""
    ensures LiveRun(t.runs) == o.Run()
  {
    hide Calls, PinOk, InputsOk, EpochsOk, ContinuationsOk, MarkersOk, WaitsOk;
    LiveRunUnique(t, o.Run());
  }

  lemma NothingOverdue(t: Thread, now: int, o: Owner, candidate: Id)
    requires Inv(t) && Holds(t, now, o)
    ensures ExpireInteractions(InterruptExpired(t, now, candidate), now) == t
  {
    hide Inv, Interrupt, Lapse, LiveRun, Overdue;
    HoldsAlone(t, now, o);
  }

  /** A transaction of an owner that fails the fence commits nothing. */
  lemma FencedOut(t: Thread, k: Tick, p: Owner)
    requires OwnerOf(k.step) == Some(p) && !Holds(t, k.now, p)
    ensures Next(t, k) == t
  {
    hide Dispose, MarkUnknown, Emit, IncludeAll, FirstAttempt, SecondAttempt, SupersedeMark, Expected, HasPending;
    hide AnyUnresolved, OtherUnresolved, Idle;
    assert LockOwner(t, k.now, p) != Ok;
  }

  lemma AdmitUndisturbed(t: Thread, o: Owner, now: int, c: Command)
    requires Inv(t) && Holds(t, now, o)
    ensures Undisturbed(t, Admit(t, now, c).thread, o.Run())
  {
    hide Inv, AppendAll, ExpireInteractions, InterruptExpired, LiveRun, Answer, RowOf, Recoverable;
    HoldsAlone(t, now, o);
    NothingOverdue(t, now, o, "");
  }

  /** No transaction by anyone else touches what o's call depends on while o holds the thread. */
  lemma ForeignKeeps(t: Thread, o: Owner, k: Tick)
    requires Inv(t) && Holds(t, k.now, o) && Foreign(k.step, o)
    ensures Undisturbed(t, Next(t, k), o.Run())
  {
    hide Inv, Emit, Admit, ExpireInteractions, InterruptExpired, LiveRun, Apply, Claim;
    if k.step.StepAdmit? {
      AdmitUndisturbed(t, o, k.now, k.step.c);
      AdmitIs(t, k);
    } else if k.step.StepReap? {
      NothingOverdue(t, k.now, o, k.step.candidate);
      ReapIs(t, k);
    } else if k.step.StepClaim? {
      HoldsAlone(t, k.now, o);
      ClaimEffect(t, k.now, k.step.c, k.step.id, k.step.duration);
      ClaimIs(t, k);
    } else if k.step.StepRenew? {
      RenewIs(t, k);
    } else {
      var p := OwnerOf(k.step).value;
      if Holds(t, k.now, p) {
        HoldsAlone(t, k.now, o);
      }
      FencedOut(t, k, p);
    }
  }

  lemma ReapIs(t: Thread, k: Tick)
    requires k.step.StepReap?
    ensures Next(t, k) == Reap(t, k.now, k.step.candidate)
  {
    hide Reap;
  }

  lemma RenewIs(t: Thread, k: Tick)
    requires k.step.StepRenew?
    ensures Next(t, k) == Renew(t, k.now, k.step.o, k.step.duration).thread
  {
    hide Renew;
  }

  lemma HeldBefore(t: Thread, o: Owner, k: Tick, later: int)
    requires Inv(t) && Issued(t, o) && k.now <= later && Holds(Next(t, k), later, o)
    ensures Holds(t, k.now, o)
  {
    hide Inv, Apply;
    if !Holds(t, k.now, o) {
      ShutOutStays(t, k.now, o, k);
      assert false;
    }
  }

  /** An owner that still holds the thread after others worked on it found nothing changed. */
  lemma {:induction false} HeldThroughout(t: Thread, o: Owner, ticks: seq<Tick>, from: int, to: int)
    requires Inv(t) && Issued(t, o) && ForeignTicks(ticks, o, from, to) && Holds(After(t, ticks), to, o)
    ensures Holds(t, from, o) && Undisturbed(t, After(t, ticks), o.Run())
    decreases |ticks|
  {
    hide Inv, Apply, Evolves;
    if ticks != [] {
      var u := Next(t, ticks[0]);
      StepKeeps(t, ticks[0].now, ticks[0].current, ticks[0].step);
      IssuedStays(t, u, o);
      HeldThroughout(u, o, ticks[1..], ticks[0].now, to);
      HeldBefore(t, o, ticks[0], ticks[0].now);
      ForeignKeeps(t, o, ticks[0]);
    }
  }

  // ---------------------------------------------------------------- the call's own row

  /** The journal's record of o's call: dispatched `attempt` times, the last with this outcome, under
      the binding the run still has, and with nothing else unresolved on the thread. */
  ghost predicate CallAt(t: Thread, o: Owner, op: Call, attempt: int, outcome: Outcome) {
    && Issued(t, o) && t.principal == o.command.principal && op.callID != ""
    && 1 <= attempt <= 2 && !op.policy.Unreviewed? && (op.policy.ReadOnly? || op.requiresApproval)
    && op.callID in t.operations && t.operations[op.callID].run == o.Run()
    && t.operations[op.callID].binding == op.binding && t.operations[op.callID].policy == op.policy
    && t.operations[op.callID].outcome == outcome
    && (op.callID, attempt) in t.attempts && t.attempts[(op.callID, attempt)] == outcome
    && (attempt == 1 ==> (op.callID, 2) !in t.attempts)
    && !OtherUnresolved(t, op.callID)
    && t.runs[o.Run()].scope.Some? && t.runs[o.Run()].digest.Some?
    && Some(op.binding)
       == Expected(t, t.runs[o.Run()], op.journey, op.key, op.nameDigest, op.schemaDigest, op.arguments)
  }

  lemma CallUndisturbed(t: Thread, u: Thread, o: Owner, op: Call, attempt: int, outcome: Outcome)
    requires CallAt(t, o, op, attempt, outcome) && Undisturbed(t, u, o.Run()) && Issued(u, o)
    ensures CallAt(u, o, op, attempt, outcome)
  {
    hide BindCall;
  }

  lemma FirstRecorded(t: Thread, now: int, o: Owner, op: Call, approval: Id)
    requires Inv(t) && Issued(t, o) && BeginAttempt(t, now, o, op, 1, approval).err == Ok
    ensures CallAt(BeginAttempt(t, now, o, op, 1, approval).thread, o, op, 1, Dispatching)
    ensures op.callID !in t.operations
  {
    hide Ledger, Waiting, PinOk, OperationsOk, ApprovalsOk, AppendAll, BindCall;
    assert (op.callID, 2) !in t.attempts;
  }

  /** The retry rule fits the journal's guard: an owner that still holds the thread is never refused
      its second attempt. */
  lemma RetryAccepted(t: Thread, now: int, o: Owner, op: Call, approval: Id, outcome: Outcome)
    requires CallAt(t, o, op, 1, outcome) && Holds(t, now, o)
    requires (outcome.Rejected? || outcome.Unknown?) && !op.policy.Effectful?
    ensures var r := BeginAttempt(t, now, o, op, 2, approval); r.err == Ok && CallAt(r.thread, o, op, 2, Dispatching)
  {
    hide AppendAll, BindCall;
  }

  lemma EndAccepted(t: Thread, now: int, o: Owner, op: Call, attempt: int, outcome: Outcome)
    requires CallAt(t, o, op, attempt, Dispatching) && Holds(t, now, o) && !outcome.Dispatching?
    ensures var r := EndAttempt(t, now, o, op.callID, op.name, attempt, outcome);
      r.err == Ok && CallAt(r.thread, o, op, attempt, outcome)
  {
    hide AppendAll, BindCall;
  }

  /** A call that came back for certain leaves nothing unresolved on the thread. */
  lemma SettledMeansResolved(t: Thread, o: Owner, op: Call, attempt: int, outcome: Outcome)
    requires CallAt(t, o, op, attempt, outcome) && !Unresolved(outcome)
    ensures !AnyUnresolved(t)
  {
    hide BindCall;
  }

  // ---------------------------------------------------------------- the loop

  /** What comes back from the remote tool. */
  datatype Remote = Succeeded | AuthRequired | BusinessRejected | NotPermitted | TransportFailed

  /** A store call can fail before or after its commit. */
  datatype Fault = Sound | NotCommitted | Unacknowledged

  /** The others' transactions before a store call, the call's clock, and its fault. */
  datatype Visit = Visit(others: seq<Tick>, now: int, fault: Fault)

  /** One iteration: the intent, the remote call, its record, and whether the pause is cut short. */
  datatype Round = Round(begin: Visit, remote: Remote, end: Visit, cancelled: bool)

  datatype Verdict =
    | Returned | ReportNotPermitted | ReportRejected           // a nil error
    | FailedAuth | FailedUnknown | Cancelled
    | Refused(attempt: int, err: Error) | Unsaved(attempt: int, err: Error)
    | StoreFailed
  {
    predicate Nil() { Returned? || ReportNotPermitted? || ReportRejected? }
    predicate Decided() { Nil() || FailedAuth? || FailedUnknown? }
  }

  function OutcomeOf(r: Remote): Outcome {
    match r
    case Succeeded => Done
    case AuthRequired => NeedsAuth
    case BusinessRejected => Rejected
    case NotPermitted => Rejected
    case TransportFailed => Unknown
  }

  /** The last word on a remote result that is not repeated. */
  function Last(r: Remote): Verdict {
    match r
    case Succeeded => Returned
    case AuthRequired => FailedAuth
    case BusinessRejected => ReportRejected
    case NotPermitted => ReportNotPermitted
    case TransportFailed => FailedUnknown
  }

  /** Only a rejection or uncertainty is worth repeating, and only for calls without effects. */
  predicate Repeats(policy: Policy, r: Remote) {
    !policy.Effectful? && (r.BusinessRejected? || r.TransportFailed?)
  }

  predicate Clocked(r: Round, o: Owner, from: int) {
    ForeignTicks(r.begin.others, o, from, r.begin.now) && ForeignTicks(r.end.others, o, r.begin.now, r.end.now)
  }

  /** The store carries out any transaction of the protocol. */
  method Perform(store: JournalStore.ThreadStore, k: Tick) returns (err: Error)
    requires store.Valid()
    modifies store
    ensures store.View() == Next(old(store.View()), k) && store.Valid()
    ensures err == Apply(old(store.View()), k.now, k.current, k.step).err
  {
    hide Inv, Admit, Claim, Renew, Reap, Included, Wait, Supersede, BeginAttempt, EndAttempt, Start, ResolveDefinition;
    hide Finish, RecordScope, SetActive, Note;
    match k.step {
      case StepAdmit(c) =>
        if c.interactionID == "" {
          err := store.AdmitInput(k.now, c);
        } else {
          err := store.Reply(k.now, c);
        }
      case StepClaim(c, id, duration) =>
        var o;
        o, err := store.Claim(k.now, c, id, duration);
      case StepRenew(o, duration) => err := store.Renew(k.now, o, duration);
      case StepReap(candidate) =>
        store.Reap(k.now, candidate);
        err := Ok;
      case StepIncluded(o, communications) => err := store.Included(k.now, o, communications);
      case StepWait(o, p) => err := store.Wait(k.now, o, p);
      case StepSupersede(o, i) => err := store.Supersede(k.now, o, i);
      case StepBegin(o, op, attempt, approval) => err := store.BeginAttempt(k.now, o, op, attempt, approval);
      case StepEnd(o, callID, name, attempt, outcome) =>
        err := store.EndAttempt(k.now, o, callID, name, attempt, outcome);
      case StepStart(o, journey, digest) =>
        var shared, loaded;
        err, shared, loaded := store.Start(k.now, o, journey, digest, k.current);
      case StepResolve(o, served) =>
        var digest;
        err, digest := store.ResolveDefinition(k.now, o, k.current, served);
      case StepFinish(o, state, history, answer, callID, tool) =>
        err := store.Finish(k.now, o, state, history, answer, callID, tool);
      case StepScope(o, scope) => err := store.RecordScope(k.now, o, scope);
      case StepActive(o, ids) => err := store.SetActive(k.now, o, ids);
      case StepNote(o) => err := store.Note(k.now, o);
    }
  }

  /** Others work on the thread. */
  method Elapse(store: JournalStore.ThreadStore, ticks: seq<Tick>)
    requires store.Valid()
    modifies store
    ensures store.View() == After(old(store.View()), ticks) && store.Valid()
  {
    hide Inv, Next;
    var k := 0;
    while k < |ticks|
      invariant 0 <= k <= |ticks| && store.Valid()
      invariant After(store.View(), ticks[k..]) == After(old(store.View()), ticks)
    {
      assert ticks[k..][1..] == ticks[k + 1..];
      var ignored := Perform(store, ticks[k]);
      k := k + 1;
    }
    assert ticks[k..] == [];
  }

  lemma BeginKeepsIssued(t: Thread, now: int, o: Owner, op: Call, attempt: int, approval: Id)
    requires Inv(t) && Issued(t, o)
    ensures Issued(BeginAttempt(t, now, o, op, attempt, approval).thread, o)
  {
    hide Inv, Evolves, BeginAttempt;
    BeginKeeps(t, now, o, op, attempt, approval);
    IssuedStays(t, BeginAttempt(t, now, o, op, attempt, approval).thread, o);
  }

  lemma EndKeepsIssued(t: Thread, now: int, o: Owner, op: Call, attempt: int, outcome: Outcome)
    requires Inv(t) && Issued(t, o)
    ensures Issued(EndAttempt(t, now, o, op.callID, op.name, attempt, outcome).thread, o)
  {
    hide Inv, Evolves, EndAttempt;
    EndAttemptKeeps(t, now, o, op.callID, op.name, attempt, outcome);
    IssuedStays(t, EndAttempt(t, now, o, op.callID, op.name, attempt, outcome).thread, o);
  }

  lemma BeginFenced(t: Thread, now: int, o: Owner, op: Call, attempt: int, approval: Id)
    requires !Holds(t, now, o)
    ensures var r := BeginAttempt(t, now, o, op, attempt, approval); r.err != Ok && r.thread == t
  {
    hide BindCall, Issued;
  }

  lemma EndFenced(t: Thread, now: int, o: Owner, op: Call, attempt: int, outcome: Outcome)
    requires !Holds(t, now, o)
    ensures var r := EndAttempt(t, now, o, op.callID, op.name, attempt, outcome); r.err != Ok && r.thread == t
    ensures t.principal == o.command.principal && !outcome.Dispatching? ==>
      EndAttempt(t, now, o, op.callID, op.name, attempt, outcome).err == ErrOwnership
  {
  }

  /** The first attempt of the call is on record as rejected or uncertain, and may be repeated. */
  ghost predicate MayRepeat(t: Thread, o: Owner, op: Call) {
    !op.policy.Effectful? && (CallAt(t, o, op, 1, Rejected) || CallAt(t, o, op, 1, Unknown))
  }

  /** Others work, then the intent is committed, unless the store call is lost. */
  method Begin(store: JournalStore.ThreadStore, o: Owner, op: Call, attempt: int, approval: Id, v: Visit,
      ghost from: int) returns (err: Error)
    requires store.Valid() && Issued(store.View(), o) && ForeignTicks(v.others, o, from, v.now)
    requires attempt == 1 || (attempt == 2 && MayRepeat(store.View(), o, op))
    modifies store
    ensures store.Valid() && Issued(store.View(), o)
    ensures err == Ok ==> CallAt(store.View(), o, op, attempt, Dispatching)
    ensures err == Ok && attempt == 1 ==> op.callID !in old(store.operations)
    ensures attempt == 2 && v.fault.Sound? && err != Ok ==> err == ErrOwnership && !Holds(store.View(), v.now, o)
    ensures !v.fault.Sound? ==> err == ErrStorage
    ensures err == Ok || err == ErrSuperseded ==> store.active == old(store.active)
    ensures err == ErrSuperseded ==> store.operations == old(store.operations)
    ensures err == ErrSuperseded ==> Mismatched(old(store.interactions), approval, op)
    ensures JournalHistory.Remains(old(store.View()), store.View(), o.Run())
  {
    hide Inv, Evolves, After, BeginAttempt, CallAt, Issued, JournalHistory.Remains;
    ghost var t := store.View();
    Reachable(t, v.others);
    Elapse(store, v.others);
    ghost var u := store.View();
    IssuedStays(t, u, o);
    ElapsedRemains(t, v.others, o);
    if v.fault.NotCommitted? {
      return ErrStorage;
    }
    BeginKeepsIssued(u, v.now, o, op, attempt, approval);
    BeginRemains(t, u, v.now, o, op, attempt, approval);
    BeginTouches(u, v.now, o, op, attempt, approval);
    if Holds(u, v.now, o) {
      HeldThroughout(t, o, v.others, from, v.now);
      BeginHeld(t, u, v.now, o, op, attempt, approval);
    } else {
      BeginFenced(u, v.now, o, op, attempt, approval);
      if attempt == 2 {
        SamePrincipal(t, v.others);
        BeginRefused(t, u, v.now, o, op, approval);
      }
    }
    err := store.BeginAttempt(v.now, o, op, attempt, approval);
    if v.fault.Unacknowledged? {
      return ErrStorage;
    }
  }

  lemma {:induction false} ElapsedRemains(t: Thread, ticks: seq<Tick>, o: Owner)
    requires Inv(t) && Issued(t, o)
    ensures JournalHistory.Remains(t, After(t, ticks), o.Run())
  {
    hide Inv, After, JournalHistory.Remains;
    JournalHistory.AfterRemains(t, ticks, o.Run());
  }

  lemma TickRemains(t: Thread, u: Thread, k: Tick, o: Owner)
    requires Inv(u) && Issued(u, o) && JournalHistory.Remains(t, u, o.Run())
    ensures JournalHistory.Remains(t, Next(u, k), o.Run())
  {
    hide Inv, Apply, JournalHistory.Remains;
    JournalHistory.TickRemains(u, k, o.Run());
    JournalHistory.RemainsThen(t, u, Next(u, k), o.Run());
  }

  lemma BeginRemains(t: Thread, u: Thread, now: int, o: Owner, op: Call, attempt: int, approval: Id)
    requires Inv(u) && Issued(u, o) && JournalHistory.Remains(t, u, o.Run())
    ensures JournalHistory.Remains(t, BeginAttempt(u, now, o, op, attempt, approval).thread, o.Run())
  {
    hide Inv, Issued, BeginAttempt, JournalHistory.Remains;
    TickRemains(t, u, Tick(now, None, StepBegin(o, op, attempt, approval)), o);
  }

  lemma EndRemains(t: Thread, u: Thread, now: int, o: Owner, op: Call, attempt: int, outcome: Outcome)
    requires Inv(u) && Issued(u, o) && JournalHistory.Remains(t, u, o.Run())
    ensures JournalHistory.Remains(t, EndAttempt(u, now, o, op.callID, op.name, attempt, outcome).thread, o.Run())
  {
    hide Inv, Issued, EndAttempt, JournalHistory.Remains;
    TickRemains(t, u, Tick(now, None, StepEnd(o, op.callID, op.name, attempt, outcome)), o);
  }

  lemma BeginHeld(t: Thread, u: Thread, now: int, o: Owner, op: Call, attempt: int, approval: Id)
    requires Inv(u) && Issued(u, o) && Undisturbed(t, u, o.Run()) && Holds(u, now, o)
    requires attempt == 1 || (attempt == 2 && MayRepeat(t, o, op))
    ensures var r := BeginAttempt(u, now, o, op, attempt, approval);
      && (r.err == Ok ==> CallAt(r.thread, o, op, attempt, Dispatching))
      && (r.err == Ok && attempt == 1 ==> op.callID !in t.operations)
      && (attempt == 2 ==> r.err == Ok)
  {
    hide Inv, BeginAttempt, CallAt, Issued;
    if attempt == 1 {
      if BeginAttempt(u, now, o, op, 1, approval).err == Ok {
        FirstRecorded(u, now, o, op, approval);
      }
    } else {
      var outcome := if CallAt(t, o, op, 1, Rejected) then Rejected else Unknown;
      CallUndisturbed(t, u, o, op, 1, outcome);
      RetryAccepted(u, now, o, op, approval, outcome);
    }
  }

  lemma BeginRefused(t: Thread, u: Thread, now: int, o: Owner, op: Call, approval: Id)
    requires MayRepeat(t, o, op) && u.principal == t.principal && !Holds(u, now, o)
    ensures BeginAttempt(u, now, o, op, 2, approval).err == ErrOwnership
  {
    hide BindCall, Issued;
  }

  /** The approval row is for another journey or another binding than the call's. */
  predicate Mismatched(interactions: map<Id, Interaction>, approval: Id, op: Call) {
    approval in interactions && (interactions[approval].journey != op.journey
        || interactions[approval].binding != op.binding)
  }

  /** Starting an attempt leaves the active journeys alone; a superseded one starts nothing, and is
      found out only behind the fence. */
  lemma BeginTouches(t: Thread, now: int, o: Owner, op: Call, attempt: int, approval: Id)
    ensures var r := BeginAttempt(t, now, o, op, attempt, approval);
      && r.thread.active == t.active
      && (r.err != Ok ==> r.thread.operations == t.operations)
      && (r.err == ErrSuperseded ==> Holds(t, now, o) && Mismatched(t.interactions, approval, op))
  {
    hide AppendAll, BindCall;
  }

  lemma CallPrincipal(t: Thread, o: Owner, op: Call, attempt: int, outcome: Outcome)
    requires CallAt(t, o, op, attempt, outcome)
    ensures t.principal == o.command.principal
  {
  }

  lemma EndTouches(t: Thread, now: int, o: Owner, op: Call, attempt: int, outcome: Outcome)
    ensures EndAttempt(t, now, o, op.callID, op.name, attempt, outcome).thread.active == t.active
  {
  }

  /** Others work, then the outcome is committed, unless the store call is lost. */
  method End(store: JournalStore.ThreadStore, o: Owner, op: Call, attempt: int, outcome: Outcome, v: Visit,
      ghost from: int) returns (err: Error)
    requires store.Valid() && Issued(store.View(), o) && ForeignTicks(v.others, o, from, v.now)
    requires CallAt(store.View(), o, op, attempt, Dispatching) && !outcome.Dispatching?
    modifies store
    ensures store.Valid() && Issued(store.View(), o)
    ensures err == Ok ==> CallAt(store.View(), o, op, attempt, outcome)
    ensures v.fault.Sound? && err != Ok ==> err == ErrOwnership && !Holds(store.View(), v.now, o)
    ensures !v.fault.Sound? ==> err == ErrStorage
    ensures err == Ok ==> store.active == old(store.active)
    ensures JournalHistory.Remains(old(store.View()), store.View(), o.Run())
  {
    hide Inv, Evolves, After, EndAttempt, CallAt, Issued, JournalHistory.Remains;
    ghost var t := store.View();
    Reachable(t, v.others);
    Elapse(store, v.others);
    ghost var u := store.View();
    IssuedStays(t, u, o);
    ElapsedRemains(t, v.others, o);
    if v.fault.NotCommitted? {
      return ErrStorage;
    }
    EndRemains(t, u, v.now, o, op, attempt, outcome);
    EndKeepsIssued(u, v.now, o, op, attempt, outcome);
    EndTouches(u, v.now, o, op, attempt, outcome);
    if Holds(u, v.now, o) {
      HeldThroughout(t, o, v.others, from, v.now);
      CallUndisturbed(t, u, o, op, attempt, Dispatching);
      EndAccepted(u, v.now, o, op, attempt, outcome);
    } else {
      CallPrincipal(t, o, op, attempt, Dispatching);
      SamePrincipal(t, v.others);
      EndFenced(u, v.now, o, op, attempt, outcome);
    }
    err := store.EndAttempt(v.now, o, op.callID, op.name, attempt, outcome);
    if v.fault.Unacknowledged? {
      return ErrStorage;
    }
  }

  /** What one attempt leaves when it decides the call, or is worth repeating (None). */
  ghost predicate Leaves(
      t: Thread, o: Owner, op: Call, attempt: int, round: Round, verdict: Option<Verdict>, sent: bool)
  {
    match verdict
    case None => attempt == 1 && sent && MayRepeat(t, o, op) && Repeats(op.policy, round.remote)
    case Some(Refused(n, err)) =>
      n == attempt && !sent && (attempt == 2 ==> err == ErrOwnership && !Holds(t, round.begin.now, o))
    case Some(Unsaved(n, err)) => n == attempt && sent && err == ErrOwnership && !Holds(t, round.end.now, o)
    case Some(StoreFailed) => !(round.begin.fault.Sound? && round.end.fault.Sound?)
    case Some(Cancelled) => sent
    case Some(v) =>
      && sent && v == Last(round.remote) && CallAt(t, o, op, attempt, OutcomeOf(round.remote))
      && (attempt == 1 ==> !Repeats(op.policy, round.remote))
      && (v.Nil() ==> !AnyUnresolved(t))
  }

  /** The choice after a recorded attempt: a verdict, or another attempt. */
  function Choose(op: Call, attempt: int, round: Round): Option<Verdict> {
    if attempt == 1 && Repeats(op.policy, round.remote) then (if round.cancelled then Some(Cancelled) else None)
    else Some(Last(round.remote))
  }

  lemma ChoiceLeaves(t: Thread, o: Owner, op: Call, attempt: int, round: Round)
    requires CallAt(t, o, op, attempt, OutcomeOf(round.remote))
    ensures Leaves(t, o, op, attempt, round, Choose(op, attempt, round), true)
  {
    hide CallAt, AnyUnresolved, MayRepeat;
    var outcome := OutcomeOf(round.remote);
    if !Unresolved(outcome) {
      SettledMeansResolved(t, o, op, attempt, outcome);
    }
    if attempt == 1 && Repeats(op.policy, round.remote) {
      WorthRepeating(t, o, op, outcome);
    }
  }

  /** One attempt: the intent, the send, the record of its outcome, and what to do next. */
  method AttemptCall(store: JournalStore.ThreadStore, o: Owner, op: Call, attempt: int, approval: Id,
      round: Round, ghost from: int)
    returns (verdict: Option<Verdict>, sent: bool)
    requires store.Valid() && Issued(store.View(), o) && Clocked(round, o, from)
    requires attempt == 1 || (attempt == 2 && MayRepeat(store.View(), o, op))
    modifies store
    ensures store.Valid() && Issued(store.View(), o)
    ensures Leaves(store.View(), o, op, attempt, round, verdict, sent)
    ensures sent && attempt == 1 ==> op.callID !in old(store.operations)
    ensures verdict.None? || (verdict.Some? && verdict.value.Decided()) ==>
      op.callID in store.operations && (op.callID, attempt) in store.attempts
      && store.attempts[(op.callID, attempt)] == store.operations[op.callID].outcome
    ensures verdict.Some? && verdict.value.Decided() && round.remote.Succeeded? ==>
      verdict.value.Returned? && store.operations[op.callID].outcome.Done?
    ensures verdict.Some? && verdict.value.Decided() && round.remote.AuthRequired? ==>
      verdict.value.FailedAuth? && store.operations[op.callID].outcome.NeedsAuth?
    ensures verdict.Some? && verdict.value.Decided() && round.remote.BusinessRejected? ==>
      verdict.value.ReportRejected? && store.operations[op.callID].outcome.Rejected?
    ensures verdict.Some? && verdict.value.Decided() && round.remote.NotPermitted? ==>
      verdict.value.ReportNotPermitted? && store.operations[op.callID].outcome.Rejected?
    ensures verdict.Some? && verdict.value.Decided() && round.remote.TransportFailed? ==>
      verdict.value.FailedUnknown? && store.operations[op.callID].outcome.Unknown?
    ensures verdict.None? ==>
      && attempt == 1 && (op.policy.ReadOnly? || op.policy.Idempotent?)
      && ((round.remote.BusinessRejected? && store.operations[op.callID].outcome.Rejected?)
          || (round.remote.TransportFailed? && store.operations[op.callID].outcome.Unknown?))
    ensures verdict.Some? && verdict.value.Decided() && attempt == 1 ==>
      !((op.policy.ReadOnly? || op.policy.Idempotent?)
        && (round.remote.BusinessRejected? || round.remote.TransportFailed?))
    ensures verdict.None? || verdict.value.Nil() ==> store.active == old(store.active)
    ensures verdict == Some(Refused(attempt, ErrSuperseded)) ==>
      && store.active == old(store.active) && store.operations == old(store.operations)
      && Mismatched(old(store.interactions), approval, op)
    ensures JournalHistory.Remains(old(store.View()), store.View(), o.Run())
  {
    hide Inv, CallAt, Issued, AnyUnresolved, ForeignTicks, Holds, MayRepeat, LockOwner, Mismatched;
    hide JournalHistory.Remains;
    sent := false;
    ghost var t := store.View();
    var err := Begin(store, o, op, attempt, approval, round.begin, from);
    if !round.begin.fault.Sound? {
      return Some(StoreFailed), sent;
    }
    if err != Ok {
      return Some(Refused(attempt, err)), sent;
    }
    sent := true;
    var outcome := OutcomeOf(round.remote);
    ghost var u := store.View();
    err := End(store, o, op, attempt, outcome, round.end, round.begin.now);
    JournalHistory.RemainsThen(t, u, store.View(), o.Run());
    if !round.end.fault.Sound? {
      return Some(StoreFailed), sent;
    }
    if err != Ok {
      return Some(Unsaved(attempt, err)), sent;
    }
    ChoiceLeaves(store.View(), o, op, attempt, round);
    KnownPolicy(store.View(), o, op, attempt, outcome);
    Recorded(store.View(), o, op, attempt, outcome);
    verdict := Decide(op, attempt, round);
  }

  /** The branches after the outcome is on record, in the order of the code. */
  method Decide(op: Call, attempt: int, round: Round) returns (verdict: Option<Verdict>)
    requires 1 <= attempt <= 2 && !op.policy.Unreviewed?
    ensures verdict == Choose(op, attempt, round)
  {
    var outcome := OutcomeOf(round.remote);
    if round.remote.Succeeded? {
      return Some(Returned);
    }
    if outcome.NeedsAuth? {
      return Some(FailedAuth);
    }
    if round.remote.NotPermitted? {
      return Some(ReportNotPermitted);
    }
    var safe := op.policy.ReadOnly? || op.policy.Idempotent?;
    if !safe || attempt == 2 {
      if outcome.Unknown? {
        return Some(FailedUnknown);
      }
      return Some(ReportRejected);
    }
    if round.cancelled {
      return Some(Cancelled);
    }
    return None;
  }

  /** Two dispatches at most, of one call under one binding.  A decided verdict is the one the remote
      results and the retry rule call for, with the matching outcome on record; a nil error leaves
      nothing unresolved on the thread; and the only refusal after the first intent is lost ownership. */
  method Guarded(store: JournalStore.ThreadStore, o: Owner, op: Call, approval: Id, rounds: seq<Round>, now: int)
    returns (verdict: Verdict, sent: nat)
    requires store.Valid() && Issued(store.View(), o)
    requires |rounds| == 2 && Clocked(rounds[0], o, now) && Clocked(rounds[1], o, rounds[0].end.now)
    modifies store
    ensures store.Valid() && Issued(store.View(), o)
    ensures sent <= 2 && (op.policy.Effectful? ==> sent <= 1)
    ensures sent > 0 ==> op.callID !in old(store.operations)
    ensures verdict.Nil() ==> !AnyUnresolved(store.View())
    ensures verdict.Decided() ==>
      && 1 <= sent <= 2 && verdict == Last(rounds[sent - 1].remote)
      && CallAt(store.View(), o, op, sent, OutcomeOf(rounds[sent - 1].remote))
      && op.callID in store.operations
      && (op.callID, sent as int) in store.attempts
      && store.attempts[(op.callID, sent as int)] == store.operations[op.callID].outcome
      && (sent == 2 <==>
            (op.policy.ReadOnly? || op.policy.Idempotent?)
            && (rounds[0].remote.BusinessRejected? || rounds[0].remote.TransportFailed?))
    ensures verdict.Decided() && rounds[sent - 1].remote.Succeeded? ==>
      verdict.Returned? && store.operations[op.callID].outcome.Done?
    ensures verdict.Decided() && rounds[sent - 1].remote.AuthRequired? ==>
      verdict.FailedAuth? && store.operations[op.callID].outcome.NeedsAuth?
    ensures verdict.Decided() && rounds[sent - 1].remote.BusinessRejected? ==>
      verdict.ReportRejected? && store.operations[op.callID].outcome.Rejected?
    ensures verdict.Decided() && rounds[sent - 1].remote.NotPermitted? ==>
      verdict.ReportNotPermitted? && store.operations[op.callID].outcome.Rejected?
    ensures verdict.Decided() && rounds[sent - 1].remote.TransportFailed? ==>
      verdict.FailedUnknown? && store.operations[op.callID].outcome.Unknown?
    ensures verdict.Refused? && sent > 0 ==>
      verdict == Refused(2, ErrOwnership) && sent == 1 && !Holds(store.View(), rounds[1].begin.now, o)
    ensures verdict.Unsaved? ==>
      sent > 0 && verdict == Unsaved(sent, ErrOwnership) && !Holds(store.View(), rounds[sent - 1].end.now, o)
    ensures verdict.Nil() || verdict == Refused(1, ErrSuperseded) ==> store.active == old(store.active)
    ensures verdict == Refused(1, ErrSuperseded) ==> store.operations == old(store.operations)
    ensures verdict == Refused(1, ErrSuperseded) ==> Mismatched(old(store.interactions), approval, op)
    ensures verdict.StoreFailed? ==>
      exists i :: 0 <= i < 2 && !(rounds[i].begin.fault.Sound? && rounds[i].end.fault.Sound?)
    ensures JournalHistory.Remains(old(store.View()), store.View(), o.Run())
  {
    hide Inv, CallAt, Issued, AnyUnresolved, ForeignTicks, Holds, MayRepeat, Mismatched, OutcomeOf, Clocked;
    hide JournalHistory.Remains;
    ghost var t := store.View();
    ElapsedRemains(t, [], o);
    sent := 0;
    var attempt := 1;
    while attempt <= 2
      invariant 1 <= attempt <= 2 && sent == attempt - 1 && store.Valid() && Issued(store.View(), o)
      invariant store.active == old(store.active) && JournalHistory.Remains(t, store.View(), o.Run())
      invariant attempt == 1 ==>
        store.operations == old(store.operations) && store.interactions == old(store.interactions)
      invariant attempt == 2 ==>
        MayRepeat(store.View(), o, op) && Repeats(op.policy, rounds[0].remote) && op.callID !in old(store.operations)
        && (op.policy.ReadOnly? || op.policy.Idempotent?)
      decreases 3 - attempt
    {
      var from := if attempt == 1 then now else rounds[0].end.now;
      ghost var u := store.View();
      var decided, dispatched := AttemptCall(store, o, op, attempt, approval, rounds[attempt - 1], from);
      JournalHistory.RemainsThen(t, u, store.View(), o.Run());
      sent := if dispatched then sent + 1 else sent;
      if decided.Some? {
        return decided.value, sent;
      }
      attempt := attempt + 1;
    }
    assert false;
  }

  lemma WorthRepeating(t: Thread, o: Owner, op: Call, outcome: Outcome)
    requires CallAt(t, o, op, 1, outcome) && (outcome.Rejected? || outcome.Unknown?) && !op.policy.Effectful?
    ensures MayRepeat(t, o, op)
  {
  }

  lemma Recorded(t: Thread, o: Owner, op: Call, attempt: int, outcome: Outcome)
    requires CallAt(t, o, op, attempt, outcome)
    ensures op.callID in t.operations && t.operations[op.callID].outcome == outcome
    ensures (op.callID, attempt) in t.attempts && t.attempts[(op.callID, attempt)] == outcome
  {
  }

  lemma KnownPolicy(t: Thread, o: Owner, op: Call, attempt: int, outcome: Outcome)
    requires CallAt(t, o, op, attempt, outcome)
    ensures !op.policy.Unreviewed?
  {
  }
}
