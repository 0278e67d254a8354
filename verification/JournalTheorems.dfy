/** What holds over whole runs of one thread: any interleaving of transactions by any number of
    replicas, with a clock that never goes back. */
module JournalTheorems {
  import opened Basics
  import opened EventLog
  import opened Journal
  import opened JournalInvariant
  import opened JournalSteps
  import opened JournalEffects

  /** One transaction on the thread: when, under which shared definition pointer, and what. */
  datatype Tick = Tick(now: int, current: Option<Digest>, step: Step)

  ghost function Next(t: Thread, k: Tick): Thread {
    Apply(t, k.now, k.current, k.step).thread
  }

  ghost function After(t: Thread, ticks: seq<Tick>): Thread
    decreases |ticks|
  {
    if ticks == [] then t else After(Next(t, ticks[0]), ticks[1..])
  }

  function OwnerOf(s: Step): Option<Owner> {
    match s
    case StepRenew(o, _) => Some(o)
    case StepIncluded(o, _) => Some(o)
    case StepWait(o, _) => Some(o)
    case StepSupersede(o, _) => Some(o)
    case StepBegin(o, _, _, _) => Some(o)
    case StepEnd(o, _, _, _, _) => Some(o)
    case StepStart(o, _, _) => Some(o)
    case StepResolve(o, _) => Some(o)
    case StepFinish(o, _, _, _, _, _) => Some(o)
    case StepScope(o, _) => Some(o)
    case StepActive(o, _) => Some(o)
    case StepNote(o) => Some(o)
    case _ => None
  }

  /** An owner that Claim returned: its command was accepted for its run, and the run's epoch is its own. */
  ghost predicate Issued(t: Thread, o: Owner) {
    Accepted(t, o.command) && o.Run() in t.runs && t.runs[o.Run()].epoch == o.epoch > 0
  }

  /** Owners are not forged, and time does not go back. */
  ghost predicate Schedule(t: Thread, from: int, ticks: seq<Tick>)
    decreases |ticks|
  {
    ticks == [] ||
    (&& from <= ticks[0].now
     && (OwnerOf(ticks[0].step).Some? ==> Issued(t, OwnerOf(ticks[0].step).value))
     && Schedule(Next(t, ticks[0]), ticks[0].now, ticks[1..]))
  }

  /** Every reachable thread satisfies the invariant, and nothing in it was ever taken back. */
  lemma {:induction false} Reachable(t: Thread, ticks: seq<Tick>)
    requires Inv(t)
    ensures Inv(After(t, ticks)) && Evolves(t, After(t, ticks))
    decreases |ticks|
  {
    Unmoved(t);
    hide Inv, Evolves, Apply;
    if ticks != [] {
      var u := Next(t, ticks[0]);
      StepKeeps(t, ticks[0].now, ticks[0].current, ticks[0].step);
      Reachable(u, ticks[1..]);
      EvolvesTransitive(t, u, After(t, ticks));
    }
  }

  /** In every reachable thread the events are numbered 1..sequence, and later ones only add to them. */
  lemma {:induction false} EventsGapFree(id: Id, principal: Id, ticks: seq<Tick>, more: seq<Tick>)
    ensures var t := After(NewThread(id, principal), ticks); GapFree(t.log) && Extends(t.log, After(t, more).log)
  {
    hide After, Ledger, Waiting, Calls, PinOk, RowsMove, RunsMove, InteractionsMove, OperationsMove;
    InitialInv(id, principal);
    Reachable(NewThread(id, principal), ticks);
    Reachable(After(NewThread(id, principal), ticks), more);
  }

  lemma {:induction false} AfterThen(t: Thread, ticks: seq<Tick>, more: seq<Tick>)
    ensures After(After(t, ticks), more) == After(t, ticks + more)
    decreases |ticks|
  {
    hide Next;
    if ticks == [] {
      assert [] + more == more;
    } else {
      assert (ticks + more)[1..] == ticks[1..] + more;
      AfterThen(Next(t, ticks[0]), ticks[1..], more);
    }
  }

  ghost function LogAt(id: Id, principal: Id, ticks: seq<Tick>, k: nat): Log<Event>
    requires k <= |ticks|
  {
    After(NewThread(id, principal), ticks[..k]).log
  }

  lemma {:induction false} LaterLog(id: Id, principal: Id, ticks: seq<Tick>, j: nat, k: nat)
    requires j <= k <= |ticks|
    ensures var log := LogAt(id, principal, ticks, j); GapFree(log) && Extends(log, LogAt(id, principal, ticks, k))
  {
    hide After;
    AfterThen(NewThread(id, principal), ticks[..j], ticks[j..k]);
    assert ticks[..j] + ticks[j..k] == ticks[..k];
    EventsGapFree(id, principal, ticks[..j], ticks[j..k]);
  }

  /** What an observer may rely on: whenever it looks, as often as it looks, the logs of one thread grow. */
  lemma {:induction false} LogsGrow(id: Id, principal: Id, ticks: seq<Tick>, start: nat, looks: seq<nat>)
    requires start <= |ticks| && forall k :: 0 <= k < |looks| ==> start <= looks[k] <= |ticks|
    requires forall j, k :: 0 <= j < k < |looks| ==> looks[j] <= looks[k]
    ensures Growing(LogAt(id, principal, ticks, start),
        seq(|looks|, k requires 0 <= k < |looks| => LogAt(id, principal, ticks, looks[k])))
  {
    hide LogAt, GapFree, Extends;
    forall j: nat, k: nat | j <= k <= |ticks|
      ensures GapFree(LogAt(id, principal, ticks, j))
      ensures Extends(LogAt(id, principal, ticks, j), LogAt(id, principal, ticks, k))
    {
      LaterLog(id, principal, ticks, j, k);
    }
  }

  // ---------------------------------------------------------------- no accepted input is lost

  /** Where an accepted command can be. */
  datatype Fate = RecordedIncluded | Disposed(why: Reason) | AwaitingRequest(run: Id)

  function FateOf(row: CommandRow): Fate {
    if row.included then RecordedIncluded else if !row.reason.NoReason? then Disposed(row.reason)
        else AwaitingRequest(row.execution)
  }

  /** Every command of t has one fate: it is recorded as included in a provider request, or has a
      recorded reason, or waits in a live run; and by u no decided fate has changed. */
  ghost predicate FatesHold(t: Thread, u: Thread) {
    && |t.commands| <= |u.commands|
    && forall k :: 0 <= k < |t.commands| ==>
         && u.commands[k].cmd == t.commands[k].cmd
         && !(t.commands[k].included && !t.commands[k].reason.NoReason?)
         && match FateOf(t.commands[k])
            case AwaitingRequest(run) => run in t.runs && t.runs[run].state.Live()
            case _ => FateOf(u.commands[k]) == FateOf(t.commands[k])
  }

  lemma MovedFates(t: Thread, u: Thread)
    requires InputsOk(t.commands, t.runs) && RowsMove(t.commands, u.commands)
    ensures FatesHold(t, u)
  {
    forall k | 0 <= k < |t.commands| ensures RowMoves(t.commands[k], u.commands[k]) {}
  }

  /** No accepted input is lost, from an empty thread through any transactions. */
  lemma {:induction false} NoInputLost(id: Id, principal: Id, ticks: seq<Tick>, more: seq<Tick>)
    ensures var t := After(NewThread(id, principal), ticks); FatesHold(t, After(t, more))
  {
    hide After, Waiting, Calls, PinOk, CommandsOk, InputsOk, EpochsOk, RowsMove, RunsMove, InteractionsMove;
    hide OperationsMove, FatesHold;
    InitialInv(id, principal);
    Reachable(NewThread(id, principal), ticks);
    var t := After(NewThread(id, principal), ticks);
    Reachable(t, more);
    MovedFates(t, After(t, more));
  }

  /** An admitted command is on record, whatever run it was given to. */
  lemma AdmittedIsRecorded(t: Thread, now: int, c: Command)
    requires Admit(t, now, c).err == Ok
    ensures exists k :: 0 <= k < |Admit(t, now, c).thread.commands| && Admit(t, now, c).thread.commands[k].cmd == c
  {
    hide AppendAll, InterruptExpired, ExpireInteractions;
    var u := Admit(t, now, c).thread;
    var k := RowOf(t.commands, c.communicationID);
    if k < |t.commands| {
      assert u.commands[k].cmd == c;
    } else {
      assert u.commands[|u.commands| - 1].cmd == c;
    }
  }

  // ---------------------------------------------------------------- what was admitted

  /** c passes the checks on a submitted command that come before anything is read. */
  predicate Submittable(c: Command) {
    && c.runID != "" && c.communicationID != "" && c.principal != ""
    && if c.interactionID == "" then c.text != "" else c.text == "" && !c.reply.Malformed?
  }

  /** Every recorded command passed those checks, under the principal of the conversation. */
  ghost predicate Authored(t: Thread) {
    forall k :: 0 <= k < |t.commands| ==> Submittable(t.commands[k].cmd) && t.commands[k].cmd.principal == t.principal
  }

  lemma AdmitAdds(t: Thread, now: int, c: Command)
    ensures var u := Admit(t, now, c).thread;
      && |t.commands| <= |u.commands| <= |t.commands| + 1
      && (|u.commands| > |t.commands| ==>
          u.commands[|t.commands|].cmd == c && Submittable(c) && c.principal == t.principal)
  {
    hide AppendAll, InterruptExpired, ExpireInteractions;
    SameCount(t, now, "");
  }

  lemma SameCount(t: Thread, now: int, candidate: Id)
    ensures |ExpireInteractions(InterruptExpired(t, now, candidate), now).commands| == |t.commands|
    ensures |ExpireInteractions(t, now).commands| == |t.commands|
  {
    hide AppendAll, DisposeEvents, LiveRun, Overdue, InFlight, MarkAttempts, Lost;
  }

  lemma {:induction false} IncludeCount(t: Thread, run: Id, communications: seq<Id>)
    ensures var r := IncludeAll(t, run, communications); r.Some? ==> |r.value.commands| == |t.commands|
    decreases |communications|
  {
    hide AppendAll;
    if communications != [] {
      var next := IncludeOne(t, run, communications[0]);
      if next.Some? {
        IncludeCount(next.value, run, communications[1..]);
      }
    }
  }

  /** Recording an attempt writes no command and no history, and of an interaction only its marker. */
  lemma BeginWrites(t: Thread, now: int, o: Owner, op: Call, attempt: int, approval: Id)
    ensures var u := BeginAttempt(t, now, o, op, attempt, approval).thread;
      && u.commands == t.commands && u.history == t.history && u.interactions.Keys == t.interactions.Keys
      && forall i :: i in t.interactions ==> u.interactions[i].state == t.interactions[i].state
  {
    hide AppendAll, BindCall, OtherUnresolved, LockOwner, Accepted;
  }

  /** Setting a run up writes no command, no history and no interaction. */
  lemma SetupWrites(t: Thread, k: Tick)
    requires k.step.StepStart? || k.step.StepResolve? || k.step.StepScope? || k.step.StepActive? || k.step.StepNote?
    ensures var u := Next(t, k); u.commands == t.commands && u.history == t.history && u.interactions == t.interactions
  {
    hide AppendAll, AnyUnresolved, LockOwner, Admit, Claim, Renew, Reap, Included, Wait, Supersede, BeginAttempt;
    hide EndAttempt, Finish;
  }

  /** Only an admission adds a command. */
  lemma OnlyAdmitAdds(t: Thread, k: Tick)
    requires !k.step.StepAdmit?
    ensures |Next(t, k).commands| == |t.commands|
  {
    hide AppendAll, DisposeEvents, InFlight, MarkAttempts, BindCall, WellAsked, LiveRun, Overdue, Usable, AnyUnresolved;
    hide HasPending, InterruptExpired, ExpireInteractions, IncludeAll, Accepted, Recoverable, BeginAttempt, LockOwner;
    hide Start, ResolveDefinition, RecordScope, SetActive, Note;
    match k.step {
      case StepStart(_, _, _) => SetupWrites(t, k);
      case StepResolve(_, _) => SetupWrites(t, k);
      case StepScope(_, _) => SetupWrites(t, k);
      case StepActive(_, _) => SetupWrites(t, k);
      case StepNote(_) => SetupWrites(t, k);
      case StepBegin(o, op, attempt, approval) => BeginWrites(t, k.now, o, op, attempt, approval);
      case StepReap(candidate) => SameCount(t, k.now, candidate);
      case StepIncluded(o, communications) => IncludeCount(t, o.Run(), communications);
      case _ =>
    }
  }

  lemma StepAuthored(t: Thread, k: Tick)
    requires Inv(t) && Authored(t)
    ensures Authored(Next(t, k))
  {
    hide Inv, Apply, Admit, RunsMove, InteractionsMove, OperationsMove, Submittable;
    StepKeeps(t, k.now, k.current, k.step);
    var u := Next(t, k);
    if k.step.StepAdmit? {
      AdmitAdds(t, k.now, k.step.c);
      AdmitIs(t, k);
    } else {
      OnlyAdmitAdds(t, k);
    }
    forall j | 0 <= j < |u.commands|
      ensures Submittable(u.commands[j].cmd) && u.commands[j].cmd.principal == u.principal
    {
      if j < |t.commands| {
        assert RowMoves(t.commands[j], u.commands[j]);
      }
    }
  }

  lemma AdmitIs(t: Thread, k: Tick)
    requires k.step.StepAdmit?
    ensures Next(t, k) == Admit(t, k.now, k.step.c).thread
  {
    hide Admit;
  }

  lemma {:induction false} AlwaysAuthored(t: Thread, ticks: seq<Tick>)
    requires Inv(t) && Authored(t)
    ensures Authored(After(t, ticks))
    decreases |ticks|
  {
    hide Inv, Evolves, Authored, Apply;
    if ticks != [] {
      StepAuthored(t, ticks[0]);
      StepKeeps(t, ticks[0].now, ticks[0].current, ticks[0].step);
      AlwaysAuthored(Next(t, ticks[0]), ticks[1..]);
    }
  }

  /** Submitting a recorded communication again changes nothing: the same command succeeds, and any other
      well-formed command of the same principal conflicts. */
  lemma {:induction false} AdmissionIsIdempotent(id: Id, principal: Id, ticks: seq<Tick>, now: int, c: Command,
      d: Command)
    requires var t := After(NewThread(id, principal), ticks); exists k ::
      0 <= k < |t.commands| && t.commands[k].cmd == c
    requires d.communicationID == c.communicationID
    ensures var t := After(NewThread(id, principal), ticks);
      && Admit(t, now, d).thread == t
      && (d == c ==> Admit(t, now, d).err == Ok)
      && (d != c ==> Admit(t, now, d).err != Ok)
      && (d != c && Submittable(d) && d.principal == principal ==> Admit(t, now, d).err == ErrConflict)
  {
    hide After, Calls, Waiting, PinOk, EpochsOk, InputsOk, AppendAll, Evolves;
    hide AdmitFresh, ExpireInteractions, Reap;
    InitialInv(id, principal);
    Reachable(NewThread(id, principal), ticks);
    AlwaysAuthored(NewThread(id, principal), ticks);
    SamePrincipal(NewThread(id, principal), ticks);
    var t := After(NewThread(id, principal), ticks);
    var k :| 0 <= k < |t.commands| && t.commands[k].cmd == c;
    var j := RowOf(t.commands, c.communicationID);
    assert j == k;
  }

  // ---------------------------------------------------------------- one activity at a time

  /** At most one live run or open interaction; a run awaits input exactly while it has an open
      interaction; no run ever opens two. */
  ghost predicate OneActivity(t: Thread) {
    && (forall r, s :: r in t.runs && s in t.runs && t.runs[r].state.Live() && t.runs[s].state.Live() ==> r == s)
    && (forall i, j ::
        i in t.interactions && j in t.interactions && t.interactions[i].state.Open? && t.interactions[j].state.Open? ==>
          i == j)
    && !((exists r :: r in t.runs && t.runs[r].state.Live()) && HasOpenInteraction(t))
    && (forall r :: r in t.runs ==>
          (t.runs[r].state.AwaitingInput? <==>
             exists i :: i in t.interactions && t.interactions[i].run == r && t.interactions[i].state.Open?))
    && (forall i, j :: i in t.interactions && j in t.interactions && t.interactions[i].run == t.interactions[j].run ==>
        i == j)
  }

  lemma {:induction false} SingleActivity(id: Id, principal: Id, ticks: seq<Tick>)
    ensures OneActivity(After(NewThread(id, principal), ticks))
  {
    hide After, Calls, PinOk, Ledger, Waiting, Evolves, OneActivity;
    InitialInv(id, principal);
    Reachable(NewThread(id, principal), ticks);
    WaitingMeansOne(After(NewThread(id, principal), ticks));
  }

  lemma WaitingMeansOne(t: Thread)
    requires Waiting(t.commands, t.runs, t.interactions)
    ensures OneActivity(t)
  {
    hide ContinuationsOk, MarkersOk;
    forall r | r in t.runs && t.runs[r].state.AwaitingInput?
      ensures exists i :: i in t.interactions && t.interactions[i].run == r && t.interactions[i].state.Open?
    {
      assert Waits(t.interactions, r);
    }
  }

  // ---------------------------------------------------------------- approvals

  /** Operations that needed an approval are exactly the dispatched approvals, one for one, each
      with the call ID, name, journey and binding its user approved. */
  lemma {:induction false} ApprovalsMatch(id: Id, principal: Id, ticks: seq<Tick>)
    ensures var t := After(NewThread(id, principal), ticks); ApprovalsOk(t.operations, t.interactions)
  {
    hide After, PinOk, Ledger, Waiting, OperationsOk, AttemptsOk, ApprovalsOk, Evolves;
    InitialInv(id, principal);
    Reachable(NewThread(id, principal), ticks);
  }

  /** Between t and u approval i went from decided to dispatched and backs call c; no other
      interaction changed. */
  ghost predicate SpentOn(t: Thread, u: Thread, i: Id, c: Id) {
    && i in t.interactions && i in u.interactions && t.interactions[i].marker.Decided?
    && c in u.operations && Backs(u.interactions[i], c, u.operations[c])
    && u.interactions == t.interactions[i := t.interactions[i].(marker := Dispatched)]
  }

  /** The step that creates an operation needing approval spends one decided approval on it. */
  lemma ApprovalSpent(t: Thread, k: Tick, c: Id)
    requires Inv(t) && c !in t.operations && c in Next(t, k).operations && Next(t, k).operations[c].requiresApproval
    ensures exists i :: SpentOn(t, Next(t, k), i, c)
  {
    hide Inv, Evolves, Apply;
    StepKeeps(t, k.now, k.current, k.step);
    CreatedByBegin(t, k, c);
    BackedBy(Next(t, k), k.step.approval);
    assert SpentOn(t, Next(t, k), k.step.approval, c);
  }

  lemma CreatedByBegin(t: Thread, k: Tick, c: Id)
    requires c !in t.operations && c in Next(t, k).operations
    ensures k.step.StepBegin? && c == k.step.op.callID && CallBegun(t, Next(t, k), k.step.op, k.step.approval)
  {
    hide Apply, BeginAttempt, ContinuationsKept;
    OnlyBeginCreates(t, k);
    if k.step.StepBegin? {
      BeginIs(t, k);
      BeginEffect(t, k.now, k.step.o, k.step.op, k.step.attempt, k.step.approval);
    }
  }

  lemma BeginIs(t: Thread, k: Tick)
    requires k.step.StepBegin?
    ensures Next(t, k) == BeginAttempt(t, k.now, k.step.o, k.step.op, k.step.attempt, k.step.approval).thread
  {
    hide BeginAttempt;
  }

  /** Only the start of an attempt creates operations or attempts, or dispatches an approval. */
  lemma OnlyBeginCreates(t: Thread, k: Tick)
    ensures !k.step.StepBegin? ==> CallsUntouched(t, Next(t, k))
  {
    hide Apply, Claim, CallsUntouched, RunsFenced, ContinuationsKept;
    if k.step.StepClaim? {
      ClaimIs(t, k);
      ClaimEffect(t, k.now, k.step.c, k.step.id, k.step.duration);
    } else if !k.step.StepBegin? {
      StepQuiet(t, k.now, k.current, k.step);
    }
  }

  lemma ClaimIs(t: Thread, k: Tick)
    requires k.step.StepClaim?
    ensures Next(t, k) == Claim(t, k.now, k.step.c, k.step.id, k.step.duration).thread
  {
    hide Claim;
  }

  lemma BackedBy(u: Thread, i: Id)
    requires Inv(u) && i in u.interactions && u.interactions[i].marker.Dispatched?
    ensures u.interactions[i].callID in u.operations
    ensures Backs(u.interactions[i], u.interactions[i].callID, u.operations[u.interactions[i].callID])
  {
    hide Ledger, Waiting, PinOk;
  }

  /** What was denied, lapsed into denial or superseded never backs an operation later, and a
      dispatched approval keeps backing the one it was spent on. */
  lemma {:induction false} SpentOrDeadForever(t: Thread, ticks: seq<Tick>, i: Id, c: Id)
    requires Inv(t) && i in t.interactions && c in After(t, ticks).operations
    requires t.interactions[i].marker.Denied? || t.interactions[i].marker.Superseded?
        || t.interactions[i].marker.Dispatched?
    ensures i in After(t, ticks).interactions
    ensures Backs(After(t, ticks).interactions[i], c, After(t, ticks).operations[c]) ==>
      t.interactions[i].marker.Dispatched? && c == t.interactions[i].callID && c in t.operations
  {
    hide After, Ledger, Waiting, Calls, PinOk, RunsMove, RowsMove, OperationsMove;
    Reachable(t, ticks);
    assert InteractionMoves(t.interactions[i], After(t, ticks).interactions[i]);
    if t.interactions[i].marker.Dispatched? {
      BackedBy(t, i);
    }
  }

  // ---------------------------------------------------------------- the thread stops

  /** Operation c is unresolved for good: an effectful one whose outcome is unknown, or one whose
      run has left running. */
  ghost predicate Stuck(t: Thread, c: Id) {
    && c in t.operations && Unresolved(t.operations[c].outcome)
    && ((t.operations[c].policy.Effectful? && t.operations[c].outcome.Unknown?)
        || (t.operations[c].run in t.runs && !t.runs[t.operations[c].run].state.Running?))
  }

  /** With a stuck operation no attempt starts ... */
  lemma StuckRefuses(t: Thread, c: Id, now: int, o: Owner, op: Call, attempt: int, approval: Id)
    requires Stuck(t, c)
    ensures BeginAttempt(t, now, o, op, attempt, approval).err != Ok
  {
    hide AppendAll;
  }

  /** ... and no run starts. */
  lemma StuckRefusesStart(t: Thread, c: Id, now: int, o: Owner, journey: Id, digest: Digest, current: Option<Digest>)
    requires Stuck(t, c)
    ensures Start(t, now, o, journey, digest, current).err != Ok
  {
  }

  lemma StuckStays(t: Thread, c: Id, k: Tick)
    requires Inv(t) && Stuck(t, c)
    ensures Stuck(Next(t, k), c) && Next(t, k).attempts.Keys == t.attempts.Keys
      && Next(t, k).operations.Keys == t.operations.Keys
  {
    var u := Next(t, k);
    StuckAttempts(t, c, k);
    hide Apply;
    StepKeeps(t, k.now, k.current, k.step);
    StuckMoves(t, u, c);
  }

  lemma StuckAttempts(t: Thread, c: Id, k: Tick)
    requires Inv(t) && Stuck(t, c)
    ensures CallsUntouched(t, Next(t, k))
  {
    hide Apply, BeginAttempt, Inv, CallBegun, CallRepeated, CallsUntouched, ContinuationsKept;
    OnlyBeginCreates(t, k);
    if k.step.StepBegin? {
      BeginIs(t, k);
      BeginEffect(t, k.now, k.step.o, k.step.op, k.step.attempt, k.step.approval);
      StuckRefuses(t, c, k.now, k.step.o, k.step.op, k.step.attempt, k.step.approval);
    }
  }

  lemma StuckMoves(t: Thread, u: Thread, c: Id)
    requires Inv(t) && Stuck(t, c) && CallsUntouched(t, u) && Evolves(t, u)
    ensures Stuck(u, c)
  {
    hide Waiting, PinOk, AttemptsOk, ApprovalsOk, CommandsOk, InputsOk, RowsMove, InteractionsMove;
    assert OperationMoves(t.operations[c], u.operations[c]);
    assert t.operations[c].run in t.runs;
    assert RunMoves(t.runs[t.operations[c].run], u.runs[t.operations[c].run]);
  }

  /** The thread-stop theorem: through any further transactions the operation stays unresolved, not
      one attempt is recorded on the thread, and neither an attempt nor a run can be started. */
  lemma {:induction false} ThreadStops(t: Thread, c: Id, ticks: seq<Tick>)
    requires Inv(t) && Stuck(t, c)
    ensures Stuck(After(t, ticks), c)
    ensures After(t, ticks).attempts.Keys == t.attempts.Keys && After(t, ticks).operations.Keys == t.operations.Keys
    ensures forall now, o, op, attempt, approval ::
      BeginAttempt(After(t, ticks), now, o, op, attempt, approval).err != Ok
    ensures forall now, o, journey, digest, current ::
      Start(After(t, ticks), now, o, journey, digest, current).err != Ok
    decreases |ticks|
  {
    hide Inv, Stuck, Apply, BeginAttempt, Start;
    if ticks == [] {
      forall now, o, op, attempt, approval ensures BeginAttempt(t, now, o, op, attempt, approval).err != Ok {
        StuckRefuses(t, c, now, o, op, attempt, approval);
      }
      forall now, o, journey, digest, current ensures Start(t, now, o, journey, digest, current).err != Ok {
        StuckRefusesStart(t, c, now, o, journey, digest, current);
      }
    } else {
      StuckStays(t, c, ticks[0]);
      StepKeeps(t, ticks[0].now, ticks[0].current, ticks[0].step);
      ThreadStops(Next(t, ticks[0]), c, ticks[1..]);
    }
  }

  /** One operation is unresolved at most, and each operation was attempted once, or twice unless effectful. */
  lemma {:induction false} AttemptsBounded(id: Id, principal: Id, ticks: seq<Tick>)
    ensures var t := After(NewThread(id, principal), ticks);
      && (forall c, d ::
          && c in t.operations && d in t.operations
          && Unresolved(t.operations[c].outcome) && Unresolved(t.operations[d].outcome) ==>
            c == d)
      && (forall k :: k in t.attempts ==>
          k.0 in t.operations && (k.1 == 1 || (k.1 == 2 && !t.operations[k.0].policy.Effectful?)))
  {
    hide After, Ledger, Waiting, PinOk, ApprovalsOk, Evolves;
    InitialInv(id, principal);
    Reachable(NewThread(id, principal), ticks);
    var t := After(NewThread(id, principal), ticks);
    forall k | k in t.attempts
      ensures k.0 in t.operations && (k.1 == 1 || (k.1 == 2 && !t.operations[k.0].policy.Effectful?))
    {
      assert AttemptsOf(t.attempts, k.0, t.operations[k.0]);
      assert k == (k.0, k.1);
    }
  }

  // ---------------------------------------------------------------- ownership

  /** Two owners that pass the fence at once are the same claim. */
  lemma {:induction false} OneOwner(id: Id, principal: Id, ticks: seq<Tick>, now: int, o: Owner, p: Owner)
    requires var t := After(NewThread(id, principal), ticks); Holds(t, now, o) && Holds(t, now, p)
    ensures o.Run() == p.Run() && o.id == p.id && o.epoch == p.epoch
  {
    hide After, Ledger, Calls, PinOk, Evolves;
    InitialInv(id, principal);
    Reachable(NewThread(id, principal), ticks);
  }

  /** What a claim hands out: an issued owner with an epoch above every earlier one, that passes the fence. */
  lemma ClaimIssues(t: Thread, now: int, c: Command, id: Id, duration: int)
    requires Claim(t, now, c, id, duration).err == Ok
    ensures var u := Claim(t, now, c, id, duration).thread;
      var o := Owner(c, id, t.epoch + 1);
      Issued(u, o) && LockOwner(u, now, o) == Ok && u.epoch == o.epoch > t.epoch
  {
    hide AppendAll;
    var u := Claim(t, now, c, id, duration).thread;
    var k :| 0 <= k < |t.commands| && t.commands[k].cmd == c && t.commands[k].execution == c.runID;
    assert u.commands[k].cmd == c;
  }

  lemma IssuedStays(t: Thread, u: Thread, o: Owner)
    requires Issued(t, o) && Evolves(t, u)
    ensures Issued(u, o)
  {
    hide InteractionsMove, OperationsMove;
    var k :| 0 <= k < |t.commands| && t.commands[k].cmd == o.command && t.commands[k].execution == o.Run();
    assert RowMoves(t.commands[k], u.commands[k]);
    assert RunMoves(t.runs[o.Run()], u.runs[o.Run()]);
  }

  /** A run that was ever claimed is never claimed again. */
  lemma {:induction false} ClaimedOnce(t: Thread, ticks: seq<Tick>, r: Id, now: int, c: Command, id: Id, duration: int)
    requires Inv(t) && r in t.runs && t.runs[r].epoch > 0 && c.runID == r
    ensures Claim(After(t, ticks), now, c, id, duration).err != Ok
  {
    hide After, Waiting, Calls, PinOk, CommandsOk, InputsOk, RowsMove, InteractionsMove, OperationsMove, AppendAll;
    Reachable(t, ticks);
    assert RunMoves(t.runs[r], After(t, ticks).runs[r]);
  }

  /** Owner o is shut out: its run stopped, changed hands, or let its lease run out by `now`. */
  ghost predicate ShutOut(t: Thread, now: int, o: Owner) {
    && o.Run() in t.runs && t.runs[o.Run()].epoch == o.epoch > 0
    && !(t.runs[o.Run()].state.Running? && t.runs[o.Run()].owner == o.id && t.runs[o.Run()].lease > now)
  }

  lemma ShutOutStays(t: Thread, now: int, o: Owner, k: Tick)
    requires Inv(t) && ShutOut(t, now, o) && now <= k.now
    ensures ShutOut(Next(t, k), now, o)
  {
    hide Apply, Inv, Claim, BeginAttempt, CallsUntouched, ContinuationsKept, RowsMove, InteractionsMove, OperationsMove;
    StepKeeps(t, k.now, k.current, k.step);
    assert RunMoves(t.runs[o.Run()], Next(t, k).runs[o.Run()]);
    if k.step.StepClaim? {
      ClaimIs(t, k);
      ClaimEffect(t, k.now, k.step.c, k.step.id, k.step.duration);
      PendingIsUnclaimed(t);
    } else if k.step.StepBegin? {
      BeginIs(t, k);
      BeginEffect(t, k.now, k.step.o, k.step.op, k.step.attempt, k.step.approval);
    } else {
      StepQuiet(t, k.now, k.current, k.step);
      assert Fenced(t.runs[o.Run()], k.now, Next(t, k).runs[o.Run()]);
    }
  }

  lemma PendingIsUnclaimed(t: Thread)
    requires Inv(t)
    ensures forall r :: r in t.runs && t.runs[r].state.Pending? ==> t.runs[r].epoch == 0
  {
    hide Waiting, Calls, PinOk;
  }

  /** Fencing: an issued owner that fails the check at `now` fails it ever after. */
  lemma {:induction false} LostForever(t: Thread, now: int, o: Owner, ticks: seq<Tick>, later: int)
    requires Inv(t) && Issued(t, o) && LockOwner(t, now, o) != Ok
    requires Schedule(t, now, ticks) && now <= later
    ensures LockOwner(After(t, ticks), later, o) != Ok
  {
    hide Inv, Apply, Evolves;
    if t.principal == o.command.principal {
      ShutOutForever(t, now, o, ticks);
    } else {
      SamePrincipal(t, ticks);
    }
  }

  lemma {:induction false} SamePrincipal(t: Thread, ticks: seq<Tick>)
    requires Inv(t)
    ensures After(t, ticks).principal == t.principal
  {
    hide Inv, After, RowsMove, RunsMove, InteractionsMove, OperationsMove;
    Reachable(t, ticks);
  }

  lemma {:induction false} ShutOutForever(t: Thread, now: int, o: Owner, ticks: seq<Tick>)
    requires Inv(t) && ShutOut(t, now, o) && Schedule(t, now, ticks)
    ensures ShutOut(After(t, ticks), now, o)
    decreases |ticks|
  {
    hide Inv, Apply, ShutOut, Evolves;
    if ticks != [] {
      StepKeeps(t, ticks[0].now, ticks[0].current, ticks[0].step);
      ShutOutStays(t, now, o, ticks[0]);
      ScheduleFrom(Next(t, ticks[0]), ticks[0].now, now, ticks[1..]);
      ShutOutForever(Next(t, ticks[0]), now, o, ticks[1..]);
    }
  }

  lemma {:induction false} ScheduleFrom(t: Thread, from: int, earlier: int, ticks: seq<Tick>)
    requires Schedule(t, from, ticks) && earlier <= from
    ensures Schedule(t, earlier, ticks)
  {
  }

  // ---------------------------------------------------------------- reply continuations

  /** The continuation of interaction i, which nobody has claimed. */
  ghost predicate Unclaimed(t: Thread, i: Id) {
    && i in t.interactions && t.interactions[i].state.Answered?
    && t.interactions[i].continuation in t.runs && t.runs[t.interactions[i].continuation].epoch == 0
    && t.runs[t.interactions[i].continuation].state.Pending?
  }

  lemma ContinuationStep(t: Thread, r: Id, k: Tick)
    requires Inv(t) && IsContinuation(t, r) && r in t.runs && t.runs[r].state.Pending? && t.runs[r].epoch == 0
    ensures r in Next(t, k).runs
      && (Next(t, k).runs[r].epoch > 0 || (Next(t, k).runs[r].state.Pending? && Next(t, k).runs[r].epoch == 0))
  {
    hide Apply, Inv, Claim, BeginAttempt, CallsUntouched, RunsFenced;
    if k.step.StepClaim? {
      ClaimIs(t, k);
      ClaimEffect(t, k.now, k.step.c, k.step.id, k.step.duration);
    } else if k.step.StepBegin? {
      BeginIs(t, k);
      BeginEffect(t, k.now, k.step.o, k.step.op, k.step.attempt, k.step.approval);
    } else {
      StepQuiet(t, k.now, k.current, k.step);
    }
  }

  lemma UnclaimedStays(t: Thread, i: Id, k: Tick)
    requires Inv(t) && Unclaimed(t, i)
    ensures var u := Next(t, k);
      && t.interactions[i].continuation in u.runs
      && (Unclaimed(u, i) || u.runs[t.interactions[i].continuation].epoch > 0)
  {
    hide Apply, Inv, RowsMove, RunsMove, OperationsMove;
    var r := t.interactions[i].continuation;
    assert IsContinuation(t, r);
    ContinuationStep(t, r, k);
    StepKeeps(t, k.now, k.current, k.step);
    assert InteractionMoves(t.interactions[i], Next(t, k).interactions[i]);
  }

  /** The command whose reply opened the continuation of i. */
  ghost predicate ReplyBehind(t: Thread, i: Id, c: Command)
    requires i in t.interactions
  {
    Accepted(t, c) && c.runID == t.interactions[i].continuation
  }

  /** An unclaimed continuation is claimable by its own command at any time, by any replica. */
  lemma UnclaimedIsClaimable(t: Thread, i: Id, c: Command, now: int, id: Id, duration: int)
    requires Inv(t) && Unclaimed(t, i) && ReplyBehind(t, i, c)
    requires id != "" && duration > 0 && Authored(t)
    ensures Claim(t, now, c, id, duration).err == Ok
  {
    hide Ledger, Calls, PinOk, ActivityOk, MarkersOk, AppendAll;
    var k :| 0 <= k < |t.commands| && t.commands[k].cmd == c && t.commands[k].execution == c.runID;
    assert t.commands[k].cmd.interactionID == i;
  }

  /** A reply continuation that was never started is never interrupted: after any transactions it was
      claimed, or it is still pending and its own command can claim it, however late. */
  lemma {:induction false} ContinuationWaitsForItsReply(t: Thread, i: Id, c: Command, ticks: seq<Tick>)
    requires Inv(t) && Unclaimed(t, i) && ReplyBehind(t, i, c) && Authored(t)
    ensures var u := After(t, ticks);
      && c.runID in u.runs
      && (u.runs[c.runID].epoch > 0
          || (u.runs[c.runID].state.Pending?
              && forall now, id, duration :: id != "" && duration > 0 ==> Claim(u, now, c, id, duration).err == Ok))
    decreases |ticks|
  {
    hide Apply, Inv, Unclaimed, ReplyBehind, Evolves, Claim, Authored;
    UnclaimedRun(t, i, c);
    if ticks == [] {
      forall now, id, duration | id != "" && duration > 0 ensures Claim(t, now, c, id, duration).err == Ok {
        UnclaimedIsClaimable(t, i, c, now, id, duration);
      }
    } else {
      var u := Next(t, ticks[0]);
      StepKeeps(t, ticks[0].now, ticks[0].current, ticks[0].step);
      UnclaimedStays(t, i, ticks[0]);
      if Unclaimed(u, i) {
        ReplyStays(t, u, i, c);
        StepAuthored(t, ticks[0]);
        ContinuationWaitsForItsReply(u, i, c, ticks[1..]);
      } else {
        Reachable(u, ticks[1..]);
        ClaimedStays(u, After(t, ticks), c.runID);
      }
    }
  }

  lemma UnclaimedRun(t: Thread, i: Id, c: Command)
    requires Unclaimed(t, i) && ReplyBehind(t, i, c)
    ensures i in t.interactions && c.runID == t.interactions[i].continuation && c.runID in t.runs
      && t.runs[c.runID].state.Pending?
  {
  }

  lemma ReplyStays(t: Thread, u: Thread, i: Id, c: Command)
    requires Evolves(t, u) && Unclaimed(t, i) && ReplyBehind(t, i, c)
    ensures u.principal == t.principal && i in u.interactions && ReplyBehind(u, i, c)
  {
    hide RunsMove, OperationsMove;
    var k :| 0 <= k < |t.commands| && t.commands[k].cmd == c && t.commands[k].execution == c.runID;
    assert RowMoves(t.commands[k], u.commands[k]);
    assert InteractionMoves(t.interactions[i], u.interactions[i]);
  }

  lemma ClaimedStays(t: Thread, u: Thread, r: Id)
    requires Evolves(t, u) && r in t.runs && t.runs[r].epoch > 0
    ensures r in u.runs && u.runs[r].epoch > 0
  {
    hide RowsMove, InteractionsMove, OperationsMove;
    assert RunMoves(t.runs[r], u.runs[r]);
  }

  // ---------------------------------------------------------------- the definition pin

  /** Interaction i is open, or its continuation is live. */
  ghost predicate HeldBy(t: Thread, i: Id) {
    && i in t.interactions
    && (t.interactions[i].state.Open?
        || (t.interactions[i].state.Answered? && t.interactions[i].continuation in t.runs
            && t.runs[t.interactions[i].continuation].state.Live()))
  }

  /** While an interaction holds the thread, no transaction changes its pin: not even one that
      resolves definitions under a new current set. */
  lemma HeldKeepsPin(t: Thread, i: Id, k: Tick)
    requires Inv(t) && HeldBy(t, i)
    requires OwnerOf(k.step).Some? ==> Issued(t, OwnerOf(k.step).value)
    ensures Next(t, k).pin == t.pin && t.pin.Some?
  {
    hide Quiet, Inv, Issued, HeldBy, Claim, BeginAttempt, Apply;
    HeldPinned(t, i);
    if k.step.StepClaim? {
      ClaimIs(t, k);
      ClaimEffect(t, k.now, k.step.c, k.step.id, k.step.duration);
    } else if k.step.StepBegin? {
      BeginIs(t, k);
      BeginEffect(t, k.now, k.step.o, k.step.op, k.step.attempt, k.step.approval);
    } else if k.step.StepResolve? || k.step.StepStart? {
      PinningStep(t, i, k);
    } else {
      StepQuiet(t, k.now, k.current, k.step);
    }
  }

  lemma PinningStep(t: Thread, i: Id, k: Tick)
    requires Inv(t) && HeldBy(t, i) && t.pin.Some?
    requires k.step.StepResolve? || k.step.StepStart?
    requires Issued(t, OwnerOf(k.step).value)
    ensures Next(t, k).pin == t.pin
  {
    hide Inv, Issued, HeldBy, AppendAll, ApplyLocal;
    if k.step.StepResolve? && Holds(t, k.now, k.step.o) {
      HeldIsNotIdle(t, i, k.now, k.step.o);
    }
  }

  /** The owner of a live continuation carries the reply's interaction, so it never counts as idle. */
  lemma HeldIsNotIdle(t: Thread, i: Id, now: int, o: Owner)
    requires Inv(t) && HeldBy(t, i) && Issued(t, o) && Holds(t, now, o)
    ensures !Idle(t, o)
  {
    hide Ledger, Calls, PinOk, MarkersOk;
    if t.interactions[i].state.Answered? {
      var k :| 0 <= k < |t.commands| && t.commands[k].cmd == o.command && t.commands[k].execution == o.Run();
      assert t.commands[k].cmd.runID == t.interactions[i].continuation;
      assert t.commands[k].cmd.interactionID == i;
    }
  }

  lemma HeldWas(t: Thread, u: Thread, i: Id)
    requires Evolves(t, u) && i in t.interactions && HeldBy(u, i) && Inv(t)
    ensures HeldBy(t, i)
  {
    hide RowsMove, OperationsMove, Ledger, Calls, PinOk, ActivityOk, WaitsOk, MarkersOk;
    assert InteractionMoves(t.interactions[i], u.interactions[i]);
    if t.interactions[i].state.Answered? {
      assert RunMoves(t.runs[t.interactions[i].continuation], u.runs[t.interactions[i].continuation]);
    }
  }

  /** Pin stability: from a state where an interaction is open or its continuation live, to any later
      such state, under any interleaving of runs, claims and activations, the conversation's
      definition digest is the same. */
  lemma {:induction false} PinStable(t: Thread, i: Id, from: int, ticks: seq<Tick>)
    requires Inv(t) && HeldBy(t, i) && Schedule(t, from, ticks) && HeldBy(After(t, ticks), i)
    ensures After(t, ticks).pin == t.pin && t.pin.Some?
    decreases |ticks|
  {
    hide Inv, Apply, HeldBy, Evolves, Issued;
    if ticks == [] {
      HeldPinned(t, i);
    } else {
      var u := Next(t, ticks[0]);
      HeldKeepsPin(t, i, ticks[0]);
      StepKeeps(t, ticks[0].now, ticks[0].current, ticks[0].step);
      Reachable(u, ticks[1..]);
      InteractionStays(t, u, i);
      HeldWas(u, After(u, ticks[1..]), i);
      PinStable(u, i, ticks[0].now, ticks[1..]);
    }
  }

  lemma HeldPinned(t: Thread, i: Id)
    requires Inv(t) && HeldBy(t, i)
    ensures t.pin.Some?
  {
    InteractionIsPinned(t, i);
  }

  lemma InteractionStays(t: Thread, u: Thread, i: Id)
    requires Evolves(t, u) && HeldBy(t, i)
    ensures i in u.interactions
  {
    hide RowsMove, RunsMove, OperationsMove;
  }
}
