/** What every transaction keeps, and how far one transaction can move each row. */
module JournalInvariant {
  import opened Basics
  import opened EventLog
  import opened Journal

  type Runs = map<Id, Run>
  type Rows = seq<CommandRow>
  type Interactions = map<Id, Interaction>
  type Operations = map<Id, Operation>
  type Attempts = map<(Id, int), Outcome>

  // ---------------------------------------------------------------- the invariant, table by table

  /** Communication and run identifiers are unique; a command's execution run exists; every
      run was opened by a command it executes. */
  ghost predicate CommandsOk(rows: Rows, runs: Runs) {
    && (forall k :: 0 <= k < |rows| ==> rows[k].cmd.runID != "" && rows[k].execution in runs)
    && (forall j, k :: 0 <= j < k < |rows| ==>
          rows[j].cmd.runID != rows[k].cmd.runID && rows[j].cmd.communicationID != rows[k].cmd.communicationID)
    && (forall r :: r in runs ==> r != "" && Opened(rows, r))
  }

  ghost predicate Opened(rows: Rows, run: Id) {
    exists k :: 0 <= k < |rows| && rows[k].cmd.runID == run && rows[k].execution == run
  }

  /** No accepted input is lost: a command is included, or disposed of with a reason, or
      undecided in a live run; never two of these. */
  ghost predicate InputsOk(rows: Rows, runs: Runs) {
    forall k :: 0 <= k < |rows| ==>
      && !(rows[k].included && !rows[k].reason.NoReason?)
      && (rows[k].Undecided() ==> rows[k].execution in runs && runs[rows[k].execution].state.Live())
  }

  /** Only claimed runs have an epoch, and no two share one. */
  ghost predicate EpochsOk(runs: Runs, epoch: nat) {
    && (forall r :: r in runs ==>
          && runs[r].epoch <= epoch
          && (runs[r].state.Pending? ==> runs[r].epoch == 0)
          && (runs[r].state.Running? || runs[r].state.AwaitingInput? ==> runs[r].epoch > 0))
    && (forall r, s :: r in runs && s in runs && runs[r].epoch == runs[s].epoch && r != s ==> runs[r].epoch == 0)
  }

  /** One thing at a time: one live run, or one open interaction, or neither. */
  ghost predicate ActivityOk(runs: Runs, interactions: Interactions) {
    && (forall r, s :: r in runs && s in runs && runs[r].state.Live() && runs[s].state.Live() ==> r == s)
    && (forall i, j ::
        i in interactions && j in interactions && interactions[i].state.Open? && interactions[j].state.Open? ==> i == j)
    && (forall r, i :: r in runs && i in interactions && interactions[i].state.Open? ==> !runs[r].state.Live())
  }

  /** A run awaits input exactly while it has an open interaction, and opens one at most. */
  ghost predicate WaitsOk(runs: Runs, interactions: Interactions) {
    && (forall i :: i in interactions ==>
          && i != "" && interactions[i].run in runs
          && !runs[interactions[i].run].state.Live()
          && (interactions[i].state.Open? <==> runs[interactions[i].run].state.AwaitingInput?))
    && (forall i, j :: i in interactions && j in interactions && interactions[i].run == interactions[j].run ==> i == j)
    && (forall r :: r in runs && runs[r].state.AwaitingInput? ==> Waits(interactions, r))
  }

  ghost predicate Waits(interactions: Interactions, run: Id) {
    exists i :: i in interactions && interactions[i].run == run && interactions[i].state.Open?
  }

  /** An answered interaction has one continuation run, opened by the reply that answered it. */
  ghost predicate ContinuationsOk(rows: Rows, runs: Runs, interactions: Interactions) {
    && (forall i :: i in interactions ==>
          (interactions[i].state.Answered? <==> interactions[i].continuation != "")
          && (interactions[i].state.Answered? ==> interactions[i].continuation in runs))
    && (forall i, j | i in interactions && j in interactions && interactions[i].state.Answered?
        && interactions[j].state.Answered? ::
          interactions[i].continuation == interactions[j].continuation ==> i == j)
    && (forall i, k | i in interactions && interactions[i].state.Answered? && 0 <= k < |rows| ::
          rows[k].cmd.runID == interactions[i].continuation ==> rows[k].cmd.interactionID == i)
  }

  /** The marker of an interaction follows its kind, its state and the reply. */
  ghost predicate MarkersOk(interactions: Interactions) {
    forall i :: i in interactions ==> MarkerOk(interactions[i])
  }

  predicate MarkerOk(x: Interaction) {
    match x.kind
    case Clarification => x.marker.NoMarker? && !x.approved
    case Approval =>
      && (x.state.Open? <==> x.marker.Requested?)
      && (x.state.Lapsed? ==> x.marker.Denied?)
      && (x.state.Answered? ==> (x.approved <==> !x.marker.Denied?))
      && (x.marker.Decided? || x.marker.Dispatched? || x.marker.Superseded? ==> x.state.Answered?)
      && !x.marker.NoMarker?
      && x.journey != ""
  }

  /** At most one operation is unresolved, and each belongs to a claimed run. */
  ghost predicate OperationsOk(operations: Operations, runs: Runs) {
    && (forall c :: c in operations ==>
          && c != "" && operations[c].run in runs && runs[operations[c].run].epoch > 0
          && !operations[c].policy.Unreviewed?
          && (operations[c].policy.ReadOnly? || operations[c].requiresApproval))
    && (forall c, d ::
        c in operations && d in operations && Unresolved(operations[c].outcome) && Unresolved(operations[d].outcome) ==>
          c == d)
  }

  /** Attempts number 1 and 2, the second never for an effectful operation; an attempt is open
      exactly while it is the latest attempt of an operation in flight. */
  ghost predicate AttemptsOk(attempts: Attempts, operations: Operations) {
    && (forall k :: k in attempts ==> k.0 in operations && (k.1 == 1 || k.1 == 2))
    && (forall c :: c in operations ==> AttemptsOf(attempts, c, operations[c]))
  }

  predicate AttemptsOf(attempts: Attempts, c: Id, op: Operation) {
    && (c, 1) in attempts
    && (op.policy.Effectful? ==> (c, 2) !in attempts)
    && if (c, 2) in attempts
       then !attempts[(c, 1)].Dispatching? && (op.outcome.Dispatching? <==> attempts[(c, 2)].Dispatching?)
       else op.outcome.Dispatching? <==> attempts[(c, 1)].Dispatching?
  }

  /** Interaction x is the approval that operation `op` of call `c` was dispatched under. */
  predicate Backs(x: Interaction, c: Id, op: Operation) {
    && x.kind.Approval? && x.marker.Dispatched? && x.approved
    && x.callID == c && x.name == op.name && x.journey == op.journey && x.binding == op.binding
    && x.continuation == op.run
  }

  /** Operations that needed an approval and dispatched approvals correspond one to one. */
  ghost predicate ApprovalsOk(operations: Operations, interactions: Interactions) {
    && (forall c :: c in operations && operations[c].requiresApproval ==> Backed(interactions, c, operations[c]))
    && (forall i :: i in interactions && interactions[i].marker.Dispatched? ==>
          interactions[i].callID in operations && operations[interactions[i].callID].requiresApproval
          && Backs(interactions[i], interactions[i].callID, operations[interactions[i].callID]))
    && (forall i, j | i in interactions && j in interactions && interactions[i].marker.Dispatched?
        && interactions[j].marker.Dispatched? ::
          interactions[i].callID == interactions[j].callID ==> i == j)
  }

  ghost predicate Backed(interactions: Interactions, c: Id, op: Operation) {
    exists i :: i in interactions && Backs(interactions[i], c, op)
  }

  /** Whatever carries a definition digest does so in a pinned conversation. */
  ghost predicate PinOk(pin: Option<Digest>, runs: Runs, interactions: Interactions) {
    && (forall r :: r in runs && runs[r].digest.Some? ==> pin.Some?)
    && (forall i :: i in interactions ==> interactions[i].digest.Some? && pin.Some?)
  }

  /** Commands and runs. */
  ghost predicate Ledger(rows: Rows, runs: Runs, epoch: nat) {
    CommandsOk(rows, runs) && InputsOk(rows, runs) && EpochsOk(runs, epoch)
  }

  /** Interactions and the runs around them. */
  ghost predicate Waiting(rows: Rows, runs: Runs, interactions: Interactions) {
    && ActivityOk(runs, interactions) && WaitsOk(runs, interactions)
    && ContinuationsOk(rows, runs, interactions) && MarkersOk(interactions)
  }

  /** Operations, their attempts and their approvals. */
  ghost predicate Calls(runs: Runs, interactions: Interactions, operations: Operations, attempts: Attempts) {
    OperationsOk(operations, runs) && AttemptsOk(attempts, operations) && ApprovalsOk(operations, interactions)
  }

  ghost predicate Inv(t: Thread) {
    && GapFree(t.log)
    && Ledger(t.commands, t.runs, t.epoch)
    && Waiting(t.commands, t.runs, t.interactions)
    && Calls(t.runs, t.interactions, t.operations, t.attempts)
    && PinOk(t.pin, t.runs, t.interactions)
  }

  // ---------------------------------------------------------------- how a row may move

  ghost predicate RunMoves(a: Run, b: Run) {
    && (a.epoch > 0 ==> b.epoch == a.epoch)
    && (a.epoch > 0 && !a.state.Running? ==> !b.state.Running?)
    && (!a.state.Pending? ==> !b.state.Pending?)
    && (!a.state.Live() ==> !b.state.Live())
    && (!a.state.Live() && !a.state.AwaitingInput? ==> b.state == a.state)
  }

  ghost predicate RowMoves(a: CommandRow, b: CommandRow) {
    && b.cmd == a.cmd && b.execution == a.execution
    && (!a.Undecided() ==> b == a)
  }

  ghost predicate InteractionMoves(a: Interaction, b: Interaction) {
    && b.run == a.run && b.journey == a.journey && b.digest == a.digest && b.kind == a.kind
    && b.callID == a.callID && b.name == a.name && b.binding == a.binding && b.expires == a.expires
    && b.questions == a.questions && b.saved == a.saved
    && (!a.state.Open? ==> b.state == a.state && b.continuation == a.continuation && b.approved == a.approved)
    && (a.marker.Denied? || a.marker.Dispatched? || a.marker.Superseded? ==> b.marker == a.marker)
  }

  ghost predicate OperationMoves(a: Operation, b: Operation) {
    && b.run == a.run && b.name == a.name && b.binding == a.binding && b.policy == a.policy
    && b.requiresApproval == a.requiresApproval && b.journey == a.journey
    && (a.outcome.Done? || a.outcome.NeedsAuth? ==> b.outcome == a.outcome)
    && (a.outcome.Unknown? && a.policy.Effectful? ==> b.outcome == a.outcome)
  }

  ghost predicate RunsMove(a: Runs, b: Runs) {
    forall r :: r in a ==> r in b && RunMoves(a[r], b[r])
  }

  ghost predicate RowsMove(a: Rows, b: Rows) {
    |a| <= |b| && forall k :: 0 <= k < |a| ==> RowMoves(a[k], b[k])
  }

  ghost predicate InteractionsMove(a: Interactions, b: Interactions) {
    forall i :: i in a ==> i in b && InteractionMoves(a[i], b[i])
  }

  ghost predicate OperationsMove(a: Operations, b: Operations) {
    forall c :: c in a ==> c in b && OperationMoves(a[c], b[c])
  }

  /** Rows are never deleted and only move as above; the log only grows. */
  ghost predicate Evolves(t: Thread, u: Thread) {
    && u.id == t.id && u.principal == t.principal && t.epoch <= u.epoch
    && (t.pin.Some? ==> u.pin.Some?)
    && Extends(t.log, u.log)
    && RowsMove(t.commands, u.commands)
    && RunsMove(t.runs, u.runs)
    && InteractionsMove(t.interactions, u.interactions)
    && OperationsMove(t.operations, u.operations)
    && t.attempts.Keys <= u.attempts.Keys
  }

  lemma EvolvesTransitive(t: Thread, u: Thread, v: Thread)
    requires Evolves(t, u) && Evolves(u, v)
    ensures Evolves(t, v)
  {
  }

  lemma Unmoved(t: Thread)
    ensures Evolves(t, t)
    ensures RowsMove(t.commands, t.commands) && RunsMove(t.runs, t.runs)
    ensures InteractionsMove(t.interactions, t.interactions) && OperationsMove(t.operations, t.operations)
  {
  }

  lemma InitialInv(id: Id, principal: Id)
    ensures Inv(NewThread(id, principal))
  {
  }

  /** Appending events keeps everything, so a transaction can be judged by its tables alone. */
  lemma EmitKeeps(t: Thread, u: Thread, es: seq<Event>)
    requires Inv(u) && Evolves(t, u)
    ensures Inv(Emit(u, es)) && Evolves(t, Emit(u, es))
  {
    hide Ledger, Waiting, Calls, PinOk, RowsMove, RunsMove, InteractionsMove, OperationsMove;
    AppendAllExtends(u.log, es);
  }

  // ---------------------------------------------------------------- the unique row a query finds

  lemma LiveRunUnique(t: Thread, r: Id)
    requires Inv(t) && r in t.runs && t.runs[r].state.Live()
    ensures LiveRun(t.runs) == r
  {
    hide Calls, PinOk;
  }

  lemma OverdueUnique(t: Thread, now: int, i: Id)
    requires Inv(t) && i in t.interactions && t.interactions[i].state.Open? && t.interactions[i].expires <= now
    ensures Overdue(t.interactions, now) == i
  {
    hide Ledger, Calls, PinOk;
    assert i != "";
    assert exists x ::
        x in t.interactions && x != "" && t.interactions[x].state.Open? && t.interactions[x].expires <= now;
    var j := Overdue(t.interactions, now);
    assert j in t.interactions && t.interactions[j].state.Open?;
  }

  // ---------------------------------------------------------------- runs that keep their state

  /** The same runs in the same states with the same epochs. */
  ghost predicate SameShape(a: Runs, b: Runs) {
    a.Keys == b.Keys && forall r :: r in a ==> b[r].state == a[r].state && b[r].epoch == a[r].epoch
  }

  lemma ShapeKeepsLedger(rows: Rows, a: Runs, b: Runs, epoch: nat)
    requires Ledger(rows, a, epoch) && SameShape(a, b)
    ensures Ledger(rows, b, epoch)
  {
  }

  lemma ShapeKeepsWaiting(rows: Rows, a: Runs, b: Runs, interactions: Interactions)
    requires Waiting(rows, a, interactions) && SameShape(a, b)
    ensures Waiting(rows, b, interactions)
  {
  }

  lemma ShapeKeepsCalls(a: Runs, b: Runs, interactions: Interactions, operations: Operations, attempts: Attempts)
    requires Calls(a, interactions, operations, attempts) && SameShape(a, b)
    ensures Calls(b, interactions, operations, attempts)
  {
  }

  // ---------------------------------------------------------------- runs that stop being live or awaiting

  /** Run r moves to a state that is not live; none of its commands is undecided any more. */
  lemma RestKeepsLedger(rows: Rows, runs: Runs, epoch: nat, r: Id, rest: Run)
    requires Ledger(rows, runs, epoch) && r in runs
    requires !rest.state.Live() && rest.epoch == runs[r].epoch
    requires rest.state.AwaitingInput? ==> rest.epoch > 0
    requires forall k :: 0 <= k < |rows| && rows[k].execution == r ==> !rows[k].Undecided()
    ensures Ledger(rows, runs[r := rest], epoch)
  {
  }

  /** Rows that only change their disposition leave identifiers as they were. */
  lemma RowsKeepCommands(rows: Rows, after: Rows, runs: Runs)
    requires CommandsOk(rows, runs) && |after| == |rows| && RowsMove(rows, after)
    ensures CommandsOk(after, runs)
  {
    forall s | s in runs ensures s != "" && Opened(after, s) {
      assert Opened(rows, s);
      var k :| 0 <= k < |rows| && rows[k].cmd.runID == s && rows[k].execution == s;
      assert RowMoves(rows[k], after[k]);
      assert after[k].cmd.runID == s && after[k].execution == s;
    }
    forall j, k | 0 <= j < k < |after|
      ensures after[j].cmd.runID != after[k].cmd.runID && after[j].cmd.communicationID != after[k].cmd.communicationID
    {
      assert RowMoves(rows[j], after[j]) && RowMoves(rows[k], after[k]);
    }
  }

  lemma {:induction false} DisposeKeepsLedger(rows: Rows, runs: Runs, epoch: nat, r: Id, reason: RunState)
    requires Ledger(rows, runs, epoch)
    ensures Ledger(DisposeRows(rows, r, reason), runs, epoch)
    ensures forall k :: 0 <= k < |rows| && rows[k].execution == r ==> !DisposeRows(rows, r, reason)[k].Undecided()
    ensures RowsMove(rows, DisposeRows(rows, r, reason))
  {
    hide DisposeRows, CommandsOk, EpochsOk;
    RowsKeepCommands(rows, DisposeRows(rows, r, reason), runs);
  }

  lemma {:induction false} DisposeKeepsWaiting(rows: Rows, runs: Runs, interactions: Interactions, r: Id,
      reason: RunState)
    requires Waiting(rows, runs, interactions)
    ensures Waiting(DisposeRows(rows, r, reason), runs, interactions)
  {
    hide DisposeRows;
  }

  /** A live run ends: nothing about interactions changes. */
  lemma EndKeepsWaiting(rows: Rows, runs: Runs, interactions: Interactions, r: Id, ended: Run)
    requires Waiting(rows, runs, interactions) && r in runs && runs[r].state.Live()
    requires !ended.state.Live() && !ended.state.AwaitingInput?
    ensures Waiting(rows, runs[r := ended], interactions)
  {
  }

  lemma EpochKeepsCalls(runs: Runs, interactions: Interactions, operations: Operations, attempts: Attempts, r: Id,
      next: Run)
    requires Calls(runs, interactions, operations, attempts)
    requires r in runs && runs[r].epoch > 0 ==> next.epoch > 0
    ensures Calls(runs[r := next], interactions, operations, attempts)
  {
  }

  lemma OneRunMoves(runs: Runs, r: Id, next: Run)
    requires r in runs ==> RunMoves(runs[r], next)
    ensures RunsMove(runs, runs[r := next])
  {
  }

  lemma PinStays(pin: Option<Digest>, runs: Runs, interactions: Interactions, r: Id, next: Run)
    requires PinOk(pin, runs, interactions) && (next.digest.Some? ==> pin.Some?)
    ensures PinOk(pin, runs[r := next], interactions)
  {
  }

  // ---------------------------------------------------------------- operations in flight

  /** An operation changes its outcome only, and does not become unresolved. */
  lemma OutcomeKeepsOperations(runs: Runs, interactions: Interactions, operations: Operations, c: Id, outcome: Outcome)
    requires OperationsOk(operations, runs) && ApprovalsOk(operations, interactions) && c in operations
    requires Unresolved(outcome) ==> forall d :: d in operations && d != c ==> !Unresolved(operations[d].outcome)
    ensures var after := operations[c := operations[c].(outcome := outcome)];
      OperationsOk(after, runs) && ApprovalsOk(after, interactions)
  {
    var after := operations[c := operations[c].(outcome := outcome)];
    forall d | d in after && after[d].requiresApproval ensures Backed(interactions, d, after[d]) {
      assert Backed(interactions, d, operations[d]);
      var i :| i in interactions && Backs(interactions[i], d, operations[d]);
      assert Backs(interactions[i], d, after[d]);
    }
  }

  lemma MarkKeepsAttempts(t: Thread, run: Id)
    requires OperationsOk(t.operations, t.runs) && AttemptsOk(t.attempts, t.operations)
    ensures AttemptsOk(MarkAttempts(t.attempts, t.operations, run), MarkUnknown(t, run).operations)
  {
    var attempts, operations := MarkAttempts(t.attempts, t.operations, run), MarkUnknown(t, run).operations;
    MarkOperations(t, run);
    MarkedKeys(t.attempts, t.operations, run);
    hide OperationsOk, MarkUnknown, MarkAttempts, AttemptsOf;
    forall d | d in operations ensures AttemptsOf(attempts, d, operations[d]) {
      MarkAttemptsOf(t.attempts, t.operations, run, d);
    }
  }

  lemma MarkedKeys(attempts: Attempts, operations: Operations, run: Id)
    ensures MarkAttempts(attempts, operations, run).Keys == attempts.Keys
  {
  }

  /** The attempts of one operation, in flight or not. */
  lemma MarkAttemptsOf(attempts: Attempts, operations: Operations, run: Id, d: Id)
    requires d in operations && AttemptsOf(attempts, d, operations[d])
    ensures AttemptsOf(MarkAttempts(attempts, operations, run), d,
                       if operations[d].outcome.Dispatching? && operations[d].run == run
                       then operations[d].(outcome := Unknown) else operations[d])
  {
  }

  /** Exactly what the run has in flight becomes unknown. */
  lemma MarkOperations(t: Thread, run: Id)
    requires OperationsOk(t.operations, t.runs)
    ensures var u := MarkUnknown(t, run);
      && u.operations.Keys == t.operations.Keys
      && forall d :: d in t.operations ==>
           u.operations[d] == if t.operations[d].outcome.Dispatching? && t.operations[d].run == run
             then t.operations[d].(outcome := Unknown) else t.operations[d]
  {
    hide AppendAll, MarkAttempts;
    var c := InFlight(t.operations, run);
    forall d | d in t.operations && t.operations[d].outcome.Dispatching? && t.operations[d].run == run
      ensures d == c
    {
      OnlyOneUnresolved(t.runs, t.operations, d);
      assert exists x ::
          x in t.operations && x != "" && t.operations[x].run == run && t.operations[x].outcome.Dispatching?;
      assert c in t.operations && Unresolved(t.operations[c].outcome);
    }
  }

  lemma MarkKeepsCalls(t: Thread, run: Id)
    requires Calls(t.runs, t.interactions, t.operations, t.attempts)
    ensures var u := MarkUnknown(t, run);
      Calls(t.runs, t.interactions, u.operations, u.attempts) && OperationsMove(t.operations, u.operations)
  {
    hide OperationsOk, AttemptsOk, ApprovalsOk;
    MarkKeepsAttempts(t, run);
    var c := InFlight(t.operations, run);
    if c != "" {
      OutcomeKeepsOperations(t.runs, t.interactions, t.operations, c, Unknown) by {
        OnlyOneUnresolved(t.runs, t.operations, c);
      }
    }
  }

  lemma OnlyOneUnresolved(runs: Runs, operations: Operations, c: Id)
    requires OperationsOk(operations, runs) && c in operations && Unresolved(operations[c].outcome)
    ensures forall d :: d in operations && d != c ==> !Unresolved(operations[d].outcome)
  {
  }

  /** Marking operations unknown leaves runs, commands and interactions alone. */
  lemma MarkUnknownKeeps(t: Thread, run: Id)
    requires Inv(t)
    ensures var u := MarkUnknown(t, run);
      && Inv(u) && Evolves(t, u)
      && u.runs == t.runs && u.commands == t.commands && u.interactions == t.interactions && u.pin == t.pin
      && u.epoch == t.epoch && u.attempts.Keys == t.attempts.Keys
  {
    hide Ledger, Waiting, Calls, PinOk, RowsMove, RunsMove, InteractionsMove, OperationsMove;
    MarkKeepsCalls(t, run);
    Unmoved(t);
    var c := InFlight(t.operations, run);
    if c != "" {
      AppendAllExtends(t.log, [ToolEnded(run, c, t.operations[c].name, Unknown)]);
    }
  }

  // ---------------------------------------------------------------- ending a live run

  /** A live run ends as `ended`, and its undecided commands are disposed of. */
  lemma {:induction false} EndKeeps(t: Thread, r: Id, ended: Run, reason: RunState)
    requires Inv(t) && r in t.runs && t.runs[r].state.Live()
    requires !ended.state.Live() && !ended.state.AwaitingInput?
    requires ended.epoch == t.runs[r].epoch && ended.digest == t.runs[r].digest
    ensures var u := t.(runs := t.runs[r := ended], commands := DisposeRows(t.commands, r, reason));
      Inv(u) && Evolves(t, u)
  {
    var rows := DisposeRows(t.commands, r, reason);
    OneRunMoves(t.runs, r, ended);
    PinStays(t.pin, t.runs, t.interactions, r, ended);
    hide DisposeRows, Ledger, Waiting, Calls, PinOk, RowsMove, RunsMove, InteractionsMove, OperationsMove;
    DisposeKeepsLedger(t.commands, t.runs, t.epoch, r, reason);
    RestKeepsLedger(rows, t.runs, t.epoch, r, ended);
    DisposeKeepsWaiting(t.commands, t.runs, t.interactions, r, reason);
    EndKeepsWaiting(rows, t.runs, t.interactions, r, ended);
    EpochKeepsCalls(t.runs, t.interactions, t.operations, t.attempts, r, ended);
    Unmoved(t);
  }
}
