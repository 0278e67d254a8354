/** Every store transaction keeps the invariant and moves rows only as JournalInvariant allows. */
module JournalSteps {
  import opened Basics
  import opened EventLog
  import opened Journal
  import History
  import opened JournalInvariant

  // ---------------------------------------------------------------- ownership

  lemma ClaimKeepsLedger(rows: Rows, runs: Runs, epoch: nat, r: Id, claimed: Run)
    requires Ledger(rows, runs, epoch) && r in runs
    requires runs[r].state.Pending? && claimed.state.Running? && claimed.epoch == epoch + 1
    ensures Ledger(rows, runs[r := claimed], epoch + 1)
  {
  }

  lemma LiveKeepsWaiting(rows: Rows, runs: Runs, interactions: Interactions, r: Id, next: Run)
    requires Waiting(rows, runs, interactions) && r in runs && runs[r].state.Live() && next.state.Live()
    ensures Waiting(rows, runs[r := next], interactions)
  {
    hide ActivityOk, WaitsOk, ContinuationsOk;
    LiveKeepsActivity(runs, interactions, r, next);
    LiveKeepsWaits(runs, interactions, r, next);
    LiveKeepsContinuations(rows, runs, interactions, r, next);
  }

  lemma LiveKeepsActivity(runs: Runs, interactions: Interactions, r: Id, next: Run)
    requires ActivityOk(runs, interactions) && r in runs && runs[r].state.Live() && next.state.Live()
    ensures ActivityOk(runs[r := next], interactions)
  {
  }

  lemma LiveKeepsWaits(runs: Runs, interactions: Interactions, r: Id, next: Run)
    requires WaitsOk(runs, interactions) && r in runs && runs[r].state.Live() && next.state.Live()
    ensures WaitsOk(runs[r := next], interactions)
  {
  }

  lemma LiveKeepsContinuations(rows: Rows, runs: Runs, interactions: Interactions, r: Id, next: Run)
    requires ContinuationsOk(rows, runs, interactions) && r in runs
    ensures ContinuationsOk(rows, runs[r := next], interactions)
  {
  }

  lemma ClaimKeeps(t: Thread, now: int, c: Command, id: Id, duration: int)
    requires Inv(t)
    ensures Inv(Claim(t, now, c, id, duration).thread) && Evolves(t, Claim(t, now, c, id, duration).thread)
  {
    hide Ledger, Waiting, Calls, PinOk, RowsMove, RunsMove, InteractionsMove, OperationsMove;
    Unmoved(t);
    if Claim(t, now, c, id, duration).err == Ok {
      var claimed := t.runs[c.runID].(state := Running, owner := id, epoch := t.epoch + 1, lease := now + duration);
      UnclaimedMoves(t, c.runID, claimed);
      ClaimKeepsLedger(t.commands, t.runs, t.epoch, c.runID, claimed);
      LiveKeepsWaiting(t.commands, t.runs, t.interactions, c.runID, claimed);
      EpochKeepsCalls(t.runs, t.interactions, t.operations, t.attempts, c.runID, claimed);
      KeepsPin(t, c.runID, claimed);
      EmitKeeps(t, t.(epoch := t.epoch + 1, runs := t.runs[c.runID := claimed]), [RunStarted(c.runID)]);
    }
  }

  lemma UnclaimedMoves(t: Thread, r: Id, claimed: Run)
    requires Inv(t) && r in t.runs && t.runs[r].state.Pending? && claimed.state.Running?
    ensures RunsMove(t.runs, t.runs[r := claimed])
  {
    hide Waiting, Calls, PinOk;
    OneRunMoves(t.runs, r, claimed);
  }

  lemma KeepsPin(t: Thread, r: Id, next: Run)
    requires Inv(t) && r in t.runs && next.digest == t.runs[r].digest
    ensures PinOk(t.pin, t.runs[r := next], t.interactions)
  {
    hide Ledger, Waiting, Calls;
  }

  /** A run keeps its state and epoch: leases, scopes and definition digests may change freely. */
  lemma ShapeKeeps(t: Thread, r: Id, next: Run, pin: Option<Digest>)
    requires Inv(t) && r in t.runs && next.state == t.runs[r].state && next.epoch == t.runs[r].epoch
    requires (t.pin.Some? ==> pin.Some?) && (next.digest.Some? ==> pin.Some?)
    ensures var u := t.(runs := t.runs[r := next], pin := pin); Inv(u) && Evolves(t, u)
  {
    hide Ledger, Waiting, Calls, PinOk, RowsMove, RunsMove, InteractionsMove, OperationsMove;
    var runs := t.runs[r := next];
    OneRunMoves(t.runs, r, next);
    WiderPin(t.pin, pin, t.runs, t.interactions, r, next);
    Unmoved(t);
    ShapeKeepsLedger(t.commands, t.runs, runs, t.epoch);
    ShapeKeepsWaiting(t.commands, t.runs, runs, t.interactions);
    ShapeKeepsCalls(t.runs, runs, t.interactions, t.operations, t.attempts);
  }

  lemma WiderPin(old_: Option<Digest>, pin: Option<Digest>, runs: Runs, interactions: Interactions, r: Id, next: Run)
    requires PinOk(old_, runs, interactions) && (old_.Some? ==> pin.Some?) && (next.digest.Some? ==> pin.Some?)
    ensures PinOk(pin, runs[r := next], interactions)
  {
  }

  lemma RenewKeeps(t: Thread, now: int, o: Owner, duration: int)
    requires Inv(t)
    ensures Inv(Renew(t, now, o, duration).thread) && Evolves(t, Renew(t, now, o, duration).thread)
  {
    Unmoved(t);
    hide Ledger, Waiting, Calls;
    if Renew(t, now, o, duration).err == Ok {
      ShapeKeeps(t, o.Run(), t.runs[o.Run()].(lease := now + duration), t.pin);
    }
  }

  lemma ScopeKeeps(t: Thread, now: int, o: Owner, scope: Scope)
    requires Inv(t)
    ensures Inv(RecordScope(t, now, o, scope).thread) && Evolves(t, RecordScope(t, now, o, scope).thread)
  {
    Unmoved(t);
    hide Ledger, Waiting, Calls;
    if RecordScope(t, now, o, scope).thread != t {
      ShapeKeeps(t, o.Run(), t.runs[o.Run()].(scope := Some(scope)), t.pin);
    }
  }

  lemma StartKeeps(t: Thread, now: int, o: Owner, journey: Id, digest: Digest, current: Option<Digest>)
    requires Inv(t)
    ensures var u := Start(t, now, o, journey, digest, current).thread; Inv(u) && Evolves(t, u)
  {
    Unmoved(t);
    hide Ledger, Waiting, Calls, PinOk;
    if Start(t, now, o, journey, digest, current).err == Ok {
      var run := t.runs[o.Run()];
      var started := run.(journey := if journey != "" then journey else run.journey, digest := Some(digest));
      ShapeKeeps(t, o.Run(), started, Some(digest));
    }
  }

  lemma ResolveKeeps(t: Thread, now: int, o: Owner, current: Option<Digest>, served: set<Digest>)
    requires Inv(t)
    ensures var u := ResolveDefinition(t, now, o, current, served).thread; Inv(u) && Evolves(t, u)
  {
    Unmoved(t);
    hide Ledger, Waiting, Calls;
    var r := ResolveDefinition(t, now, o, current, served);
    if r.thread.pin != t.pin {
      var run := t.runs[o.Run()];
      ShapeKeeps(t, o.Run(), run, current);
      assert t.runs[o.Run() := run] == t.runs;
      if t.pin.Some? {
        EmitKeeps(t, t.(pin := current), [DefinitionChanged(o.Run(), t.pin.value, current.value)]);
      }
    }
  }

  // ---------------------------------------------------------------- ending runs

  lemma InterruptKeeps(t: Thread, run: Id)
    requires Inv(t) && run in t.runs && t.runs[run].state.Live()
    ensures Inv(Interrupt(t, run)) && Evolves(t, Interrupt(t, run))
  {
    var ended := t.runs[run].(state := Interrupted);
    var stopped := t.(runs := t.runs[run := ended]);
    MarkAfterStop(t, run, ended);
    MarkUnknownKeeps(t, run);
    var u := MarkUnknown(t, run);
    EndKeeps(u, run, ended, Interrupted);
    var v := u.(runs := u.runs[run := ended], commands := DisposeRows(u.commands, run, Interrupted));
    assert v == MarkUnknown(stopped, run).(commands := DisposeRows(t.commands, run, Interrupted));
    hide Inv, Evolves;
    EvolvesTransitive(t, u, v);
    EmitKeeps(t, v, DisposeEvents(t.commands, run, Interrupted));
    EmitKeeps(t, Emit(v, DisposeEvents(t.commands, run, Interrupted)), [RunEnded(run, Interrupted)]);
  }

  /** Marking reads operations only, so it commutes with a change of run rows. */
  lemma MarkAfterStop(t: Thread, run: Id, ended: Run)
    ensures MarkUnknown(t.(runs := t.runs[run := ended]), run) == MarkUnknown(t, run).(runs := t.runs[run := ended])
  {
    assert t.(runs := t.runs[run := ended]).operations == t.operations;
  }

  lemma InterruptExpiredKeeps(t: Thread, now: int, candidate: Id)
    requires Inv(t)
    ensures Inv(InterruptExpired(t, now, candidate)) && Evolves(t, InterruptExpired(t, now, candidate))
  {
    Unmoved(t);
    hide Inv, Evolves, Interrupt;
    var run := LiveCandidate(t, candidate);
    if run != "" && Lost(t, now, run) {
      InterruptKeeps(t, run);
    }
  }

  /** The history column is not part of what transactions must keep. */
  lemma AnyHistory(t: Thread, u: Thread, h: seq<History.Message>)
    requires Inv(u) && Evolves(t, u)
    ensures Inv(u.(history := h)) && Evolves(t, u.(history := h))
  {
    hide Ledger, Waiting, Calls, PinOk, RowsMove, RunsMove, InteractionsMove, OperationsMove;
  }

  lemma FinishKeeps(
      t: Thread, now: int, o: Owner, state: RunState, history: Option<seq<History.Message>>,
      answer: string, callID: Id, tool: Id)
    requires Inv(t)
    ensures var u := Finish(t, now, o, state, history, answer, callID, tool).thread; Inv(u) && Evolves(t, u)
  {
    Unmoved(t);
    hide Inv, Evolves, MarkUnknown, AppendAll, DisposeRows, DisposeEvents;
    var r := Finish(t, now, o, state, history, answer, callID, tool);
    if r.err == Ok {
      var run := o.Run();
      var ended := t.runs[run].(state := state, answer := answer);
      var closing := (if state.Completed? && callID != "" then [ToolEnded(run, callID, tool, Done)] else [])
                     + (if state.Completed? then [MessageCompleted(run, answer)] else []);
      if state.Completed? {
        NothingToDispose(t.commands, run, state);
        EndKeeps(t, run, ended, state);
        var v := t.(runs := t.runs[run := ended]);
        AnyHistory(t, v, Delivered(t, run, history));
        EmitKeeps(t, v.(history := Delivered(t, run, history)), closing + [RunEnded(run, state)]);
      } else {
        MarkUnknownKeeps(t, run);
        var m := MarkUnknown(t, run);
        EndKeeps(m, run, ended, state);
        var v := m.(runs := m.runs[run := ended], commands := DisposeRows(m.commands, run, state));
        EvolvesTransitive(t, m, v);
        AnyHistory(t, v, Delivered(t, run, history));
        var w := v.(history := Delivered(t, run, history));
        EmitKeeps(t, w, DisposeEvents(m.commands, run, state));
        EmitKeeps(t, Emit(w, DisposeEvents(m.commands, run, state)), closing + [RunEnded(run, state)]);
      }
    }
  }

  lemma {:induction false} NothingToDispose(rows: Rows, run: Id, reason: RunState)
    requires forall k :: 0 <= k < |rows| && rows[k].execution == run ==> !rows[k].Undecided()
    ensures DisposeRows(rows, run, reason) == rows
  {
  }

  // ---------------------------------------------------------------- interactions

  /** An approval changes while it is not dispatched: no operation depends on it. */
  lemma UndispatchedKeepsCalls(runs: Runs, interactions: Interactions, operations: Operations, attempts: Attempts,
      i: Id, next: Interaction)
    requires Calls(runs, interactions, operations, attempts)
    requires i in interactions ==> !interactions[i].marker.Dispatched?
    requires !next.marker.Dispatched?
    ensures Calls(runs, interactions[i := next], operations, attempts)
  {
    hide OperationsOk, AttemptsOk;
    var after := interactions[i := next];
    forall c | c in operations && operations[c].requiresApproval ensures Backed(after, c, operations[c]) {
      assert Backed(interactions, c, operations[c]);
      var j :| j in interactions && Backs(interactions[j], c, operations[c]);
      assert j != i && Backs(after[j], c, operations[c]);
    }
  }

  lemma OneInteractionMoves(interactions: Interactions, i: Id, next: Interaction)
    requires i in interactions ==> InteractionMoves(interactions[i], next)
    ensures InteractionsMove(interactions, interactions[i := next])
  {
  }

  lemma PinCovers(t: Thread, i: Id, next: Interaction)
    requires Inv(t) && next.digest.Some? && t.pin.Some?
    ensures PinOk(t.pin, t.runs, t.interactions[i := next])
  {
    hide Ledger, Waiting, Calls;
  }

  lemma LapseKeepsWaiting(rows: Rows, runs: Runs, interactions: Interactions, i: Id, failed: Run)
    requires Waiting(rows, runs, interactions) && i in interactions && interactions[i].state.Open?
    requires failed.state.Failed?
    ensures var x := interactions[i];
      Waiting(rows, runs[x.run := failed],
          interactions[i := x.(state := Lapsed, marker := if x.kind.Approval? then Denied else NoMarker)])
  {
    var x := interactions[i];
    assert MarkerOk(x);
  }

  /** The run of an open interaction awaits input and has no undecided command. */
  lemma OpenMeansAwaiting(t: Thread, i: Id)
    requires Inv(t) && i in t.interactions && t.interactions[i].state.Open?
    ensures t.interactions[i].run in t.runs && t.runs[t.interactions[i].run].state.AwaitingInput?
    ensures t.runs[t.interactions[i].run].epoch > 0
    ensures forall k ::
      0 <= k < |t.commands| && t.commands[k].execution == t.interactions[i].run ==> !t.commands[k].Undecided()
    ensures !t.interactions[i].marker.Dispatched? && t.interactions[i].digest.Some? && t.pin.Some?
    ensures t.interactions[i].kind.Approval? ==> t.interactions[i].marker.Requested?
    ensures forall r :: r in t.runs ==> !t.runs[r].state.Live()
  {
    hide Calls;
    assert MarkerOk(t.interactions[i]);
  }

  lemma LapseKeeps(t: Thread, i: Id)
    requires Inv(t) && i in t.interactions && t.interactions[i].state.Open?
    ensures Inv(Lapse(t, i)) && Evolves(t, Lapse(t, i))
  {
    OpenMeansAwaiting(t, i);
    var x := t.interactions[i];
    var next := x.(state := Lapsed, marker := if x.kind.Approval? then Denied else NoMarker);
    var failed := t.runs[x.run].(state := Failed);
    OneRunMoves(t.runs, x.run, failed);
    OneInteractionMoves(t.interactions, i, next);
    hide Ledger, Waiting, Calls, PinOk, RowsMove, RunsMove, InteractionsMove, OperationsMove;
    Unmoved(t);
    RestKeepsLedger(t.commands, t.runs, t.epoch, x.run, failed);
    LapseKeepsWaiting(t.commands, t.runs, t.interactions, i, failed);
    EpochKeepsCalls(t.runs, t.interactions, t.operations, t.attempts, x.run, failed);
    UndispatchedKeepsCalls(t.runs[x.run := failed], t.interactions, t.operations, t.attempts, i, next);
    PinCovers(t, i, next);
    PinStays(t.pin, t.runs, t.interactions[i := next], x.run, failed);
    EmitKeeps(t, t.(interactions := t.interactions[i := next], runs := t.runs[x.run := failed],
                    history := ClosedBy(x.saved)),
              [InteractionExpired(x.run), RunEnded(x.run, Failed)]);
  }

  lemma ExpireKeeps(t: Thread, now: int)
    requires Inv(t)
    ensures Inv(ExpireInteractions(t, now)) && Evolves(t, ExpireInteractions(t, now))
  {
    Unmoved(t);
    hide Inv, Evolves, Lapse;
    if Overdue(t.interactions, now) != "" {
      LapseKeeps(t, Overdue(t.interactions, now));
    }
  }

  lemma ReapKeeps(t: Thread, now: int, candidate: Id)
    requires Inv(t)
    ensures Inv(Reap(t, now, candidate)) && Evolves(t, Reap(t, now, candidate))
  {
    hide Inv, Evolves, InterruptExpired, ExpireInteractions;
    InterruptExpiredKeeps(t, now, candidate);
    ExpireKeeps(InterruptExpired(t, now, candidate), now);
    EvolvesTransitive(t, InterruptExpired(t, now, candidate), Reap(t, now, candidate));
  }

  lemma OpenKeepsWaiting(rows: Rows, runs: Runs, interactions: Interactions, r: Id, waiting: Run, i: Id, x: Interaction)
    requires Waiting(rows, runs, interactions) && r in runs && runs[r].state.Running? && waiting.state.AwaitingInput?
    requires i !in interactions && i != "" && x.run == r && x.state.Open? && x.continuation == "" && MarkerOk(x)
    ensures Waiting(rows, runs[r := waiting], interactions[i := x])
  {
    var after := interactions[i := x];
    assert Waits(after, r) by {
      assert i in after && after[i].run == r;
    }
    OpenKeepsActivity(runs, interactions, r, waiting, i, x);
    hide ActivityOk;
  }

  lemma OpenKeepsActivity(runs: Runs, interactions: Interactions, r: Id, waiting: Run, i: Id, x: Interaction)
    requires ActivityOk(runs, interactions) && r in runs && runs[r].state.Running? && waiting.state.AwaitingInput?
      && i !in interactions && x.state.Open?
    ensures ActivityOk(runs[r := waiting], interactions[i := x])
  {
  }

  lemma WaitKeeps(t: Thread, now: int, o: Owner, p: Proposal)
    requires Inv(t)
    ensures Inv(Wait(t, now, o, p).thread) && Evolves(t, Wait(t, now, o, p).thread)
  {
    hide Ledger, Waiting, Calls, PinOk, RowsMove, RunsMove, InteractionsMove, OperationsMove;
    Unmoved(t);
    if Wait(t, now, o, p).err == Ok {
      var run := t.runs[o.Run()];
      var x := ParkedRow(o.Run(), run, now, p);
      var released := run.(state := AwaitingInput, owner := "", lease := now);
      RunningIsClaimed(t, o.Run());
      OneRunMoves(t.runs, o.Run(), released);
      OneInteractionMoves(t.interactions, p.id, x);
      RestKeepsLedger(t.commands, t.runs, t.epoch, o.Run(), released);
      OpenKeepsWaiting(t.commands, t.runs, t.interactions, o.Run(), released, p.id, x);
      EpochKeepsCalls(t.runs, t.interactions, t.operations, t.attempts, o.Run(), released);
      UndispatchedKeepsCalls(t.runs[o.Run() := released], t.interactions, t.operations, t.attempts, p.id, x);
      PinCovers(t, p.id, x);
      PinStays(t.pin, t.runs, t.interactions[p.id := x], o.Run(), released);
      EmitKeeps(t, t.(interactions := t.interactions[p.id := x], runs := t.runs[o.Run() := released],
                      history := p.saved.history),
                [RunAwaiting(o.Run(), p.callID)]);
    }
  }

  lemma RunningIsClaimed(t: Thread, r: Id)
    requires Inv(t) && r in t.runs && t.runs[r].state.Running?
    ensures t.runs[r].epoch > 0
    ensures t.runs[r].digest.Some? ==> t.pin.Some?
  {
    hide Waiting, Calls;
  }

  // ---------------------------------------------------------------- replies

  /** A command with an unused run identifier is recorded for an existing or a new run. */
  lemma RecordKeepsLedger(rows: Rows, runs: Runs, epoch: nat, row: CommandRow, newRun: Run)
    requires Ledger(rows, runs, epoch)
    requires row.cmd.runID != "" && row.cmd.runID !in runs
    requires forall k ::
      0 <= k < |rows| ==> rows[k].cmd.runID != row.cmd.runID && rows[k].cmd.communicationID != row.cmd.communicationID
    requires !row.included && newRun.state.Pending? && newRun.epoch == 0 && row.execution == row.cmd.runID
    ensures Ledger(rows + [row], runs[row.cmd.runID := newRun], epoch)
  {
    var after := rows + [row];
    var more := runs[row.cmd.runID := newRun];
    forall r | r in more ensures r != "" && Opened(after, r) {
      if r == row.cmd.runID {
        assert after[|rows|].cmd.runID == r && after[|rows|].execution == r;
      } else {
        assert Opened(rows, r);
        var k :| 0 <= k < |rows| && rows[k].cmd.runID == r && rows[k].execution == r;
        assert after[k] == rows[k];
      }
    }
  }

  lemma SteerKeepsLedger(rows: Rows, runs: Runs, epoch: nat, row: CommandRow)
    requires Ledger(rows, runs, epoch)
    requires row.cmd.runID != "" && row.execution in runs && runs[row.execution].state.Live()
    requires forall k ::
      0 <= k < |rows| ==> rows[k].cmd.runID != row.cmd.runID && rows[k].cmd.communicationID != row.cmd.communicationID
    requires !row.included
    ensures Ledger(rows + [row], runs, epoch)
  {
    var after := rows + [row];
    assert InputsOk(after, runs);
    forall r | r in runs ensures r != "" && Opened(after, r) {
      assert Opened(rows, r);
      var k :| 0 <= k < |rows| && rows[k].cmd.runID == r && rows[k].execution == r;
      assert after[k] == rows[k];
    }
  }

  lemma AddedRowMoves(rows: Rows, row: CommandRow)
    ensures RowsMove(rows, rows + [row])
  {
  }

  /** A new command cannot pass for the reply behind an older continuation. */
  lemma SteerKeepsWaiting(rows: Rows, runs: Runs, interactions: Interactions, row: CommandRow)
    requires Waiting(rows, runs, interactions) && row.cmd.runID !in runs
    ensures Waiting(rows + [row], runs, interactions)
  {
  }

  lemma RecordKeepsWaiting(rows: Rows, runs: Runs, interactions: Interactions, row: CommandRow, newRun: Run)
    requires Waiting(rows, runs, interactions) && row.cmd.runID !in runs && newRun.state.Pending?
    requires forall r :: r in runs ==> !runs[r].state.Live()
    requires forall i :: i in interactions ==> !interactions[i].state.Open?
    ensures Waiting(rows + [row], runs[row.cmd.runID := newRun], interactions)
  {
  }

  lemma AnswerKeepsWaiting(rows: Rows, runs: Runs, interactions: Interactions, row: CommandRow, newRun: Run, i: Id,
      x: Interaction, completed: Run)
    requires Waiting(rows, runs, interactions) && i in interactions && interactions[i].state.Open?
    requires row.cmd.runID !in runs && row.cmd.runID != "" && row.cmd.interactionID == i && newRun.state.Pending?
    requires forall k :: 0 <= k < |rows| ==> rows[k].cmd.runID != row.cmd.runID
    requires x.state.Answered? && x.run == interactions[i].run && x.continuation == row.cmd.runID && MarkerOk(x)
    requires completed.state.Completed?
    ensures Waiting(rows + [row], runs[row.cmd.runID := newRun][x.run := completed], interactions[i := x])
  {
    var after := runs[row.cmd.runID := newRun][x.run := completed];
    assert ActivityOk(after, interactions[i := x]);
    assert WaitsOk(after, interactions[i := x]);
    assert ContinuationsOk(rows + [row], after, interactions[i := x]);
  }

  lemma FreshRunMoves(runs: Runs, r: Id, newRun: Run)
    requires r !in runs
    ensures RunsMove(runs, runs[r := newRun])
  {
  }

  lemma RunsMoveTransitive(a: Runs, b: Runs, c: Runs)
    requires RunsMove(a, b) && RunsMove(b, c)
    ensures RunsMove(a, c)
  {
  }

  lemma AnswerKeeps(t: Thread, now: int, c: Command)
    requires Inv(t) && c.interactionID in t.interactions && t.interactions[c.interactionID].state.Open?
    requires c.runID != "" && !RunIDTaken(t.runs, t.commands, c.runID)
    requires RowOf(t.commands, c.communicationID) == |t.commands|
    requires ValidReply(t.interactions[c.interactionID], c.reply)
    ensures var u := Answer(t, now, c, t.interactions[c.interactionID]); Inv(u) && Evolves(t, u)
  {
    hide Ledger, Waiting, Calls, PinOk, RowsMove, RunsMove, InteractionsMove, OperationsMove, AppendAll;
    var i := c.interactionID;
    var x := t.interactions[i];
    OpenMeansAwaiting(t, i);
    OpenApprovalHasJourney(t, i);
    var approve := x.kind.Approval? && c.reply.Approves();
    var next := x.(state := Answered, continuation := c.runID, marker := if x.kind.Approval? then
        (if approve then Decided else Denied) else NoMarker, approved := approve);
    var newRun := Run(Pending, "", 0, now + LEASE, x.journey, x.digest, None, "");
    var row := CommandRow(c, c.runID, false, if approve then Consumed else NoReason);
    var completed := t.runs[x.run].(state := Completed);
    var runs := t.runs[c.runID := newRun];
    Unmoved(t);
    RecordKeepsLedger(t.commands, t.runs, t.epoch, row, newRun);
    RestKeepsLedger(t.commands + [row], runs, t.epoch, x.run, completed);
    AnswerKeepsWaiting(t.commands, t.runs, t.interactions, row, newRun, i, next, completed);
    EpochKeepsCalls(t.runs, t.interactions, t.operations, t.attempts, c.runID, newRun);
    EpochKeepsCalls(runs, t.interactions, t.operations, t.attempts, x.run, completed);
    UndispatchedKeepsCalls(runs[x.run := completed], t.interactions, t.operations, t.attempts, i, next);
    AddedRowMoves(t.commands, row);
    FreshRunMoves(t.runs, c.runID, newRun);
    OneRunMoves(runs, x.run, completed);
    RunsMoveTransitive(t.runs, runs, runs[x.run := completed]);
    OneInteractionMoves(t.interactions, i, next);
    PinCovers(t, i, next);
    PinStays(t.pin, t.runs, t.interactions[i := next], c.runID, newRun);
    PinStays(t.pin, runs, t.interactions[i := next], x.run, completed);
    EmitKeeps(t, t.(commands := t.commands + [row], runs := runs[x.run := completed],
                    interactions := t.interactions[i := next]),
              [InteractionConsumed(x.run), CommandAccepted(c.runID, c.communicationID)]
              + (if approve then [CommandConsumed(c.runID, c.communicationID)] else []));
  }

  lemma OpenApprovalHasJourney(t: Thread, i: Id)
    requires Inv(t) && i in t.interactions
    ensures MarkerOk(t.interactions[i])
  {
    hide Ledger, Calls, PinOk;
  }

  lemma ReplyKeeps(t: Thread, now: int, c: Command)
    requires Inv(t)
    ensures Inv(ReplyTo(t, now, c).thread) && Evolves(t, ReplyTo(t, now, c).thread)
  {
    Unmoved(t);
    hide Inv, Evolves, Answer, ExpireInteractions;
    ExpireKeeps(t, now);
    if ReplyTo(t, now, c).err == Ok && RowOf(t.commands, c.communicationID) == |t.commands| {
      AnswerKeeps(t, now, c);
    }
  }

  // ---------------------------------------------------------------- admission

  lemma QuietRuns(t: Thread)
    requires Inv(t) && LiveRun(t.runs) == ""
    ensures forall r :: r in t.runs ==> !t.runs[r].state.Live()
  {
    hide Calls, Waiting, PinOk;
    forall r | r in t.runs ensures !t.runs[r].state.Live() {
      assert r != "";
    }
  }

  lemma AdmitFreshKeeps(t: Thread, u: Thread, now: int, c: Command)
    requires Inv(u) && c.runID != "" && RowOf(u.commands, c.communicationID) == |u.commands|
    requires AdmitFresh(t, u, now, c).err == Ok
    ensures Inv(AdmitFresh(t, u, now, c).thread) && Evolves(u, AdmitFresh(t, u, now, c).thread)
  {
    var live := LiveRun(u.runs);
    var row := CommandRow(c, if live == "" then c.runID else live, false, NoReason);
    var newRun := Run(Pending, "", 0, now + LEASE, "", None, None, "");
    hide Ledger, Waiting, Calls, PinOk, RowsMove, RunsMove, InteractionsMove, OperationsMove;
    Unmoved(u);
    AddedRowMoves(u.commands, row);
    if live == "" {
      QuietRuns(u);
      FreshRunMoves(u.runs, c.runID, newRun);
      RecordKeepsLedger(u.commands, u.runs, u.epoch, row, newRun);
      RecordKeepsWaiting(u.commands, u.runs, u.interactions, row, newRun);
      EpochKeepsCalls(u.runs, u.interactions, u.operations, u.attempts, c.runID, newRun);
      PinStays(u.pin, u.runs, u.interactions, c.runID, newRun);
      EmitKeeps(u, u.(commands := u.commands + [row], runs := u.runs[c.runID := newRun]),
                [CommandAccepted(c.runID, c.communicationID)]);
    } else {
      SteerKeepsLedger(u.commands, u.runs, u.epoch, row);
      SteerKeepsWaiting(u.commands, u.runs, u.interactions, row);
      EmitKeeps(u, u.(commands := u.commands + [row]), [CommandAccepted(live, c.communicationID)]);
    }
  }

  /** Closing overdue work changes dispositions, never which communications were seen. */
  lemma {:induction false} SameCommunications(rows: Rows, after: Rows, communication: Id)
    requires RowsMove(rows, after) && |after| == |rows|
    ensures RowOf(after, communication) == RowOf(rows, communication)
  {
    var k := RowOf(rows, communication);
    var j := RowOf(after, communication);
    if j < |after| { assert RowMoves(rows[j], after[j]); }
    if k < |rows| { assert RowMoves(rows[k], after[k]); }
  }

  lemma ReapKeepsCount(t: Thread, now: int, candidate: Id)
    ensures |Reap(t, now, candidate).commands| == |t.commands|
  {
  }

  lemma AdmitKeeps(t: Thread, now: int, c: Command)
    requires Inv(t)
    ensures Inv(Admit(t, now, c).thread) && Evolves(t, Admit(t, now, c).thread)
  {
    Unmoved(t);
    ReapKeepsCount(t, now, "");
    hide Inv, Reap, ReplyTo, AdmitFresh, RowsMove, InterruptExpired, ExpireInteractions;
    ReplyKeeps(t, now, c);
    ReapKeeps(t, now, "");
    var u := ExpireInteractions(InterruptExpired(t, now, ""), now);
    assert u == Reap(t, now, "") by { ReapIs(t, now); }
    if c.interactionID == "" && c.runID != "" && RowOf(t.commands, c.communicationID) == |t.commands| {
      SameCommunications(t.commands, u.commands, c.communicationID);
      AdmitFreshCases(t, u, now, c);
      if AdmitFresh(t, u, now, c).err == Ok {
        AdmitFreshKeeps(t, u, now, c);
        EvolvesTransitive(t, u, AdmitFresh(t, u, now, c).thread);
      }
    }
  }

  lemma ReapIs(t: Thread, now: int)
    ensures Reap(t, now, "") == ExpireInteractions(InterruptExpired(t, now, ""), now)
  {
  }

  lemma AdmitFreshCases(t: Thread, u: Thread, now: int, c: Command)
    ensures AdmitFresh(t, u, now, c).err != Ok ==> AdmitFresh(t, u, now, c).thread == t
  {
  }

  // ---------------------------------------------------------------- the inbox

  lemma IncludeKeepsLedger(rows: Rows, runs: Runs, epoch: nat, k: nat)
    requires Ledger(rows, runs, epoch) && k < |rows| && rows[k].Undecided()
    ensures var after := rows[k := rows[k].(included := true)]; Ledger(after, runs, epoch) && RowsMove(rows, after)
  {
    hide CommandsOk, EpochsOk;
    RowsKeepCommands(rows, rows[k := rows[k].(included := true)], runs);
  }

  lemma IncludeOneKeeps(t: Thread, run: Id, communication: Id)
    requires Inv(t)
    ensures var r := IncludeOne(t, run, communication); r.Some? ==> Inv(r.value) && Evolves(t, r.value)
  {
    hide Ledger, Waiting, Calls, PinOk, RowsMove, RunsMove, InteractionsMove, OperationsMove;
    if IncludeOne(t, run, communication).Some? {
      var k := RowOf(t.commands, communication);
      var after := t.commands[k := t.commands[k].(included := true)];
      Unmoved(t);
      IncludeKeepsLedger(t.commands, t.runs, t.epoch, k);
      SameCommandsKeepWaiting(t.commands, after, t.runs, t.interactions);
      EmitKeeps(t, t.(commands := after), [CommandIncluded(run, communication)]);
    }
  }

  lemma SameCommandsKeepWaiting(rows: Rows, after: Rows, runs: Runs, interactions: Interactions)
    requires Waiting(rows, runs, interactions) && RowsMove(rows, after) && |after| == |rows|
    ensures Waiting(after, runs, interactions)
  {
    forall i, k | i in interactions && interactions[i].state.Answered? && 0 <= k < |after|
      ensures after[k].cmd.runID == interactions[i].continuation ==> after[k].cmd.interactionID == i
    {
      assert RowMoves(rows[k], after[k]);
    }
  }

  lemma {:induction false} IncludeAllKeeps(t: Thread, run: Id, communications: seq<Id>)
    requires Inv(t)
    ensures var r := IncludeAll(t, run, communications); r.Some? ==> Inv(r.value) && Evolves(t, r.value)
    decreases |communications|
  {
    Unmoved(t);
    hide Inv, Evolves, IncludeOne;
    if communications != [] {
      IncludeOneKeeps(t, run, communications[0]);
      var next := IncludeOne(t, run, communications[0]);
      if next.Some? {
        IncludeAllKeeps(next.value, run, communications[1..]);
        var last := IncludeAll(next.value, run, communications[1..]);
        if last.Some? {
          EvolvesTransitive(t, next.value, last.value);
        }
      }
    }
  }

  // ---------------------------------------------------------------- tool calls

  /** A decided approval moves on; nothing else about interactions depends on that marker. */
  lemma MarkerKeepsWaiting(rows: Rows, runs: Runs, interactions: Interactions, i: Id, marker: Marker)
    requires Waiting(rows, runs, interactions) && i in interactions
    requires interactions[i].marker.Decided? && (marker.Dispatched? || marker.Superseded?)
    ensures Waiting(rows, runs, interactions[i := interactions[i].(marker := marker)])
  {
    hide ActivityOk, ContinuationsOk, WaitsOk, MarkersOk;
    MarkerKeepsWaits(runs, interactions, i, marker);
    MarkerKeepsContinuations(rows, runs, interactions, i, marker);
  }

  lemma MarkerKeepsContinuations(rows: Rows, runs: Runs, interactions: Interactions, i: Id, marker: Marker)
    requires ActivityOk(runs, interactions) && ContinuationsOk(rows, runs, interactions) && MarkersOk(interactions)
      && i in interactions
    requires interactions[i].marker.Decided? && (marker.Dispatched? || marker.Superseded?)
    ensures var after := interactions[i := interactions[i].(marker := marker)];
      ActivityOk(runs, after) && ContinuationsOk(rows, runs, after) && MarkersOk(after)
  {
    assert MarkerOk(interactions[i]);
  }

  lemma MarkerKeepsWaits(runs: Runs, interactions: Interactions, i: Id, marker: Marker)
    requires WaitsOk(runs, interactions) && i in interactions
    ensures WaitsOk(runs, interactions[i := interactions[i].(marker := marker)])
  {
    var after := interactions[i := interactions[i].(marker := marker)];
    forall r | r in runs && runs[r].state.AwaitingInput? ensures Waits(after, r) {
      assert Waits(interactions, r);
      var j :| j in interactions && interactions[j].run == r && interactions[j].state.Open?;
      assert after[j].run == r && after[j].state.Open?;
    }
  }

  lemma SupersedeKeeps(t: Thread, run: Id, i: Id)
    requires Inv(t)
    ensures Inv(SupersedeMark(t, run, i).thread) && Evolves(t, SupersedeMark(t, run, i).thread)
  {
    hide Ledger, Waiting, Calls, PinOk, RowsMove, RunsMove, InteractionsMove, OperationsMove;
    Unmoved(t);
    if SupersedeMark(t, run, i).thread != t {
      var x := t.interactions[i];
      var next := x.(marker := Superseded);
      OneInteractionMoves(t.interactions, i, next);
      MarkerKeepsWaiting(t.commands, t.runs, t.interactions, i, Superseded);
      UndispatchedKeepsCalls(t.runs, t.interactions, t.operations, t.attempts, i, next);
      InteractionIsPinned(t, i);
      PinCovers(t, i, next);
      EmitKeeps(t, t.(interactions := t.interactions[i := next]), [InteractionSuperseded(run, x.callID)]);
    }
  }

  lemma InteractionIsPinned(t: Thread, i: Id)
    requires Inv(t) && i in t.interactions
    ensures t.interactions[i].digest.Some? && t.pin.Some?
  {
    hide Ledger, Waiting, Calls;
  }

  lemma NewOperationKeepsAttempts(operations: Operations, attempts: Attempts, c: Id, op: Operation)
    requires AttemptsOk(attempts, operations) && c !in operations && op.outcome.Dispatching?
    ensures AttemptsOk(attempts[(c, 1) := Dispatching], operations[c := op])
  {
    var after := attempts[(c, 1) := Dispatching];
    var more := operations[c := op];
    forall d | d in more ensures AttemptsOf(after, d, more[d]) {
      if d != c {
        assert AttemptsOf(attempts, d, operations[d]);
      } else {
        assert (c, 2) !in attempts;
      }
    }
  }

  /** The one step that turns a decided approval into an operation. */
  lemma DispatchKeepsApprovals(interactions: Interactions, operations: Operations, i: Id, c: Id, op: Operation)
    requires ApprovalsOk(operations, interactions) && i in interactions && c !in operations
    requires !interactions[i].marker.Dispatched? && op.requiresApproval
    requires Backs(interactions[i].(marker := Dispatched), c, op)
    ensures ApprovalsOk(operations[c := op], interactions[i := interactions[i].(marker := Dispatched)])
  {
    var after := interactions[i := interactions[i].(marker := Dispatched)];
    var more := operations[c := op];
    forall d | d in more && more[d].requiresApproval ensures Backed(after, d, more[d]) {
      if d == c {
        assert Backs(after[i], c, op);
      } else {
        assert Backed(interactions, d, operations[d]);
        var j :| j in interactions && Backs(interactions[j], d, operations[d]);
        assert Backs(after[j], d, more[d]);
      }
    }
  }

  lemma FirstAttemptKeeps(t: Thread, now: int, run: Id, op: Call, approval: Id)
    requires Inv(t) && run in t.runs && t.runs[run].state.Running? && op.callID != ""
    requires !op.policy.Unreviewed? && (op.policy.ReadOnly? || op.requiresApproval)
    requires !OtherUnresolved(t, op.callID)
    ensures var u := FirstAttempt(t, now, run, op, approval).thread; Inv(u) && Evolves(t, u)
  {
    Unmoved(t);
    hide Inv, Evolves, SupersedeMark;
    SupersedeKeeps(t, run, approval);
    if FirstAttempt(t, now, run, op, approval).err == Ok {
      DispatchKeeps(t, now, run, op, approval);
    }
  }

  lemma DispatchKeeps(t: Thread, now: int, run: Id, op: Call, approval: Id)
    requires Inv(t) && run in t.runs && t.runs[run].state.Running? && op.callID != ""
    requires !op.policy.Unreviewed? && (op.policy.ReadOnly? || op.requiresApproval)
    requires !OtherUnresolved(t, op.callID) && FirstAttempt(t, now, run, op, approval).err == Ok
    ensures var u := FirstAttempt(t, now, run, op, approval).thread; Inv(u) && Evolves(t, u)
  {
    hide Ledger, Waiting, Calls, PinOk, RowsMove, RunsMove, InteractionsMove, OperationsMove, AppendAll;
    Unmoved(t);
    RunningIsClaimed(t, run);
    var c := op.callID;
    var row := Operation(run, op.name, op.binding, op.policy, op.requiresApproval, Dispatching,
                         if op.journey != "" then op.journey else t.runs[run].journey);
    var operations := t.operations[c := row];
    var attempts := t.attempts[(c, 1) := Dispatching];
    NewOperationMoves(t.operations, c, row);
    if op.requiresApproval {
      var x := t.interactions[approval];
      OpenApprovalHasJourney(t, approval);
      var next := x.(marker := Dispatched);
      DispatchKeepsCalls(t, approval, c, row);
      MarkerKeepsWaiting(t.commands, t.runs, t.interactions, approval, Dispatched);
      OneInteractionMoves(t.interactions, approval, next);
      InteractionIsPinned(t, approval);
      PinCovers(t, approval, next);
      EmitKeeps(t, t.(operations := operations, interactions := t.interactions[approval := next], attempts := attempts),
                [ToolStarted(run, c, op.name)]);
    } else {
      ReadKeepsCalls(t, c, row);
      EmitKeeps(t, t.(operations := operations, attempts := attempts), [ToolStarted(run, c, op.name)]);
    }
  }

  lemma NewOperationMoves(operations: Operations, c: Id, op: Operation)
    requires c !in operations
    ensures OperationsMove(operations, operations[c := op])
  {
  }

  lemma DispatchKeepsCalls(t: Thread, i: Id, c: Id, op: Operation)
    requires Calls(t.runs, t.interactions, t.operations, t.attempts) && c !in t.operations && c != ""
    requires forall d :: d in t.operations ==> !Unresolved(t.operations[d].outcome)
    requires op.run in t.runs && t.runs[op.run].epoch > 0 && op.outcome.Dispatching? && !op.policy.Unreviewed?
    requires i in t.interactions && !t.interactions[i].marker.Dispatched? && op.requiresApproval
    requires Backs(t.interactions[i].(marker := Dispatched), c, op)
    ensures Calls(t.runs, t.interactions[i := t.interactions[i].(marker := Dispatched)],
                  t.operations[c := op], t.attempts[(c, 1) := Dispatching])
  {
    NewOperationsOk(t.runs, t.operations, c, op);
    hide OperationsOk, AttemptsOk, ApprovalsOk;
    NewOperationKeepsAttempts(t.operations, t.attempts, c, op);
    DispatchKeepsApprovals(t.interactions, t.operations, i, c, op);
  }

  lemma ReadKeepsCalls(t: Thread, c: Id, op: Operation)
    requires Calls(t.runs, t.interactions, t.operations, t.attempts) && c !in t.operations && c != ""
    requires forall d :: d in t.operations ==> !Unresolved(t.operations[d].outcome)
    requires op.run in t.runs && t.runs[op.run].epoch > 0 && op.outcome.Dispatching? && op.policy.ReadOnly?
      && !op.requiresApproval
    ensures Calls(t.runs, t.interactions, t.operations[c := op], t.attempts[(c, 1) := Dispatching])
  {
    hide OperationsOk, AttemptsOk, ApprovalsOk;
    NewOperationsOk(t.runs, t.operations, c, op);
    NewOperationKeepsAttempts(t.operations, t.attempts, c, op);
    ReadKeepsApprovals(t.operations, t.interactions, c, op);
  }

  lemma ReadKeepsApprovals(operations: Operations, interactions: Interactions, c: Id, op: Operation)
    requires ApprovalsOk(operations, interactions) && c !in operations && !op.requiresApproval
    ensures ApprovalsOk(operations[c := op], interactions)
  {
    var more := operations[c := op];
    forall d | d in more && more[d].requiresApproval ensures Backed(interactions, d, more[d]) {
      assert Backed(interactions, d, operations[d]);
    }
  }

  lemma NewOperationsOk(runs: Runs, operations: Operations, c: Id, op: Operation)
    requires OperationsOk(operations, runs) && c !in operations && c != ""
    requires forall d :: d in operations ==> !Unresolved(operations[d].outcome)
    requires op.run in runs && runs[op.run].epoch > 0
    requires !op.policy.Unreviewed? && (op.policy.ReadOnly? || op.requiresApproval)
    ensures OperationsOk(operations[c := op], runs)
  {
  }

  /** An attempt opens or closes: the operation and its latest attempt change together. */
  lemma OutcomeKeeps(t: Thread, c: Id, attempt: int, outcome: Outcome, es: seq<Event>)
    requires Inv(t) && c in t.operations && !OtherUnresolved(t, c)
    requires attempt == 1 || attempt == 2
    requires attempt == 2 ==>
      !t.operations[c].policy.Effectful? && (t.operations[c].outcome.Dispatching? ==> (c, 2) in t.attempts)
    requires attempt == 1 ==> (c, 2) !in t.attempts
    requires t.operations[c].outcome.Dispatching? || t.operations[c].outcome.Rejected?
        || t.operations[c].outcome.Unknown?
    requires t.operations[c].outcome.Unknown? ==> !t.operations[c].policy.Effectful?
    ensures
      var u := Emit(t.(operations := t.operations[c := t.operations[c].(outcome := outcome)],
                       attempts := t.attempts[(c, attempt) := outcome]), es);
      Inv(u) && Evolves(t, u)
  {
    hide Ledger, Waiting, Calls, PinOk, RowsMove, RunsMove, InteractionsMove, OperationsMove, AppendAll;
    Unmoved(t);
    OutcomeKeepsCalls(t, c, attempt, outcome);
    OneOperationMoves(t.operations, c, outcome);
    EmitKeeps(t, t.(operations := t.operations[c := t.operations[c].(outcome := outcome)],
                    attempts := t.attempts[(c, attempt) := outcome]), es);
  }

  lemma OneOperationMoves(operations: Operations, c: Id, outcome: Outcome)
    requires c in operations && OperationMoves(operations[c], operations[c].(outcome := outcome))
    ensures OperationsMove(operations, operations[c := operations[c].(outcome := outcome)])
  {
  }

  lemma OutcomeKeepsCalls(t: Thread, c: Id, attempt: int, outcome: Outcome)
    requires Calls(t.runs, t.interactions, t.operations, t.attempts) && c in t.operations && !OtherUnresolved(t, c)
    requires attempt == 1 || attempt == 2
    requires attempt == 2 ==>
      !t.operations[c].policy.Effectful? && (t.operations[c].outcome.Dispatching? ==> (c, 2) in t.attempts)
    requires attempt == 1 ==> (c, 2) !in t.attempts
    ensures Calls(t.runs, t.interactions, t.operations[c := t.operations[c].(outcome := outcome)],
                  t.attempts[(c, attempt) := outcome])
  {
    OutcomeKeepsAttempts(t.operations, t.attempts, c, attempt, outcome);
    hide OperationsOk, AttemptsOk, ApprovalsOk;
    OutcomeKeepsOperations(t.runs, t.interactions, t.operations, c, outcome);
  }

  lemma OutcomeKeepsAttempts(operations: Operations, attempts: Attempts, c: Id, attempt: int, outcome: Outcome)
    requires AttemptsOk(attempts, operations) && c in operations
    requires attempt == 1 || attempt == 2
    requires attempt == 2 ==>
      !operations[c].policy.Effectful? && (operations[c].outcome.Dispatching? ==> (c, 2) in attempts)
    requires attempt == 1 ==> (c, 2) !in attempts
    ensures AttemptsOk(attempts[(c, attempt) := outcome], operations[c := operations[c].(outcome := outcome)])
  {
    var after := attempts[(c, attempt) := outcome];
    var more := operations[c := operations[c].(outcome := outcome)];
    forall d | d in more ensures AttemptsOf(after, d, more[d]) {
      assert AttemptsOf(attempts, d, operations[d]);
    }
  }

  lemma AttemptsOfOp(t: Thread, c: Id)
    requires Inv(t) && c in t.operations
    ensures AttemptsOf(t.attempts, c, t.operations[c])
    ensures Unresolved(t.operations[c].outcome) ==> !OtherUnresolved(t, c)
    ensures forall n :: (c, n) in t.attempts ==> n == 1 || n == 2
  {
    hide Ledger, Waiting, PinOk, ApprovalsOk;
    forall n | (c, n) in t.attempts ensures n == 1 || n == 2 {
      assert (c, n).1 == n;
    }
  }

  lemma BeginKeeps(t: Thread, now: int, o: Owner, op: Call, attempt: int, approval: Id)
    requires Inv(t)
    ensures var u := BeginAttempt(t, now, o, op, attempt, approval).thread; Inv(u) && Evolves(t, u)
  {
    Unmoved(t);
    hide Inv, Evolves, FirstAttempt, AppendAll;
    var r := BeginAttempt(t, now, o, op, attempt, approval);
    if r.thread != t {
      if attempt == 1 {
        FirstAttemptKeeps(t, now, o.Run(), op, approval);
      } else {
        OutcomeKeeps(t, op.callID, 2, Dispatching, [ToolStarted(o.Run(), op.callID, op.name)]);
      }
    }
  }

  lemma EndAttemptKeeps(t: Thread, now: int, o: Owner, callID: Id, name: Id, attempt: int, outcome: Outcome)
    requires Inv(t)
    ensures var u := EndAttempt(t, now, o, callID, name, attempt, outcome).thread; Inv(u) && Evolves(t, u)
  {
    Unmoved(t);
    hide Inv, Evolves, AppendAll;
    if EndAttempt(t, now, o, callID, name, attempt, outcome).thread != t {
      AttemptsOfOp(t, callID);
      OutcomeKeeps(t, callID, attempt, outcome, [ToolEnded(o.Run(), callID, name, outcome)]);
    }
  }

  // ---------------------------------------------------------------- any step

  /** The preservation theorem: one transaction, whichever it is. */
  lemma StepKeeps(t: Thread, now: int, current: Option<Digest>, s: Step)
    requires Inv(t)
    ensures Inv(Apply(t, now, current, s).thread)
    ensures Evolves(t, Apply(t, now, current, s).thread)
  {
    Unmoved(t);
    hide Inv, Evolves, Admit, Claim, Renew, Reap, Included, Wait, Supersede, BeginAttempt, EndAttempt, Start;
    hide ResolveDefinition, Finish, RecordScope, AppendAll;
    match s {
      case StepAdmit(c) => AdmitKeeps(t, now, c);
      case StepClaim(c, id, duration) => ClaimKeeps(t, now, c, id, duration);
      case StepRenew(o, duration) => RenewKeeps(t, now, o, duration);
      case StepReap(candidate) => ReapKeeps(t, now, candidate);
      case StepIncluded(o, communications) => IncludedKeeps(t, now, o, communications);
      case StepWait(o, p) => WaitKeeps(t, now, o, p);
      case StepSupersede(o, i) => OwnedSupersedeKeeps(t, now, o, i);
      case StepBegin(o, op, attempt, approval) => BeginKeeps(t, now, o, op, attempt, approval);
      case StepEnd(o, callID, name, attempt, outcome) => EndAttemptKeeps(t, now, o, callID, name, attempt, outcome);
      case StepStart(o, journey, digest) => StartKeeps(t, now, o, journey, digest, current);
      case StepResolve(o, served) => ResolveKeeps(t, now, o, current, served);
      case StepFinish(o, state, history, answer, callID, tool) =>
        FinishKeeps(t, now, o, state, history, answer, callID, tool);
      case StepScope(o, scope) => ScopeKeeps(t, now, o, scope);
      case StepActive(o, ids) => ActiveKeeps(t, now, o, ids);
      case StepNote(o) => EmitKeeps(t, t, [Noted(o.Run())]);
    }
  }

  lemma IncludedKeeps(t: Thread, now: int, o: Owner, communications: seq<Id>)
    requires Inv(t)
    ensures var u := Included(t, now, o, communications).thread; Inv(u) && Evolves(t, u)
  {
    Unmoved(t);
    hide Inv, Evolves, IncludeAll;
    IncludeAllKeeps(t, o.Run(), communications);
  }

  lemma OwnedSupersedeKeeps(t: Thread, now: int, o: Owner, i: Id)
    requires Inv(t)
    ensures var u := Supersede(t, now, o, i).thread; Inv(u) && Evolves(t, u)
  {
    Unmoved(t);
    hide Inv, Evolves, SupersedeMark;
    SupersedeKeeps(t, o.Run(), i);
  }

  lemma ActiveKeeps(t: Thread, now: int, o: Owner, ids: seq<Id>)
    requires Inv(t)
    ensures var u := SetActive(t, now, o, ids).thread; Inv(u) && Evolves(t, u)
  {
    hide Ledger, Waiting, Calls, PinOk, RowsMove, RunsMove, InteractionsMove, OperationsMove;
    Unmoved(t);
  }
}
