/** The store of one thread as the code runs it: tables updated in place, statement by statement, each
    transaction proved to commit exactly what the functions of module Journal say and to keep the invariant. */
module JournalStore {
  import opened Basics
  import opened EventLog
  import opened Journal
  import History
  import opened Questions
  import opened JournalInvariant
  import opened JournalSteps

  lemma {:induction false} EmitOne(log: Log<Event>, e: Event)
    ensures AppendAll(log, [e]) == Append(log, e)
  {
    assert [e][1..] == [];
  }

  lemma {:induction false} EmitLast(log: Log<Event>, es: seq<Event>, e: Event)
    ensures AppendAll(log, es + [e]) == Append(AppendAll(log, es), e)
    decreases |es|
  {
    if es == [] {
      EmitOne(log, e);
    } else {
      assert (es + [e])[1..] == es[1..] + [e];
      EmitLast(Append(log, es[0]), es[1..], e);
    }
  }

  class ThreadStore {
    const id: Id
    const principal: Id
    var epoch: nat
    var pin: Option<Digest>
    var active: seq<Id>
    var history: seq<History.Message>
    var runs: map<Id, Run>
    var commands: seq<CommandRow>
    var interactions: map<Id, Interaction>
    var operations: map<Id, Operation>
    var attempts: map<(Id, int), Outcome>
    var log: Log<Event>

    ghost function View(): Thread
      reads this
    {
      Thread(id, principal, epoch, pin, active, history, runs, commands, interactions, operations, attempts, log)
    }

    ghost predicate Valid()
      reads this
    {
      Inv(View())
    }

    /** The conversation row inserted by the first admission. */
    constructor (id: Id, principal: Id)
      ensures View() == NewThread(id, principal) && Valid()
    {
      this.id, this.principal := id, principal;
      epoch, pin, active, history := 0, None, [], [];
      runs, commands, interactions, operations, attempts := map[], [], map[], map[], map[];
      log := Log(0, map[]);
      new;
      InitialInv(id, principal);
    }

    method AppendEvent(e: Event)
      modifies this`log
      ensures View() == Emit(old(View()), [e])
    {
      EmitOne(log, e);
      var sequence := log.sequence + 1;
      log := Log(sequence, log.rows[sequence := e]);
    }

    method LockOwner(now: int, o: Owner) returns (err: Error)
      ensures err == Journal.LockOwner(View(), now, o)
    {
      if principal != o.command.principal {
        return ErrForbidden;
      }
      if o.Run() !in runs {
        return ErrOwnership;
      }
      var run := runs[o.Run()];
      if !(run.state.Running? && run.owner == o.id && run.epoch == o.epoch && run.lease > now) {
        return ErrOwnership;
      }
      return Ok;
    }

    method Claim(now: int, c: Command, owner: Id, duration: int) returns (o: Owner, err: Error)
      requires Valid()
      modifies this`epoch, this`runs, this`log
      ensures View() == Journal.Claim(old(View()), now, c, owner, duration).thread
        && err == Journal.Claim(old(View()), now, c, owner, duration).err
      ensures err == Ok ==> o == Owner(c, owner, epoch)
      ensures Valid()
    {
      hide Inv, Evolves, AppendAll;
      ClaimKeeps(View(), now, c, owner, duration);
      o := Owner(c, owner, 0);
      if owner == "" || duration <= 0 || principal != c.principal {
        return o, ErrOwnership;
      }
      if !exists k :: 0 <= k < |commands| && commands[k].cmd == c && commands[k].execution == c.runID {
        return o, ErrOwnership;
      }
      if c.runID !in runs {
        return o, ErrOwnership;
      }
      var run := runs[c.runID];
      var valid := run.lease > now;
      var recoverable := false;
      if run.state.Pending? && run.epoch == 0 && !valid && c.interactionID != "" {
        recoverable := c.interactionID in interactions && interactions[c.interactionID].continuation == c.runID
                       && interactions[c.interactionID].state.Answered?;
      }
      if !run.state.Pending? || (!valid && !recoverable) {
        return o, ErrOwnership;
      }
      epoch := epoch + 1;
      o := Owner(c, owner, epoch);
      runs := runs[c.runID := run.(state := Running, owner := owner, epoch := epoch, lease := now + duration)];
      AppendEvent(RunStarted(c.runID));
      return o, Ok;
    }

    method Renew(now: int, o: Owner, duration: int) returns (err: Error)
      requires Valid()
      modifies this`runs
      ensures View() == Journal.Renew(old(View()), now, o, duration).thread
        && err == Journal.Renew(old(View()), now, o, duration).err
      ensures Valid()
    {
      hide Inv;
      RenewKeeps(View(), now, o, duration);
      if duration <= 0 {
        return ErrOwnership;
      }
      err := LockOwner(now, o);
      if err != Ok {
        return;
      }
      runs := runs[o.Run() := runs[o.Run()].(lease := now + duration)];
    }

    /** operations.go markOperationsUnknown: attempts first, then every row in flight with its event. */
    method MarkOperationsUnknown(run: Id)
      requires Calls(runs, interactions, operations, attempts)
      modifies this`operations, this`attempts, this`log
      ensures View() == MarkUnknown(old(View()), run)
    {
      hide AppendAll, Calls, InFlight, MarkAttempts;
      ghost var was := View();
      ghost var c := InFlight(operations, run);
      attempts := MarkAttempts(attempts, operations, run);
      var open := set d | d in operations && operations[d].run == run && operations[d].outcome.Dispatching?;
      assert open == if c == "" then {} else {c} by {
        OneInFlight(was, run);
      }
      var todo := open;
      while todo != {}
        invariant todo == open || todo == {}
        invariant todo == open ==> View() == was.(attempts := MarkAttempts(was.attempts, was.operations, run))
        invariant todo != open ==> View() == MarkUnknown(was, run)
      {
        var d :| d in todo;
        assert d == c && todo == {c};
        operations := operations[d := operations[d].(outcome := Unknown)];
        AppendEvent(ToolEnded(run, d, operations[d].name, Unknown));
        todo := todo - {d};
      }
    }

    /** inbox.go disposePending: update the rows, then report them in ordinal order. */
    method DisposePending(run: Id, reason: RunState)
      modifies this`commands, this`log
      ensures View() == Dispose(old(View()), run, reason)
    {
      hide AppendAll, DisposeRows, DisposeEvents;
      var disposed := DisposeCommands(run, reason);
      ReportDisposed(disposed, run, reason);
    }

    method DisposeCommands(run: Id, reason: RunState) returns (disposed: seq<Id>)
      modifies this`commands
      ensures commands == DisposeRows(old(commands), run, reason)
      ensures Reported(disposed, run, reason) == DisposeEvents(old(commands), run, reason)
    {
      hide DisposeRows, AppendAll;
      disposed := [];
      var k := 0;
      while k < |commands|
        invariant 0 <= k <= |commands| == |old(commands)|
        invariant forall j :: 0 <= j < k ==> commands[j] == DisposeRow(old(commands)[j], run, reason)
        invariant forall j :: k <= j < |commands| ==> commands[j] == old(commands)[j]
        invariant Reported(disposed, run, reason) == DisposeEvents(old(commands)[..k], run, reason)
      {
        var row := commands[k];
        assert old(commands)[..k + 1][..k] == old(commands)[..k];
        if row.execution == run && row.Undecided() {
          commands := commands[k := row.(reason := Ended(reason))];
          ReportedLast(disposed, row.cmd.communicationID, run, reason);
          disposed := disposed + [row.cmd.communicationID];
        }
        k := k + 1;
      }
      assert old(commands)[..k] == old(commands);
    }

    method ReportDisposed(disposed: seq<Id>, run: Id, reason: RunState)
      modifies this`log
      ensures View() == Emit(old(View()), Reported(disposed, run, reason))
    {
      var j := 0;
      while j < |disposed|
        invariant 0 <= j <= |disposed|
        invariant log == AppendAll(old(log), Reported(disposed[..j], run, reason))
      {
        var e := CommandDisposed(run, disposed[j], reason);
        ReportedLast(disposed[..j], disposed[j], run, reason);
        assert disposed[..j + 1] == disposed[..j] + [disposed[j]];
        EmitLast(old(log), Reported(disposed[..j], run, reason), e);
        EmitOne(log, e);
        AppendEvent(e);
        j := j + 1;
      }
      assert disposed[..j] == disposed;
    }

    // ---------------------------------------------------------------- endings

    /** The live run the query returns, "" for no row. */
    method FindLive(candidate: Id) returns (run: Id)
      requires Valid()
      ensures run == LiveCandidate(View(), candidate)
    {
      hide Ledger, Waiting, Calls, PinOk;
      if candidate == "" {
        if !exists r :: r in runs && r != "" && runs[r].state.Live() {
          return "";
        }
        run :| run in runs && run != "" && runs[run].state.Live();
        LiveRunUnique(View(), run);
      } else if candidate in runs && runs[candidate].state.Live() {
        run := candidate;
      } else {
        run := "";
      }
    }

    /** The run stops, then its operations, its commands and its event follow. */
    method StopRun(run: Id)
      requires Valid() && run in runs
      modifies this
      ensures View() == Interrupt(old(View()), run)
    {
      hide Inv, AppendAll, MarkUnknown, Dispose;
      StoppedCalls(View(), run, runs[run].(state := Interrupted));
      runs := runs[run := runs[run].(state := Interrupted)];
      MarkOperationsUnknown(run);
      DisposePending(run, Interrupted);
      AppendEvent(RunEnded(run, Interrupted));
    }

    method InterruptExpired(now: int, candidate: Id)
      requires Valid()
      modifies this
      ensures View() == Journal.InterruptExpired(old(View()), now, candidate) && Valid()
    {
      hide Inv, Evolves, Interrupt, LiveCandidate;
      InterruptExpiredKeeps(View(), now, candidate);
      var run := FindLive(candidate);
      if run == "" {
        return;
      }
      LiveIsThere(View(), candidate);
      var continuation := exists i ::
          i in interactions && interactions[i].state.Answered? && interactions[i].continuation == run;
      if runs[run].lease > now || (runs[run].state.Pending? && runs[run].epoch == 0 && continuation) {
        return;
      }
      StopRun(run);
    }

    method LapseOne(i: Id)
      requires i in interactions
      modifies this
      ensures View() == Lapse(old(View()), i)
    {
      hide AppendAll;
      var row := interactions[i];
      var marker := if row.kind.Approval? then Denied else NoMarker;
      interactions := interactions[i := row.(state := Lapsed, marker := marker)];
      history := row.saved.history + [History.ResultMessage(row.saved.provider)];
      if row.run in runs && runs[row.run].state.AwaitingInput? {
        runs := runs[row.run := runs[row.run].(state := Failed)];
      }
      TwoEvents(log, InteractionExpired(row.run), RunEnded(row.run, Failed));
      AppendEvent(InteractionExpired(row.run));
      AppendEvent(RunEnded(row.run, Failed));
    }

    method ExpireInteractions(now: int)
      requires Valid()
      modifies this
      ensures View() == Journal.ExpireInteractions(old(View()), now) && Valid()
    {
      hide Inv, Evolves, AppendAll, Overdue, Lapse;
      ExpireKeeps(View(), now);
      ghost var was := View();
      ghost var x := Overdue(interactions, now);
      var due := set i | i in interactions && interactions[i].state.Open? && interactions[i].expires <= now;
      assert due == if x == "" then {} else {x} by {
        OneOverdue(was, now);
      }
      var todo := due;
      while todo != {}
        invariant todo == due || todo == {}
        invariant todo == due ==> View() == was
        invariant todo != due ==> View() == Lapse(was, x)
      {
        var i :| i in todo;
        assert i == x && todo == {x};
        LapseOne(i);
        todo := todo - {i};
      }
    }

    /** The per-candidate transaction of Reap. */
    method Reap(now: int, candidate: Id)
      requires Valid()
      modifies this
      ensures View() == Journal.Reap(old(View()), now, candidate) && Valid()
    {
      InterruptExpired(now, candidate);
      ExpireInteractions(now);
    }

    /** The events of a completed run, in the order the code appends them. */
    method ReportCompletion(run: Id, state: RunState, answer: string, callID: Id, tool: Id)
      modifies this`log
      ensures View() == Emit(old(View()), Closing(run, state, answer, callID, tool))
    {
      EmitNone(log);
      if state.Completed? {
        if callID != "" {
          TwoEvents(log, ToolEnded(run, callID, tool, Done), MessageCompleted(run, answer));
          assert [ToolEnded(run, callID, tool, Done)] + [MessageCompleted(run, answer)]
            == [ToolEnded(run, callID, tool, Done), MessageCompleted(run, answer)];
          AppendEvent(ToolEnded(run, callID, tool, Done));
        } else {
          assert [] + [MessageCompleted(run, answer)] == [MessageCompleted(run, answer)];
        }
        AppendEvent(MessageCompleted(run, answer));
      }
    }

    method Finish(
        now: int, o: Owner, state: RunState, delivered: Option<seq<History.Message>>,
        answer: string, callID: Id, tool: Id)
      returns (err: Error)
      requires Valid()
      modifies this
      ensures View() == Journal.Finish(old(View()), now, o, state, delivered, answer, callID, tool).thread
      ensures err == Journal.Finish(old(View()), now, o, state, delivered, answer, callID, tool).err && Valid()
    {
      hide Inv, Evolves, Calls, AppendAll, MarkUnknown, Dispose;
      FinishKeeps(View(), now, o, state, delivered, answer, callID, tool);
      ValidCalls(View());
      if !Terminal(state) {
        return ErrState;
      }
      err := LockOwner(now, o);
      if err != Ok {
        return;
      }
      var run := o.Run();
      if state.Completed? {
        if exists k :: 0 <= k < |commands| && commands[k].execution == run && commands[k].Undecided() {
          return ErrPending;
        }
      } else {
        MarkOperationsUnknown(run);
        DisposePending(run, state);
      }
      if delivered.Some? && runs[run].digest.Some? {
        history := delivered.value;
      }
      ClosingThenEnd(log, run, state, answer, callID, tool);
      ReportCompletion(run, state, answer, callID, tool);
      runs := runs[run := runs[run].(state := state, answer := answer)];
      AppendEvent(RunEnded(run, state));
    }

    // ---------------------------------------------------------------- inbox and admission

    method Pending(now: int, o: Owner) returns (inbox: seq<CommandRow>, err: Error)
      ensures err == Journal.LockOwner(View(), now, o)
      ensures err == Ok ==> inbox == PendingOf(commands, o.Run())
    {
      hide Journal.LockOwner, PendingOf;
      inbox := [];
      err := LockOwner(now, o);
      if err != Ok {
        return;
      }
      var k := 0;
      PendingNone(commands, o.Run());
      while k < |commands|
        invariant 0 <= k <= |commands| && inbox == PendingOf(commands[..k], o.Run())
      {
        PendingNext(commands, o.Run(), k);
        if commands[k].execution == o.Run() && commands[k].Undecided() {
          inbox := inbox + [commands[k]];
        }
        k := k + 1;
      }
      assert commands[..k] == commands;
    }

    /** inbox.go Included: all communications or, after a rollback, none. */
    method Included(now: int, o: Owner, communications: seq<Id>) returns (err: Error)
      requires Valid()
      modifies this
      ensures View() == Journal.Included(old(View()), now, o, communications).thread
      ensures err == Journal.Included(old(View()), now, o, communications).err && Valid()
    {
      hide Inv, Evolves, AppendAll;
      IncludedKeeps(View(), now, o, communications);
      err := LockOwner(now, o);
      if err != Ok {
        return;
      }
      ghost var was := View();
      var savedCommands, savedLog := commands, log;
      var k := 0;
      while k < |communications|
        invariant 0 <= k <= |communications|
        invariant View() == was.(commands := commands, log := log)
        invariant IncludeAll(View(), o.Run(), communications[k..]) == IncludeAll(was, o.Run(), communications)
      {
        var row := RowOf(commands, communications[k]);
        assert communications[k..][1..] == communications[k + 1..];
        if row == |commands| || commands[row].execution != o.Run() || !commands[row].Undecided() {
          commands, log := savedCommands, savedLog;
          return ErrState;
        }
        commands := commands[row := commands[row].(included := true)];
        AppendEvent(CommandIncluded(o.Run(), communications[k]));
        k := k + 1;
      }
      assert communications[k..] == [];
    }

    /** commands.go Admit for input that is not a reply.  Overdue work is closed in the same
        transaction, so a refusal rolls that back too. */
    method AdmitInput(now: int, c: Command) returns (err: Error)
      requires Valid() && c.interactionID == ""
      modifies this
      ensures View() == Journal.Admit(old(View()), now, c).thread
      ensures err == Journal.Admit(old(View()), now, c).err && Valid()
    {
      hide Inv, Evolves, AppendAll, Journal.InterruptExpired, Journal.ExpireInteractions, AdmitFresh, ReplyTo;
      AdmitKeeps(View(), now, c);
      if c.runID == "" || c.communicationID == "" || c.principal == "" || c.text == "" {
        return ErrState;
      }
      if principal != c.principal {
        return ErrForbidden;
      }
      var k := RowOf(commands, c.communicationID);
      if k < |commands| {
        return if commands[k].cmd == c then Ok else ErrConflict;
      }
      err := AdmitUnseen(now, c);
    }

    /** Overdue work is closed first; a refusal rolls that back. */
    method AdmitUnseen(now: int, c: Command) returns (err: Error)
      requires Valid()
      modifies this
      ensures
        var swept := Journal.ExpireInteractions(Journal.InterruptExpired(old(View()), now, ""), now);
        && View() == AdmitFresh(old(View()), swept, now, c).thread
        && err == AdmitFresh(old(View()), swept, now, c).err
    {
      hide Inv, Evolves, AppendAll, Journal.InterruptExpired, Journal.ExpireInteractions, AdmitFresh;
      ghost var was := View();
      var savedRuns, savedCommands, savedInteractions := runs, commands, interactions;
      var savedOperations, savedAttempts, savedHistory, savedLog := operations, attempts, history, log;
      InterruptExpired(now, "");
      ExpireInteractions(now);
      SameHead(was, now);
      AdmitFreshCases(was, View(), now, c);
      err := Accept(was, now, c);
      if err != Ok {
        runs, commands, interactions := savedRuns, savedCommands, savedInteractions;
        operations, attempts, history, log := savedOperations, savedAttempts, savedHistory, savedLog;
      }
    }

    /** The command joins the live run's inbox, or opens a run of its own. */
    method Accept(ghost was: Thread, now: int, c: Command) returns (err: Error)
      requires Valid()
      modifies this`commands, this`runs, this`log
      ensures err == AdmitFresh(was, old(View()), now, c).err
      ensures err == Ok ==> View() == AdmitFresh(was, old(View()), now, c).thread
    {
      hide Inv, AppendAll;
      if exists i :: i in interactions && interactions[i].state.Open? {
        return ErrBusy;
      }
      var live := FindLive("");
      LiveRow(View());
      if live != "" && c.targetJourney != "" && c.targetJourney != runs[live].journey
         && !exists k ::
             0 <= k < |commands| && commands[k].cmd.runID == live && commands[k].cmd.targetJourney == c.targetJourney {
        return ErrBusy;
      }
      if RunIDTaken(runs, commands, c.runID) {
        return ErrConflict;
      }
      var execution := if live == "" then c.runID else live;
      commands := commands + [CommandRow(c, execution, false, NoReason)];
      if live == "" {
        runs := runs[c.runID := Run(RunState.Pending, "", 0, now + LEASE, "", None, None, "")];
      }
      AppendEvent(CommandAccepted(execution, c.communicationID));
      return Ok;
    }

    // ---------------------------------------------------------------- waits and replies

    method Validate(p: Proposal) returns (ok: bool)
      ensures ok <==>
        !(p.id == "" || p.callID == "" || p.saved.provider == "" || p.name == "" || !WellAsked(p.kind, p.questions))
    {
      if p.id == "" || p.callID == "" || p.saved.provider == "" || p.name == "" {
        return false;
      }
      if p.kind.Approval? {
        return p.questions == [];
      }
      ok := CheckQuestions(p.questions);
    }

    method Wait(now: int, o: Owner, p: Proposal) returns (err: Error)
      requires Valid()
      modifies this`interactions, this`runs, this`history, this`log
      ensures View() == Journal.Wait(old(View()), now, o, p).thread && err == Journal.Wait(old(View()), now, o, p).err
      ensures Valid()
    {
      hide Inv, Evolves, AppendAll, WellAsked, BindCall, Journal.Park;
      WaitKeeps(View(), now, o, p);
      var fine := Validate(p);
      if !fine {
        return ErrState;
      }
      err := LockOwner(now, o);
      if err != Ok {
        return;
      }
      if exists k :: 0 <= k < |commands| && commands[k].execution == o.Run() && commands[k].Undecided() {
        return ErrPending;
      }
      if p.kind.Approval? && (p.journey == "" || p.key == "") {
        return ErrState;
      }
      var run := runs[o.Run()];
      if run.scope.None? || run.digest.None? {
        return ErrState;
      }
      var expected := BindCall(CallBinding(p.journey, p.key, p.nameDigest, p.schemaDigest, p.arguments,
                                           run.scope.value.version, principal, id, run.digest.value));
      if expected != Some(p.binding) {
        return ErrState;
      }
      if p.id in interactions {
        return ErrStorage;
      }
      Park(now, o.Run(), p);
    }

    method Park(now: int, waiting: Id, p: Proposal)
      requires waiting in runs && runs[waiting].scope.Some?
      modifies this`interactions, this`runs, this`history, this`log
      ensures View() == Journal.Park(old(View()), now, waiting, p)
    {
      hide AppendAll;
      var run := runs[waiting];
      var ttl := run.scope.value.ttl;
      if ttl <= 0 {
        ttl := DEFAULT_WAIT;
      }
      var marker := NoMarker;
      if p.kind.Approval? {
        marker := Requested;
      }
      var journey := if p.journey != "" then p.journey else run.journey;
      interactions := interactions[
        p.id := Interaction(waiting, journey, run.digest, p.kind, p.callID, p.name, p.binding, p.questions, p.saved,
                            now + ttl, Open, marker, "", false)];
      history := p.saved.history;
      runs := runs[waiting := run.(state := AwaitingInput, owner := "", lease := now)];
      AppendEvent(RunAwaiting(waiting, p.callID));
    }

    method CheckReply(x: Interaction, r: Journal.Reply) returns (ok: bool)
      requires r.Reply?
      ensures ok == ValidReply(x, r)
    {
      if x.kind.Approval? {
        return r.answers == map[] && r.binding == Some(x.binding) && (r.decision == "approve" || r.decision == "deny");
      }
      if r.decision != "" || r.binding != None {
        return false;
      }
      ok := CheckAnswers(x.questions, r.answers);
    }

    /** interactions.go reply.  A reply that comes too late commits the expiry it found. */
    method Reply(now: int, c: Command) returns (err: Error)
      requires Valid() && c.interactionID != ""
      modifies this
      ensures View() == Journal.Admit(old(View()), now, c).thread
      ensures err == Journal.Admit(old(View()), now, c).err && Valid()
    {
      hide Inv, Evolves, AppendAll, Answer, Journal.ExpireInteractions;
      ReplyKeeps(View(), now, c);
      if c.runID == "" || c.principal == "" || c.communicationID == "" || c.text != "" || c.reply.Malformed? {
        return ErrState;
      }
      if principal != c.principal {
        return ErrForbidden;
      }
      var k := RowOf(commands, c.communicationID);
      if k < |commands| {
        return if commands[k].cmd == c then Ok else ErrConflict;
      }
      if c.interactionID !in interactions {
        return ErrState;
      }
      var x := interactions[c.interactionID];
      var valid := x.expires > now;
      if !valid && x.state.Open? {
        ExpireInteractions(now);
        return ErrExpired;
      }
      if x.state.Lapsed? {
        return ErrExpired;
      }
      if !valid || !x.state.Open? {
        return ErrConflict;
      }
      if x.kind != c.replyKind || (c.targetJourney != "" && x.journey != "" && c.targetJourney != x.journey) {
        return ErrState;
      }
      var fits := CheckReply(x, c.reply);
      if !fits {
        return ErrState;
      }
      if RunIDTaken(runs, commands, c.runID) {
        return ErrStorage;
      }
      Consume(now, c);
      return Ok;
    }

    /** The writes of an accepted reply: command, continuation run, interaction, old run, events. */
    method Consume(now: int, c: Command)
      requires c.interactionID in interactions
      modifies this`commands, this`runs, this`interactions, this`log
      ensures View() == Answer(old(View()), now, c, old(interactions)[c.interactionID])
    {
      hide AppendAll;
      var x := interactions[c.interactionID];
      var approve := x.kind.Approval? && c.reply.Approves();
      runs := runs[c.runID := Run(RunState.Pending, "", 0, now + LEASE, x.journey, x.digest, None, "")];
      var marker := NoMarker;
      if x.kind.Approval? {
        marker := if approve then Decided else Denied;
      }
      var answered := x.(state := Answered, continuation := c.runID, marker := marker, approved := approve);
      interactions := interactions[c.interactionID := answered];
      if x.run in runs && runs[x.run].state.AwaitingInput? {
        runs := runs[x.run := runs[x.run].(state := Completed)];
      }
      ThreeEvents(log, InteractionConsumed(x.run), CommandAccepted(c.runID, c.communicationID),
                  CommandConsumed(c.runID, c.communicationID));
      AppendEvent(InteractionConsumed(x.run));
      AppendEvent(CommandAccepted(c.runID, c.communicationID));
      if approve {
        commands := commands + [CommandRow(c, c.runID, false, Consumed)];
        AppendEvent(CommandConsumed(c.runID, c.communicationID));
      } else {
        commands := commands + [CommandRow(c, c.runID, false, NoReason)];
      }
    }

    /** The answered interaction that the owner's run continues; none for a run that is no reply. */
    method Continuation(now: int, o: Owner) returns (row: Option<Interaction>, err: Error)
      ensures o.command.interactionID == "" ==> row.None? && err == Ok
      ensures o.command.interactionID != "" && err == Ok ==>
        && Journal.LockOwner(View(), now, o) == Ok
        && o.command.interactionID in interactions && row == Some(interactions[o.command.interactionID])
        && row.value.continuation == o.Run() && row.value.state.Answered?
      ensures err != Ok ==> row.None?
    {
      row, err := None, Ok;
      var i := o.command.interactionID;
      if i == "" {
        return;
      }
      err := LockOwner(now, o);
      if err != Ok {
        return;
      }
      if i !in interactions || interactions[i].continuation != o.Run() || !interactions[i].state.Answered? {
        return None, ErrStorage;
      }
      row := Some(interactions[i]);
    }

    method SupersedeApproval(run: Id, i: Id) returns (err: Error)
      modifies this`interactions, this`log
      ensures View() == SupersedeMark(old(View()), run, i).thread && err == SupersedeMark(old(View()), run, i).err
    {
      hide AppendAll;
      if !(i in interactions && interactions[i].kind.Approval? && interactions[i].state.Answered?
          && interactions[i].continuation == run) {
        return ErrState;
      }
      if interactions[i].marker.Superseded? {
        return Ok;
      }
      if !interactions[i].marker.Decided? {
        return ErrState;
      }
      var callID := interactions[i].callID;
      interactions := interactions[i := interactions[i].(marker := Superseded)];
      AppendEvent(InteractionSuperseded(run, callID));
      return Ok;
    }

    method Supersede(now: int, o: Owner, i: Id) returns (err: Error)
      requires Valid()
      modifies this`interactions, this`log
      ensures View() == Journal.Supersede(old(View()), now, o, i).thread
        && err == Journal.Supersede(old(View()), now, o, i).err
      ensures Valid()
    {
      hide Inv, Evolves, AppendAll, SupersedeMark;
      OwnedSupersedeKeeps(View(), now, o, i);
      err := LockOwner(now, o);
      if err == Ok {
        err := SupersedeApproval(o.Run(), i);
      }
    }

    // ---------------------------------------------------------------- tool calls

    /** operations.go BeginAttempt: the intent is committed before anything is sent. */
    method BeginAttempt(now: int, o: Owner, op: Call, attempt: int, approval: Id) returns (err: Error)
      requires Valid()
      modifies this`interactions, this`operations, this`attempts, this`log
      ensures View() == Journal.BeginAttempt(old(View()), now, o, op, attempt, approval).thread
      ensures err == Journal.BeginAttempt(old(View()), now, o, op, attempt, approval).err && Valid()
    {
      hide Inv, Evolves, AppendAll, Journal.FirstAttempt, Journal.SecondAttempt;
      BeginKeeps(View(), now, o, op, attempt, approval);
      if op.callID == "" || attempt < 1 || attempt > 2 || op.policy.Unreviewed?
          || (!op.policy.ReadOnly? && !op.requiresApproval) {
        return ErrState;
      }
      err := LockOwner(now, o);
      if err != Ok {
        return;
      }
      var run := runs[o.Run()];
      if run.scope.None? || run.digest.None? {
        return ErrState;
      }
      var expected := BindCall(CallBinding(op.journey, op.key, op.nameDigest, op.schemaDigest, op.arguments,
                                           run.scope.value.version, principal, id, run.digest.value));
      if expected != Some(op.binding) {
        return ErrState;
      }
      if exists c :: c in operations && c != op.callID && Unresolved(operations[c].outcome) {
        return ErrOutcomeUnknown;
      }
      if attempt == 1 {
        err := FirstAttempt(now, o.Run(), op, approval);
      } else {
        err := SecondAttempt(o.Run(), op);
      }
    }

    method FirstAttempt(now: int, run: Id, op: Call, approval: Id) returns (err: Error)
      requires run in runs
      modifies this`interactions, this`operations, this`attempts, this`log
      ensures View() == Journal.FirstAttempt(old(View()), now, run, op, approval).thread
      ensures err == Journal.FirstAttempt(old(View()), now, run, op, approval).err
    {
      hide AppendAll;
      if op.requiresApproval {
        if !(approval in interactions && interactions[approval].kind.Approval? && interactions[approval].state.Answered?
             && interactions[approval].continuation == run && interactions[approval].expires > now) {
          return ErrState;
        }
        var x := interactions[approval];
        if !x.approved || x.callID != op.callID || x.name != op.name || !x.marker.Decided? {
          return ErrState;
        }
        if x.journey != op.journey || x.binding != op.binding {
          var ignored := SupersedeApproval(run, approval);
          return ErrSuperseded;
        }
      }
      if op.callID in operations || (op.callID, 1) in attempts {
        return ErrStorage;
      }
      var journey := if op.journey != "" then op.journey else runs[run].journey;
      operations := operations[
        op.callID := Operation(run, op.name, op.binding, op.policy, op.requiresApproval, Dispatching, journey)];
      if op.requiresApproval {
        interactions := interactions[approval := interactions[approval].(marker := Dispatched)];
      }
      attempts := attempts[(op.callID, 1) := Dispatching];
      AppendEvent(ToolStarted(run, op.callID, op.name));
      return Ok;
    }

    method SecondAttempt(run: Id, op: Call) returns (err: Error)
      modifies this`operations, this`attempts, this`log
      ensures View() == Journal.SecondAttempt(old(View()), run, op).thread
        && err == Journal.SecondAttempt(old(View()), run, op).err
    {
      hide AppendAll;
      if op.callID !in operations || operations[op.callID].run != run {
        return ErrStorage;
      }
      var row := operations[op.callID];
      if row.binding != op.binding || row.policy != op.policy || (!row.outcome.Rejected? && !row.outcome.Unknown?)
          || op.policy.Effectful? {
        return ErrState;
      }
      if (op.callID, 2) in attempts {
        return ErrStorage;
      }
      operations := operations[op.callID := row.(outcome := Dispatching)];
      attempts := attempts[(op.callID, 2) := Dispatching];
      AppendEvent(ToolStarted(run, op.callID, op.name));
      return Ok;
    }

    method EndAttempt(now: int, o: Owner, callID: Id, name: Id, attempt: int, outcome: Outcome) returns (err: Error)
      requires Valid()
      modifies this`operations, this`attempts, this`log
      ensures View() == Journal.EndAttempt(old(View()), now, o, callID, name, attempt, outcome).thread
      ensures err == Journal.EndAttempt(old(View()), now, o, callID, name, attempt, outcome).err && Valid()
    {
      hide Inv, Evolves, AppendAll;
      EndAttemptKeeps(View(), now, o, callID, name, attempt, outcome);
      if outcome.Dispatching? {
        return ErrState;
      }
      err := LockOwner(now, o);
      if err != Ok {
        return;
      }
      if callID !in operations || operations[callID].run != o.Run() || !operations[callID].outcome.Dispatching? {
        return ErrState;
      }
      if (callID, attempt) !in attempts || !attempts[(callID, attempt)].Dispatching? {
        return ErrState;
      }
      operations := operations[callID := operations[callID].(outcome := outcome)];
      attempts := attempts[(callID, attempt) := outcome];
      AppendEvent(ToolEnded(o.Run(), callID, name, outcome));
    }

    // ---------------------------------------------------------------- definitions

    method Start(now: int, o: Owner, journey: Id, digest: Digest, current: Option<Digest>)
      returns (err: Error, shared: Option<Digest>, loaded: seq<History.Message>)
      requires Valid()
      modifies this`pin, this`runs
      ensures View() == Journal.Start(old(View()), now, o, journey, digest, current).thread
      ensures err == Journal.Start(old(View()), now, o, journey, digest, current).err
      ensures shared == Journal.Start(old(View()), now, o, journey, digest, current).current && Valid()
      ensures loaded == history
    {
      hide Inv, Evolves;
      StartKeeps(View(), now, o, journey, digest, current);
      shared, loaded := current, history;
      if |digest| != 64 {
        return ErrDefinition, current, loaded;
      }
      err := LockOwner(now, o);
      if err != Ok {
        return;
      }
      if exists c :: c in operations && Unresolved(operations[c].outcome) {
        return ErrOutcomeUnknown, current, loaded;
      }
      if pin.None? {
        if current.None? {
          shared := Some(digest);
        } else if current.value != digest {
          return ErrDefinition, current, loaded;
        }
      } else if pin.value != digest {
        return ErrDefinition, current, loaded;
      }
      var run := runs[o.Run()];
      if journey != "" && run.journey != "" && run.journey != journey {
        return ErrDefinition, current, loaded;
      }
      pin := Some(digest);
      runs := runs[o.Run() := run.(journey := if journey != "" then journey else run.journey, digest := Some(digest))];
    }

    method ResolveDefinition(now: int, o: Owner, current: Option<Digest>, served: set<Digest>)
      returns (err: Error, digest: Digest)
      requires Valid()
      modifies this`pin, this`log
      ensures View() == Journal.ResolveDefinition(old(View()), now, o, current, served).thread
      ensures err == Journal.ResolveDefinition(old(View()), now, o, current, served).err
      ensures digest == Journal.ResolveDefinition(old(View()), now, o, current, served).digest && Valid()
    {
      hide Inv, Evolves, AppendAll;
      ResolveKeeps(View(), now, o, current, served);
      digest := "";
      err := LockOwner(now, o);
      if err != Ok {
        return;
      }
      if pin.Some? {
        if current.Some? && current.value != pin.value {
          var busy := (exists i :: i in interactions && interactions[i].state.Open?)
                      || (exists c :: c in operations && Unresolved(operations[c].outcome));
          if o.command.interactionID == "" && !busy {
            if current.value !in served {
              return ErrDefinition, "";
            }
            var previous := pin.value;
            pin := current;
            AppendEvent(DefinitionChanged(o.Run(), previous, current.value));
            return Ok, current.value;
          }
        }
        if pin.value !in served {
          return ErrDefinition, "";
        }
        return Ok, pin.value;
      }
      if current.None? || current.value !in served {
        return ErrDefinition, "";
      }
      pin := current;
      return Ok, current.value;
    }

    // ---------------------------------------------------------------- run records

    /** scope.go RecordRunScope: written once; writing it again must say the same. */
    method RecordScope(now: int, o: Owner, scope: Scope) returns (err: Error)
      requires Valid()
      modifies this`runs
      ensures View() == Journal.RecordScope(old(View()), now, o, scope).thread
        && err == Journal.RecordScope(old(View()), now, o, scope).err
      ensures Valid()
    {
      hide Inv, Evolves;
      ScopeKeeps(View(), now, o, scope);
      if scope.version == "" || scope.endpoint == "" || scope.settings.None? {
        return ErrState;
      }
      err := LockOwner(now, o);
      if err != Ok {
        return;
      }
      var run := runs[o.Run()];
      if run.scope.Some? {
        return if run.scope.value == scope then Ok else ErrState;
      }
      runs := runs[o.Run() := run.(scope := Some(scope))];
    }

    /** active.go ActiveJourneys: the stored order and the journeys pinned now, each listed once. */
    method ActiveJourneys(now: int, o: Owner) returns (stored: seq<Id>, pinned: seq<Id>, err: Error)
      ensures err == Journal.LockOwner(View(), now, o)
      ensures err == Ok ==> stored == active && forall j :: j in pinned <==> j in PinnedJourneys(View(), o.Run())
      ensures err == Ok ==> forall j, k :: 0 <= j < k < |pinned| ==> pinned[j] != pinned[k]
    {
      stored, pinned := [], [];
      err := LockOwner(now, o);
      if err != Ok {
        return;
      }
      stored := active;
      ghost var all := PinnedJourneys(View(), o.Run());
      var todo := (set i | i in interactions && interactions[i].kind.Approval? && interactions[i].journey != ""
                          && (interactions[i].state.Open?
                              || (interactions[i].state.Answered? && interactions[i].continuation == o.Run()
                                  && interactions[i].marker.Decided?))
                      :: interactions[i].journey)
                  + (set c | c in operations && operations[c].journey != ""
                      && Unresolved(operations[c].outcome) :: operations[c].journey);
      assert todo == all;
      while todo != {}
        invariant todo <= all && forall j :: j in pinned <==> j in all && j !in todo
        invariant forall j, k :: 0 <= j < k < |pinned| ==> pinned[j] != pinned[k]
        decreases |todo|
      {
        var j :| j in todo;
        pinned := pinned + [j];
        todo := todo - {j};
      }
    }

    /** active.go SetActiveJourneys: the list replaces the stored one, or is refused whole. */
    method SetActive(now: int, o: Owner, ids: seq<Id>) returns (err: Error)
      requires Valid()
      modifies this`active
      ensures View() == Journal.SetActive(old(View()), now, o, ids).thread
        && err == Journal.SetActive(old(View()), now, o, ids).err
      ensures Valid()
    {
      var seen: set<Id> := {};
      var k := 0;
      while k < |ids|
        invariant 0 <= k <= |ids|
        invariant seen == set j | 0 <= j < k :: ids[j]
        invariant Distinct(ids[..k])
      {
        if ids[k] == "" || ids[k] in seen {
          assert !Distinct(ids);
          return ErrState;
        }
        seen := seen + {ids[k]};
        k := k + 1;
      }
      assert ids[..k] == ids;
      err := LockOwner(now, o);
      if err == Ok {
        active := ids;
      }
    }

    method Note(now: int, o: Owner) returns (err: Error)
      requires Valid()
      modifies this`log
      ensures View() == Journal.Note(old(View()), now, o).thread && err == Journal.Note(old(View()), now, o).err
      ensures Valid()
    {
      hide Inv, Evolves, AppendAll;
      Unmoved(View());
      EmitKeeps(View(), View(), [Noted(o.Run())]);
      err := LockOwner(now, o);
      if err == Ok {
        AppendEvent(Noted(o.Run()));
      }
    }
  }

  function Closing(run: Id, state: RunState, answer: string, callID: Id, tool: Id): seq<Event> {
    (if state.Completed? && callID != "" then [ToolEnded(run, callID, tool, Done)] else [])
    + (if state.Completed? then [MessageCompleted(run, answer)] else [])
  }

  lemma {:induction false} ClosingThenEnd(log: Log<Event>, run: Id, state: RunState, answer: string, callID: Id,
      tool: Id)
    ensures AppendAll(AppendAll(log, Closing(run, state, answer, callID, tool)), [RunEnded(run, state)])
            == AppendAll(log, Closing(run, state, answer, callID, tool) + [RunEnded(run, state)])
  {
    EmitLast(log, Closing(run, state, answer, callID, tool), RunEnded(run, state));
    EmitOne(AppendAll(log, Closing(run, state, answer, callID, tool)), RunEnded(run, state));
  }

  lemma LiveIsThere(t: Thread, candidate: Id)
    requires LiveCandidate(t, candidate) != ""
    ensures LiveCandidate(t, candidate) in t.runs && t.runs[LiveCandidate(t, candidate)].state.Live()
  {
  }

  function Reported(ids: seq<Id>, run: Id, reason: RunState): seq<Event> {
    if ids == [] then [] else Reported(ids[..|ids| - 1], run, reason) + [CommandDisposed(run, ids[|ids| - 1], reason)]
  }

  lemma {:induction false} ReportedLast(ids: seq<Id>, id: Id, run: Id, reason: RunState)
    ensures Reported(ids + [id], run, reason) == Reported(ids, run, reason) + [CommandDisposed(run, id, reason)]
  {
    assert (ids + [id])[..|ids|] == ids;
  }

  /** At most one operation of a run is in flight. */
  lemma OneInFlight(t: Thread, run: Id)
    requires Calls(t.runs, t.interactions, t.operations, t.attempts)
    ensures forall d ::
      d in t.operations && t.operations[d].run == run && t.operations[d].outcome.Dispatching? ==>
        d == InFlight(t.operations, run) != ""
  {
    hide AttemptsOk, ApprovalsOk;
    forall d | d in t.operations && t.operations[d].run == run && t.operations[d].outcome.Dispatching?
      ensures d == InFlight(t.operations, run) != ""
    {
      assert exists x ::
          x in t.operations && x != "" && t.operations[x].run == run && t.operations[x].outcome.Dispatching?;
      OnlyOneUnresolved(t.runs, t.operations, d);
    }
  }

  lemma {:induction false} EmitNone(log: Log<Event>)
    ensures AppendAll(log, []) == log
  {
  }

  lemma {:induction false} TwoEvents(log: Log<Event>, e: Event, f: Event)
    ensures AppendAll(AppendAll(log, [e]), [f]) == AppendAll(log, [e, f])
  {
    EmitLast(log, [e], f);
    assert [e] + [f] == [e, f];
    EmitOne(AppendAll(log, [e]), f);
  }

  lemma ValidCalls(t: Thread)
    requires Inv(t)
    ensures Calls(t.runs, t.interactions, t.operations, t.attempts)
  {
    hide Ledger, Waiting, PinOk;
  }

  lemma StoppedCalls(t: Thread, run: Id, stopped: Run)
    requires Inv(t) && run in t.runs && stopped.epoch == t.runs[run].epoch
    ensures Calls(t.runs[run := stopped], t.interactions, t.operations, t.attempts)
  {
    hide Ledger, Waiting, Calls, PinOk;
    EpochKeepsCalls(t.runs, t.interactions, t.operations, t.attempts, run, stopped);
  }

  lemma NamedInteraction(t: Thread, i: Id)
    requires Inv(t) && i in t.interactions
    ensures i != ""
  {
    hide Ledger, Calls, PinOk;
  }

  lemma OneOverdue(t: Thread, now: int)
    requires Inv(t)
    ensures forall i ::
      i in t.interactions && t.interactions[i].state.Open? && t.interactions[i].expires <= now ==>
        i == Overdue(t.interactions, now) != ""
  {
    forall i | i in t.interactions && t.interactions[i].state.Open? && t.interactions[i].expires <= now
      ensures i == Overdue(t.interactions, now) != ""
    {
      OverdueUnique(t, now, i);
      NamedInteraction(t, i);
    }
  }

  lemma {:induction false} ThreeEvents(log: Log<Event>, e: Event, f: Event, g: Event)
    ensures AppendAll(AppendAll(log, [e]), [f]) == AppendAll(log, [e, f] + [])
    ensures AppendAll(AppendAll(AppendAll(log, [e]), [f]), [g]) == AppendAll(log, [e, f] + [g])
  {
    TwoEvents(log, e, f);
    assert [e, f] + [] == [e, f];
    EmitLast(log, [e, f], g);
    EmitOne(AppendAll(log, [e, f]), g);
  }

  /** Closing overdue work leaves what is not in the tables it may change. */
  lemma SameHead(t: Thread, now: int)
    ensures var u := Journal.ExpireInteractions(Journal.InterruptExpired(t, now, ""), now);
      u.id == t.id && u.principal == t.principal && u.epoch == t.epoch && u.pin == t.pin && u.active == t.active
  {
    hide AppendAll, Overdue, Journal.InterruptExpired;
    InterruptHead(t, now);
  }

  lemma InterruptHead(t: Thread, now: int)
    ensures var u := Journal.InterruptExpired(t, now, "");
      u.id == t.id && u.principal == t.principal && u.epoch == t.epoch && u.pin == t.pin && u.active == t.active
  {
    hide AppendAll, DisposeRows, DisposeEvents, LiveRun, InFlight, MarkAttempts, Lost;
  }

  lemma {:induction false} PendingNone(rows: seq<CommandRow>, run: Id)
    ensures PendingOf(rows[..0], run) == []
  {
  }

  lemma {:induction false} PendingNext(rows: seq<CommandRow>, run: Id, k: nat)
    requires k < |rows|
    ensures PendingOf(rows[..k + 1], run)
      == PendingOf(rows[..k], run) + if rows[k].execution == run && rows[k].Undecided() then [rows[k]] else []
  {
    assert rows[..k + 1][..k] == rows[..k];
  }

  lemma LiveRow(t: Thread)
    ensures LiveRun(t.runs) != "" ==> LiveRun(t.runs) in t.runs
  {
  }
}
