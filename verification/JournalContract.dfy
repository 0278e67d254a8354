/** What each transaction accepts and what it leaves, written out over the tables. */
module JournalContract {
  import opened Basics
  import opened EventLog
  import opened Journal
  import opened JournalInvariant
  import opened JournalSteps
  import opened JournalTheorems
  import opened Questions
  import History

  ghost function Err(t: Thread, k: Tick): Error {
    Apply(t, k.now, k.current, k.step).err
  }

  /** The tables without the log of events. */
  ghost predicate Same(t: Thread, u: Thread) {
    t.(log := u.log) == u
  }

  /** The owner's run is running in its name, under its epoch and an unexpired lease. */
  predicate Fenced(t: Thread, now: int, o: Owner) {
    && t.principal == o.command.principal && o.command.runID in t.runs
    && var run := t.runs[o.command.runID];
       run.state == Running && run.owner == o.id && run.epoch == o.epoch && now < run.lease
  }

  lemma FenceIs(t: Thread, now: int, o: Owner)
    ensures LockOwner(t, now, o) == Ok <==> Fenced(t, now, o)
    ensures t.principal != o.command.principal ==> LockOwner(t, now, o) == ErrForbidden
    ensures t.principal == o.command.principal && !Fenced(t, now, o) ==> LockOwner(t, now, o) == ErrOwnership
  {
  }

  // ---------------------------------------------------------------- each step is its transaction

  lemma ClaimApplies(t: Thread, k: Tick)
    requires k.step.StepClaim?
    ensures var r := Claim(t, k.now, k.step.c, k.step.id, k.step.duration);
      Next(t, k) == r.thread && Err(t, k) == r.err
  {
    hide Claim;
  }

  lemma RenewApplies(t: Thread, k: Tick)
    requires k.step.StepRenew?
    ensures var r := Renew(t, k.now, k.step.o, k.step.duration);
      Next(t, k) == r.thread && Err(t, k) == r.err
  {
    hide Renew;
  }

  lemma IncludedApplies(t: Thread, k: Tick)
    requires k.step.StepIncluded?
    ensures var r := Included(t, k.now, k.step.o, k.step.communications);
      Next(t, k) == r.thread && Err(t, k) == r.err
  {
    hide Included;
  }

  lemma AdmitApplies(t: Thread, k: Tick)
    requires k.step.StepAdmit?
    ensures var r := Admit(t, k.now, k.step.c);
      Next(t, k) == r.thread && Err(t, k) == r.err
  {
    hide Admit;
  }

  lemma WaitApplies(t: Thread, k: Tick)
    requires k.step.StepWait?
    ensures var r := Wait(t, k.now, k.step.o, k.step.p);
      Next(t, k) == r.thread && Err(t, k) == r.err
  {
    hide Wait;
  }

  lemma SupersedeApplies(t: Thread, k: Tick)
    requires k.step.StepSupersede?
    ensures var r := Supersede(t, k.now, k.step.o, k.step.interaction);
      Next(t, k) == r.thread && Err(t, k) == r.err
  {
    hide Supersede;
  }

  lemma BeginApplies(t: Thread, k: Tick)
    requires k.step.StepBegin?
    ensures var r := BeginAttempt(t, k.now, k.step.o, k.step.op, k.step.attempt, k.step.approval);
      Next(t, k) == r.thread && Err(t, k) == r.err
  {
    hide BeginAttempt;
  }

  lemma EndApplies(t: Thread, k: Tick)
    requires k.step.StepEnd?
    ensures var r := EndAttempt(t, k.now, k.step.o, k.step.callID, k.step.name, k.step.attempt, k.step.outcome);
      Next(t, k) == r.thread && Err(t, k) == r.err
  {
    hide EndAttempt;
  }

  lemma FinishApplies(t: Thread, k: Tick)
    requires k.step.StepFinish?
    ensures var s := k.step; var r := Finish(t, k.now, s.o, s.state, s.history, s.answer, s.callID, s.tool);
      Next(t, k) == r.thread && Err(t, k) == r.err
  {
    hide Finish;
  }

  lemma ScopeApplies(t: Thread, k: Tick)
    requires k.step.StepScope?
    ensures var r := RecordScope(t, k.now, k.step.o, k.step.scope);
      Next(t, k) == r.thread && Err(t, k) == r.err
  {
    hide RecordScope;
  }

  lemma ActiveApplies(t: Thread, k: Tick)
    requires k.step.StepActive?
    ensures var r := SetActive(t, k.now, k.step.o, k.step.ids);
      Next(t, k) == r.thread && Err(t, k) == r.err
  {
    hide SetActive;
  }

  lemma NoteApplies(t: Thread, k: Tick)
    requires k.step.StepNote?
    ensures var r := Note(t, k.now, k.step.o);
      Next(t, k) == r.thread && Err(t, k) == r.err
  {
    hide Note;
  }

  lemma StartApplies(t: Thread, k: Tick)
    requires k.step.StepStart?
    ensures Apply(t, k.now, k.current, k.step) == Start(t, k.now, k.step.o, k.step.journey, k.step.digest, k.current)
  {
    hide Start;
  }

  lemma ResolveApplies(t: Thread, k: Tick)
    requires k.step.StepResolve?
    ensures Apply(t, k.now, k.current, k.step) == ResolveDefinition(t, k.now, k.step.o, k.current, k.step.served)
  {
    hide ResolveDefinition;
  }

  lemma ReapApplies(t: Thread, k: Tick)
    requires k.step.StepReap?
    ensures Next(t, k) == Reap(t, k.now, k.step.candidate)
  {
    hide Reap;
  }

  // ---------------------------------------------------------------- ownership

  /** The reply that opened run c.runID is on record as the answer to its interaction. */
  predicate ContinuesAnswer(t: Thread, c: Command) {
    && c.interactionID in t.interactions && t.interactions[c.interactionID].state == Answered
    && t.interactions[c.interactionID].continuation == c.runID
  }

  predicate Claimable(t: Thread, now: int, c: Command) {
    && t.principal == c.principal && CommandRowOf(t, c)
    && c.runID in t.runs && t.runs[c.runID].state == Pending
    && (now < t.runs[c.runID].lease || ContinuesAnswer(t, c))
  }

  predicate CommandRowOf(t: Thread, c: Command) {
    exists k :: 0 <= k < |t.commands| && t.commands[k].cmd == c && t.commands[k].execution == c.runID
  }

  /** A claim succeeds exactly for a pending run by its own command, within its lease or, for the continuation of
      an answer, at any time. */
  lemma ClaimContract(t: Thread, k: Tick)
    requires Inv(t) && k.step.StepClaim?
    ensures Err(t, k) in {Ok, ErrOwnership}
    ensures Err(t, k) == Ok <==> k.step.id != "" && k.step.duration > 0 && Claimable(t, k.now, k.step.c)
    ensures Err(t, k) != Ok ==> Next(t, k) == t
    ensures Err(t, k) == Ok ==> var r := k.step.c.runID;
      Same(Next(t, k), t.(epoch := t.epoch + 1, runs := t.runs[r := t.runs[r].(
        state := Running, owner := k.step.id, epoch := t.epoch + 1, lease := k.now + k.step.duration)]))
  {
    hide Apply, AppendAll, Waiting, Calls, PinOk, CommandsOk, InputsOk;
    var c := k.step.c;
    var r := Claim(t, k.now, c, k.step.id, k.step.duration);
    ClaimApplies(t, k);
    assert "" !in t.interactions by {
      KeysNamed(t);
    }
  }

  lemma KeysNamed(t: Thread)
    requires Inv(t)
    ensures "" !in t.interactions && "" !in t.runs
  {
    hide Calls, PinOk, InputsOk, EpochsOk, ActivityOk, ContinuationsOk, MarkersOk;
  }

  /** The holder, and nobody else, extends its lease. */
  lemma RenewContract(t: Thread, k: Tick)
    requires k.step.StepRenew?
    ensures Err(t, k) == Ok <==> k.step.duration > 0 && Fenced(t, k.now, k.step.o)
    ensures Err(t, k) != Ok ==> Next(t, k) == t
    ensures Err(t, k) == Ok ==> var r := k.step.o.command.runID;
      Next(t, k) == t.(runs := t.runs[r := t.runs[r].(lease := k.now + k.step.duration)])
  {
    hide Apply;
    RenewApplies(t, k);
  }

  // ---------------------------------------------------------------- lost runs and overdue waits

  predicate IsLive(t: Thread, r: Id) {
    r in t.runs && (t.runs[r].state == Pending || t.runs[r].state == Running)
  }

  /** Nobody works on the run any more, and it is not the unclaimed continuation of an answer. */
  predicate IsLost(t: Thread, now: int, r: Id) {
    && IsLive(t, r) && t.runs[r].lease <= now
    && !(t.runs[r].state == Pending && t.runs[r].epoch == 0
         && exists i :: i in t.interactions && t.interactions[i].state == Answered
                        && t.interactions[i].continuation == r)
  }

  /** What a run that stops leaves behind: its undecided commands get the reason, what it had in flight is unknown. */
  ghost predicate Abandons(t: Thread, u: Thread, r: Id, reason: RunState) {
    && |u.commands| == |t.commands|
    && (forall j :: 0 <= j < |t.commands| ==>
          u.commands[j] == if Undecided(t.commands[j], r)
            then t.commands[j].(reason := Ended(reason)) else t.commands[j])
    && u.operations.Keys == t.operations.Keys
    && (forall c :: c in t.operations ==>
          u.operations[c] == if t.operations[c].run == r && t.operations[c].outcome == Dispatching
            then t.operations[c].(outcome := Unknown) else t.operations[c])
    && u.attempts.Keys == t.attempts.Keys
    && (forall a :: a in t.attempts ==>
          u.attempts[a] == if a.0 in t.operations && t.operations[a.0].run == r && t.attempts[a] == Dispatching
            then Unknown else t.attempts[a])
  }

  /** Run r is interrupted, and nothing else is touched. */
  ghost predicate Interrupts(t: Thread, u: Thread, r: Id) {
    && r in t.runs && Abandons(t, u, r, Interrupted)
    && Same(u, t.(runs := t.runs[r := t.runs[r].(state := Interrupted)],
                  commands := u.commands, operations := u.operations, attempts := u.attempts))
  }

  lemma InterruptDoes(t: Thread, r: Id)
    requires Inv(t) && r in t.runs
    ensures Interrupts(t, Interrupt(t, r), r)
  {
    hide Inv, AppendAll, MarkUnknown, DisposeRows, DisposeEvents;
    var stopped := t.(runs := t.runs[r := t.runs[r].(state := Interrupted)]);
    OperationsOf(t);
    UnknownIs(stopped, t.runs, r);
    assert Dispose(MarkUnknown(stopped, r), r, Interrupted).commands
      == DisposeRows(t.commands, r, Interrupted);
  }

  lemma UnknownIs(t: Thread, runs: Runs, r: Id)
    requires OperationsOk(t.operations, runs)
    ensures var u := MarkUnknown(t, r);
      && Same(u, t.(operations := u.operations, attempts := u.attempts))
      && u.operations.Keys == t.operations.Keys && u.attempts.Keys == t.attempts.Keys
      && (forall c :: c in t.operations ==>
            u.operations[c] == if t.operations[c].run == r && t.operations[c].outcome == Dispatching
              then t.operations[c].(outcome := Unknown) else t.operations[c])
      && (forall a :: a in t.attempts ==>
            u.attempts[a] == if a.0 in t.operations && t.operations[a.0].run == r && t.attempts[a] == Dispatching
              then Unknown else t.attempts[a])
  {
    hide AppendAll;
    MarkOperations(t.(runs := runs), r);
    assert MarkUnknown(t.(runs := runs), r).operations == MarkUnknown(t, r).operations;
  }

  /** One thing at a time, as the tables say it. */
  lemma OneThing(t: Thread, r: Id)
    requires Inv(t) && IsLive(t, r)
    ensures r != "" && LiveRun(t.runs) == r
    ensures forall i :: i in t.interactions ==> t.interactions[i].state != Open
    ensures forall s :: IsLive(t, s) ==> s == r
  {
    hide Calls, PinOk, InputsOk, EpochsOk, WaitsOk, ContinuationsOk, MarkersOk;
    assert r != "" && t.runs[r].state.Live();
  }

  /** A lost run is interrupted when its turn comes, and no other live run is touched. */
  lemma ReapContract(t: Thread, k: Tick, r: Id)
    requires Inv(t) && k.step.StepReap? && IsLive(t, r)
    ensures (k.step.candidate == r || k.step.candidate == "") && IsLost(t, k.now, r) ==> Interrupts(t, Next(t, k), r)
    ensures !(k.step.candidate == r || k.step.candidate == "") || !IsLost(t, k.now, r) ==> Next(t, k) == t
  {
    hide Apply, Inv, AppendAll, Interrupt, LiveRun, Interrupts;
    ReapApplies(t, k);
    OneThing(t, r);
    var v := InterruptExpired(t, k.now, k.step.candidate);
    if (k.step.candidate == r || k.step.candidate == "") && IsLost(t, k.now, r) {
      InterruptDoes(t, r);
      assert v == Interrupt(t, r);
      InterruptedIdle(t, v, r);
    } else {
      assert IsLive(t, k.step.candidate) ==> k.step.candidate == r;
      assert v == t;
    }
    assert Overdue(v.interactions, k.now) == "";
  }

  lemma InterruptedIdle(t: Thread, v: Thread, r: Id)
    requires Interrupts(t, v, r)
    ensures v.interactions == t.interactions
  {
  }

  /** An overdue wait lapses whoever looks: an approval counts as denied, its run has failed, and its call has a
      result in the stored history; a wait in time stays. */
  lemma ExpiryContract(t: Thread, k: Tick, i: Id)
    requires Inv(t) && k.step.StepReap? && i in t.interactions && t.interactions[i].state == Open
    ensures k.now < t.interactions[i].expires ==> Next(t, k) == t
    ensures t.interactions[i].expires <= k.now ==> Lapses(t, Next(t, k), i)
  {
    hide Apply, Ledger, Calls, PinOk, AppendAll, LiveRun, Interrupt, ContinuationsOk, MarkersOk;
    ReapApplies(t, k);
    assert forall r :: r in t.runs ==> !t.runs[r].state.Live();
    assert InterruptExpired(t, k.now, k.step.candidate) == t;
    var x := Overdue(t.interactions, k.now);
    if t.interactions[i].expires <= k.now {
      assert i != "" && x == i;
    } else {
      assert x == "";
    }
  }

  ghost predicate Lapses(t: Thread, u: Thread, i: Id)
    requires i in t.interactions
  {
    var x := t.interactions[i];
    && x.run in t.runs
    && Same(u, t.(
         interactions := t.interactions[
           i := x.(state := Lapsed, marker := if x.kind == Approval then Denied else NoMarker)],
         runs := t.runs[x.run := t.runs[x.run].(state := Failed)],
         history := x.saved.history + [History.Message(false, [History.FunctionResult(x.saved.provider)])]))
  }

  // ---------------------------------------------------------------- admission

  /** The row of a communication, wherever it is. */
  predicate Submitted(t: Thread, communication: Id) {
    exists j :: 0 <= j < |t.commands| && t.commands[j].cmd.communicationID == communication
  }

  predicate Unused(t: Thread, r: Id) {
    r !in t.runs && forall j :: 0 <= j < |t.commands| ==> t.commands[j].cmd.runID != r
  }

  /** A run that is under way takes messages for its own journey, or for the one it was asked for. */
  predicate Serves(t: Thread, r: Id, target: Id)
    requires r in t.runs
  {
    target == "" || target == t.runs[r].journey
    || exists j :: 0 <= j < |t.commands| && t.commands[j].cmd.runID == r && t.commands[j].cmd.targetJourney == target
  }

  lemma {:induction false} SubmittedAt(rows: seq<CommandRow>, communication: Id)
    ensures RowOf(rows, communication) < |rows| <==>
      exists j :: 0 <= j < |rows| && rows[j].cmd.communicationID == communication
  {
  }

  /** A well-formed message of the author finds nothing waiting for an answer, its run new, and the run under way,
      if there is one, at its service. */
  predicate Welcome(v: Thread, c: Command) {
    && c.runID != "" && c.communicationID != "" && c.principal == v.principal != "" && c.text != ""
    && (forall i :: i in v.interactions ==> v.interactions[i].state != Open)
    && (forall r :: r in v.runs && IsLive(v, r) ==> Serves(v, r, c.targetJourney))
    && Unused(v, c.runID)
  }

  /** The command joins the run under way, or opens a pending run of its own. */
  ghost predicate Joins(v: Thread, u: Thread, now: int, c: Command) {
    if exists r :: IsLive(v, r) then
      exists r :: IsLive(v, r) && Same(u, v.(commands := v.commands + [CommandRow(c, r, false, NoReason)]))
    else
      Same(u, v.(commands := v.commands + [CommandRow(c, c.runID, false, NoReason)],
                 runs := v.runs[c.runID := Run(Pending, "", 0, now + 15_000, "", None, None, "")]))
  }

  /** A message is accepted exactly if it is well formed and its author's, nothing waits for an answer, the run
      under way serves its target, and its run is new.  Lost runs and overdue waits are closed first, as a reaper
      would; a refusal leaves even those. */
  lemma AdmitContract(t: Thread, k: Tick)
    requires Inv(t) && k.step.StepAdmit? && k.step.c.interactionID == "" && !Submitted(t, k.step.c.communicationID)
    ensures Err(t, k) == Ok <==> Welcome(Next(t, Tick(k.now, None, StepReap(""))), k.step.c)
    ensures Err(t, k) != Ok ==> Next(t, k) == t
    ensures Err(t, k) == Ok ==> Joins(Next(t, Tick(k.now, None, StepReap(""))), Next(t, k), k.now, k.step.c)
  {
    hide Apply, Inv, AppendAll, InterruptExpired, ExpireInteractions;
    var reap := Tick(k.now, None, StepReap(""));
    AdmitApplies(t, k);
    ReapApplies(t, reap);
    SubmittedAt(t.commands, k.step.c.communicationID);
    StepKeeps(t, reap.now, reap.current, reap.step);
    var v := Next(t, reap);
    forall r | IsLive(v, r) ensures r == LiveRun(v.runs) && r != "" {
      OneThing(v, r);
    }
    assert LiveRun(v.runs) == "" ==> forall r :: r in v.runs ==> !IsLive(v, r) || r == "";
    KeysNamed(v);
  }

  /** So a message also interrupts the lost run it meets. */
  lemma AdmitInterrupts(t: Thread, k: Tick, r: Id)
    requires Inv(t) && k.step.StepAdmit? && k.step.c.interactionID == "" && !Submitted(t, k.step.c.communicationID)
    requires Err(t, k) == Ok && IsLost(t, k.now, r)
    ensures var u := Next(t, k);
      && r in u.runs && u.runs[r].state == Interrupted && |t.commands| < |u.commands|
      && forall j :: 0 <= j < |t.commands| && Undecided(t.commands[j], r) ==>
           u.commands[j].reason == Ended(Interrupted)
  {
    hide Apply, Inv;
    var reap := Tick(k.now, None, StepReap(""));
    ReapContract(t, reap, r);
    AdmitContract(t, k);
    OneThing(t, r);
    var v := Next(t, reap);
    assert Interrupts(t, v, r);
    forall s | s in v.runs ensures !IsLive(v, s) {
      if s != r {
        assert v.runs[s] == t.runs[s] && !IsLive(t, s);
      }
    }
    assert Unused(v, k.step.c.runID);
  }

  // ---------------------------------------------------------------- replies

  /** The reply answers what is asked: a decision on the very call, or acceptable answers and no decision. */
  predicate Fits(x: Interaction, r: Journal.Reply) {
    r.Reply?
    && if x.kind == Approval
       then r.answers == map[] && r.binding == Some(x.binding) && r.decision in {"approve", "deny"}
       else r.binding == None && r.decision == "" && AnswersFine(x.questions, r.answers)
  }

  predicate Replies(t: Thread, now: int, c: Command)
    requires c.interactionID in t.interactions
  {
    var x := t.interactions[c.interactionID];
    && c.runID != "" && c.communicationID != "" && c.principal == t.principal != "" && c.text == ""
    && x.state == Open && now < x.expires && x.kind == c.replyKind
    && (c.targetJourney == "" || x.journey == "" || c.targetJourney == x.journey)
    && Fits(x, c.reply) && Unused(t, c.runID)
  }

  /** The interaction is answered and its run complete; the reply opens a pending run on the same journey and digest. */
  ghost predicate Answers(t: Thread, u: Thread, now: int, c: Command)
    requires c.interactionID in t.interactions
  {
    var i := c.interactionID;
    var x := t.interactions[i];
    var approves := x.kind == Approval && c.reply.Reply? && c.reply.decision == "approve";
    && x.run in t.runs
    && Same(u, t.(
         commands := t.commands + [CommandRow(c, c.runID, false, if approves then Consumed else NoReason)],
         runs := t.runs[c.runID := Run(Pending, "", 0, now + 15_000, x.journey, x.digest, None, "")]
           [x.run := t.runs[x.run].(state := Completed)],
         interactions := t.interactions[i := x.(
           state := Answered, continuation := c.runID, approved := approves,
           marker := if x.kind == Clarification then NoMarker else if approves then Decided else Denied)]))
  }

  /** What a new reply does.  It is accepted exactly if it fits the open, unexpired interaction and its run is new.
      "approve" and nothing else decides the approval, marks it approved and consumes the command; "deny" denies it;
      answers leave no mark. */
  lemma ReplyContract(t: Thread, k: Tick)
    requires Inv(t) && k.step.StepAdmit? && !Submitted(t, k.step.c.communicationID)
    requires k.step.c.interactionID in t.interactions
    ensures var c := k.step.c; var u := Next(t, k);
      && (Err(t, k) == Ok <==> Replies(t, k.now, c))
      && (Err(t, k) == Ok ==> Answers(t, u, k.now, c))
      && (Err(t, k) !in {Ok, ErrExpired} ==> u == t)
  {
    hide Apply, Answer, Answers, Lapse, Ledger, Calls, PinOk, ContinuationsOk, MarkersOk;
    var c := k.step.c;
    AdmitApplies(t, k);
    SubmittedAt(t.commands, c.communicationID);
    assert c.interactionID != "";
    if Replies(t, k.now, c) {
      AnswerDoes(t, k.now, c);
    }
  }

  lemma AnswerDoes(t: Thread, now: int, c: Command)
    requires WaitsOk(t.runs, t.interactions) && c.interactionID in t.interactions && Replies(t, now, c)
    ensures Answers(t, Answer(t, now, c, t.interactions[c.interactionID]), now, c)
  {
    hide AppendAll;
  }

  /** What a late reply does: it closes the wait and fails. */
  lemma LateReplyContract(t: Thread, k: Tick)
    requires Inv(t) && k.step.StepAdmit? && !Submitted(t, k.step.c.communicationID)
    requires k.step.c.interactionID in t.interactions && k.step.c.text == "" && k.step.c.reply.Reply?
    requires k.step.c.runID != "" && k.step.c.communicationID != "" && k.step.c.principal == t.principal != ""
    ensures var x := t.interactions[k.step.c.interactionID];
      && (Err(t, k) == ErrExpired <==> x.state == Lapsed || (x.state == Open && x.expires <= k.now))
      && (x.state == Open && x.expires <= k.now ==> Next(t, k) == Next(t, Tick(k.now, None, StepReap(""))))
  {
    hide Apply, AppendAll, Ledger, Calls, PinOk, ContinuationsOk, MarkersOk, Interrupt, Lapse, Answer;
    var c := k.step.c;
    AdmitApplies(t, k);
    ReapApplies(t, Tick(k.now, None, StepReap("")));
    SubmittedAt(t.commands, c.communicationID);
    assert c.interactionID != "";
    if t.interactions[c.interactionID].state == Open {
      assert forall r :: r in t.runs ==> !t.runs[r].state.Live();
      assert InterruptExpired(t, k.now, "") == t;
    }
  }

  // ---------------------------------------------------------------- inputs, waits, approvals

  predicate Undecided(row: CommandRow, r: Id) {
    row.execution == r && !row.included && row.reason == NoReason
  }

  /** The communication is an undecided input of the run. */
  predicate Awaits(t: Thread, r: Id, communication: Id) {
    exists j :: 0 <= j < |t.commands| && t.commands[j].cmd.communicationID == communication
                && Undecided(t.commands[j], r)
  }

  /** The communications are undecided inputs of the run, each named once. */
  predicate Includable(t: Thread, r: Id, communications: seq<Id>) {
    && (forall i, j :: 0 <= i < j < |communications| ==> communications[i] != communications[j])
    && forall i :: 0 <= i < |communications| ==> Awaits(t, r, communications[i])
  }

  /** All of the named inputs become included, or none. */
  lemma IncludedContract(t: Thread, k: Tick)
    requires Inv(t) && k.step.StepIncluded?
    ensures Err(t, k) == Ok <==>
      Fenced(t, k.now, k.step.o) && Includable(t, k.step.o.command.runID, k.step.communications)
    ensures Err(t, k) != Ok ==> Next(t, k) == t
    ensures Err(t, k) == Ok ==>
      && Same(Next(t, k), t.(commands := Next(t, k).commands)) && |Next(t, k).commands| == |t.commands|
      && forall j :: 0 <= j < |t.commands| ==>
           Next(t, k).commands[j] == if t.commands[j].cmd.communicationID in k.step.communications
             then t.commands[j].(included := true) else t.commands[j]
  {
    hide Apply, AppendAll, Waiting, Calls, PinOk, InputsOk, EpochsOk, Includable, IncludeAll;
    IncludedApplies(t, k);
    FenceIs(t, k.now, k.step.o);
    IncludesAll(t, k.step.o.command.runID, k.step.communications);
  }

  ghost predicate Distinguished(rows: seq<CommandRow>) {
    forall i, j :: 0 <= i < j < |rows| ==> rows[i].cmd.communicationID != rows[j].cmd.communicationID
  }

  lemma {:induction false} IncludesAll(t: Thread, r: Id, communications: seq<Id>)
    requires Distinguished(t.commands)
    ensures IncludeAll(t, r, communications).Some? <==> Includable(t, r, communications)
    ensures IncludeAll(t, r, communications).Some? ==> var u := IncludeAll(t, r, communications).value;
      && Same(u, t.(commands := u.commands)) && |u.commands| == |t.commands|
      && forall j :: 0 <= j < |t.commands| ==>
           u.commands[j] == if t.commands[j].cmd.communicationID in communications
             then t.commands[j].(included := true) else t.commands[j]
    decreases |communications|
  {
    hide AppendAll;
    if communications != [] {
      var first, rest := communications[0], communications[1..];
      IncludesOne(t, r, first);
      var next := IncludeOne(t, r, first);
      if next.Some? {
        IncludesAll(next.value, r, rest);
        IncludableRest(t, next.value, r, communications);
      } else {
        assert !Awaits(t, r, communications[0]);
      }
    }
  }

  lemma IncludesOne(t: Thread, r: Id, communication: Id)
    requires Distinguished(t.commands)
    ensures IncludeOne(t, r, communication).Some? <==> Awaits(t, r, communication)
    ensures IncludeOne(t, r, communication).Some? ==> var u := IncludeOne(t, r, communication).value;
      && Same(u, t.(commands := u.commands)) && |u.commands| == |t.commands| && Distinguished(u.commands)
      && forall j :: 0 <= j < |t.commands| ==>
           u.commands[j] == if t.commands[j].cmd.communicationID == communication
             then t.commands[j].(included := true) else t.commands[j]
  {
    hide AppendAll;
  }

  lemma IncludableRest(t: Thread, u: Thread, r: Id, communications: seq<Id>)
    requires communications != [] && |u.commands| == |t.commands|
    requires forall j :: 0 <= j < |t.commands| ==>
      u.commands[j] == if t.commands[j].cmd.communicationID == communications[0]
        then t.commands[j].(included := true) else t.commands[j]
    requires Awaits(t, r, communications[0])
    ensures Includable(t, r, communications) <==> Includable(u, r, communications[1..])
  {
    hide Awaits;
    var first, rest := communications[0], communications[1..];
    AwaitsNext(t, u, r, first);
    if Includable(t, r, communications) {
      forall i | 0 <= i < |rest| ensures Awaits(u, r, rest[i]) {
        assert rest[i] == communications[i + 1] && Awaits(t, r, communications[i + 1]);
      }
    }
    if Includable(u, r, rest) {
      forall i | 0 < i < |communications| ensures Awaits(t, r, communications[i]) && communications[i] != first {
        assert communications[i] == rest[i - 1];
      }
      forall i, j | 0 <= i < j < |communications| ensures communications[i] != communications[j] {
        if i > 0 {
          assert communications[i] == rest[i - 1] && communications[j] == rest[j - 1];
        }
      }
    }
  }

  lemma AwaitsNext(t: Thread, u: Thread, r: Id, first: Id)
    requires |u.commands| == |t.commands|
    requires forall j :: 0 <= j < |t.commands| ==>
      u.commands[j] == if t.commands[j].cmd.communicationID == first
        then t.commands[j].(included := true) else t.commands[j]
    ensures !Awaits(u, r, first) && forall x :: x != first ==> (Awaits(u, r, x) <==> Awaits(t, r, x))
  {
    forall x | x != first && Awaits(t, r, x) ensures Awaits(u, r, x) {
      var j :| 0 <= j < |t.commands| && t.commands[j].cmd.communicationID == x && Undecided(t.commands[j], r);
      assert u.commands[j] == t.commands[j];
    }
  }

  /** The binding of a call as its run stands: everything that identifies it, and nothing missing. */
  predicate BoundTo(t: Thread, run: Run, b: CallBinding, journey: Id, key: Id, name: Id, schema: Id,
      arguments: Option<string>) {
    && run.scope.Some? && run.digest.Some?
    && b == CallBinding(journey, key, name, schema, arguments, run.scope.value.version, t.principal, t.id,
                        run.digest.value)
    && key != "" && name != "" && schema != "" && run.scope.value.version != "" && t.principal != "" && t.id != ""
    && |run.digest.value| == 64 && arguments.Some?
  }

  predicate Posed(p: Proposal) {
    && p.id != "" && p.callID != "" && p.saved.provider != "" && p.name != ""
    && if p.kind == Approval then p.questions == [] else QuestionsFine(p.questions)
  }

  predicate HasInput(t: Thread, r: Id) {
    exists j :: 0 <= j < |t.commands| && Undecided(t.commands[j], r)
  }

  /** A run waits exactly with a well-formed question, no input undecided, and the binding its call has now; the
      wait carries the run's digest and the settings' deadline, and the run is released. */
  lemma WaitContract(t: Thread, k: Tick)
    requires k.step.StepWait?
    ensures var o, p := k.step.o, k.step.p;
      && (Err(t, k) == ErrPending <==> Posed(p) && Fenced(t, k.now, o) && HasInput(t, o.command.runID))
      && (Err(t, k) == Ok <==>
            && Posed(p) && Fenced(t, k.now, o) && !HasInput(t, o.command.runID)
            && BoundTo(t, t.runs[o.command.runID], p.binding, p.journey, p.key, p.nameDigest, p.schemaDigest,
                       p.arguments)
            && (p.kind == Approval ==> p.journey != "") && p.id !in t.interactions)
      && (Err(t, k) != Ok ==> Next(t, k) == t)
      && (Err(t, k) == Ok ==>
            var r := o.command.runID; var run := t.runs[r];
            var wait := if run.scope.value.ttl > 0 then run.scope.value.ttl else 300_000;
            Same(Next(t, k), t.(
              runs := t.runs[r := run.(state := AwaitingInput, owner := "", lease := k.now)],
              history := p.saved.history,
              interactions := t.interactions[p.id := Interaction(
                r, if p.journey == "" then run.journey else p.journey, run.digest, p.kind, p.callID, p.name, p.binding,
                p.questions, p.saved, k.now + wait, Open, if p.kind == Approval then Requested else NoMarker, "",
                false)])))
  {
    hide Apply, AppendAll, QuestionsFine;
    WaitApplies(t, k);
    FenceIs(t, k.now, k.step.o);
    assert HasPending(t, k.step.o.command.runID) <==> HasInput(t, k.step.o.command.runID);
  }

  /** Interaction i is the approval whose answer opened run r. */
  predicate ApprovalOf(t: Thread, r: Id, i: Id) {
    && i in t.interactions && t.interactions[i].kind == Approval && t.interactions[i].state == Answered
    && t.interactions[i].continuation == r
  }

  /** A run can give up the decided approval it continues, any number of times, and no other. */
  lemma SupersedeContract(t: Thread, k: Tick)
    requires k.step.StepSupersede?
    ensures var o, i := k.step.o, k.step.interaction;
      && (Err(t, k) == Ok <==>
            && Fenced(t, k.now, o) && ApprovalOf(t, o.command.runID, i)
            && t.interactions[i].marker in {Decided, Superseded})
      && (Err(t, k) != Ok ==> Next(t, k) == t)
      && (Err(t, k) == Ok ==> Same(Next(t, k), t.(
            interactions := t.interactions[i := t.interactions[i].(marker := Superseded)])))
  {
    hide Apply, AppendAll;
    SupersedeApplies(t, k);
    FenceIs(t, k.now, k.step.o);
    if Err(t, k) == Ok && t.interactions[k.step.interaction].marker == Superseded {
      var i := k.step.interaction;
      assert t.interactions[i := t.interactions[i].(marker := Superseded)] == t.interactions;
    }
  }

  // ---------------------------------------------------------------- tool calls

  predicate Settled(o: Outcome) {
    o != Dispatching && o != Unknown
  }

  /** The call is well formed, of a reviewed class, approved if it can have effects, bound as its run stands, and
      no other call of the thread is unresolved. */
  predicate Sound(t: Thread, now: int, o: Owner, op: Call, attempt: int) {
    && op.callID != "" && attempt in {1, 2} && op.policy != Unreviewed && (op.policy == ReadOnly || op.requiresApproval)
    && Fenced(t, now, o)
    && BoundTo(t, t.runs[o.command.runID], op.binding, op.journey, op.key, op.nameDigest, op.schemaDigest, op.arguments)
  }

  predicate NothingElse(t: Thread, c: Id) {
    forall d :: d in t.operations && d != c ==> Settled(t.operations[d].outcome)
  }

  /** The approval was given for this very call, in time, and is not used. */
  predicate Approved(t: Thread, now: int, r: Id, op: Call, i: Id) {
    && ApprovalOf(t, r, i) && now < t.interactions[i].expires && t.interactions[i].approved
    && t.interactions[i].marker == Decided && t.interactions[i].callID == op.callID && t.interactions[i].name == op.name
  }

  predicate Matching(t: Thread, op: Call, i: Id)
    requires i in t.interactions
  {
    t.interactions[i].journey == op.journey && t.interactions[i].binding == op.binding
  }

  /** A call is sent a first time exactly if it is sound, new, and approved as it is bound, where it needs approval;
      an approval of another journey or binding is given up instead. */
  lemma FirstAttemptContract(t: Thread, k: Tick)
    requires k.step.StepBegin? && k.step.attempt == 1
    ensures var o, op, i, r := k.step.o, k.step.op, k.step.approval, k.step.o.command.runID;
      var ready := Sound(t, k.now, o, op, 1) && NothingElse(t, op.callID)
                   && (op.requiresApproval ==> Approved(t, k.now, r, op, i));
      && (Err(t, k) == Ok <==>
            && ready && (op.requiresApproval ==> Matching(t, op, i))
            && op.callID !in t.operations && (op.callID, 1) !in t.attempts)
      && (Err(t, k) == ErrSuperseded <==> ready && op.requiresApproval && !Matching(t, op, i))
      && (Err(t, k) == ErrOutcomeUnknown <==> Sound(t, k.now, o, op, 1) && !NothingElse(t, op.callID))
      && (Err(t, k) !in {Ok, ErrSuperseded} ==> Next(t, k) == t)
      && (Err(t, k) == ErrSuperseded ==>
            Same(Next(t, k), t.(interactions := t.interactions[i := t.interactions[i].(marker := Superseded)])))
      && (Err(t, k) == Ok ==>
            Same(Next(t, k), t.(
              interactions := if op.requiresApproval
                then t.interactions[i := t.interactions[i].(marker := Dispatched)] else t.interactions,
              operations := t.operations[op.callID := Operation(
                r, op.name, op.binding, op.policy, op.requiresApproval, Dispatching,
                if op.journey == "" then t.runs[r].journey else op.journey)],
              attempts := t.attempts[(op.callID, 1) := Dispatching])))
  {
    hide Apply, AppendAll;
    BeginApplies(t, k);
    FenceIs(t, k.now, k.step.o);
    assert OtherUnresolved(t, k.step.op.callID) <==> !NothingElse(t, k.step.op.callID);
  }

  /** A call is sent again exactly if it is sound and on record as the same call, rejected or uncertain, without
      effects and not repeated yet. */
  lemma SecondAttemptContract(t: Thread, k: Tick)
    requires k.step.StepBegin? && k.step.attempt == 2
    ensures var o, op, r := k.step.o, k.step.op, k.step.o.command.runID;
      && (Err(t, k) == Ok <==>
            && Sound(t, k.now, o, op, 2) && NothingElse(t, op.callID)
            && op.callID in t.operations && t.operations[op.callID].run == r
            && t.operations[op.callID].binding == op.binding && t.operations[op.callID].policy == op.policy
            && t.operations[op.callID].outcome in {Rejected, Unknown} && op.policy != Effectful
            && (op.callID, 2) !in t.attempts)
      && (Err(t, k) != Ok ==> Next(t, k) == t)
      && (Err(t, k) == Ok ==>
            Same(Next(t, k), t.(
              operations := t.operations[op.callID := t.operations[op.callID].(outcome := Dispatching)],
              attempts := t.attempts[(op.callID, 2) := Dispatching])))
  {
    hide Apply, AppendAll;
    BeginApplies(t, k);
    FenceIs(t, k.now, k.step.o);
    assert OtherUnresolved(t, k.step.op.callID) <==> !NothingElse(t, k.step.op.callID);
  }

  /** No call is sent a third time, or before the first. */
  lemma OtherAttemptsRefused(t: Thread, k: Tick)
    requires k.step.StepBegin? && k.step.attempt !in {1, 2}
    ensures Err(t, k) == ErrState && Next(t, k) == t
  {
    hide Apply;
    BeginApplies(t, k);
  }

  /** An outcome is recorded exactly for the attempt in flight of a call of the run. */
  lemma EndContract(t: Thread, k: Tick)
    requires k.step.StepEnd?
    ensures var o, c, a := k.step.o, k.step.callID, (k.step.callID, k.step.attempt);
      && (Err(t, k) == Ok <==>
            && k.step.outcome != Dispatching && Fenced(t, k.now, o)
            && c in t.operations && t.operations[c].run == o.command.runID && t.operations[c].outcome == Dispatching
            && a in t.attempts && t.attempts[a] == Dispatching)
      && (Err(t, k) != Ok ==> Next(t, k) == t)
      && (Err(t, k) == Ok ==>
            Same(Next(t, k), t.(operations := t.operations[c := t.operations[c].(outcome := k.step.outcome)],
                                attempts := t.attempts[a := k.step.outcome])))
  {
    hide Apply, AppendAll;
    EndApplies(t, k);
    FenceIs(t, k.now, k.step.o);
  }

  // ---------------------------------------------------------------- start, definitions, settings, end

  /** A run starts exactly with nothing unresolved, under the conversation's digest, or under the shared one where the
      conversation has none, and for its journey.  It pins the conversation, and makes its digest the shared one if
      there is none. */
  lemma StartContract(t: Thread, k: Tick)
    requires k.step.StepStart?
    ensures var o, d, j := k.step.o, k.step.digest, k.step.journey; var r := o.command.runID;
      && (Err(t, k) == Ok <==>
            && |d| == 64 && Fenced(t, k.now, o)
            && Quiet(t)
            && (if t.pin == None then k.current == None || k.current == Some(d) else t.pin == Some(d))
            && (j == "" || t.runs[r].journey == "" || t.runs[r].journey == j))
      && (Err(t, k) == ErrOutcomeUnknown <==> |d| == 64 && Fenced(t, k.now, o) && !Quiet(t))
      && (Err(t, k) != Ok ==> Next(t, k) == t && Apply(t, k.now, k.current, k.step).current == k.current)
      && (Err(t, k) == Ok ==>
            && Next(t, k) == t.(pin := Some(d), runs := t.runs[r := t.runs[r].(
                 digest := Some(d), journey := if j == "" then t.runs[r].journey else j)])
            && Apply(t, k.now, k.current, k.step).current == (if t.pin == None then Some(d) else k.current))
  {
    StartApplies(t, k);
    FenceIs(t, k.now, k.step.o);
    QuietIs(t);
    hide Apply, AnyUnresolved, Quiet, LockOwner;
  }

  /** None of the thread's calls is unresolved. */
  predicate Quiet(t: Thread) {
    forall c :: c in t.operations ==> Settled(t.operations[c].outcome)
  }

  lemma QuietIs(t: Thread)
    ensures Quiet(t) <==> !AnyUnresolved(t)
  {
  }

  /** The conversation can change its definition: the run is no reply, nothing waits and nothing is unresolved. */
  predicate Free(t: Thread, o: Owner) {
    o.command.interactionID == "" && (forall i :: i in t.interactions ==> t.interactions[i].state != Open) && Quiet(t)
  }

  /** The digest the conversation is to have: the shared one if it has none or is free to change, else its own. */
  predicate Moves(t: Thread, o: Owner, current: Option<Digest>) {
    t.pin == None || (current != None && current != t.pin && Free(t, o))
  }

  /** Under the fence a conversation takes the shared digest exactly if it has none of its own or is free to change,
      and is told the digest it then has; either is refused exactly if it is not served. */
  lemma ResolveContract(t: Thread, k: Tick)
    requires k.step.StepResolve?
    ensures var o, served := k.step.o, k.step.served; var wanted := if Moves(t, o, k.current) then k.current else t.pin;
      var r := Apply(t, k.now, k.current, k.step);
      && (r.err == Ok <==> Fenced(t, k.now, o) && wanted.Some? && wanted.value in served)
      && (r.err == Ok ==> r.digest == wanted.value && Same(r.thread, t.(pin := wanted)))
      && (r.err == Ok && t.pin == wanted ==> r.thread == t)
      && (r.err != Ok ==> r.thread == t)
      && (Fenced(t, k.now, o) && r.err != Ok ==> r.err == ErrDefinition)
      && r.current == k.current
  {
    hide Apply, AppendAll;
    ResolveApplies(t, k);
    FenceIs(t, k.now, k.step.o);
    QuietIs(t);
  }

  /** What governs a run is recorded once: complete, under the fence, and never changed. */
  lemma ScopeContract(t: Thread, k: Tick)
    requires k.step.StepScope?
    ensures var o, scope := k.step.o, k.step.scope; var r := o.command.runID;
      && (Err(t, k) == Ok <==>
            && scope.version != "" && scope.endpoint != "" && scope.settings.Some? && Fenced(t, k.now, o)
            && t.runs[r].scope in {None, Some(scope)})
      && (Err(t, k) != Ok ==> Next(t, k) == t)
      && (Err(t, k) == Ok ==> Next(t, k) == t.(runs := t.runs[r := t.runs[r].(scope := Some(scope))]))
  {
    hide Apply;
    ScopeApplies(t, k);
    FenceIs(t, k.now, k.step.o);
    var r := k.step.o.command.runID;
    if Err(t, k) == Ok && t.runs[r].scope == Some(k.step.scope) {
      assert t.runs[r := t.runs[r].(scope := Some(k.step.scope))] == t.runs;
    }
  }

  /** The active journeys are replaced by any list without a blank or a repetition. */
  lemma ActiveContract(t: Thread, k: Tick)
    requires k.step.StepActive?
    ensures var ids := k.step.ids;
      && (Err(t, k) == Ok <==>
            && Fenced(t, k.now, k.step.o) && "" !in ids
            && forall i, j :: 0 <= i < |ids| && 0 <= j < |ids| && ids[i] == ids[j] ==> i == j)
      && Next(t, k) == (if Err(t, k) == Ok then t.(active := ids) else t)
  {
    hide Apply;
    ActiveApplies(t, k);
    FenceIs(t, k.now, k.step.o);
  }

  lemma NoteContract(t: Thread, k: Tick)
    requires k.step.StepNote?
    ensures Err(t, k) == Ok <==> Fenced(t, k.now, k.step.o)
    ensures Same(Next(t, k), t) && (Err(t, k) != Ok ==> Next(t, k) == t)
  {
    hide Apply, AppendAll;
    NoteApplies(t, k);
    FenceIs(t, k.now, k.step.o);
  }

  /** A run ends in a final state under the fence; completion alone is refused, as pending, while it has undecided
      input, and every other end gives up that input and what is in flight. */
  lemma FinishContract(t: Thread, k: Tick)
    requires Inv(t) && k.step.StepFinish?
    ensures var s, r, u := k.step, k.step.o.command.runID, Next(t, k);
      && (Err(t, k) == ErrPending <==> s.state == Completed && Fenced(t, k.now, s.o) && HasInput(t, r))
      && (Err(t, k) == Ok <==>
            && s.state in {Completed, Failed, AuthRequired, DependencyUnavailable, LimitExceeded}
            && Fenced(t, k.now, s.o) && (s.state == Completed ==> !HasInput(t, r)))
      && (Err(t, k) != Ok ==> u == t)
      && (Err(t, k) == Ok ==>
            && Same(u, t.(
                 runs := t.runs[r := t.runs[r].(state := s.state, answer := s.answer)],
                 history := if s.history.Some? && t.runs[r].digest != None then s.history.value else t.history,
                 commands := u.commands, operations := u.operations, attempts := u.attempts))
            && if s.state == Completed
               then u.commands == t.commands && u.operations == t.operations && u.attempts == t.attempts
               else Abandons(t, u, r, s.state))
  {
    hide Apply, Inv, AppendAll, Dispose, MarkUnknown, Abandons;
    FinishApplies(t, k);
    FenceIs(t, k.now, k.step.o);
    var r := k.step.o.command.runID;
    assert HasPending(t, r) <==> HasInput(t, r);
    OperationsOf(t);
    DisposeDoes(t, r, k.step.state);
    if Err(t, k) == Ok && k.step.state != Completed {
      AbandonsToo(t, Dispose(MarkUnknown(t, r), r, k.step.state), Next(t, k), r, k.step.state);
    }
  }

  lemma AbandonsToo(t: Thread, v: Thread, u: Thread, r: Id, reason: RunState)
    requires Abandons(t, v, r, reason)
    requires u.commands == v.commands && u.operations == v.operations && u.attempts == v.attempts
    ensures Abandons(t, u, r, reason)
  {
  }

  lemma DisposeDoes(t: Thread, r: Id, reason: RunState)
    requires OperationsOk(t.operations, t.runs)
    ensures var v := Dispose(MarkUnknown(t, r), r, reason);
      && Abandons(t, v, r, reason)
      && Same(v, t.(commands := v.commands, operations := v.operations, attempts := v.attempts))
  {
    hide AppendAll, MarkUnknown, DisposeRows, DisposeEvents, OperationsOk;
    UnknownIs(t, t.runs, r);
  }

  lemma OperationsOf(t: Thread)
    requires Inv(t)
    ensures OperationsOk(t.operations, t.runs)
  {
  }

  // ---------------------------------------------------------------- what is read

  function Taken(row: CommandRow, r: Id): seq<CommandRow> {
    if Undecided(row, r) then [row] else []
  }

  lemma {:induction false} PendingLast(rows: seq<CommandRow>, r: Id)
    requires rows != []
    ensures PendingOf(rows, r) == PendingOf(rows[..|rows| - 1], r) + Taken(rows[|rows| - 1], r)
  {
  }

  lemma {:induction false} PendingEmpty(r: Id)
    ensures PendingOf([], r) == []
  {
  }

  /** The inbox of a run keeps the order of the commands, and takes each by itself. */
  lemma {:induction false} PendingContract(before: seq<CommandRow>, after: seq<CommandRow>, row: CommandRow, r: Id)
    ensures PendingOf(before + after, r) == PendingOf(before, r) + PendingOf(after, r)
    ensures PendingOf([row], r) == if Undecided(row, r) then [row] else []
    decreases |after|
  {
    hide PendingOf;
    PendingEmpty(r);
    PendingLast([row], r);
    assert [row][..0] == [];
    if after == [] {
      assert before + after == before;
    } else {
      var n := |after| - 1;
      PendingContract(before, after[..n], row, r);
      PendingLast(before + after, r);
      PendingLast(after, r);
      assert (before + after)[..|before| + n] == before + after[..n] && (before + after)[|before| + n] == after[n];
    }
  }

  /** A journey may not be evicted exactly while an approval for it is open, or decided and not used by the run that
      continues it, or one of its calls is unresolved. */
  lemma PinnedContract(t: Thread, r: Id, journey: Id)
    ensures journey in PinnedJourneys(t, r) <==>
      && journey != ""
      && (|| (exists i :: i in t.interactions && t.interactions[i].journey == journey && PinsJourney(t, r, i))
          || (exists c :: c in t.operations && t.operations[c].journey == journey && !Settled(t.operations[c].outcome)))
  {
  }

  predicate PinsJourney(t: Thread, r: Id, i: Id)
    requires i in t.interactions
  {
    && t.interactions[i].kind == Approval
    && (t.interactions[i].state == Open || (ApprovalOf(t, r, i) && t.interactions[i].marker == Decided))
  }
}
