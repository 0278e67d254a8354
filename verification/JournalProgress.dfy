/** What runs of the protocol achieve: lost runs are recovered, messages are answered, and what is sent with an
    approval was approved by a person. */
module JournalProgress {
  import opened Basics
  import opened EventLog
  import opened Journal
  import opened JournalInvariant
  import opened JournalSteps
  import opened JournalTheorems
  import opened JournalContract
  import JournalHistory
  import History

  // ---------------------------------------------------------------- recovery

  /** In every reachable thread, a run that is still live after the reaper looked at it is running under a valid lease,
      or its own command can claim it. */
  lemma {:induction false} Recovered(id: Id, principal: Id, ticks: seq<Tick>, now: int, r: Id, owner: Id, duration: int)
    requires var t := After(NewThread(id, principal), ticks + [Tick(now, None, StepReap(r))]); IsLive(t, r)
    requires owner != "" && duration > 0
    ensures var t := After(NewThread(id, principal), ticks + [Tick(now, None, StepReap(r))]);
      || (t.runs[r].state == Running && now < t.runs[r].lease)
      || exists k :: 0 <= k < |t.commands| && t.commands[k].cmd.runID == r
                     && Err(t, Tick(now, None, StepClaim(t.commands[k].cmd, owner, duration))) == Ok
  {
    hide After, Inv, Apply;
    var new_, reap := NewThread(id, principal), Tick(now, None, StepReap(r));
    InitialInv(id, principal);
    Reachable(new_, ticks);
    AlwaysAuthored(new_, ticks);
    AfterThen(new_, ticks, [reap]);
    var t := After(new_, ticks);
    OneTick(t, reap);
    StillLive(t, reap, r);
    ReapContract(t, reap, r);
    var k := ItsCommand(t, r);
    ClaimContract(t, Tick(now, None, StepClaim(t.commands[k].cmd, owner, duration)));
  }

  lemma {:induction false} OneTick(t: Thread, k: Tick)
    ensures After(t, [k]) == Next(t, k)
  {
    hide Next;
    assert [k][1..] == [];
  }

  lemma StillLive(t: Thread, k: Tick, r: Id)
    requires Inv(t) && k.step.StepReap? && IsLive(Next(t, k), r)
    ensures IsLive(t, r)
  {
    hide Apply, Inv, RowsMove, InteractionsMove, OperationsMove, AppendAll, Interrupt, Lapse, LiveRun, Overdue;
    ReapApplies(t, k);
    OnlyStops(t, k.now, k.step.candidate, r);
  }

  lemma OnlyStops(t: Thread, now: int, candidate: Id, r: Id)
    requires IsLive(Reap(t, now, candidate), r)
    ensures IsLive(t, r)
  {
    hide AppendAll, InterruptExpired, Overdue;
    InterruptStops(t, now, candidate, r);
  }

  lemma InterruptStops(t: Thread, now: int, candidate: Id, r: Id)
    ensures IsLive(InterruptExpired(t, now, candidate), r) ==> IsLive(t, r)
  {
    hide AppendAll, MarkUnknown, Dispose, LiveRun, Lost;
    forall run | run in t.runs ensures var v := t.(runs := t.runs[run := t.runs[run].(state := Interrupted)]);
      Dispose(MarkUnknown(v, run), run, Interrupted).runs == v.runs
    {
      RunsStay(t.(runs := t.runs[run := t.runs[run].(state := Interrupted)]), run);
    }
  }

  lemma RunsStay(v: Thread, run: Id)
    ensures Dispose(MarkUnknown(v, run), run, Interrupted).runs == v.runs
  {
    hide AppendAll, DisposeRows, DisposeEvents, MarkAttempts;
  }

  /** The command that opened a live run, as the run's continuation needs it. */
  lemma ItsCommand(t: Thread, r: Id) returns (k: nat)
    requires Inv(t) && r in t.runs
    ensures k < |t.commands| && t.commands[k].cmd.runID == r && t.commands[k].execution == r
    ensures CommandRowOf(t, t.commands[k].cmd)
    ensures forall i |
      i in t.interactions && t.interactions[i].state == Answered && t.interactions[i].continuation == r ::
      ContinuesAnswer(t, t.commands[k].cmd)
  {
    hide JournalInvariant.Calls, PinOk, InputsOk, EpochsOk, ActivityOk, WaitsOk, MarkersOk;
    k :| 0 <= k < |t.commands| && t.commands[k].cmd.runID == r && t.commands[k].execution == r;
  }

  // ---------------------------------------------------------------- approvals are given by people

  /** The command of row j is a person's decision on approval i. */
  predicate Decides(t: Thread, i: Id, j: nat)
    requires i in t.interactions
  {
    var x := t.interactions[i];
    && j < |t.commands| && t.commands[j].cmd.runID == x.continuation && t.commands[j].cmd.interactionID == i
    && t.commands[j].cmd.reply.Reply? && t.commands[j].cmd.reply.binding == Some(x.binding)
    && t.commands[j].cmd.reply.decision == (if x.approved then "approve" else "deny")
  }

  /** Behind every answered approval is the decision of a person on that very call. */
  ghost predicate Decisions(t: Thread) {
    forall i :: i in t.interactions && t.interactions[i].kind == Approval && t.interactions[i].state == Answered ==>
      exists j: nat :: Decides(t, i, j)
  }

  /** Whatever is answered in u was answered before. */
  ghost predicate AnswersNone(t: Thread, u: Thread) {
    forall i :: i in u.interactions && u.interactions[i].state.Answered? ==>
      i in t.interactions && t.interactions[i].state.Answered?
  }

  lemma SweepAnswersNone(t: Thread, now: int, candidate: Id)
    ensures AnswersNone(t, Reap(t, now, candidate)) && AnswersNone(t, ExpireInteractions(t, now))
  {
    hide AppendAll, InterruptExpired;
    JournalHistory.InterruptSame(t, now, candidate);
  }

  lemma OthersAnswerNone(t: Thread, k: Tick)
    requires !k.step.StepAdmit?
    ensures AnswersNone(t, Next(t, k))
  {
    hide Apply, AppendAll, IncludeAll, Reap, Included, Finish, Start, ResolveDefinition, BeginAttempt, EndAttempt, Wait;
    hide Supersede, Accepted, Recoverable, LockOwner;
    match k.step {
      case StepClaim(_, _, _) => ClaimApplies(t, k);
      case StepRenew(_, _) => RenewApplies(t, k);
      case StepReap(candidate) =>
        ReapApplies(t, k);
        SweepAnswersNone(t, k.now, candidate);
      case StepIncluded(o, communications) => IncludedSame(t, k);
      case StepWait(_, _) => WaitContract(t, k);
      case StepSupersede(_, _) => SupersedeContract(t, k);
      case StepBegin(o, op, attempt, approval) =>
        BeginApplies(t, k);
        BeginAnswersNone(t, k.now, o, op, attempt, approval);
      case StepEnd(_, _, _, _, _) => EndContract(t, k);
      case StepFinish(_, _, _, _, _, _) => JournalHistory.FinishWrites(t, k);
      case _ => SetupWrites(t, k);
    }
  }

  lemma IncludedSame(t: Thread, k: Tick)
    requires k.step.StepIncluded?
    ensures Next(t, k).interactions == t.interactions
  {
    hide Apply, IncludeAll, LockOwner;
    IncludedApplies(t, k);
    JournalHistory.IncludeSame(t, k.step.o.Run(), k.step.communications);
  }

  lemma BeginAnswersNone(t: Thread, now: int, o: Owner, op: Call, attempt: int, approval: Id)
    ensures AnswersNone(t, BeginAttempt(t, now, o, op, attempt, approval).thread)
  {
    hide BeginAttempt;
    BeginWrites(t, now, o, op, attempt, approval);
  }

  /** Only a new, accepted reply answers an interaction, and only its own. */
  lemma AnsweredByReply(t: Thread, k: Tick, i: Id)
    requires i in Next(t, k).interactions && Next(t, k).interactions[i].state.Answered?
    requires i !in t.interactions || !t.interactions[i].state.Answered?
    ensures k.step.StepAdmit? && k.step.c.interactionID == i && i in t.interactions
    ensures !Submitted(t, k.step.c.communicationID) && Err(t, k) == Ok
  {
    hide Apply, AppendAll, InterruptExpired, ExpireInteractions;
    if k.step.StepAdmit? {
      AdmitApplies(t, k);
      SubmittedAt(t.commands, k.step.c.communicationID);
      SweepAnswersNone(t, k.now, "");
    } else {
      OthersAnswerNone(t, k);
    }
  }

  lemma DecisionsStep(t: Thread, k: Tick)
    requires Inv(t) && Decisions(t)
    ensures Decisions(Next(t, k))
  {
    hide Inv, Apply, RunsMove, OperationsMove, Decides;
    var u := Next(t, k);
    StepKeeps(t, k.now, k.current, k.step);
    forall i | i in u.interactions && u.interactions[i].kind == Approval && u.interactions[i].state == Answered
      ensures exists j: nat :: Decides(u, i, j)
    {
      if i in t.interactions && t.interactions[i].state == Answered {
        assert InteractionMoves(t.interactions[i], u.interactions[i]);
        var j: nat :| Decides(t, i, j);
        DecidesStill(t, u, i, j);
      } else {
        AnsweredByReply(t, k, i);
        ReplyContract(t, k);
        DecidesNow(t, u, k.now, k.step.c);
      }
    }
  }

  lemma DecidesStill(t: Thread, u: Thread, i: Id, j: nat)
    requires i in t.interactions && i in u.interactions && InteractionMoves(t.interactions[i], u.interactions[i])
    requires t.interactions[i].state == Answered && Decides(t, i, j) && RowsMove(t.commands, u.commands)
    ensures Decides(u, i, j)
  {
    assert RowMoves(t.commands[j], u.commands[j]);
  }

  lemma DecidesNow(t: Thread, u: Thread, now: int, c: Command)
    requires c.interactionID in t.interactions && Replies(t, now, c) && Answers(t, u, now, c)
    requires t.interactions[c.interactionID].kind == Approval
    ensures c.interactionID in u.interactions && Decides(u, c.interactionID, |t.commands|)
  {
  }

  lemma {:induction false} DecisionsAfter(t: Thread, ticks: seq<Tick>)
    requires Inv(t) && Decisions(t)
    ensures Decisions(After(t, ticks))
    decreases |ticks|
  {
    hide Inv, Evolves, Decisions, Apply;
    if ticks != [] {
      DecisionsStep(t, ticks[0]);
      StepKeeps(t, ticks[0].now, ticks[0].current, ticks[0].step);
      DecisionsAfter(Next(t, ticks[0]), ticks[1..]);
    }
  }

  /** A person approved this call: the command that opened the operation's run says "approve" to an interaction with
      the operation's call, journey and binding. */
  ghost predicate ApprovedByPerson(t: Thread, c: Id)
    requires c in t.operations
  {
    exists i, j: nat ::
      && i in t.interactions && Decides(t, i, j) && t.commands[j].cmd.runID == t.operations[c].run
      && t.commands[j].cmd.reply.decision == "approve"
      && t.interactions[i].kind == Approval && t.interactions[i].callID == c
      && t.interactions[i].journey == t.operations[c].journey && t.interactions[i].binding == t.operations[c].binding
  }

  /** In every reachable thread, whatever was sent under the rule that it needs an approval was approved by a person. */
  lemma {:induction false} SentMeansApproved(id: Id, principal: Id, ticks: seq<Tick>, c: Id)
    requires var t := After(NewThread(id, principal), ticks); c in t.operations && t.operations[c].requiresApproval
    ensures ApprovedByPerson(After(NewThread(id, principal), ticks), c)
  {
    hide After, Ledger, ActivityOk, WaitsOk, PinOk, OperationsOk, AttemptsOk, Evolves, Decides;
    InitialInv(id, principal);
    Reachable(NewThread(id, principal), ticks);
    DecisionsAfter(NewThread(id, principal), ticks);
    var t := After(NewThread(id, principal), ticks);
    var i :| i in t.interactions && Backs(t.interactions[i], c, t.operations[c]);
    assert MarkerOk(t.interactions[i]) && t.interactions[i].state == Answered;
    var j: nat :| Decides(t, i, j);
    Unfolded(t, i, j);
  }

  lemma Unfolded(t: Thread, i: Id, j: nat)
    requires i in t.interactions && Decides(t, i, j)
    ensures j < |t.commands| && t.commands[j].cmd.runID == t.interactions[i].continuation
    ensures t.commands[j].cmd.reply.Reply?
    ensures t.commands[j].cmd.reply.decision == if t.interactions[i].approved then "approve" else "deny"
  {
  }

  // ---------------------------------------------------------------- messages are answered

  /** Every transaction of the list is accepted. */
  ghost predicate AllAccepted(t: Thread, ticks: seq<Tick>)
    decreases |ticks|
  {
    ticks == [] || (Err(t, ticks[0]) == Ok && AllAccepted(Next(t, ticks[0]), ticks[1..]))
  }

  /** Nothing is under way. */
  predicate AtRest(t: Thread) {
    && (forall r :: r in t.runs ==> !IsLive(t, r))
    && (forall i :: i in t.interactions ==> t.interactions[i].state != Open)
    && forall c :: c in t.operations ==> Settled(t.operations[c].outcome)
  }

  /** What one message takes: it is admitted, claimed, bound to the shared definition, started under its settings,
      included in a request and answered. */
  function Course(o: Owner, now: int, duration: int, d: Digest, served: set<Digest>, scope: Scope,
      history: Option<seq<History.Message>>, answer: string): seq<Tick>
  {
    [Tick(now, None, StepAdmit(o.command)), Tick(now, None, StepClaim(o.command, o.id, duration)),
     Tick(now, Some(d), StepResolve(o, served)), Tick(now, Some(d), StepStart(o, "", d)),
     Tick(now, None, StepScope(o, scope)), Tick(now, None, StepIncluded(o, [o.command.communicationID])),
     Tick(now, None, StepFinish(o, Completed, history, answer, "", ""))]
  }

  predicate Fresh(t: Thread, c: Command) {
    && c.runID != "" && c.communicationID != "" && c.principal == t.principal != "" && c.text != ""
    && c.interactionID == "" && !Submitted(t, c.communicationID) && Unused(t, c.runID)
  }

  predicate Complete(scope: Scope) {
    scope.version != "" && scope.endpoint != "" && scope.settings.Some?
  }

  lemma {:induction false} RestIsStill(t: Thread, now: int)
    requires AtRest(t)
    ensures Next(t, Tick(now, None, StepReap(""))) == t
  {
    hide AppendAll, Interrupt, Lapse;
    ReapApplies(t, Tick(now, None, StepReap("")));
    assert forall r :: r in t.runs ==> !t.runs[r].state.Live();
  }

  /** The transaction is accepted and leads to u. */
  ghost predicate Takes(s: Thread, k: Tick, u: Thread) {
    Err(s, k) == Ok && u == Next(s, k) && Inv(u)
  }

  function Opened(now: int): Run { Run(Pending, "", 0, now + 15_000, "", None, None, "") }

  function Held(o: Owner, lease: int, digest: Option<Digest>, scope: Option<Scope>): Run {
    Run(Running, o.id, o.epoch, lease, "", digest, scope, "")
  }

  function Closed(o: Owner, lease: int, d: Digest, scope: Scope, answer: string): Run {
    Run(Completed, o.id, o.epoch, lease, "", Some(d), Some(scope), answer)
  }

  /** The thread between the transactions of a course: as it was, but for the new run and its command. */
  ghost predicate Under(t: Thread, u: Thread, c: Command, run: Run, included: bool, epoch: nat, pin: Option<Digest>,
      history: seq<History.Message>)
  {
    Same(u, t.(runs := t.runs[c.runID := run], commands := t.commands + [CommandRow(c, c.runID, included, NoReason)],
               epoch := epoch, pin := pin, history := history))
  }

  lemma IsAdmitted(t: Thread, o: Owner, now: int) returns (u: Thread)
    requires Inv(t) && AtRest(t) && Fresh(t, o.command)
    ensures Takes(t, Tick(now, None, StepAdmit(o.command)), u)
    ensures Under(t, u, o.command, Opened(now), false, t.epoch, t.pin, t.history)
  {
    hide Inv, Apply, Evolves;
    var k := Tick(now, None, StepAdmit(o.command));
    u := Next(t, k);
    StepKeeps(t, k.now, k.current, k.step);
    RestIsStill(t, now);
    AdmitContract(t, k);
  }

  lemma IsClaimed(t: Thread, s: Thread, o: Owner, now: int, duration: int) returns (u: Thread)
    requires AtRest(t) && Fresh(t, o.command) && o.id != "" && o.epoch == t.epoch + 1 && duration > 0
    requires Inv(s)
    requires Under(t, s, o.command, Opened(now), false, t.epoch, t.pin, t.history)
    ensures Takes(s, Tick(now, None, StepClaim(o.command, o.id, duration)), u)
    ensures Under(t, u, o.command, Held(o, now + duration, None, None), false, o.epoch, t.pin, t.history)
  {
    hide Inv, Apply, Evolves;
    var k := Tick(now, None, StepClaim(o.command, o.id, duration));
    u := Next(s, k);
    StepKeeps(s, k.now, k.current, k.step);
    assert s.commands[|t.commands|].cmd == o.command;
    ClaimContract(s, k);
  }

  lemma IsResolved(t: Thread, s: Thread, o: Owner, now: int, duration: int, d: Digest, served: set<Digest>)
    returns (u: Thread)
    requires AtRest(t) && Fresh(t, o.command) && duration > 0 && d in served
    requires Inv(s)
    requires Under(t, s, o.command, Held(o, now + duration, None, None), false, o.epoch, t.pin, t.history)
    ensures Takes(s, Tick(now, Some(d), StepResolve(o, served)), u)
    ensures Under(t, u, o.command, Held(o, now + duration, None, None), false, o.epoch, Some(d), t.history)
  {
    hide Inv, Apply, Evolves;
    var k := Tick(now, Some(d), StepResolve(o, served));
    u := Next(s, k);
    StepKeeps(s, k.now, k.current, k.step);
    ResolveContract(s, k);
  }

  lemma IsStarted(t: Thread, s: Thread, o: Owner, now: int, duration: int, d: Digest) returns (u: Thread)
    requires AtRest(t) && Fresh(t, o.command) && duration > 0 && |d| == 64
    requires Inv(s)
    requires Under(t, s, o.command, Held(o, now + duration, None, None), false, o.epoch, Some(d), t.history)
    ensures Takes(s, Tick(now, Some(d), StepStart(o, "", d)), u)
    ensures Under(t, u, o.command, Held(o, now + duration, Some(d), None), false, o.epoch, Some(d), t.history)
  {
    hide Inv, Apply, Evolves;
    var k := Tick(now, Some(d), StepStart(o, "", d));
    u := Next(s, k);
    StepKeeps(s, k.now, k.current, k.step);
    StartContract(s, k);
  }

  lemma IsScoped(t: Thread, s: Thread, o: Owner, now: int, duration: int, d: Digest, scope: Scope) returns (u: Thread)
    requires AtRest(t) && Fresh(t, o.command) && duration > 0 && Complete(scope)
    requires Inv(s)
    requires Under(t, s, o.command, Held(o, now + duration, Some(d), None), false, o.epoch, Some(d), t.history)
    ensures Takes(s, Tick(now, None, StepScope(o, scope)), u)
    ensures Under(t, u, o.command, Held(o, now + duration, Some(d), Some(scope)), false, o.epoch, Some(d), t.history)
  {
    hide Inv, Apply, Evolves;
    var k := Tick(now, None, StepScope(o, scope));
    u := Next(s, k);
    StepKeeps(s, k.now, k.current, k.step);
    ScopeContract(s, k);
  }

  lemma IsIncluded(t: Thread, s: Thread, o: Owner, now: int, duration: int, d: Digest, scope: Scope) returns (u: Thread)
    requires AtRest(t) && Fresh(t, o.command) && duration > 0
    requires Inv(s)
    requires Under(t, s, o.command, Held(o, now + duration, Some(d), Some(scope)), false, o.epoch, Some(d), t.history)
    ensures Takes(s, Tick(now, None, StepIncluded(o, [o.command.communicationID])), u)
    ensures Under(t, u, o.command, Held(o, now + duration, Some(d), Some(scope)), true, o.epoch, Some(d), t.history)
  {
    hide Inv, Apply, Evolves;
    var k := Tick(now, None, StepIncluded(o, [o.command.communicationID]));
    u := Next(s, k);
    StepKeeps(s, k.now, k.current, k.step);
    assert Undecided(s.commands[|t.commands|], o.command.runID);
    assert Awaits(s, o.command.runID, o.command.communicationID);
    IncludedContract(s, k);
    assert u.commands == t.commands + [CommandRow(o.command, o.command.runID, true, NoReason)];
  }

  lemma IsAnswered(t: Thread, s: Thread, o: Owner, now: int, duration: int, d: Digest, scope: Scope,
      history: Option<seq<History.Message>>, answer: string) returns (u: Thread)
    requires Inv(t) && AtRest(t) && Fresh(t, o.command) && duration > 0
    requires Inv(s)
    requires Under(t, s, o.command, Held(o, now + duration, Some(d), Some(scope)), true, o.epoch, Some(d), t.history)
    ensures Takes(s, Tick(now, None, StepFinish(o, Completed, history, answer, "", "")), u)
    ensures Under(t, u, o.command, Closed(o, now + duration, d, scope, answer), true, o.epoch, Some(d),
                  if history.Some? then history.value else t.history)
  {
    hide Inv, Apply, Evolves;
    var k := Tick(now, None, StepFinish(o, Completed, history, answer, "", ""));
    u := Next(s, k);
    StepKeeps(s, k.now, k.current, k.step);
    NoInputBefore(t, o.command.runID);
    FinishContract(s, k);
  }

  lemma NoInputBefore(t: Thread, r: Id)
    requires Inv(t) && r !in t.runs
    ensures !HasInput(t, r)
  {
    hide Waiting, JournalInvariant.Calls, PinOk, InputsOk, EpochsOk;
  }

  /** Any new message to a conversation at rest can be answered: every transaction of its course is accepted, whatever
      the conversation's past, and at the end its run is completed with the answer, its input is on record as
      included, and the conversation has the shared definition and is at rest again. */
  lemma {:induction false} MessageIsAnswered(
      t: Thread, o: Owner, now: int, duration: int, d: Digest, served: set<Digest>, scope: Scope,
      history: Option<seq<History.Message>>, answer: string)
    requires Inv(t) && AtRest(t) && Fresh(t, o.command) && o.id != "" && o.epoch == t.epoch + 1 && duration > 0
    requires |d| == 64 && d in served && Complete(scope)
    ensures var ticks := Course(o, now, duration, d, served, scope, history, answer);
      && AllAccepted(t, ticks)
      && Under(t, After(t, ticks), o.command,
               Closed(o, now + duration, d, scope, answer), true, o.epoch, Some(d),
               if history.Some? then history.value else t.history)
      && AtRest(After(t, ticks))
  {
    hide Inv, Next, Err, Under, Fresh, AtRest, Complete;
    var ks := Course(o, now, duration, d, served, scope, history, answer);
    var t1 := IsAdmitted(t, o, now);
    var t2 := IsClaimed(t, t1, o, now, duration);
    var t3 := IsResolved(t, t2, o, now, duration, d, served);
    var t4 := IsStarted(t, t3, o, now, duration, d);
    var t5 := IsScoped(t, t4, o, now, duration, d, scope);
    var t6 := IsIncluded(t, t5, o, now, duration, d, scope);
    var t7 := IsAnswered(t, t6, o, now, duration, d, scope, history, answer);
    Follows([t, t1, t2, t3, t4, t5, t6, t7], ks);
    RestsAgain(t, t7, o, Closed(o, now + duration, d, scope, answer), Some(d),
               if history.Some? then history.value else t.history);
  }

  /** Transactions accepted one after the other are accepted as a list. */
  lemma {:induction false} Follows(ts: seq<Thread>, ks: seq<Tick>)
    requires |ts| == |ks| + 1 && forall i :: 0 <= i < |ks| ==> Takes(ts[i], ks[i], ts[i + 1])
    ensures AllAccepted(ts[0], ks) && After(ts[0], ks) == ts[|ks|]
    decreases |ks|
  {
    hide Next, Err, Inv;
    if ks != [] {
      assert Takes(ts[0], ks[0], ts[1]);
      forall i | 0 <= i < |ks| - 1 ensures Takes(ts[1..][i], ks[1..][i], ts[1..][i + 1]) {
        assert Takes(ts[i + 1], ks[i + 1], ts[i + 2]);
      }
      Follows(ts[1..], ks[1..]);
    }
  }

  lemma RestsAgain(t: Thread, u: Thread, o: Owner, run: Run, pin: Option<Digest>, history: seq<History.Message>)
    requires AtRest(t) && run.state == Completed && Under(t, u, o.command, run, true, o.epoch, pin, history)
    ensures AtRest(u)
  {
  }

  // ---------------------------------------------------------------- approved calls are sent

  /** What an approved call takes: the reply is admitted, its run claimed, bound to the conversation's own definition
      and started, and the call is recorded before and after it is sent. */
  function ApprovedCourse(o: Owner, now: int, duration: int, current: Option<Digest>, d: Digest, served: set<Digest>,
      scope: Scope, op: Call, outcome: Outcome): seq<Tick>
  {
    [Tick(now, None, StepAdmit(o.command)), Tick(now, None, StepClaim(o.command, o.id, duration)),
     Tick(now, current, StepResolve(o, served)), Tick(now, current, StepStart(o, "", d)),
     Tick(now, None, StepScope(o, scope)), Tick(now, None, StepBegin(o, op, 1, o.command.interactionID)),
     Tick(now, None, StepEnd(o, op.callID, op.name, 1, outcome))]
  }

  /** An approving reply to interaction c.interactionID, in time. */
  predicate Approves(t: Thread, now: int, c: Command) {
    && c.interactionID in t.interactions && !Submitted(t, c.communicationID) && Replies(t, now, c)
    && t.interactions[c.interactionID].kind == Approval && c.reply.decision == "approve"
  }

  /** The thread between these transactions: as it was, but for the answer, the run it opened and the call. */
  ghost predicate Continuing(t: Thread, u: Thread, c: Command, run: Run, epoch: nat, marker: Marker,
      operations: map<Id, Operation>, attempts: map<(Id, int), Outcome>)
    requires c.interactionID in t.interactions
  {
    var x := t.interactions[c.interactionID];
    && x.run in t.runs
    && Same(u, t.(
         commands := t.commands + [CommandRow(c, c.runID, false, Consumed)],
         runs := t.runs[c.runID := run][x.run := t.runs[x.run].(state := Completed)],
         interactions := t.interactions[c.interactionID := x.(
           state := Answered, continuation := c.runID, approved := true, marker := marker)],
         epoch := epoch, operations := operations, attempts := attempts))
  }

  /** The call that the approval is for, new to the journal and bound under the settings its run is to have. */
  predicate Proposed(t: Thread, i: Id, op: Call, d: Digest, scope: Scope)
    requires i in t.interactions
  {
    var x := t.interactions[i];
    && op.callID == x.callID != "" && op.name == x.name && op.journey == x.journey && op.binding == x.binding
    && op.policy != Unreviewed && op.requiresApproval
    && BoundTo(t, RunOf(d, scope), op.binding, op.journey, op.key, op.nameDigest, op.schemaDigest, op.arguments)
    && op.callID !in t.operations && (op.callID, 1) !in t.attempts
  }

  function RunOf(d: Digest, scope: Scope): Run { Run(Running, "", 0, 0, "", Some(d), Some(scope), "") }

  function Sent(t: Thread, c: Command, op: Call, outcome: Outcome): Operation
    requires c.interactionID in t.interactions
  {
    Operation(c.runID, op.name, op.binding, op.policy, true, outcome, op.journey)
  }

  /** The run that the reply opens, before and after it is claimed. */
  function Opening(t: Thread, o: Owner, now: int, d: Digest): Run
    requires o.command.interactionID in t.interactions
  {
    Run(Pending, "", 0, now + 15_000, t.interactions[o.command.interactionID].journey,
        t.interactions[o.command.interactionID].digest, None, "")
  }

  /** The digest that the approval was asked under. */
  function AskedUnder(t: Thread, o: Owner): Option<Digest>
    requires o.command.interactionID in t.interactions
  {
    t.interactions[o.command.interactionID].digest
  }

  function Continued(t: Thread, o: Owner, lease: int, digest: Option<Digest>, scope: Option<Scope>): Run
    requires o.command.interactionID in t.interactions
  {
    Run(Running, o.id, o.epoch, lease, t.interactions[o.command.interactionID].journey, digest, scope, "")
  }

  lemma IsApproved(t: Thread, o: Owner, now: int, d: Digest)
    returns (u: Thread)
    requires Inv(t) && Approves(t, now, o.command)
    ensures Takes(t, Tick(now, None, StepAdmit(o.command)), u)
    ensures Continuing(t, u, o.command, Opening(t, o, now, d), t.epoch, Decided,
                        t.operations, t.attempts)
  {
    hide Inv, Apply, Evolves;
    var k := Tick(now, None, StepAdmit(o.command));
    u := Next(t, k);
    StepKeeps(t, k.now, k.current, k.step);
    ReplyContract(t, k);
  }

  lemma IsContinued(t: Thread, s: Thread, o: Owner, now: int, duration: int, d: Digest)
    returns (u: Thread)
    requires Inv(s) && Approves(t, now, o.command)
    requires o.id != "" && o.epoch == t.epoch + 1 && duration > 0
    requires Continuing(t, s, o.command, Opening(t, o, now, d), t.epoch, Decided,
                        t.operations, t.attempts)
    ensures Takes(s, Tick(now, None, StepClaim(o.command, o.id, duration)), u)
    ensures Continuing(t, u, o.command, Continued(t, o, now + duration, AskedUnder(t, o), None), o.epoch, Decided,
                        t.operations, t.attempts)
  {
    hide Inv, Apply, Evolves;
    var k := Tick(now, None, StepClaim(o.command, o.id, duration));
    u := Next(s, k);
    StepKeeps(s, k.now, k.current, k.step);
    assert s.commands[|t.commands|].cmd == o.command;
    ClaimContract(s, k);
    OldRun(t, o.command);
  }

  lemma KeepsDigest(t: Thread, s: Thread, o: Owner, now: int, duration: int, current: Option<Digest>, d: Digest,
      served: set<Digest>)
    returns (u: Thread)
    requires Inv(s) && Approves(t, now, o.command)
    requires duration > 0 && t.pin == Some(d) && d in served
    requires Continuing(t, s, o.command, Continued(t, o, now + duration, AskedUnder(t, o), None), o.epoch, Decided,
                        t.operations, t.attempts)
    ensures Takes(s, Tick(now, current, StepResolve(o, served)), u)
    ensures Continuing(t, u, o.command, Continued(t, o, now + duration, AskedUnder(t, o), None), o.epoch, Decided,
                        t.operations, t.attempts)
  {
    hide Inv, Apply, Evolves;
    var k := Tick(now, current, StepResolve(o, served));
    u := Next(s, k);
    StepKeeps(s, k.now, k.current, k.step);
    KeysNamed(s);
    ResolveContract(s, k);
    OldRun(t, o.command);
  }

  lemma StartsAgain(t: Thread, s: Thread, o: Owner, now: int, duration: int, current: Option<Digest>, d: Digest,
      op: Call)
    returns (u: Thread)
    requires Inv(s) && Approves(t, now, o.command)
    requires duration > 0 && t.pin == Some(d) && |d| == 64 && NothingElse(t, op.callID) && op.callID !in t.operations
    requires Continuing(t, s, o.command, Continued(t, o, now + duration, AskedUnder(t, o), None), o.epoch, Decided,
                        t.operations, t.attempts)
    ensures Takes(s, Tick(now, current, StepStart(o, "", d)), u)
    ensures Continuing(t, u, o.command, Continued(t, o, now + duration, Some(d), None), o.epoch, Decided,
                        t.operations, t.attempts)
  {
    hide Inv, Apply, Evolves;
    var k := Tick(now, current, StepStart(o, "", d));
    u := Next(s, k);
    StepKeeps(s, k.now, k.current, k.step);
    StartContract(s, k);
    OldRun(t, o.command);
  }

  lemma ScopesAgain(t: Thread, s: Thread, o: Owner, now: int, duration: int, d: Digest, scope: Scope)
    returns (u: Thread)
    requires Inv(s) && Approves(t, now, o.command)
    requires duration > 0 && Complete(scope)
    requires Continuing(t, s, o.command, Continued(t, o, now + duration, Some(d), None), o.epoch, Decided,
                        t.operations, t.attempts)
    ensures Takes(s, Tick(now, None, StepScope(o, scope)), u)
    ensures Continuing(t, u, o.command, Continued(t, o, now + duration, Some(d), Some(scope)), o.epoch, Decided,
                        t.operations, t.attempts)
  {
    hide Inv, Apply, Evolves;
    var k := Tick(now, None, StepScope(o, scope));
    u := Next(s, k);
    StepKeeps(s, k.now, k.current, k.step);
    ScopeContract(s, k);
    OldRun(t, o.command);
  }

  lemma IsSent(t: Thread, s: Thread, o: Owner, now: int, duration: int, d: Digest, scope: Scope, op: Call)
    returns (u: Thread)
    requires Inv(s) && Approves(t, now, o.command)
    requires duration > 0 && Proposed(t, o.command.interactionID, op, d, scope) && NothingElse(t, op.callID)
    requires Continuing(t, s, o.command, Continued(t, o, now + duration, Some(d), Some(scope)), o.epoch, Decided,
                        t.operations, t.attempts)
    ensures Takes(s, Tick(now, None, StepBegin(o, op, 1, o.command.interactionID)), u)
    ensures Continuing(t, u, o.command, Continued(t, o, now + duration, Some(d), Some(scope)), o.epoch, Dispatched,
                        t.operations[op.callID := Sent(t, o.command, op, Dispatching)],
                        t.attempts[(op.callID, 1) := Dispatching])
  {
    hide Inv, Apply, Evolves;
    var k := Tick(now, None, StepBegin(o, op, 1, o.command.interactionID));
    u := Next(s, k);
    StepKeeps(s, k.now, k.current, k.step);
    FirstAttemptContract(s, k);
    OldRun(t, o.command);
  }

  lemma IsSettled(t: Thread, s: Thread, o: Owner, now: int, duration: int, d: Digest, scope: Scope, op: Call,
      outcome: Outcome)
    returns (u: Thread)
    requires Inv(s) && Approves(t, now, o.command)
    requires duration > 0 && outcome != Dispatching
    requires Continuing(t, s, o.command, Continued(t, o, now + duration, Some(d), Some(scope)), o.epoch, Dispatched,
                        t.operations[op.callID := Sent(t, o.command, op, Dispatching)],
                        t.attempts[(op.callID, 1) := Dispatching])
    ensures Takes(s, Tick(now, None, StepEnd(o, op.callID, op.name, 1, outcome)), u)
    ensures Continuing(t, u, o.command, Continued(t, o, now + duration, Some(d), Some(scope)), o.epoch, Dispatched,
                        t.operations[op.callID := Sent(t, o.command, op, outcome)],
                        t.attempts[(op.callID, 1) := outcome])
  {
    hide Inv, Apply, Evolves;
    var k := Tick(now, None, StepEnd(o, op.callID, op.name, 1, outcome));
    u := Next(s, k);
    StepKeeps(s, k.now, k.current, k.step);
    EndContract(s, k);
    OldRun(t, o.command);
  }

  /** The run that asked is not the run of the reply. */
  lemma OldRun(t: Thread, c: Command)
    requires c.interactionID in t.interactions && t.interactions[c.interactionID].run in t.runs && c.runID !in t.runs
    ensures t.interactions[c.interactionID].run != c.runID
  {
  }

  /** A call that a person approves in time is sent: from the open approval on, every transaction of the course is
      accepted, the definition of the conversation stays the one the approval was asked under, the approval is spent,
      and the outcome is on record. */
  lemma {:induction false} ApprovedIsSent(
      t: Thread, o: Owner, now: int, duration: int, current: Option<Digest>, d: Digest, served: set<Digest>,
      scope: Scope, op: Call, outcome: Outcome)
    requires Inv(t) && Approves(t, now, o.command) && o.id != "" && o.epoch == t.epoch + 1 && duration > 0
    requires t.pin == Some(d) && |d| == 64 && d in served && Complete(scope)
    requires Proposed(t, o.command.interactionID, op, d, scope) && NothingElse(t, op.callID) && outcome != Dispatching
    ensures var ticks := ApprovedCourse(o, now, duration, current, d, served, scope, op, outcome);
      && AllAccepted(t, ticks)
      && Continuing(t, After(t, ticks), o.command, Continued(t, o, now + duration, Some(d), Some(scope)), o.epoch,
                    Dispatched, t.operations[op.callID := Sent(t, o.command, op, outcome)],
                    t.attempts[(op.callID, 1) := outcome])
  {
    hide Inv, Next, Err, After, AllAccepted, Continuing, Approves, Proposed, Complete, Sent, Opening, Continued;
    hide AskedUnder, NothingElse, Replies, Submitted, BoundTo;
    Asked(t, now, o.command);
    IsNew(t, o.command.interactionID, op, d, scope);
    var ks := ApprovedCourse(o, now, duration, current, d, served, scope, op, outcome);
    var t1 := IsApproved(t, o, now, d);
    var t2 := IsContinued(t, t1, o, now, duration, d);
    var t3 := KeepsDigest(t, t2, o, now, duration, current, d, served);
    var t4 := StartsAgain(t, t3, o, now, duration, current, d, op);
    var t5 := ScopesAgain(t, t4, o, now, duration, d, scope);
    var t6 := IsSent(t, t5, o, now, duration, d, scope, op);
    var t7 := IsSettled(t, t6, o, now, duration, d, scope, op, outcome);
    Follows([t, t1, t2, t3, t4, t5, t6, t7], ks);
  }

  lemma Asked(t: Thread, now: int, c: Command)
    requires Approves(t, now, c)
    ensures c.interactionID in t.interactions
  {
    hide Replies, Submitted;
  }

  lemma IsNew(t: Thread, i: Id, op: Call, d: Digest, scope: Scope)
    requires i in t.interactions && Proposed(t, i, op, d, scope)
    ensures op.callID !in t.operations
  {
    hide BoundTo;
  }
}
