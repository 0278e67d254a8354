/** A conversation whose stored history keeps a call open after an ordinary run has answered: a run asks for an
    approval, the continuation of the reply is claimed and interrupted, and the next run answers. */
module OpenHistory {
  import opened Basics
  import opened EventLog
  import opened Journal
  import opened JournalTheorems
  import opened JournalHistory
  import opened History

  const FIRST := Command("a", "m1", "u", "", "hi", "", "", Clarification, Malformed)
  const NEXT := Command("c", "m3", "u", "", "more", "", "", Clarification, Malformed)
  const CHECKPOINT := [Message(true, [Text("hi")]), Message(false, [FunctionCall("call", "tool", "{}")])]
  const ANSWERED := CHECKPOINT + [Message(true, [Text("more")]), Message(false, [Text("done")])]
  const SCOPE := Scope("v", "e", Some("{}"), 0)

  function Binding(d: Digest): CallBinding {
    CallBinding("j", "k", "n", "s", Some("{}"), "v", "u", "t", d)
  }

  function Denial(d: Digest): Command {
    Command("b", "m2", "u", "", "", "", "i", Approval, Reply.Reply(map[], "deny", Some(Binding(d))))
  }

  function Question(d: Digest): Proposal {
    Proposal("i", Approval, [], "x", Saved("call", "{}", CHECKPOINT, 1, true), "tool", Binding(d),
             "j", "k", "n", "s", Some("{}"))
  }

  const ASKER := Owner(FIRST, "o", 1)
  const ANSWERER := Owner(NEXT, "o", 3)
  const LENGTH := 14

  /** The n-th transaction. */
  function Line(d: Digest, n: nat): Tick {
    match n
    case 0 => Tick(0, None, StepAdmit(FIRST))
    case 1 => Tick(0, None, StepClaim(FIRST, "o", 10))
    case 2 => Tick(0, Some(d), StepStart(ASKER, "", d))
    case 3 => Tick(0, None, StepScope(ASKER, SCOPE))
    case 4 => Tick(0, None, StepIncluded(ASKER, ["m1"]))
    case 5 => Tick(0, None, StepWait(ASKER, Question(d)))
    case 6 => Tick(1, None, StepAdmit(Denial(d)))
    case 7 => Tick(1, None, StepClaim(Denial(d), "o", 10))
    case 8 => Tick(20, None, StepReap("b"))
    case 9 => Tick(20, None, StepAdmit(NEXT))
    case 10 => Tick(20, None, StepClaim(NEXT, "o", 10))
    case 11 => Tick(20, Some(d), StepStart(ANSWERER, "", d))
    case 12 => Tick(20, None, StepIncluded(ANSWERER, ["m3"]))
    case _ => Tick(20, None, StepFinish(ANSWERER, Completed, Some(ANSWERED), "done", "", ""))
  }

  function Story(d: Digest): seq<Tick> {
    seq(LENGTH, n requires 0 <= n < LENGTH => Line(d, n))
  }

  function Of(epoch: nat, pin: Option<Digest>, history: seq<Message>, runs: map<Id, Run>, commands: seq<CommandRow>,
      interactions: map<Id, Interaction>): Thread
  {
    Thread("t", "u", epoch, pin, [], history, runs, commands, interactions, map[], map[], Log(0, map[]))
  }

  const NEW := Run(Pending, "", 0, LEASE, "", None, None, "")
  const RUNS := Run(Running, "o", 1, 10, "", None, None, "")
  const TOLD := CommandRow(FIRST, "a", true, NoReason)

  function Answered(d: Digest): Run { Run(Completed, "", 1, 0, "", Some(d), Some(SCOPE), "") }

  function Cut(d: Digest): Run { Run(Interrupted, "o", 2, 11, "j", Some(d), None, "") }

  function Asked(d: Digest): Interaction {
    Interaction("a", "j", Some(d), Approval, "x", "tool", Binding(d), [], Question(d).saved, DEFAULT_WAIT,
                WaitState.Open, Requested, "", false)
  }

  function Denied(d: Digest): Interaction {
    Asked(d).(state := WaitState.Answered, continuation := "b", marker := Marker.Denied)
  }

  function Undone(d: Digest): CommandRow { CommandRow(Denial(d), "b", false, Ended(Interrupted)) }

  /** The thread before each of these transactions, but for its events. */
  function Stage(d: Digest, n: nat): Thread {
    match n
    case 0 => Of(0, None, [], map[], [], map[])
    case 1 => Of(0, None, [], map["a" := NEW], [TOLD.(included := false)], map[])
    case 2 => Of(1, None, [], map["a" := RUNS], [TOLD.(included := false)], map[])
    case 3 => Of(1, Some(d), [], map["a" := RUNS.(digest := Some(d))], [TOLD.(included := false)], map[])
    case 4 =>
      Of(1, Some(d), [], map["a" := RUNS.(digest := Some(d), scope := Some(SCOPE))], [TOLD.(included := false)], map[])
    case 5 => Of(1, Some(d), [], map["a" := RUNS.(digest := Some(d), scope := Some(SCOPE))], [TOLD], map[])
    case 6 =>
      Of(1, Some(d), CHECKPOINT, map["a" := Answered(d).(state := AwaitingInput)], [TOLD], map["i" := Asked(d)])
    case 7 =>
      Of(1, Some(d), CHECKPOINT, map["a" := Answered(d), "b" := Run(Pending, "", 0, 1 + LEASE, "j", Some(d), None, "")],
         [TOLD, CommandRow(Denial(d), "b", false, NoReason)], map["i" := Denied(d)])
    case 8 =>
      Of(2, Some(d), CHECKPOINT, map["a" := Answered(d), "b" := Cut(d).(state := Running)],
         [TOLD, CommandRow(Denial(d), "b", false, NoReason)], map["i" := Denied(d)])
    case 9 =>
      Of(2, Some(d), CHECKPOINT, map["a" := Answered(d), "b" := Cut(d)], [TOLD, Undone(d)], map["i" := Denied(d)])
    case 10 =>
      Of(2, Some(d), CHECKPOINT, map["a" := Answered(d), "b" := Cut(d), "c" := NEW.(lease := 20 + LEASE)],
         [TOLD, Undone(d), CommandRow(NEXT, "c", false, NoReason)], map["i" := Denied(d)])
    case 11 =>
      Of(3, Some(d), CHECKPOINT, map["a" := Answered(d), "b" := Cut(d), "c" := RUNS.(epoch := 3, lease := 30)],
         [TOLD, Undone(d), CommandRow(NEXT, "c", false, NoReason)], map["i" := Denied(d)])
    case 12 =>
      Of(3, Some(d), CHECKPOINT,
         map["a" := Answered(d), "b" := Cut(d), "c" := RUNS.(epoch := 3, lease := 30, digest := Some(d))],
         [TOLD, Undone(d), CommandRow(NEXT, "c", false, NoReason)], map["i" := Denied(d)])
    case 13 =>
      Of(3, Some(d), CHECKPOINT,
         map["a" := Answered(d), "b" := Cut(d), "c" := RUNS.(epoch := 3, lease := 30, digest := Some(d))],
         [TOLD, Undone(d), CommandRow(NEXT, "c", true, NoReason)], map["i" := Denied(d)])
    case _ =>
      Of(3, Some(d), ANSWERED,
         map["a" := Answered(d), "b" := Cut(d),
             "c" := Run(Completed, "o", 3, 30, "", Some(d), None, "done")],
         [TOLD, Undone(d), CommandRow(NEXT, "c", true, NoReason)], map["i" := Denied(d)])
  }

  /** t is at stage n of the story. */
  predicate Reached(t: Thread, d: Digest, n: nat) {
    t.(log := Log(0, map[])) == Stage(d, n)
  }

  /** Step n is lawful and tidy, and leads to the next stage. */
  ghost predicate Leads(t: Thread, d: Digest, n: nat)
  {
    var k := Line(d, n);
    && Reached(Next(t, k), d, n + 1) && Tidy(t, k)
    && (OwnerOf(k.step).Some? ==> Issued(t, OwnerOf(k.step).value))
  }

  lemma StartIs(t: Thread, k: Tick)
    requires k.step.StepStart?
    ensures Next(t, k) == Start(t, k.now, k.step.o, k.step.journey, k.step.digest, k.current).thread
  {
    hide Start;
  }

  lemma ScopeIs(t: Thread, k: Tick)
    requires k.step.StepScope?
    ensures Next(t, k) == RecordScope(t, k.now, k.step.o, k.step.scope).thread
  {
    hide RecordScope;
  }

  lemma IncludedIs(t: Thread, k: Tick)
    requires k.step.StepIncluded?
    ensures Next(t, k) == Included(t, k.now, k.step.o, k.step.communications).thread
  {
    hide Included;
  }

  lemma FinishIs(t: Thread, k: Tick)
    requires k.step.StepFinish?
    ensures var s := k.step;
      Next(t, k) == Finish(t, k.now, s.o, s.state, s.history, s.answer, s.callID, s.tool).thread
  {
    hide Finish;
  }

  lemma FirstAdmitted(t: Thread, d: Digest)
    requires Reached(t, d, 0)
    ensures Leads(t, d, 0)
  {
    hide Apply, AppendAll, History.Open;
    assert LiveRun(t.runs) == "" && Overdue(t.interactions, 0) == "";
    AdmitIs(t, Line(d, 0));
  }

  lemma FirstClaimed(t: Thread, d: Digest)
    requires Reached(t, d, 1)
    ensures Leads(t, d, 1)
  {
    hide Apply, AppendAll, History.Open;
    assert t.commands[0].cmd == FIRST;
    ClaimIs(t, Line(d, 1));
  }

  lemma FirstStarted(t: Thread, d: Digest)
    requires Reached(t, d, 2) && |d| == 64
    ensures Leads(t, d, 2)
  {
    hide Apply, AppendAll, History.Open;
    assert t.commands[0].cmd == FIRST;
    StartIs(t, Line(d, 2));
  }

  lemma FirstScoped(t: Thread, d: Digest)
    requires Reached(t, d, 3)
    ensures Leads(t, d, 3)
  {
    hide Apply, AppendAll, History.Open;
    assert t.commands[0].cmd == FIRST;
    ScopeIs(t, Line(d, 3));
  }

  lemma FirstIncluded(t: Thread, d: Digest)
    requires Reached(t, d, 4)
    ensures Leads(t, d, 4)
  {
    hide Apply, AppendAll, History.Open;
    assert t.commands[0].cmd == FIRST;
    assert ["m1"][1..] == [];
    IncludedIs(t, Line(d, 4));
  }

  lemma {:induction false} CheckpointOpen()
    ensures History.Open(CHECKPOINT) == Some({"call"}) && History.Open(ANSWERED) == Some({"call"})
  {
    var hello, call := Message(true, [Text("hi")]), Message(false, [FunctionCall("call", "tool", "{}")]);
    var more := [Message(true, [Text("more")])];
    TextOpensNothing([], true, "hi");
    assert [] + [hello] == [hello];
    ReadOne({}, FunctionCall("call", "tool", "{}"));
    OpenAppend([hello], call);
    assert {} + {"call"} == {"call"};
    assert [hello] + [call] == CHECKPOINT;
    TextOpensNothing(CHECKPOINT, true, "more");
    TextOpensNothing(CHECKPOINT + more, false, "done");
    assert CHECKPOINT + more + [Message(false, [Text("done")])] == ANSWERED;
  }

  lemma Asks(t: Thread, d: Digest)
    requires Reached(t, d, 5) && |d| == 64
    ensures Leads(t, d, 5)
  {
    hide Apply, Wait, History.Open;
    assert t.commands[0].cmd == FIRST;
    EmptyClosed();
    CheckpointOpen();
    assert Base(t, "a") == {} && {} + {"call"} == {"call"};
    Parked(t, d);
  }

  lemma Parked(t: Thread, d: Digest)
    requires Reached(t, d, 5) && |d| == 64
    ensures Reached(Next(t, Line(d, 5)), d, 6)
  {
    hide AppendAll, History.Open;
    assert Line(d, 5).step.StepWait?;
    assert !HasPending(t, "a");
  }

  lemma Denies(t: Thread, d: Digest)
    requires Reached(t, d, 6)
    ensures Leads(t, d, 6)
  {
    hide Apply, Admit, Answer, History.Open;
    var c := Denial(d);
    assert RowOf(t.commands, c.communicationID) == 1 && !RunIDTaken(t.runs, t.commands, c.runID);
    Granted(t, d);
    assert Admit(t, 1, c).thread == Answer(t, 1, c, Asked(d)) by {
      Replied(t, 1, c);
    }
    AdmitIs(t, Line(d, 6));
  }

  lemma Replied(t: Thread, now: int, c: Command)
    requires c.interactionID != ""
    ensures Admit(t, now, c) == ReplyTo(t, now, c)
  {
    hide ReplyTo;
  }

  lemma Granted(t: Thread, d: Digest)
    requires Reached(t, d, 6)
    ensures Reached(Answer(t, 1, Denial(d), Asked(d)), d, 7)
  {
    hide AppendAll, History.Open;
  }

  lemma Continues(t: Thread, d: Digest)
    requires Reached(t, d, 7)
    ensures Leads(t, d, 7)
  {
    hide Apply, AppendAll, History.Open;
    assert t.commands[1].cmd == Denial(d);
    ClaimIs(t, Line(d, 7));
  }

  lemma IsCut(t: Thread, d: Digest)
    requires Reached(t, d, 8)
    ensures Leads(t, d, 8)
  {
    hide Apply, InterruptExpired, AppendAll, History.Open;
    var u := InterruptExpired(t, 20, "b");
    Stopped(t, d);
    assert Overdue(u.interactions, 20) == "";
    ReapDoes(t, Line(d, 8));
  }

  lemma Stopped(t: Thread, d: Digest)
    requires Reached(t, d, 8)
    ensures Reached(InterruptExpired(t, 20, "b"), d, 9)
  {
    hide AppendAll, MarkUnknown, DisposeRows, DisposeEvents;
    var stopped := t.(runs := t.runs["b" := Cut(d)]);
    NothingInFlight(stopped);
    assert DisposeRows(stopped.commands, "b", Interrupted) == [TOLD, Undone(d)];
    assert Lost(t, 20, "b");
    assert InterruptExpired(t, 20, "b") == Interrupt(t, "b");
  }

  lemma NothingInFlight(t: Thread)
    requires t.operations == map[] && t.attempts == map[]
    ensures MarkUnknown(t, "b") == t
  {
    assert InFlight(t.operations, "b") == "" && MarkAttempts(t.attempts, t.operations, "b") == map[];
  }

  lemma NextAdmitted(t: Thread, d: Digest)
    requires Reached(t, d, 9)
    ensures Leads(t, d, 9)
  {
    hide Apply, AppendAll, History.Open;
    assert LiveRun(t.runs) == "" && Overdue(t.interactions, 20) == "";
    AdmitIs(t, Line(d, 9));
  }

  lemma NextClaimed(t: Thread, d: Digest)
    requires Reached(t, d, 10)
    ensures Leads(t, d, 10)
  {
    hide Apply, AppendAll, History.Open;
    assert t.commands[2].cmd == NEXT;
    ClaimIs(t, Line(d, 10));
  }

  lemma NextStarted(t: Thread, d: Digest)
    requires Reached(t, d, 11) && |d| == 64
    ensures Leads(t, d, 11)
  {
    hide Apply, AppendAll, History.Open;
    assert t.commands[2].cmd == NEXT;
    StartIs(t, Line(d, 11));
  }

  lemma NextIncluded(t: Thread, d: Digest)
    requires Reached(t, d, 12)
    ensures Leads(t, d, 12)
  {
    hide Apply, AppendAll, History.Open;
    assert t.commands[2].cmd == NEXT;
    assert ["m3"][1..] == [];
    IncludedIs(t, Line(d, 12));
  }

  lemma Answers(t: Thread, d: Digest)
    requires Reached(t, d, 13)
    ensures Leads(t, d, 13)
  {
    hide Apply, Finish, History.Open;
    assert t.commands[2].cmd == NEXT;
    CheckpointOpen();
    assert ContinuedBy(t, "c") == {} && Providers(t, {}) == {};
    assert Base(t, "c") == {"call"};
    AnswerEnds(t, d);
  }

  lemma AnswerEnds(t: Thread, d: Digest)
    requires Reached(t, d, 13)
    ensures Reached(Next(t, Line(d, 13)), d, 14)
  {
    hide Apply, AppendAll, History.Open;
    FinishIs(t, Line(d, 13));
    assert !HasPending(t, "c");
  }

  lemma OneStep(t: Thread, d: Digest, n: nat)
    requires |d| == 64 && n < LENGTH && Reached(t, d, n)
    ensures Leads(t, d, n)
  {
    hide Reached, Leads;
    match n {
      case 0 => FirstAdmitted(t, d);
      case 1 => FirstClaimed(t, d);
      case 2 => FirstStarted(t, d);
      case 3 => FirstScoped(t, d);
      case 4 => FirstIncluded(t, d);
      case 5 => Asks(t, d);
      case 6 => Denies(t, d);
      case 7 => Continues(t, d);
      case 8 => IsCut(t, d);
      case 9 => NextAdmitted(t, d);
      case 10 => NextClaimed(t, d);
      case 11 => NextStarted(t, d);
      case 12 => NextIncluded(t, d);
      case 13 => Answers(t, d);
    }
  }

  lemma {:induction false} Unfolds(t: Thread, d: Digest, n: nat)
    requires |d| == 64 && n <= LENGTH && Reached(t, d, n)
    ensures Schedule(t, Line(d, n).now, Story(d)[n..]) && AllTidy(t, Story(d)[n..])
    ensures Reached(After(t, Story(d)[n..]), d, LENGTH)
    decreases LENGTH - n
  {
    assert n < LENGTH ==> Line(d, n).now <= Line(d, n + 1).now;
    hide Reached, Next, Tidy, Issued, Line;
    var rest := Story(d)[n..];
    if n < LENGTH {
      OneStep(t, d, n);
      assert rest[0] == Line(d, n) && rest[1..] == Story(d)[n + 1..];
      var u := Next(t, rest[0]);
      Unfolds(u, d, n + 1);
      Earlier(u, Line(d, n).now, Line(d, n + 1).now, rest[1..]);
    } else {
      assert rest == [];
    }
  }

  lemma {:induction false} Earlier(t: Thread, from: int, later: int, ticks: seq<Tick>)
    requires from <= later && Schedule(t, later, ticks)
    ensures Schedule(t, from, ticks)
  {
    hide Next, Issued;
  }

  /** Nothing is left to do, the last run answered, and a call is open in the stored history. */
  ghost predicate RestsOpen(t: Thread) {
    && (forall r :: r in t.runs ==> !t.runs[r].state.Live()) && !HasOpenInteraction(t)
    && "b" in t.runs && t.runs["b"].state.Interrupted? && "c" in t.runs && t.runs["c"].state.Completed?
    && t.history == ANSWERED && !Closed(t.history)
  }

  /** A lawful and tidy run of a new conversation that comes to rest, its last run having answered, with the
      call of the interrupted continuation still open in the stored history. */
  lemma {:induction false} AnsweredButOpen(d: Digest)
    requires |d| == 64
    ensures Schedule(NewThread("t", "u"), 0, Story(d)) && AllTidy(NewThread("t", "u"), Story(d))
    ensures RestsOpen(After(NewThread("t", "u"), Story(d)))
  {
    hide After, Schedule, AllTidy, History.Open;
    assert Story(d)[0..] == Story(d);
    Unfolds(NewThread("t", "u"), d, 0);
    CheckpointOpen();
  }
}
