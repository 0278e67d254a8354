/** What the log of events tells: read from the first event on, it gives the state of every run, the fate of every
    command and the outcome of every call, as the tables have them. */
module JournalTelling {
  import opened Basics
  import opened EventLog
  import opened Journal
  import opened JournalInvariant
  import opened JournalSteps
  import opened JournalTheorems
  import opened JournalContract
  import History

  datatype Told = Unread | InRequest | Because(why: Reason)

  /** What a reader of the events knows. */
  datatype Picture = Picture(runs: map<Id, RunState>, fates: map<Id, Told>, calls: map<Id, Outcome>,
                             answers: map<Id, string>)

  function Read(s: Picture, e: Event): Picture {
    match e
    case CommandAccepted(run, c) =>
      s.(fates := s.fates[c := Unread], runs := if run in s.runs then s.runs else s.runs[run := Pending])
    case CommandConsumed(_, c) => s.(fates := s.fates[c := Because(Consumed)])
    case CommandIncluded(_, c) => s.(fates := s.fates[c := InRequest])
    case CommandDisposed(_, c, why) => s.(fates := s.fates[c := Because(Ended(why))])
    case RunStarted(run) => s.(runs := s.runs[run := Running])
    case RunAwaiting(run, _) => s.(runs := s.runs[run := AwaitingInput])
    case RunEnded(run, state) => s.(runs := s.runs[run := state])
    case MessageCompleted(run, answer) => s.(answers := s.answers[run := answer])
    case InteractionConsumed(run) => s.(runs := s.runs[run := Completed])
    case InteractionExpired(_) => s
    case InteractionSuperseded(_, _) => s
    case ToolStarted(_, c, _) => s.(calls := s.calls[c := Dispatching])
    case ToolEnded(_, c, _, outcome) => s.(calls := s.calls[c := outcome])
    case DefinitionChanged(_, _, _) => s
    case Noted(_) => s
  }

  function ReadAll(s: Picture, es: seq<Event>): Picture
    decreases |es|
  {
    if es == [] then s else ReadAll(Read(s, es[0]), es[1..])
  }

  ghost function UpTo(log: Log<Event>, n: nat): Picture
    requires GapFree(log) && n <= log.sequence
  {
    if n == 0 then Picture(map[], map[], map[], map[]) else Read(UpTo(log, n - 1), log.rows[n])
  }

  ghost function Story(log: Log<Event>): Picture
    requires GapFree(log)
  {
    UpTo(log, log.sequence)
  }

  function FateTold(row: CommandRow): Told {
    if row.reason != NoReason then Because(row.reason) else if row.included then InRequest else Unread
  }

  predicate RunsTrue(told: map<Id, RunState>, runs: map<Id, Run>) {
    told.Keys == runs.Keys && forall r :: r in runs ==> told[r] == runs[r].state
  }

  predicate FatesTrue(told: map<Id, Told>, rows: seq<CommandRow>) {
    && (forall k :: 0 <= k < |rows| ==> FateAt(told, rows[k]))
    && (forall c :: c in told ==> Has(rows, c))
  }

  predicate FateAt(told: map<Id, Told>, row: CommandRow) {
    row.cmd.communicationID in told && told[row.cmd.communicationID] == FateTold(row)
  }

  predicate Has(rows: seq<CommandRow>, c: Id) {
    exists k :: 0 <= k < |rows| && rows[k].cmd.communicationID == c
  }

  predicate CallsTrue(told: map<Id, Outcome>, operations: map<Id, Operation>) {
    told.Keys == operations.Keys && forall c :: c in operations ==> told[c] == operations[c].outcome
  }

  /** Answers are those of completed runs; a completed run without one asked a person and was completed by the reply. */
  predicate AnswersTrue(told: map<Id, string>, runs: map<Id, Run>, interactions: map<Id, Interaction>) {
    && (forall r :: r in told ==> r in runs && runs[r].state == Completed && told[r] == runs[r].answer)
    && (forall r :: r in runs && runs[r].state == Completed ==> r in told || Asked(interactions, r))
  }

  /** The run asked a person, who answered. */
  predicate Asked(interactions: map<Id, Interaction>, r: Id) {
    exists i :: i in interactions && interactions[i].run == r && interactions[i].state == Answered
  }

  /** The picture is what the tables say. */
  ghost predicate True(s: Picture, t: Thread) {
    && RunsTrue(s.runs, t.runs) && FatesTrue(s.fates, t.commands)
    && CallsTrue(s.calls, t.operations) && AnswersTrue(s.answers, t.runs, t.interactions)
  }

  ghost predicate Truthful(t: Thread) {
    GapFree(t.log) && Distinguished(t.commands) && True(Story(t.log), t)
  }

  // ---------------------------------------------------------------- reading on

  lemma {:induction false} SameStory(a: Log<Event>, b: Log<Event>, n: nat)
    requires GapFree(a) && GapFree(b) && n <= a.sequence && n <= b.sequence
    requires forall j: nat :: 1 <= j <= n ==> a.rows[j] == b.rows[j]
    ensures UpTo(a, n) == UpTo(b, n)
  {
    if n > 0 {
      SameStory(a, b, n - 1);
    }
  }

  lemma {:induction false} ReadOn(log: Log<Event>, es: seq<Event>)
    requires GapFree(log)
    ensures GapFree(AppendAll(log, es)) && Story(AppendAll(log, es)) == ReadAll(Story(log), es)
    decreases |es|
  {
    hide Read;
    if es != [] {
      var next := Append(log, es[0]);
      SameStory(log, next, log.sequence);
      assert Story(next) == Read(Story(log), es[0]);
      ReadOn(next, es[1..]);
    }
  }

  lemma {:induction false} ReadBoth(s: Picture, es: seq<Event>, fs: seq<Event>)
    ensures ReadAll(s, es + fs) == ReadAll(ReadAll(s, es), fs)
    decreases |es|
  {
    hide Read;
    if es == [] {
      assert [] + fs == fs;
    } else {
      assert (es + fs)[1..] == es[1..] + fs;
      ReadBoth(Read(s, es[0]), es[1..], fs);
    }
  }

  lemma {:induction false} ReadLast(s: Picture, es: seq<Event>, e: Event)
    ensures ReadAll(s, es + [e]) == Read(ReadAll(s, es), e)
  {
    hide Read;
    ReadBoth(s, es, [e]);
    assert [e][1..] == [];
  }

  lemma {:induction false} ReadOne(s: Picture, e: Event)
    ensures ReadAll(s, [e]) == Read(s, e)
  {
    hide Read;
    assert [e][1..] == [];
  }

  lemma {:induction false} ReadTwo(s: Picture, e: Event, f: Event)
    ensures ReadAll(s, [e, f]) == Read(Read(s, e), f)
  {
    hide Read;
    assert [e, f][1..] == [f];
    ReadOne(Read(s, e), f);
  }

  /** u is t with these events and tables that they tell. */
  lemma {:induction false} Tells(t: Thread, u: Thread, es: seq<Event>)
    requires Truthful(t) && u.log == AppendAll(t.log, es) && Distinguished(u.commands)
    requires True(ReadAll(Story(t.log), es), u)
    ensures Truthful(u)
  {
    hide True, ReadAll;
    ReadOn(t.log, es);
  }

  // ---------------------------------------------------------------- what every step needs

  /** The communication is an undecided input of the run. */
  predicate Gives(rows: seq<CommandRow>, run: Id, c: Id) {
    exists k :: 0 <= k < |rows| && Undecided(rows[k], run) && rows[k].cmd.communicationID == c
  }

  lemma GivesLast(rows: seq<CommandRow>, run: Id, c: Id)
    requires rows != []
    ensures var n := |rows| - 1;
      Gives(rows, run, c)
      <==> (Gives(rows[..n], run, c) || (Undecided(rows[n], run) && rows[n].cmd.communicationID == c))
  {
    var n := |rows| - 1;
    if Gives(rows, run, c) {
      var k :| 0 <= k < |rows| && Undecided(rows[k], run) && rows[k].cmd.communicationID == c;
      assert k < n ==> rows[..n][k] == rows[k];
    }
  }

  /** The undecided inputs of a run that stops get the reason, and nothing else changes. */
  lemma {:induction false} ReadDisposed(s: Picture, rows: seq<CommandRow>, run: Id, why: RunState)
    ensures var u := ReadAll(s, DisposeEvents(rows, run, why));
      && u.(fates := s.fates) == s
      && forall c :: c in u.fates <==> c in s.fates || Gives(rows, run, c)
    ensures var u := ReadAll(s, DisposeEvents(rows, run, why));
      forall c :: c in u.fates ==> u.fates[c] == if Gives(rows, run, c) then Because(Ended(why)) else s.fates[c]
  {
    if rows != [] {
      hide Gives, Undecided;
      var n := |rows| - 1;
      var before := DisposeEvents(rows[..n], run, why);
      ReadDisposed(s, rows[..n], run, why);
      forall c
        ensures Gives(rows, run, c)
          <==> (Gives(rows[..n], run, c) || (Undecided(rows[n], run) && rows[n].cmd.communicationID == c))
      {
        GivesLast(rows, run, c);
      }
      assert Undecided(rows[n], run) <==> rows[n].execution == run && rows[n].Undecided() by {
        UndecidedIs(rows[n], run);
      }
      ReadLast(s, before, CommandDisposed(run, rows[n].cmd.communicationID, why));
      assert before + [] == before;
    }
  }

  lemma UndecidedIs(row: CommandRow, run: Id)
    ensures Undecided(row, run) <==> row.execution == run && row.Undecided()
  {
  }

  /** A new thread has nothing to tell. */
  lemma NothingToTell(id: Id, principal: Id)
    ensures Truthful(NewThread(id, principal))
  {
  }

  // ---------------------------------------------------------------- the parts of transactions

  lemma MarkTells(t: Thread, run: Id)
    requires Truthful(t)
    ensures Truthful(MarkUnknown(t, run))
  {
    hide AppendAll, Truthful;
    var c := InFlight(t.operations, run);
    var marked := t.(attempts := MarkAttempts(t.attempts, t.operations, run));
    AttemptsApart(t, marked.attempts);
    if c != "" {
      CallTells(marked, c, marked.operations[c].(outcome := Unknown), ToolEnded(run, c, t.operations[c].name, Unknown));
    }
  }

  lemma AttemptsApart(t: Thread, attempts: map<(Id, int), Outcome>)
    requires Truthful(t)
    ensures Truthful(t.(attempts := attempts))
  {
    hide Story, RunsTrue, FatesTrue, CallsTrue, AnswersTrue;
  }

  /** One event tells the new outcome of one call. */
  lemma CallTells(t: Thread, c: Id, row: Operation, e: Event)
    requires Truthful(t)
    requires (e.ToolStarted? && e.call == c && row.outcome == Dispatching)
      || (e.ToolEnded? && e.call == c && e.outcome == row.outcome)
    ensures Truthful(Emit(t.(operations := t.operations[c := row]), [e]))
  {
    hide AppendAll, Story, ReadAll, RunsTrue, FatesTrue, AnswersTrue;
    ReadOne(Story(t.log), e);
    Tells(t, Emit(t.(operations := t.operations[c := row]), [e]), [e]);
  }

  lemma DisposeTells(t: Thread, run: Id, why: RunState)
    requires Truthful(t)
    ensures Truthful(Dispose(t, run, why))
  {
    hide AppendAll, DisposeEvents, Story, ReadAll, RunsTrue, FatesTrue, CallsTrue, AnswersTrue, Gives, DisposeRows;
    var u, s, es := Dispose(t, run, why), Story(t.log), DisposeEvents(t.commands, run, why);
    ReadDisposed(s, t.commands, run, why);
    FatesDisposed(s.fates, ReadAll(s, es).fates, t.commands, u.commands, run, why);
    Tells(t, u, es);
  }

  lemma {:induction false} FatesDisposed(before: map<Id, Told>, after: map<Id, Told>, rows: seq<CommandRow>,
      disposed: seq<CommandRow>, run: Id, why: RunState)
    requires FatesTrue(before, rows) && Distinguished(rows) && disposed == DisposeRows(rows, run, why)
    requires forall c :: c in after <==> c in before || Gives(rows, run, c)
    requires forall c :: c in after ==> after[c] == if Gives(rows, run, c) then Because(Ended(why)) else before[c]
    ensures FatesTrue(after, disposed) && Distinguished(disposed)
  {
    hide Gives, DisposeRows, Has;
    forall k | 0 <= k < |disposed| ensures FateAt(after, disposed[k]) {
      GivesAt(rows, run, k);
      assert FateAt(before, rows[k]);
    }
    forall c | c in after ensures Has(disposed, c) {
      GivesHas(rows, run, c);
      SameHas(rows, disposed, c);
    }
  }

  lemma GivesHas(rows: seq<CommandRow>, run: Id, c: Id)
    ensures Gives(rows, run, c) ==> Has(rows, c)
  {
  }

  lemma SameHas(rows: seq<CommandRow>, others: seq<CommandRow>, c: Id)
    requires |rows| == |others| && forall k :: 0 <= k < |rows| ==> others[k].cmd == rows[k].cmd
    ensures Has(rows, c) ==> Has(others, c)
  {
  }

  lemma GivesAt(rows: seq<CommandRow>, run: Id, k: nat)
    requires Distinguished(rows) && k < |rows|
    ensures Gives(rows, run, rows[k].cmd.communicationID) <==> Undecided(rows[k], run)
  {
  }

  /** A run that was not completed goes on or ends otherwise, as the event says. */
  lemma RunTells(t: Thread, run: Id, row: Run, e: Event)
    requires Truthful(t) && run in t.runs && t.runs[run].state != Completed && row.state != Completed
    requires || (e.RunEnded? && e.run == run && e.state == row.state)
             || (e.RunStarted? && e.run == run && row.state == Running)
             || (e.RunAwaiting? && e.run == run && row.state == AwaitingInput)
    ensures Truthful(Emit(t.(runs := t.runs[run := row]), [e]))
  {
    hide AppendAll, Story, ReadAll, FatesTrue, CallsTrue, AnswersTrue;
    ReadOne(Story(t.log), e);
    AnswersKept(Story(t.log).answers, t.runs, t.interactions, run, row);
    Tells(t, Emit(t.(runs := t.runs[run := row]), [e]), [e]);
  }

  lemma AnswersKept(told: map<Id, string>, runs: map<Id, Run>, interactions: map<Id, Interaction>, run: Id, row: Run)
    requires AnswersTrue(told, runs, interactions) && run in runs
    requires runs[run].state != Completed && row.state != Completed
    ensures AnswersTrue(told, runs[run := row], interactions)
  {
    hide Asked;
  }

  /** What a stopping run abandons does not depend on its own row, nor on the stored history. */
  lemma AbandonsApart(t: Thread, run: Id, runs: map<Id, Run>, history: seq<History.Message>, why: RunState)
    ensures Dispose(MarkUnknown(t.(runs := runs, history := history), run), run, why)
      == Dispose(MarkUnknown(t, run), run, why).(runs := runs, history := history)
  {
    hide AppendAll, DisposeRows, DisposeEvents, MarkUnknown;
    MarkApart(t, run, runs, history);
  }

  lemma MarkApart(t: Thread, run: Id, runs: map<Id, Run>, history: seq<History.Message>)
    ensures MarkUnknown(t.(runs := runs, history := history), run)
      == MarkUnknown(t, run).(runs := runs, history := history)
  {
    hide AppendAll, MarkAttempts, InFlight;
  }

  lemma StopTells(t: Thread, run: Id, row: Run)
    requires Truthful(t) && run in t.runs && t.runs[run].state != Completed && row.state != Completed
    ensures var v := Dispose(MarkUnknown(t, run), run, row.state);
      Truthful(Emit(v.(runs := t.runs[run := row]), [RunEnded(run, row.state)]))
  {
    hide Truthful, Emit;
    var m := MarkUnknown(t, run);
    var v := Dispose(m, run, row.state);
    MarkTells(t, run);
    DisposeTells(m, run, row.state);
    assert v.runs == t.runs by {
      AbandonsRuns(t, run, row.state);
    }
    RunTells(v, run, row, RunEnded(run, row.state));
  }

  lemma AbandonsRuns(t: Thread, run: Id, why: RunState)
    ensures Dispose(MarkUnknown(t, run), run, why).runs == t.runs
  {
    hide AppendAll, DisposeRows, DisposeEvents, MarkAttempts;
  }

  lemma InterruptTells(t: Thread, run: Id)
    requires Truthful(t) && run in t.runs && t.runs[run].state != Completed
    ensures Truthful(Interrupt(t, run))
  {
    hide Truthful, AppendAll, MarkUnknown, Dispose;
    var row := t.runs[run].(state := Interrupted);
    StopTells(t, run, row);
    assert t.(runs := t.runs[run := row], history := t.history) == t.(runs := t.runs[run := row]);
    AbandonsApart(t, run, t.runs[run := row], t.history, Interrupted);
    MarksHistory(t, run);
  }

  lemma MarksHistory(t: Thread, run: Id)
    ensures Dispose(MarkUnknown(t, run), run, Interrupted).history == t.history
  {
    hide AppendAll, DisposeRows, DisposeEvents, MarkAttempts, InFlight;
  }

  lemma LapseTells(t: Thread, i: Id)
    requires Truthful(t) && i in t.interactions && t.interactions[i].state == Open
    requires t.interactions[i].run in t.runs && t.runs[t.interactions[i].run].state == AwaitingInput
    ensures Truthful(Lapse(t, i))
  {
    hide AppendAll, Story, ReadAll, FatesTrue, CallsTrue, Asked;
    var u, s, run := Lapse(t, i), Story(t.log), t.interactions[i].run;
    var es := [InteractionExpired(run), RunEnded(run, Failed)];
    ReadTwo(s, es[0], es[1]);
    StillAsked(t.interactions, u.interactions, i);
    Tells(t, u, es);
  }

  lemma StillAsked(before: map<Id, Interaction>, after: map<Id, Interaction>, i: Id)
    requires i in before && before[i].state == Open && i in after && after == before[i := after[i]]
    ensures forall r :: Asked(before, r) ==> Asked(after, r)
  {
    forall r | Asked(before, r) ensures Asked(after, r) {
      var j :| j in before && before[j].run == r && before[j].state == Answered;
      assert after[j] == before[j];
    }
  }

  lemma SweepTells(t: Thread, now: int, candidate: Id)
    requires Inv(t) && Truthful(t)
    ensures Truthful(InterruptExpired(t, now, candidate)) && Truthful(Reap(t, now, candidate))
    ensures Truthful(ExpireInteractions(t, now))
  {
    hide Inv, Truthful, Interrupt, Lapse, LiveRun, Lost, Evolves;
    var v := InterruptExpired(t, now, candidate);
    if v != t {
      InterruptTells(t, LiveCandidate(t, candidate));
    }
    InterruptExpiredKeeps(t, now, candidate);
    ExpireTells(v, now);
    ExpireTells(t, now);
  }

  lemma ExpireTells(t: Thread, now: int)
    requires Inv(t) && Truthful(t)
    ensures Truthful(ExpireInteractions(t, now))
  {
    hide Truthful, Lapse, Ledger, JournalInvariant.Calls, PinOk, ContinuationsOk, MarkersOk, ActivityOk;
    var i := Overdue(t.interactions, now);
    if i != "" {
      LapseTells(t, i);
    }
  }

  // ---------------------------------------------------------------- every transaction

  /** Tables that no event tells may differ, and runs in what is not their state or answer. */
  lemma Frame(t: Thread, u: Thread)
    requires Truthful(t) && u.log == t.log && u.commands == t.commands && u.operations == t.operations
    requires u.runs.Keys == t.runs.Keys
    requires forall r :: r in t.runs ==> u.runs[r].state == t.runs[r].state && u.runs[r].answer == t.runs[r].answer
    requires forall r :: Asked(t.interactions, r) ==> Asked(u.interactions, r)
    ensures Truthful(u)
  {
    hide Story, FatesTrue, CallsTrue, Asked;
  }

  /** An event that tells nothing new. */
  lemma AsideTells(t: Thread, e: Event)
    requires Truthful(t) && (e.DefinitionChanged? || e.Noted? || e.InteractionSuperseded?)
    ensures Truthful(Emit(t, [e]))
  {
    hide AppendAll, Story, ReadAll, RunsTrue, FatesTrue, CallsTrue, AnswersTrue;
    ReadOne(Story(t.log), e);
    Tells(t, Emit(t, [e]), [e]);
  }

  lemma FateAdded(told: map<Id, Told>, rows: seq<CommandRow>, row: CommandRow, fate: Told)
    requires FatesTrue(told, rows) && Distinguished(rows) && !Has(rows, row.cmd.communicationID)
    requires FateTold(row) == fate
    ensures FatesTrue(told[row.cmd.communicationID := fate], rows + [row]) && Distinguished(rows + [row])
  {
    var after, all := told[row.cmd.communicationID := fate], rows + [row];
    forall k | 0 <= k < |all| ensures FateAt(after, all[k]) {
      if k < |rows| {
        assert FateAt(told, rows[k]);
      }
    }
    forall c | c in after ensures Has(all, c) {
      if c in told {
        var k :| 0 <= k < |rows| && rows[k].cmd.communicationID == c;
        assert all[k] == rows[k];
      } else {
        assert all[|rows|] == row;
      }
    }
  }

  lemma JoinTells(t: Thread, c: Command, run: Id)
    requires Truthful(t) && !Has(t.commands, c.communicationID) && run in t.runs
    ensures Truthful(Emit(t.(commands := t.commands + [CommandRow(c, run, false, NoReason)]),
                          [CommandAccepted(run, c.communicationID)]))
  {
    hide AppendAll, Story, ReadAll, FatesTrue, CallsTrue, AnswersTrue;
    var s, e := Story(t.log), CommandAccepted(run, c.communicationID);
    ReadOne(s, e);
    FateAdded(s.fates, t.commands, CommandRow(c, run, false, NoReason), Unread);
    Tells(t, Emit(t.(commands := t.commands + [CommandRow(c, run, false, NoReason)]), [e]), [e]);
  }

  lemma OpenTells(t: Thread, c: Command, row: Run)
    requires Truthful(t) && !Has(t.commands, c.communicationID) && c.runID !in t.runs && row.state == Pending
    ensures Truthful(Emit(t.(commands := t.commands + [CommandRow(c, c.runID, false, NoReason)],
                             runs := t.runs[c.runID := row]), [CommandAccepted(c.runID, c.communicationID)]))
  {
    hide AppendAll, Story, ReadAll, FatesTrue, CallsTrue, Asked;
    var s, e := Story(t.log), CommandAccepted(c.runID, c.communicationID);
    ReadOne(s, e);
    FateAdded(s.fates, t.commands, CommandRow(c, c.runID, false, NoReason), Unread);
    Tells(t, Emit(t.(commands := t.commands + [CommandRow(c, c.runID, false, NoReason)],
                     runs := t.runs[c.runID := row]), [e]), [e]);
  }

  lemma FreshTells(t: Thread, u: Thread, now: int, c: Command)
    requires Truthful(t) && Truthful(u) && !Has(u.commands, c.communicationID)
    ensures Truthful(AdmitFresh(t, u, now, c).thread)
  {
    hide Truthful, Emit, Has;
    if AdmitFresh(t, u, now, c).err == Ok {
      var live := LiveRun(u.runs);
      if live != "" {
        JoinTells(u, c, live);
      } else {
        OpenTells(u, c, Run(Pending, "", 0, now + LEASE, "", None, None, ""));
      }
    }
  }

  lemma AnswerTells(t: Thread, now: int, c: Command)
    requires Truthful(t) && !Has(t.commands, c.communicationID) && c.runID !in t.runs
    requires c.interactionID in t.interactions && t.interactions[c.interactionID].state == Open
    requires t.interactions[c.interactionID].run in t.runs
    requires t.runs[t.interactions[c.interactionID].run].state == AwaitingInput
    ensures Truthful(Answer(t, now, c, t.interactions[c.interactionID]))
  {
    hide AppendAll, Story, ReadAll, FatesTrue, CallsTrue, AnswersTrue, Distinguished, FateTold;
    var x := t.interactions[c.interactionID];
    var s, u := Story(t.log), Answer(t, now, c, x);
    var approve := x.kind.Approval? && c.reply.Approves();
    var es := [InteractionConsumed(x.run), CommandAccepted(c.runID, c.communicationID)]
      + (if approve then [CommandConsumed(c.runID, c.communicationID)] else []);
    var row := CommandRow(c, c.runID, false, if approve then Consumed else NoReason);
    FateOfReply(c, approve);
    FateAdded(s.fates, t.commands, row, if approve then Because(Consumed) else Unread);
    ReadReply(s, x.run, c.runID, c.communicationID, approve);
    AnswersAfter(s.answers, t.runs, t.interactions, c.interactionID, u.interactions[c.interactionID], c.runID,
                 u.runs[c.runID]);
    assert u.runs == t.runs[c.runID := u.runs[c.runID]][x.run := t.runs[x.run].(state := Completed)];
    Tells(t, u, es);
  }

  lemma FateOfReply(c: Command, approve: bool)
    ensures FateTold(CommandRow(c, c.runID, false, if approve then Consumed else NoReason))
      == if approve then Because(Consumed) else Unread
  {
  }

  lemma AnswersAfter(told: map<Id, string>, runs: map<Id, Run>, interactions: map<Id, Interaction>, i: Id,
      x: Interaction, run: Id, row: Run)
    requires AnswersTrue(told, runs, interactions) && run !in runs && row.state != Completed
    requires i in interactions && interactions[i].state == Open && x.state == Answered && x.run == interactions[i].run
    requires x.run in runs && runs[x.run].state == AwaitingInput
    ensures AnswersTrue(told, runs[run := row][x.run := runs[x.run].(state := Completed)], interactions[i := x])
  {
    hide Asked;
    AskedMore(interactions, i, x);
  }

  lemma {:induction false} ReadReply(s: Picture, asked: Id, run: Id, communication: Id, approve: bool)
    requires asked in s.runs && run !in s.runs
    ensures ReadAll(s, [InteractionConsumed(asked), CommandAccepted(run, communication)]
                       + (if approve then [CommandConsumed(run, communication)] else []))
      == s.(runs := s.runs[asked := Completed][run := Pending],
            fates := s.fates[communication := if approve then Because(Consumed) else Unread])
  {
    var es := [InteractionConsumed(asked), CommandAccepted(run, communication)];
    ReadTwo(s, es[0], es[1]);
    if approve {
      ReadLast(s, es, CommandConsumed(run, communication));
    } else {
      assert es + [] == es;
    }
  }

  lemma AskedMore(interactions: map<Id, Interaction>, i: Id, x: Interaction)
    requires i in interactions && interactions[i].state == Open && x.state == Answered && x.run == interactions[i].run
    ensures Asked(interactions[i := x], x.run)
    ensures forall r :: Asked(interactions, r) ==> Asked(interactions[i := x], r)
  {
    StillAsked(interactions, interactions[i := x], i);
    assert interactions[i := x][i] == x;
  }

  lemma AdmitTells(t: Thread, now: int, c: Command)
    requires Inv(t) && Truthful(t)
    ensures Truthful(Admit(t, now, c).thread)
  {
    hide Ledger, JournalInvariant.Calls, PinOk, ContinuationsOk, MarkersOk, ActivityOk, Truthful, Answer, AdmitFresh;
    hide InterruptExpired, ExpireInteractions, Has;
    SweepTells(t, now, "");
    if c.interactionID == "" {
      var u := Reap(t, now, "");
      if Fresh(t, c.communicationID) {
        SweepKeepsRows(t, now, c.communicationID);
        FreshTells(t, u, now, c);
      }
    } else if Fresh(t, c.communicationID) && c.interactionID in t.interactions
      && t.interactions[c.interactionID].state.Open? && c.runID !in t.runs {
      FreshHas(t.commands, c.communicationID);
      AnswerTells(t, now, c);
    }
  }

  predicate Fresh(t: Thread, communication: Id) {
    RowOf(t.commands, communication) == |t.commands|
  }

  lemma {:induction false} FreshHas(rows: seq<CommandRow>, communication: Id)
    requires RowOf(rows, communication) == |rows|
    ensures !Has(rows, communication)
  {
  }

  lemma SweepKeepsRows(t: Thread, now: int, communication: Id)
    requires Fresh(t, communication)
    ensures !Has(Reap(t, now, "").commands, communication)
  {
    hide AppendAll, DisposeEvents, LiveRun, Overdue, InFlight, MarkAttempts, Lost;
    FreshHas(t.commands, communication);
  }

  lemma {:induction false} IncludeTells(t: Thread, run: Id, communications: seq<Id>)
    requires Truthful(t)
    ensures IncludeAll(t, run, communications).Some? ==> Truthful(IncludeAll(t, run, communications).value)
    decreases |communications|
  {
    hide Truthful, IncludeOne;
    if communications != [] {
      IncludeOneTells(t, run, communications[0]);
      var next := IncludeOne(t, run, communications[0]);
      if next.Some? {
        IncludeTells(next.value, run, communications[1..]);
      }
    }
  }

  lemma IncludeOneTells(t: Thread, run: Id, c: Id)
    requires Truthful(t)
    ensures IncludeOne(t, run, c).Some? ==> Truthful(IncludeOne(t, run, c).value)
  {
    hide AppendAll, Story, ReadAll, RunsTrue, FatesTrue, CallsTrue, AnswersTrue, Distinguished;
    var next := IncludeOne(t, run, c);
    if next.Some? {
      var e := CommandIncluded(run, c);
      ReadOne(Story(t.log), e);
      FateIncluded(Story(t.log).fates, t.commands, RowOf(t.commands, c));
      Tells(t, next.value, [e]);
    }
  }

  lemma FateIncluded(told: map<Id, Told>, rows: seq<CommandRow>, k: nat)
    requires FatesTrue(told, rows) && Distinguished(rows) && k < |rows| && rows[k].reason == NoReason
    ensures var after := rows[k := rows[k].(included := true)];
      FatesTrue(told[rows[k].cmd.communicationID := InRequest], after) && Distinguished(after)
  {
    var after, now := rows[k := rows[k].(included := true)], told[rows[k].cmd.communicationID := InRequest];
    hide Has;
    forall j | 0 <= j < |after| ensures FateAt(now, after[j]) {
      assert FateAt(told, rows[j]);
    }
    forall c | c in now ensures Has(after, c) {
      KthHas(rows, k);
      SameHas(rows, after, c);
    }
  }

  lemma KthHas(rows: seq<CommandRow>, k: nat)
    requires k < |rows|
    ensures Has(rows, rows[k].cmd.communicationID)
  {
  }

  lemma ParkTells(t: Thread, now: int, run: Id, p: Proposal)
    requires Truthful(t) && run in t.runs && t.runs[run].scope.Some? && t.runs[run].state == Running
    requires p.id !in t.interactions
    ensures Truthful(Park(t, now, run, p))
  {
    hide Truthful, ParkedRow;
    var x := ParkedRow(run, t.runs[run], now, p);
    var v := t.(interactions := t.interactions[p.id := x], history := p.saved.history);
    Unanswered(t.interactions, p.id, x);
    Frame(t, v);
    RunTells(v, run, t.runs[run].(state := AwaitingInput, owner := "", lease := now), RunAwaiting(run, p.callID));
  }

  lemma Unanswered(interactions: map<Id, Interaction>, i: Id, x: Interaction)
    requires i !in interactions
    ensures forall r :: Asked(interactions, r) ==> Asked(interactions[i := x], r)
  {
    forall r | Asked(interactions, r) ensures Asked(interactions[i := x], r) {
      var j :| j in interactions && interactions[j].run == r && interactions[j].state == Answered;
      assert interactions[i := x][j] == interactions[j];
    }
  }

  lemma MarkedAsked(interactions: map<Id, Interaction>, i: Id, marker: Marker)
    requires i in interactions
    ensures forall r :: Asked(interactions, r) ==> Asked(interactions[i := interactions[i].(marker := marker)], r)
  {
    var after := interactions[i := interactions[i].(marker := marker)];
    forall r | Asked(interactions, r) ensures Asked(after, r) {
      var j :| j in interactions && interactions[j].run == r && interactions[j].state == Answered;
      assert after[j].run == r && after[j].state == Answered;
    }
  }

  lemma ClaimTells(t: Thread, now: int, c: Command, id: Id, duration: int)
    requires Truthful(t)
    ensures Truthful(Claim(t, now, c, id, duration).thread)
  {
    hide Truthful, Emit, Accepted, Recoverable;
    if Claim(t, now, c, id, duration).err == Ok {
      var v := t.(epoch := t.epoch + 1);
      Frame(t, v);
      var row := t.runs[c.runID].(state := Running, owner := id, epoch := t.epoch + 1, lease := now + duration);
      RunTells(v, c.runID, row, RunStarted(c.runID));
    }
  }

  lemma SupersedeTells(t: Thread, run: Id, i: Id)
    requires Truthful(t)
    ensures Truthful(SupersedeMark(t, run, i).thread)
  {
    hide Truthful, AppendAll;
    if SupersedeMark(t, run, i).err == Ok && !t.interactions[i].marker.Superseded? {
      var v := t.(interactions := t.interactions[i := t.interactions[i].(marker := Superseded)]);
      MarkedAsked(t.interactions, i, Superseded);
      Frame(t, v);
      AsideTells(v, InteractionSuperseded(run, t.interactions[i].callID));
    }
  }

  lemma BeginTells(t: Thread, now: int, o: Owner, op: Call, attempt: int, approval: Id)
    requires Truthful(t)
    ensures Truthful(BeginAttempt(t, now, o, op, attempt, approval).thread)
  {
    hide Truthful, SupersedeMark, FirstAttempt, SecondAttempt, Expected, OtherUnresolved;
    if o.Run() in t.runs {
      FirstTells(t, now, o.Run(), op, approval);
      SecondTells(t, o.Run(), op);
    }
  }

  lemma FirstTells(t: Thread, now: int, run: Id, op: Call, approval: Id)
    requires Truthful(t) && run in t.runs
    ensures Truthful(FirstAttempt(t, now, run, op, approval).thread)
  {
    hide Truthful, AppendAll, SupersedeMark;
    SupersedeTells(t, run, approval);
    if FirstAttempt(t, now, run, op, approval).err == Ok {
      var u := FirstAttempt(t, now, run, op, approval).thread;
      var v := t.(interactions := u.interactions, attempts := u.attempts);
      if op.requiresApproval {
        MarkedAsked(t.interactions, approval, Dispatched);
      }
      Frame(t, v);
      CallTells(v, op.callID, u.operations[op.callID], ToolStarted(run, op.callID, op.name));
    }
  }

  lemma SecondTells(t: Thread, run: Id, op: Call)
    requires Truthful(t)
    ensures Truthful(SecondAttempt(t, run, op).thread)
  {
    hide Truthful, AppendAll;
    if SecondAttempt(t, run, op).err == Ok {
      var u := SecondAttempt(t, run, op).thread;
      Frame(t, t.(attempts := u.attempts));
      CallTells(t.(attempts := u.attempts), op.callID, u.operations[op.callID], ToolStarted(run, op.callID, op.name));
    }
  }

  lemma OutcomeTells(t: Thread, now: int, o: Owner, c: Id, name: Id, attempt: int, outcome: Outcome)
    requires Truthful(t)
    ensures Truthful(EndAttempt(t, now, o, c, name, attempt, outcome).thread)
  {
    hide Truthful, AppendAll, LockOwner;
    if EndAttempt(t, now, o, c, name, attempt, outcome).err == Ok {
      var u := EndAttempt(t, now, o, c, name, attempt, outcome).thread;
      Frame(t, t.(attempts := u.attempts));
      CallTells(t.(attempts := u.attempts), c, u.operations[c], ToolEnded(o.Run(), c, name, outcome));
    }
  }

  /** A run that names a call when it ends names one that is on record as completed.  (The runtime names none.) */
  predicate Honest(t: Thread, s: Step) {
    s.StepFinish? && s.callID != "" ==> s.callID in t.operations && t.operations[s.callID].outcome == Done
  }

  /** The events of a completion. */
  function Completion(run: Id, answer: string, callID: Id, tool: Id): seq<Event> {
    (if callID != "" then [ToolEnded(run, callID, tool, Done)] else [])
    + [MessageCompleted(run, answer)] + [RunEnded(run, Completed)]
  }

  lemma {:induction false} ReadCompletion(s: Picture, run: Id, answer: string, callID: Id, tool: Id)
    requires callID != "" ==> callID in s.calls && s.calls[callID] == Done
    ensures ReadAll(s, Completion(run, answer, callID, tool))
      == s.(runs := s.runs[run := Completed], answers := s.answers[run := answer])
  {
    hide ReadAll;
    var tools := if callID != "" then [ToolEnded(run, callID, tool, Done)] else [];
    ReadLast(s, tools + [MessageCompleted(run, answer)], RunEnded(run, Completed));
    ReadLast(s, tools, MessageCompleted(run, answer));
    if callID != "" {
      ReadOne(s, ToolEnded(run, callID, tool, Done));
      assert s.calls[callID := Done] == s.calls;
    } else {
      ReadNone(s);
    }
  }

  lemma CompletedTells(t: Thread, run: Id, answer: string, callID: Id, tool: Id, history: seq<History.Message>)
    requires Truthful(t) && run in t.runs && t.runs[run].state == Running
    requires callID != "" ==> callID in t.operations && t.operations[callID].outcome == Done
    ensures Truthful(Emit(
      t.(runs := t.runs[run := t.runs[run].(state := Completed, answer := answer)], history := history),
      Completion(run, answer, callID, tool)))
  {
    hide AppendAll, Story, ReadAll, FatesTrue, Asked, Completion, Distinguished;
    ReadCompletion(Story(t.log), run, answer, callID, tool);
    var runs := t.runs[run := t.runs[run].(state := Completed, answer := answer)];
    Tells(t, Emit(t.(runs := runs, history := history), Completion(run, answer, callID, tool)),
          Completion(run, answer, callID, tool));
  }

  lemma {:induction false} ReadNone(s: Picture)
    ensures ReadAll(s, []) == s
  {
  }

  lemma FinishTells(t: Thread, now: int, s: Step)
    requires Truthful(t) && s.StepFinish? && Honest(t, s)
    ensures Truthful(Finish(t, now, s.o, s.state, s.history, s.answer, s.callID, s.tool).thread)
  {
    hide Truthful, Emit, MarkUnknown, Dispose, HasPending;
    var r := Finish(t, now, s.o, s.state, s.history, s.answer, s.callID, s.tool);
    var run := s.o.Run();
    if r.err == Ok {
      var history := Delivered(t, run, s.history);
      if s.state == Completed {
        CompletedTells(t, run, s.answer, s.callID, s.tool, history);
      } else {
        var row := t.runs[run].(state := s.state, answer := s.answer);
        var v := t.(history := history);
        Frame(t, v);
        StopTells(v, run, row);
        AbandonsApart(t, run, t.runs, history, s.state);
        AbandonsRuns(t, run, s.state);
        assert [] + [] + [RunEnded(run, s.state)] == [RunEnded(run, s.state)];
      }
    }
  }

  /** Setting a run up tells nothing but a change of definition. */
  lemma SetupTells(t: Thread, k: Tick)
    requires Truthful(t) && (k.step.StepStart? || k.step.StepResolve? || k.step.StepScope? || k.step.StepActive?)
    ensures Truthful(Next(t, k))
  {
    hide Truthful, Apply, Start, ResolveDefinition, RecordScope;
    if k.step.StepStart? {
      StartTells(t, k);
    } else if k.step.StepScope? {
      ScopeTells(t, k);
    } else if k.step.StepActive? {
      ActiveApplies(t, k);
      Frame(t, Next(t, k));
    } else {
      ResolveTells(t, k);
    }
  }

  lemma StartTells(t: Thread, k: Tick)
    requires Truthful(t) && k.step.StepStart?
    ensures Truthful(Next(t, k))
  {
    hide Truthful, AnyUnresolved, Apply;
    StartApplies(t, k);
    Frame(t, Next(t, k));
  }

  lemma ScopeTells(t: Thread, k: Tick)
    requires Truthful(t) && k.step.StepScope?
    ensures Truthful(Next(t, k))
  {
    hide Truthful, Apply;
    ScopeApplies(t, k);
    Frame(t, Next(t, k));
  }

  lemma ResolveTells(t: Thread, k: Tick)
    requires Truthful(t) && k.step.StepResolve?
    ensures Truthful(Next(t, k))
  {
    hide Truthful, AppendAll, Idle, LockOwner, Apply;
    ResolveApplies(t, k);
    Frame(t, t.(pin := k.current));
    if t.pin.Some? && k.current.Some? {
      AsideTells(t.(pin := k.current), DefinitionChanged(k.step.o.Run(), t.pin.value, k.current.value));
    }
  }

  lemma StepTells(t: Thread, k: Tick)
    requires Inv(t) && Truthful(t) && Honest(t, k.step)
    ensures Truthful(Next(t, k))
  {
    hide Inv, Truthful, Apply, Admit, Claim, Reap, IncludeAll, Park, SupersedeMark, BeginAttempt, EndAttempt, Finish;
    hide Expected, WellAsked, HasPending, Emit;
    match k.step {
      case StepAdmit(c) =>
        AdmitApplies(t, k);
        AdmitTells(t, k.now, c);
      case StepClaim(c, id, duration) =>
        ClaimApplies(t, k);
        ClaimTells(t, k.now, c, id, duration);
      case StepRenew(o, duration) =>
        RenewApplies(t, k);
        Frame(t, Next(t, k));
      case StepReap(candidate) =>
        ReapApplies(t, k);
        SweepTells(t, k.now, candidate);
      case StepIncluded(o, communications) =>
        IncludedApplies(t, k);
        IncludeTells(t, o.Run(), communications);
      case StepWait(o, p) =>
        WaitApplies(t, k);
        if Err(t, k) == Ok {
          ParkTells(t, k.now, o.Run(), p);
        }
      case StepSupersede(o, i) =>
        SupersedeApplies(t, k);
        SupersedeTells(t, o.Run(), i);
      case StepBegin(o, op, attempt, approval) =>
        BeginApplies(t, k);
        BeginTells(t, k.now, o, op, attempt, approval);
      case StepEnd(o, c, name, attempt, outcome) =>
        EndApplies(t, k);
        OutcomeTells(t, k.now, o, c, name, attempt, outcome);
      case StepFinish(_, _, _, _, _, _) =>
        FinishApplies(t, k);
        FinishTells(t, k.now, k.step);
      case StepNote(o) =>
        NoteApplies(t, k);
        AsideTells(t, Noted(o.Run()));
      case _ => SetupTells(t, k);
    }
  }

  ghost predicate AllHonest(t: Thread, ticks: seq<Tick>)
    decreases |ticks|
  {
    ticks == [] || (Honest(t, ticks[0].step) && AllHonest(Next(t, ticks[0]), ticks[1..]))
  }

  lemma {:induction false} TellsAfter(t: Thread, ticks: seq<Tick>)
    requires Inv(t) && Truthful(t) && AllHonest(t, ticks)
    ensures Truthful(After(t, ticks))
    decreases |ticks|
  {
    hide Inv, Truthful, Apply, Evolves, Honest;
    if ticks != [] {
      StepTells(t, ticks[0]);
      StepKeeps(t, ticks[0].now, ticks[0].current, ticks[0].step);
      TellsAfter(Next(t, ticks[0]), ticks[1..]);
    }
  }

  /** In every reachable thread the events, read from the first on, tell exactly the runs and their states, the commands
      and their fates, the calls and their outcomes, and the answers of the runs that were completed by one. */
  lemma {:induction false} LogTellsAll(id: Id, principal: Id, ticks: seq<Tick>)
    requires AllHonest(NewThread(id, principal), ticks)
    ensures var t := After(NewThread(id, principal), ticks); GapFree(t.log) && True(Story(t.log), t)
  {
    hide After, Inv, Apply, True;
    InitialInv(id, principal);
    NothingToTell(id, principal);
    TellsAfter(NewThread(id, principal), ticks);
  }
}
