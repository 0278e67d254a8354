/** One conversation thread of the journal, and every store transaction as a function
    from the thread's tables to the tables it commits.  A transaction that fails returns
    its error and the tables it was given, except where the source commits on an error.

    Conventions: "" stands for a NULL identifier column, digests of call bindings are
    their own (injective) inputs, and `now` is the database clock inside the transaction. */
module Journal {
  import opened Basics
  import opened EventLog
  import opened Questions
  import History

  type Digest = string

  datatype Error =
    | Ok | ErrOwnership | ErrPending | ErrConflict | ErrExpired | ErrForbidden | ErrBusy | ErrState
    | ErrDefinition | ErrDefinitionSuperseded | ErrOutcomeUnknown | ErrSuperseded
    | ErrStorage  // a key violation or any other database failure

  const LEASE := 15_000           // owners.go LeaseDuration, in milliseconds
  const DEFAULT_WAIT := 300_000   // settings.DefaultInteractionTTL

  datatype RunState =
    | Pending | Running | AwaitingInput | Completed | Failed | AuthRequired
    | DependencyUnavailable | LimitExceeded | Interrupted
  {
    predicate Live() { Pending? || Running? }
  }

  /** What governed a run (scope.go); settings is None unless they are a JSON object, and ttl is the
      wait cap recorded in them. */
  datatype Scope = Scope(version: string, endpoint: string, settings: Option<string>, ttl: int)

  datatype Run = Run(
    state: RunState, owner: Id, epoch: nat, lease: int,
    journey: Id, digest: Option<Digest>, scope: Option<Scope>, answer: string)

  /** Everything an approval is bound to (binding.go); arguments is None unless they are a JSON object. */
  datatype CallBinding = CallBinding(
    journey: Id, key: Id, nameDigest: Id, schemaDigest: Id, arguments: Option<string>,
    version: string, principal: Id, conversation: Id, definitionSet: Digest)

  function BindCall(b: CallBinding): (r: Option<CallBinding>)
    ensures r.Some? ==> r.value == b
  {
    if b.key == "" || b.nameDigest == "" || b.schemaDigest == "" || b.version == "" || b.principal == ""
       || b.conversation == "" || |b.definitionSet| != 64 || b.arguments.None?
    then None else Some(b)
  }

  datatype Kind = Approval | Clarification

  /** A decoded reply, if it decodes. */
  datatype Reply = Reply(answers: map<Id, Given>, decision: string, binding: Option<CallBinding>) | Malformed
  {
    predicate Approves() { Reply? && decision == "approve" }
  }

  /** What a wait keeps for its continuation: the provider's call, the history so far and the repairs
      left; resumable says whether the checkpoint decodes as one this runtime wrote. */
  datatype Saved = Saved(
    provider: Id, arguments: string, history: seq<History.Message>, repairs: int, resumable: bool)

  datatype Command = Command(
    runID: Id, communicationID: Id, principal: Id, tenant: Id, text: string,
    targetJourney: Id, interactionID: Id, replyKind: Kind, reply: Reply)

  datatype Reason = NoReason | Consumed | Ended(state: RunState)

  datatype CommandRow = CommandRow(cmd: Command, execution: Id, included: bool, reason: Reason)
  {
    predicate Undecided() { !included && reason.NoReason? }
  }

  datatype WaitState = Open | Answered | Lapsed   // 'pending', 'consumed', 'expired'
  datatype Marker = NoMarker | Requested | Decided | Denied | Dispatched | Superseded

  datatype Interaction = Interaction(
    run: Id, journey: Id, digest: Option<Digest>, kind: Kind,
    callID: Id, name: Id, binding: CallBinding, questions: seq<Question>, saved: Saved, expires: int,
    state: WaitState, marker: Marker, continuation: Id, approved: bool)

  datatype Policy = ReadOnly | Idempotent | Effectful | Unreviewed
  datatype Outcome = Dispatching | Done | Rejected | NeedsAuth | Unknown

  predicate Unresolved(o: Outcome) { o.Dispatching? || o.Unknown? }

  datatype Operation = Operation(
    run: Id, name: Id, binding: CallBinding, policy: Policy,
    requiresApproval: bool, outcome: Outcome, journey: Id)

  datatype Event =
    | CommandAccepted(run: Id, communication: Id) | CommandConsumed(run: Id, communication: Id)
    | CommandIncluded(run: Id, communication: Id) | CommandDisposed(run: Id, communication: Id, reason: RunState)
    | RunStarted(run: Id) | RunAwaiting(run: Id, call: Id) | RunEnded(run: Id, state: RunState)
    | MessageCompleted(run: Id, answer: string)
    | InteractionConsumed(run: Id) | InteractionExpired(run: Id) | InteractionSuperseded(run: Id, call: Id)
    | ToolStarted(run: Id, call: Id, tool: Id) | ToolEnded(run: Id, call: Id, tool: Id, outcome: Outcome)
    | DefinitionChanged(run: Id, old_: Digest, new_: Digest)
    | Noted(run: Id)  // history_truncated, catalog_changed

  datatype Thread = Thread(
    id: Id, principal: Id, epoch: nat, pin: Option<Digest>, active: seq<Id>, history: seq<History.Message>,
    runs: map<Id, Run>, commands: seq<CommandRow>, interactions: map<Id, Interaction>,
    operations: map<Id, Operation>, attempts: map<(Id, int), Outcome>, log: Log<Event>)

  function NewThread(id: Id, principal: Id): Thread {
    Thread(id, principal, 0, None, [], [], map[], [], map[], map[], map[], Log(0, map[]))
  }

  /** What a transaction leaves behind and what it tells its caller. */
  datatype Commit = Commit(thread: Thread, err: Error)

  datatype Owner = Owner(command: Command, id: Id, epoch: nat)
  {
    function Run(): Id { command.runID }
  }

  function Emit(t: Thread, es: seq<Event>): Thread {
    t.(log := AppendAll(t.log, es))
  }

  // ---------------------------------------------------------------- ownership (owners.go)

  predicate Holds(t: Thread, now: int, o: Owner) {
    && o.Run() in t.runs
    && t.runs[o.Run()].state.Running?
    && t.runs[o.Run()].owner == o.id
    && t.runs[o.Run()].epoch == o.epoch
    && t.runs[o.Run()].lease > now
  }

  function LockOwner(t: Thread, now: int, o: Owner): Error {
    if t.principal != o.command.principal then ErrForbidden
    else if !Holds(t, now, o) then ErrOwnership
    else Ok
  }

  /** c was accepted as the command that its own run executes. */
  ghost predicate Accepted(t: Thread, c: Command) {
    exists k :: 0 <= k < |t.commands| && t.commands[k].cmd == c && t.commands[k].execution == c.runID
  }

  predicate IsContinuation(t: Thread, run: Id) {
    exists i :: i in t.interactions && t.interactions[i].state.Answered? && t.interactions[i].continuation == run
  }

  /** The continuation that reply c opened, never claimed so far. */
  predicate Recoverable(t: Thread, c: Command, run: Run) {
    && run.state.Pending? && run.epoch == 0
    && c.interactionID != "" && c.interactionID in t.interactions
    && t.interactions[c.interactionID].continuation == c.runID
    && t.interactions[c.interactionID].state.Answered?
  }

  ghost function Claim(t: Thread, now: int, c: Command, id: Id, duration: int): Commit {
    if id == "" || duration <= 0 || t.principal != c.principal || !Accepted(t, c) || c.runID !in t.runs then
      Commit(t, ErrOwnership)
    else
      var run := t.runs[c.runID];
      if !run.state.Pending? || (run.lease <= now && !Recoverable(t, c, run)) then Commit(t, ErrOwnership)
      else
        var claimed := run.(state := Running, owner := id, epoch := t.epoch + 1, lease := now + duration);
        Commit(Emit(t.(epoch := t.epoch + 1, runs := t.runs[c.runID := claimed]), [RunStarted(c.runID)]), Ok)
  }

  function Renew(t: Thread, now: int, o: Owner, duration: int): Commit {
    if duration <= 0 then Commit(t, ErrOwnership)
    else if LockOwner(t, now, o) != Ok then Commit(t, LockOwner(t, now, o))
    else Commit(t.(runs := t.runs[o.Run() := t.runs[o.Run()].(lease := now + duration)]), Ok)
  }

  /** The run a SELECT of live runs returns; "" when there is none. */
  ghost function LiveRun(runs: map<Id, Run>): (r: Id)
    ensures r != "" ==> r in runs && runs[r].state.Live()
  {
    if exists r :: r in runs && r != "" && runs[r].state.Live() then
      var r :| r in runs && r != "" && runs[r].state.Live(); r
    else ""
  }

  /** The live run to look at: the candidate, or any when candidate is "". */
  ghost function LiveCandidate(t: Thread, candidate: Id): Id {
    if candidate == "" then LiveRun(t.runs)
    else if candidate in t.runs && t.runs[candidate].state.Live() then candidate
    else ""
  }

  /** An expired live run that is not a reply continuation still waiting to be claimed. */
  ghost predicate Lost(t: Thread, now: int, run: Id)
    requires run in t.runs
  {
    t.runs[run].lease <= now && !(t.runs[run].state.Pending? && t.runs[run].epoch == 0 && IsContinuation(t, run))
  }

  ghost function Interrupt(t: Thread, run: Id): Thread
    requires run in t.runs
  {
    var stopped := t.(runs := t.runs[run := t.runs[run].(state := Interrupted)]);
    Emit(Dispose(MarkUnknown(stopped, run), run, Interrupted), [RunEnded(run, Interrupted)])
  }

  ghost function InterruptExpired(t: Thread, now: int, candidate: Id): Thread {
    var run := LiveCandidate(t, candidate);
    if run == "" || !Lost(t, now, run) then t else Interrupt(t, run)
  }

  /** One iteration of Reap: the candidate may be stale by the time its transaction runs. */
  ghost function Reap(t: Thread, now: int, candidate: Id): Thread {
    ExpireInteractions(InterruptExpired(t, now, candidate), now)
  }

  // ---------------------------------------------------------------- inbox (inbox.go)

  predicate HasPending(t: Thread, run: Id) {
    exists k :: 0 <= k < |t.commands| && t.commands[k].execution == run && t.commands[k].Undecided()
  }

  function DisposeRow(row: CommandRow, run: Id, reason: RunState): CommandRow {
    if row.execution == run && row.Undecided() then row.(reason := Ended(reason)) else row
  }

  function DisposeRows(rows: seq<CommandRow>, run: Id, reason: RunState): (r: seq<CommandRow>)
    ensures |r| == |rows|
    ensures forall k :: 0 <= k < |rows| ==> r[k] == DisposeRow(rows[k], run, reason)
  {
    if rows == [] then []
        else DisposeRows(rows[..|rows| - 1], run, reason) + [DisposeRow(rows[|rows| - 1], run, reason)]
  }

  function DisposeEvents(rows: seq<CommandRow>, run: Id, reason: RunState): seq<Event> {
    if rows == [] then []
    else
      var row := rows[|rows| - 1];
      DisposeEvents(rows[..|rows| - 1], run, reason)
      + (if row.execution == run && row.Undecided() then [CommandDisposed(run, row.cmd.communicationID, reason)]
          else [])
  }

  function Dispose(t: Thread, run: Id, reason: RunState): Thread {
    Emit(t.(commands := DisposeRows(t.commands, run, reason)), DisposeEvents(t.commands, run, reason))
  }

  /** The row of a communication, or |rows| when there is none. */
  function RowOf(rows: seq<CommandRow>, communication: Id): (k: nat)
    ensures k <= |rows|
    ensures k < |rows| ==> rows[k].cmd.communicationID == communication
    ensures forall j :: 0 <= j < k ==> rows[j].cmd.communicationID != communication
  {
    if rows == [] then 0
    else if rows[0].cmd.communicationID == communication then 0
    else 1 + RowOf(rows[1..], communication)
  }

  /** The run's inbox: its undecided commands in order. */
  function PendingOf(rows: seq<CommandRow>, run: Id): (r: seq<CommandRow>)
    ensures forall row :: row in r <==> row in rows && row.execution == run && row.Undecided()
  {
    if rows == [] then []
    else
      var row := rows[|rows| - 1];
      PendingOf(rows[..|rows| - 1], run) + (if row.execution == run && row.Undecided() then [row] else [])
  }

  function IncludeOne(t: Thread, run: Id, communication: Id): (r: Option<Thread>) {
    var k := RowOf(t.commands, communication);
    if k < |t.commands| && t.commands[k].execution == run && t.commands[k].Undecided() then
      var rows := t.commands[k := t.commands[k].(included := true)];
      Some(Emit(t.(commands := rows), [CommandIncluded(run, communication)]))
    else None
  }

  function IncludeAll(t: Thread, run: Id, communications: seq<Id>): (r: Option<Thread>)
    decreases |communications|
  {
    if communications == [] then Some(t)
    else
      var next := IncludeOne(t, run, communications[0]);
      if next.None? then None else IncludeAll(next.value, run, communications[1..])
  }

  function Included(t: Thread, now: int, o: Owner, communications: seq<Id>): Commit {
    if LockOwner(t, now, o) != Ok then Commit(t, LockOwner(t, now, o))
    else
      var r := IncludeAll(t, o.Run(), communications);
      if r.None? then Commit(t, ErrState) else Commit(r.value, Ok)
  }

  // ---------------------------------------------------------------- admission (commands.go)

  predicate RunIDTaken(runs: map<Id, Run>, rows: seq<CommandRow>, run: Id) {
    run in runs || exists k :: 0 <= k < |rows| && rows[k].cmd.runID == run
  }

  predicate HasOpenInteraction(t: Thread) {
    exists i :: i in t.interactions && t.interactions[i].state.Open?
  }

  /** The target the command of `run` asked for. */
  ghost predicate AskedFor(t: Thread, run: Id, target: Id) {
    exists k :: 0 <= k < |t.commands| && t.commands[k].cmd.runID == run && t.commands[k].cmd.targetJourney == target
  }

  ghost function Admit(t: Thread, now: int, c: Command): Commit {
    if c.interactionID != "" then ReplyTo(t, now, c)
    else if c.runID == "" || c.communicationID == "" || c.principal == "" || c.text == "" then Commit(t, ErrState)
    else if t.principal != c.principal then Commit(t, ErrForbidden)
    else
      var k := RowOf(t.commands, c.communicationID);
      if k < |t.commands| then Commit(t, if t.commands[k].cmd == c then Ok else ErrConflict)
      else AdmitFresh(t, ExpireInteractions(InterruptExpired(t, now, ""), now), now, c)
  }

  /** Admission of an unseen communication; `u` is the thread after overdue work was closed. */
  ghost function AdmitFresh(t: Thread, u: Thread, now: int, c: Command): Commit {
    var live := LiveRun(u.runs);
    if HasOpenInteraction(u) then Commit(t, ErrBusy)
    else if live != "" && c.targetJourney != "" && c.targetJourney != u.runs[live].journey
            && !AskedFor(u, live, c.targetJourney) then Commit(t, ErrBusy)
    else if RunIDTaken(u.runs, u.commands, c.runID) then Commit(t, ErrConflict)
    else
      var execution := if live == "" then c.runID else live;
      var rows := u.commands + [CommandRow(c, execution, false, NoReason)];
      var runs := if live == "" then u.runs[c.runID := Run(Pending, "", 0, now + LEASE, "", None, None, "")]
          else u.runs;
      Commit(Emit(u.(commands := rows, runs := runs), [CommandAccepted(execution, c.communicationID)]), Ok)
  }

  // ---------------------------------------------------------------- waits and replies (interactions.go)

  /** The interaction a run proposes. */
  datatype Proposal = Proposal(
    id: Id, kind: Kind, questions: seq<Question>, callID: Id, saved: Saved, name: Id, binding: CallBinding,
    journey: Id, key: Id, nameDigest: Id, schemaDigest: Id, arguments: Option<string>)

  function Expected(t: Thread, run: Run, journey: Id, key: Id, nameDigest: Id, schemaDigest: Id,
      arguments: Option<string>): Option<CallBinding>
    requires run.scope.Some? && run.digest.Some?
  {
    BindCall(CallBinding(journey, key, nameDigest, schemaDigest, arguments,
                         run.scope.value.version, t.principal, t.id, run.digest.value))
  }

  /** An approval asks nothing; a clarification asks well-formed questions. */
  predicate WellAsked(kind: Kind, questions: seq<Question>) {
    if kind.Approval? then questions == [] else QuestionsFine(questions)
  }

  function Wait(t: Thread, now: int, o: Owner, p: Proposal): Commit {
    if p.id == "" || p.callID == "" || p.saved.provider == "" || p.name == "" || !WellAsked(p.kind, p.questions) then
      Commit(t, ErrState)
    else if LockOwner(t, now, o) != Ok then Commit(t, LockOwner(t, now, o))
    else if HasPending(t, o.Run()) then Commit(t, ErrPending)
    else
      var run := t.runs[o.Run()];
      if p.kind.Approval? && (p.journey == "" || p.key == "") then Commit(t, ErrState)
      else if run.scope.None? || run.digest.None? then Commit(t, ErrState)
      else if Expected(t, run, p.journey, p.key, p.nameDigest, p.schemaDigest, p.arguments) != Some(p.binding) then
          Commit(t, ErrState)
      else if p.id in t.interactions then Commit(t, ErrStorage)
      else Commit(Park(t, now, o.Run(), p), Ok)
  }

  /** The row of a wait that starts now. */
  function ParkedRow(id: Id, run: Run, now: int, p: Proposal): Interaction
    requires run.scope.Some?
  {
    var ttl := if run.scope.value.ttl <= 0 then DEFAULT_WAIT else run.scope.value.ttl;
    Interaction(id, if p.journey != "" then p.journey else run.journey, run.digest, p.kind,
                p.callID, p.name, p.binding, p.questions, p.saved, now + ttl, Open,
                if p.kind.Approval? then Requested else NoMarker, "", false)
  }

  function Park(t: Thread, now: int, id: Id, p: Proposal): Thread
    requires id in t.runs && t.runs[id].scope.Some?
  {
    var released := t.runs[id].(state := AwaitingInput, owner := "", lease := now);
    Emit(t.(interactions := t.interactions[p.id := ParkedRow(id, t.runs[id], now, p)],
            runs := t.runs[id := released], history := p.saved.history),
         [RunAwaiting(id, p.callID)])
  }

  /** The checkpoint's history with a result for the call that waited. */
  function ClosedBy(saved: Saved): seq<History.Message> {
    saved.history + [History.ResultMessage(saved.provider)]
  }

  /** An open interaction past its deadline; "" when there is none. */
  ghost function Overdue(interactions: map<Id, Interaction>, now: int): (i: Id)
    ensures i != "" ==> i in interactions && interactions[i].state.Open? && interactions[i].expires <= now
  {
    if exists i :: i in interactions && i != "" && interactions[i].state.Open? && interactions[i].expires <= now then
      var i :| i in interactions && i != "" && interactions[i].state.Open? && interactions[i].expires <= now; i
    else ""
  }

  function Lapse(t: Thread, i: Id): Thread
    requires i in t.interactions
  {
    var x := t.interactions[i];
    var runs :=
      if x.run in t.runs && t.runs[x.run].state.AwaitingInput?
      then t.runs[x.run := t.runs[x.run].(state := Failed)] else t.runs;
    var lapsed := x.(state := Lapsed, marker := if x.kind.Approval? then Denied else NoMarker);
    Emit(t.(interactions := t.interactions[i := lapsed], runs := runs, history := ClosedBy(x.saved)),
         [InteractionExpired(x.run), RunEnded(x.run, Failed)])
  }

  /** A thread has at most one open interaction, so one lapse closes all that are overdue. */
  ghost function ExpireInteractions(t: Thread, now: int): Thread {
    var i := Overdue(t.interactions, now);
    if i == "" then t else Lapse(t, i)
  }

  predicate ValidReply(i: Interaction, r: Reply) {
    match i.kind
    case Approval =>
      r.Reply? && r.answers == map[] && r.binding == Some(i.binding)
          && (r.decision == "approve" || r.decision == "deny")
    case Clarification => r.Reply? && r.decision == "" && r.binding == None && AnswersFine(i.questions, r.answers)
  }

  ghost function ReplyTo(t: Thread, now: int, c: Command): Commit {
    if c.runID == "" || c.principal == "" || c.communicationID == "" || c.text != "" || c.reply.Malformed? then
        Commit(t, ErrState)
    else if t.principal != c.principal then Commit(t, ErrForbidden)
    else
      var k := RowOf(t.commands, c.communicationID);
      if k < |t.commands| then Commit(t, if t.commands[k].cmd == c then Ok else ErrConflict)
      else if c.interactionID !in t.interactions then Commit(t, ErrState)
      else
        var x := t.interactions[c.interactionID];
        if x.expires <= now && x.state.Open? then Commit(ExpireInteractions(t, now), ErrExpired)
        else if x.state.Lapsed? then Commit(t, ErrExpired)
        else if x.expires <= now || !x.state.Open? then Commit(t, ErrConflict)
        else if x.kind != c.replyKind || (c.targetJourney != "" && x.journey != "" && c.targetJourney != x.journey) then
            Commit(t, ErrState)
        else if !ValidReply(x, c.reply) then Commit(t, ErrState)
        else if RunIDTaken(t.runs, t.commands, c.runID) then Commit(t, ErrStorage)
        else Commit(Answer(t, now, c, x), Ok)
  }

  function Answer(t: Thread, now: int, c: Command, x: Interaction): Thread
    requires c.interactionID in t.interactions
  {
    var approve := x.kind.Approval? && c.reply.Approves();
    var marker := if x.kind.Approval? then (if approve then Decided else Denied) else NoMarker;
    var runs := t.runs[c.runID := Run(Pending, "", 0, now + LEASE, x.journey, x.digest, None, "")];
    var closed := if x.run in runs && runs[x.run].state.AwaitingInput? then
        runs[x.run := runs[x.run].(state := Completed)] else runs;
    var answered := x.(state := Answered, continuation := c.runID, marker := marker, approved := approve);
    Emit(t.(commands := t.commands + [CommandRow(c, c.runID, false, if approve then Consumed else NoReason)],
            runs := closed, interactions := t.interactions[c.interactionID := answered]),
         [InteractionConsumed(x.run), CommandAccepted(c.runID, c.communicationID)]
         + (if approve then [CommandConsumed(c.runID, c.communicationID)] else []))
  }

  /** The approval that `run` was opened to act on. */
  predicate AnsweredApproval(t: Thread, run: Id, i: Id) {
    && i in t.interactions && t.interactions[i].kind.Approval?
    && t.interactions[i].state.Answered? && t.interactions[i].continuation == run
  }

  function SupersedeMark(t: Thread, run: Id, i: Id): Commit {
    if !AnsweredApproval(t, run, i) then Commit(t, ErrState)
    else if t.interactions[i].marker.Superseded? then Commit(t, Ok)
    else if !t.interactions[i].marker.Decided? then Commit(t, ErrState)
    else Commit(Emit(t.(interactions := t.interactions[i := t.interactions[i].(marker := Superseded)]),
                     [InteractionSuperseded(run, t.interactions[i].callID)]), Ok)
  }

  function Supersede(t: Thread, now: int, o: Owner, i: Id): Commit {
    if LockOwner(t, now, o) != Ok then Commit(t, LockOwner(t, now, o)) else SupersedeMark(t, o.Run(), i)
  }

  // ---------------------------------------------------------------- tool calls (operations.go)

  /** One model-requested tool call as the runtime submits it. */
  datatype Call = Call(
    callID: Id, name: Id, key: Id, nameDigest: Id, schemaDigest: Id, arguments: Option<string>,
    binding: CallBinding, policy: Policy, requiresApproval: bool, journey: Id)

  predicate OtherUnresolved(t: Thread, call: Id) {
    exists c :: c in t.operations && c != call && Unresolved(t.operations[c].outcome)
  }

  predicate AnyUnresolved(t: Thread) {
    exists c :: c in t.operations && Unresolved(t.operations[c].outcome)
  }

  function BeginAttempt(t: Thread, now: int, o: Owner, op: Call, attempt: int, approval: Id): Commit {
    if op.callID == "" || attempt < 1 || attempt > 2 || op.policy.Unreviewed?
        || (!op.policy.ReadOnly? && !op.requiresApproval) then
      Commit(t, ErrState)
    else if LockOwner(t, now, o) != Ok then Commit(t, LockOwner(t, now, o))
    else
      var run := t.runs[o.Run()];
      if run.scope.None? || run.digest.None? then Commit(t, ErrState)
      else if Some(op.binding)
              != Expected(t, run, op.journey, op.key, op.nameDigest, op.schemaDigest, op.arguments)
      then Commit(t, ErrState)
      else if OtherUnresolved(t, op.callID) then Commit(t, ErrOutcomeUnknown)
      else if attempt == 1 then FirstAttempt(t, now, o.Run(), op, approval)
      else SecondAttempt(t, o.Run(), op)
  }

  /** The approval row is usable for this call: approved, in time, same call ID and name. */
  predicate Usable(t: Thread, now: int, run: Id, op: Call, approval: Id) {
    && AnsweredApproval(t, run, approval)
    && t.interactions[approval].expires > now
    && t.interactions[approval].approved
    && t.interactions[approval].callID == op.callID
    && t.interactions[approval].name == op.name
    && t.interactions[approval].marker.Decided?
  }

  function FirstAttempt(t: Thread, now: int, run: Id, op: Call, approval: Id): Commit
    requires run in t.runs
  {
    if op.requiresApproval && !Usable(t, now, run, op, approval) then Commit(t, ErrState)
    else if op.requiresApproval
        && (t.interactions[approval].journey != op.journey || t.interactions[approval].binding != op.binding) then
      Commit(SupersedeMark(t, run, approval).thread, ErrSuperseded)
    else if op.callID in t.operations || (op.callID, 1) in t.attempts then Commit(t, ErrStorage)
    else
      var row := Operation(run, op.name, op.binding, op.policy, op.requiresApproval, Dispatching,
                           if op.journey != "" then op.journey else t.runs[run].journey);
      var interactions := if op.requiresApproval
        then t.interactions[approval := t.interactions[approval].(marker := Dispatched)] else t.interactions;
      Commit(Emit(t.(operations := t.operations[op.callID := row], interactions := interactions,
                     attempts := t.attempts[(op.callID, 1) := Dispatching]),
                  [ToolStarted(run, op.callID, op.name)]), Ok)
  }

  function SecondAttempt(t: Thread, run: Id, op: Call): Commit {
    if op.callID !in t.operations || t.operations[op.callID].run != run then Commit(t, ErrStorage)
    else
      var row := t.operations[op.callID];
      if row.binding != op.binding || row.policy != op.policy || !(row.outcome.Rejected? || row.outcome.Unknown?)
          || op.policy.Effectful? then
        Commit(t, ErrState)
      else if (op.callID, 2) in t.attempts then Commit(t, ErrStorage)
      else Commit(Emit(t.(operations := t.operations[op.callID := row.(outcome := Dispatching)],
                          attempts := t.attempts[(op.callID, 2) := Dispatching]),
                       [ToolStarted(run, op.callID, op.name)]), Ok)
  }

  function EndAttempt(t: Thread, now: int, o: Owner, callID: Id, name: Id, attempt: int, outcome: Outcome): Commit {
    if outcome.Dispatching? then Commit(t, ErrState)
    else if LockOwner(t, now, o) != Ok then Commit(t, LockOwner(t, now, o))
    else if callID !in t.operations || t.operations[callID].run != o.Run()
        || !t.operations[callID].outcome.Dispatching? then Commit(t, ErrState)
    else if (callID, attempt) !in t.attempts || !t.attempts[(callID, attempt)].Dispatching? then Commit(t, ErrState)
    else Commit(Emit(t.(operations := t.operations[callID := t.operations[callID].(outcome := outcome)],
                        attempts := t.attempts[(callID, attempt) := outcome]),
                     [ToolEnded(o.Run(), callID, name, outcome)]), Ok)
  }

  /** The operation of `run` that is still dispatching; "" when there is none. */
  ghost function InFlight(operations: map<Id, Operation>, run: Id): (c: Id)
    ensures c != "" ==> c in operations && operations[c].run == run && operations[c].outcome.Dispatching?
  {
    if exists c :: c in operations && c != "" && operations[c].run == run && operations[c].outcome.Dispatching? then
      var c :| c in operations && c != "" && operations[c].run == run && operations[c].outcome.Dispatching?; c
    else ""
  }

  function MarkAttempts(attempts: map<(Id, int), Outcome>, operations: map<Id, Operation>, run: Id)
    : map<(Id, int), Outcome>
  {
    map k | k in attempts ::
      if attempts[k].Dispatching? && k.0 in operations && operations[k.0].run == run then Unknown else attempts[k]
  }

  /** A thread has at most one operation in flight, so marking it marks all of the run's. */
  ghost function MarkUnknown(t: Thread, run: Id): Thread {
    var c := InFlight(t.operations, run);
    var marked := t.(attempts := MarkAttempts(t.attempts, t.operations, run));
    if c == "" then marked
    else Emit(marked.(operations := t.operations[c := t.operations[c].(outcome := Unknown)]),
              [ToolEnded(run, c, t.operations[c].name, Unknown)])
  }

  // ---------------------------------------------------------------- start and finish (sessions.go, definitions.go)

  /** What Start and ResolveDefinition leave: the thread, the error, and the shared current pointer. */
  datatype Pinned = Pinned(thread: Thread, err: Error, current: Option<Digest>, digest: Digest)

  function Start(t: Thread, now: int, o: Owner, journey: Id, digest: Digest, current: Option<Digest>): Pinned {
    if |digest| != 64 then Pinned(t, ErrDefinition, current, "")
    else if LockOwner(t, now, o) != Ok then Pinned(t, LockOwner(t, now, o), current, "")
    else if AnyUnresolved(t) then Pinned(t, ErrOutcomeUnknown, current, "")
    else if t.pin.None? && current.Some? && current.value != digest then Pinned(t, ErrDefinition, current, "")
    else if t.pin.Some? && t.pin.value != digest then Pinned(t, ErrDefinition, current, "")
    else
      var run := t.runs[o.Run()];
      if !(journey == "" || run.journey == "" || run.journey == journey) then Pinned(t, ErrDefinition, current, "")
      else
        var started := run.(journey := if journey != "" then journey else run.journey, digest := Some(digest));
        Pinned(t.(pin := Some(digest), runs := t.runs[o.Run() := started]), Ok,
               if t.pin.None? then Some(digest) else current, digest)
  }

  predicate Idle(t: Thread, o: Owner) {
    o.command.interactionID == "" && !HasOpenInteraction(t) && !AnyUnresolved(t)
  }

  function ResolveDefinition(t: Thread, now: int, o: Owner, current: Option<Digest>, served: set<Digest>): Pinned {
    if LockOwner(t, now, o) != Ok then Pinned(t, LockOwner(t, now, o), current, "")
    else if t.pin.Some? then
      if current.Some? && current.value != t.pin.value && Idle(t, o) then
        if current.value !in served then Pinned(t, ErrDefinition, current, "")
        else
          var moved := Emit(t.(pin := current), [DefinitionChanged(o.Run(), t.pin.value, current.value)]);
          Pinned(moved, Ok, current, current.value)
      else if t.pin.value !in served then Pinned(t, ErrDefinition, current, "")
      else Pinned(t, Ok, current, t.pin.value)
    else if current.None? || current.value !in served then Pinned(t, ErrDefinition, current, "")
    else Pinned(t.(pin := current), Ok, current, current.value)
  }

  predicate Terminal(s: RunState) {
    s.Completed? || s.Failed? || s.AuthRequired? || s.DependencyUnavailable? || s.LimitExceeded?
  }

  /** The conversation's history after a run ends: the one it delivers, if any and if the run is pinned. */
  function Delivered(t: Thread, run: Id, history: Option<seq<History.Message>>): seq<History.Message>
    requires run in t.runs
  {
    if history.Some? && t.runs[run].digest.Some? then history.value else t.history
  }

  ghost function Finish(
      t: Thread, now: int, o: Owner, state: RunState, history: Option<seq<History.Message>>,
      answer: string, callID: Id, tool: Id): Commit
  {
    if !Terminal(state) then Commit(t, ErrState)
    else if LockOwner(t, now, o) != Ok then Commit(t, LockOwner(t, now, o))
    else if state.Completed? && HasPending(t, o.Run()) then Commit(t, ErrPending)
    else
      var u := if state.Completed? then t else Dispose(MarkUnknown(t, o.Run()), o.Run(), state);
      var closing := (if state.Completed? && callID != "" then [ToolEnded(o.Run(), callID, tool, Done)] else [])
                     + (if state.Completed? then [MessageCompleted(o.Run(), answer)] else []);
      Commit(Emit(u.(runs := u.runs[o.Run() := u.runs[o.Run()].(state := state, answer := answer)],
                     history := Delivered(t, o.Run(), history)),
                  closing + [RunEnded(o.Run(), state)]), Ok)
  }

  function RecordScope(t: Thread, now: int, o: Owner, scope: Scope): Commit {
    if scope.version == "" || scope.endpoint == "" || scope.settings.None? then Commit(t, ErrState)
    else if LockOwner(t, now, o) != Ok then Commit(t, LockOwner(t, now, o))
    else
      var run := t.runs[o.Run()];
      if run.scope.Some? then Commit(t, if run.scope.value == scope then Ok else ErrState)
      else Commit(t.(runs := t.runs[o.Run() := run.(scope := Some(scope))]), Ok)
  }

  predicate Distinct(ids: seq<Id>) {
    && (forall i :: 0 <= i < |ids| ==> ids[i] != "")
    && (forall i, j :: 0 <= i < j < |ids| ==> ids[i] != ids[j])
  }

  function SetActive(t: Thread, now: int, o: Owner, ids: seq<Id>): Commit {
    if !Distinct(ids) then Commit(t, ErrState)
    else if LockOwner(t, now, o) != Ok then Commit(t, LockOwner(t, now, o))
    else Commit(t.(active := ids), Ok)
  }

  /** The journeys that may not be evicted now: an approval waits or is about to be used, or an
      operation is unresolved. */
  function PinnedJourneys(t: Thread, run: Id): set<Id> {
    (set i | i in t.interactions && t.interactions[i].kind.Approval? && t.interactions[i].journey != ""
             && (t.interactions[i].state.Open?
                 || (t.interactions[i].state.Answered? && t.interactions[i].continuation == run
                     && t.interactions[i].marker.Decided?))
         :: t.interactions[i].journey)
    + (set c | c in t.operations && t.operations[c].journey != ""
        && Unresolved(t.operations[c].outcome) :: t.operations[c].journey)
  }

  /** Transactions that only append an event under the fence (history.go, catalog.go). */
  function Note(t: Thread, now: int, o: Owner): Commit {
    if LockOwner(t, now, o) != Ok then Commit(t, LockOwner(t, now, o)) else Commit(Emit(t, [Noted(o.Run())]), Ok)
  }

  // ---------------------------------------------------------------- steps

  datatype Step =
    | StepAdmit(c: Command)
    | StepClaim(c: Command, id: Id, duration: int)
    | StepRenew(o: Owner, duration: int)
    | StepReap(candidate: Id)
    | StepIncluded(o: Owner, communications: seq<Id>)
    | StepWait(o: Owner, p: Proposal)
    | StepSupersede(o: Owner, interaction: Id)
    | StepBegin(o: Owner, op: Call, attempt: int, approval: Id)
    | StepEnd(o: Owner, callID: Id, name: Id, attempt: int, outcome: Outcome)
    | StepStart(o: Owner, journey: Id, digest: Digest)
    | StepResolve(o: Owner, served: set<Digest>)
    | StepFinish(
        o: Owner, state: RunState, history: Option<seq<History.Message>>, answer: string, callID: Id, tool: Id)
    | StepScope(o: Owner, scope: Scope)
    | StepActive(o: Owner, ids: seq<Id>)
    | StepNote(o: Owner)

  /** Every transaction on one thread; `current` is the shared definition pointer it sees and leaves. */
  ghost function Apply(t: Thread, now: int, current: Option<Digest>, s: Step): Pinned {
    match s
    case StepStart(o, journey, digest) => Start(t, now, o, journey, digest, current)
    case StepResolve(o, served) => ResolveDefinition(t, now, o, current, served)
    case _ => var r := ApplyLocal(t, now, s); Pinned(r.thread, r.err, current, "")
  }

  ghost function ApplyLocal(t: Thread, now: int, s: Step): Commit
  {
    match s
    case StepAdmit(c) => Admit(t, now, c)
    case StepClaim(c, id, duration) => Claim(t, now, c, id, duration)
    case StepRenew(o, duration) => Renew(t, now, o, duration)
    case StepReap(candidate) => Commit(Reap(t, now, candidate), Ok)
    case StepIncluded(o, communications) => Included(t, now, o, communications)
    case StepWait(o, p) => Wait(t, now, o, p)
    case StepSupersede(o, i) => Supersede(t, now, o, i)
    case StepBegin(o, op, attempt, approval) => BeginAttempt(t, now, o, op, attempt, approval)
    case StepEnd(o, callID, name, attempt, outcome) => EndAttempt(t, now, o, callID, name, attempt, outcome)
    case StepFinish(o, state, history, answer, callID, tool) => Finish(t, now, o, state, history, answer, callID, tool)
    case StepScope(o, scope) => RecordScope(t, now, o, scope)
    case StepActive(o, ids) => SetActive(t, now, o, ids)
    case StepNote(o) => Note(t, now, o)
    case StepStart(_, _, _) => Commit(t, Ok)
    case StepResolve(_, _) => Commit(t, Ok)
  }
}
