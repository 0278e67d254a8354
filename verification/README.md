# Verification of the conversation-agent runtime

A Dafny model of a runtime that runs durable conversations on several replicas over one PostgreSQL
journal, with proofs over every input, every run and every interleaving.

How the parts fit together:

- **Journal** (`Journal`, `Questions`, `JournalInvariant`, `JournalSteps`, `JournalEffects`, `JournalTheorems`, `JournalHistory`,
  `OpenHistory`, `JournalContract`, `JournalProgress`, `JournalTelling`, `JournalStore`).
  Every store method takes the conversation's row lock first, so one thread is one record of tables and every
  method is an atomic step. `Journal` gives each step as a function from tables to tables, `ThreadStore` is the
  store updating its tables in place and is proved to commit exactly those functions, and the theorems hold for
  every sequence of steps by any number of owners with a clock that does not go back. `JournalContract` says over the
  tables, without those functions, what each step accepts and leaves; `JournalProgress` what whole courses of steps
  achieve; `JournalTelling` what the log of events tells.
- **Rollout** (`Rollout`, `ActivationCommand`). The shared current pointer, the pins of all conversations, and the
  activation command as a retry loop over what its successive reads find. A run of the whole system projects to a
  run of each thread.
- **Conversation loop** (`History`, `TrimHistory`, `Dispatch`, `GuardedCall`, `Harness`). The loop runs against a real
  `ThreadStore`; between any two of its store calls other replicas may perform any transactions, and each store call
  may be lost before or after its commit.
- **Active journeys** (`Journeys`) and their stored copy (`Harness.Conversation`).
- **Catalog and definitions** (`Versions`, `Catalog`, `Resolve`, `Policies`, `Compile`).
- **Observation** (`EventLog`).

Conventions: "" stands for a NULL identifier; a call binding is its own digest, so digests are injective; a
thread starts empty, a new run has epoch 0, and run and call identifiers are unique keys.

Where the code does less than it appears to promise, the code is modelled as it is:

- `Start` creates the current pointer without an activation time (internal/journal/sessions.go:36-48), so forward-only
  rollout needs current to be created by activation: `Rollout.BootstrapRepeats`, `Rollout.ComesBackIffUnmarked`.
- The activation command can report that its candidate was superseded while the candidate is current
  (internal/defstore/activate.go:78-90): `ActivationCommand.SupersededIsWrongIffRaced` says exactly when.
- The policy check reports conflicts by name, so tools with an empty operation key would escape it
  (internal/catalog/resolve.go:295-307): `Policies.ConsistentAfterwards` gives the exact condition for all inputs, and
  `Compile.ResolvedConsistent` shows that resolved journeys always meet it.
- Inputs admitted together are separate turns, so trimming can leave all but the latest out of the request that
  records them as included (internal/runtime/interactions.go:354-364): `TrimHistory.InputsInRequest` says exactly when.
- An answer with a custom text of white space is not checked against the offered options
  (internal/journal/interactions.go:129-135): `Questions.OptionIsOffered` says exactly when an unoffered option
  is accepted.
- A wait stores its history with a call open (internal/journal/interactions.go:202-204). The interruption of its
  continuation does not rewrite it, nor does an ending without a history (internal/journal/sessions.go:126-130), and
  nothing repairs it on load: a later run that answers stores it again with the call still open, because only a run
  that stops with an error closes what is open (internal/runtime/interactions.go:234-237).
  `OpenHistory.AnsweredButOpen` is such a run, and `JournalHistory.ClosedUnlessOwed` says for every run which calls the
  stored history leaves open. The loop is proved from any such history (`Harness.Conversation.RunHarness`), and its own
  waits and endings are proved to meet what that theorem asks of them.

## Model

| member | source | states |
|---|---|---|
| `JournalTheorems.ThreadStops` | internal/journal/operations.go:34-146 | Once an operation is an effectful unknown outcome, or is unresolved in a run that left running, then through every further schedule of transactions it stays unresolved, no operation or attempt is added to the thread, no attempt starts and Start refuses |
| `JournalTheorems.AttemptsBounded` | internal/journal/operations.go:59-117 | In every reachable thread at most one operation is unresolved, attempts are numbered 1 and 2, and an effectful operation never has a second one |
| `JournalTheorems.StuckRefuses` | internal/journal/operations.go:59-65 | With a stuck operation every BeginAttempt, by any owner, for any call and attempt number, fails |
| `JournalTheorems.StuckRefusesStart` | internal/journal/sessions.go:24-30 | With a stuck operation every Start fails |
| `JournalTheorems.NoInputLost` | internal/journal/inbox.go:79-134 | From an empty thread through any transactions, every accepted command is recorded as included, or has a recorded reason, or waits in a live run, never two of these, and a decided fate never changes |
| `JournalTheorems.AdmittedIsRecorded` | internal/journal/commands.go:54-80 | A command whose admission succeeds is on record afterwards, whichever run executes it |
| `JournalTheorems.AlwaysAuthored` | internal/journal/commands.go:19-32 | Every recorded command passed the checks on submission, under the principal of the conversation |
| `JournalTheorems.AdmissionIsIdempotent` | internal/journal/commands.go:33-44 | In every reachable thread, submitting a recorded communication again changes nothing: the same command succeeds, any other fails, and a well-formed one of the same principal conflicts |
| `JournalTheorems.SingleActivity` | internal/journal/commands.go:48-80 | In every reachable thread live runs and open interactions together are at most one, a run awaits input exactly while it has an open interaction, and no run has opened two |
| `JournalTheorems.ApprovalsMatch` | internal/journal/operations.go:66-97 | In every reachable thread operations that required approval and dispatched approvals correspond one to one, with equal call, name, journey, binding and run |
| `JournalTheorems.ApprovalSpent` | internal/journal/operations.go:66-97 | The step that creates an operation requiring approval moves exactly one approval from decided to dispatched, and that approval backs the operation |
| `JournalTheorems.OnlyBeginCreates` | internal/journal/operations.go:92-117 | No transaction but BeginAttempt adds an operation or an attempt or dispatches an approval |
| `JournalTheorems.SpentOrDeadForever` | internal/journal/interactions.go:438-457 | An approval that is denied, expired or superseded backs no operation in any continuation, and a dispatched one backs only the operation it already backs |
| `JournalTheorems.OneOwner` | internal/journal/owners.go:82-103 | In every reachable thread two owners that both pass the fence have the same run, identity and epoch |
| `JournalTheorems.ClaimIssues` | internal/journal/owners.go:60-80 | A successful claim returns an owner that passes the fence under an epoch above every earlier one of the thread |
| `JournalTheorems.ClaimedOnce` | internal/journal/owners.go:21-80 | A run that was ever claimed cannot be claimed again in any continuation |
| `JournalTheorems.LostForever` | internal/journal/owners.go:82-118 | An issued owner that fails the fence once fails it at every later time, whatever transactions follow |
| `JournalTheorems.ContinuationWaitsForItsReply` | internal/journal/owners.go:161-190 | Through any schedule a reply continuation stays unclaimed and pending, never interrupted, until it is claimed |
| `JournalTheorems.UnclaimedIsClaimable` | internal/journal/owners.go:44-59 | However late, the reply that opened an unclaimed continuation can still claim it |
| `JournalTheorems.PinStable` | internal/journal/definitions.go:53-117 | From an approval wait until its continuation dispatches, is superseded or ends, no schedule of transactions changes the conversation's definition digest |
| `JournalTheorems.HeldIsNotIdle` | internal/journal/definitions.go:34-48 | While a wait or its live continuation holds the conversation, no owner that passes the fence finds it idle |
| `JournalTheorems.EventsGapFree` | internal/journal/store.go:118-129 | In every reachable thread event numbers are exactly 1..sequence, and later transactions only add events |
| `JournalTheorems.Reachable` | internal/journal/store.go:110-129 | Any sequence of transactions from a state that satisfies the invariant keeps it and takes nothing back: rows are never deleted and move only forward |
| `JournalSteps.StepKeeps` | internal/journal/interactions.go:148-210 | Each transaction, successful or refused, keeps the whole invariant (ledger, waits, continuations, markers, calls, pin, log) and moves rows only forward |
| `JournalContract.ClaimContract` | internal/journal/owners.go:21-80 | A claim succeeds exactly for a pending run by its own recorded command, within its lease or, for the continuation of an answer, at any time; it starts the run under the next epoch and a new lease |
| `JournalContract.RenewContract` | internal/journal/owners.go:107-118 | The holder, and nobody else, moves its lease to now plus the duration |
| `JournalContract.ReapContract` | internal/journal/owners.go:161-190 | A live run with an expired lease is interrupted, its undecided commands carry that reason and what it had in flight is unknown, unless it is pending, was never claimed and continues an answered interaction; no other run is touched |
| `JournalContract.ExpiryContract` | internal/journal/interactions.go:229-277 | An overdue wait lapses, as denied if it is an approval, its run fails and its call gets a result in the stored history; a wait in time stays |
| `JournalContract.AdmitContract` | internal/journal/commands.go:13-88 | A message is accepted exactly if it is well formed and its author's, nothing waits for an answer after the sweep, the run under way serves its target and its run is new; it joins that run or opens a pending one; a refusal changes nothing |
| `JournalContract.AdmitInterrupts` | internal/journal/commands.go:48-53 | An accepted message interrupts the lost run it meets, with its undecided commands |
| `JournalContract.ReplyContract` | internal/journal/interactions.go:278-385 | A reply is accepted exactly if it fits the open, unexpired interaction and its run is new; then "approve" and nothing else marks the approval decided and approved and consumes the command, "deny" denies it, and answers leave no mark; the asking run is completed and a pending run opens on its journey and digest |
| `JournalContract.LateReplyContract` | internal/journal/interactions.go:314-327 | A reply is refused as expired exactly if the interaction lapsed or is overdue; then the sweep is committed |
| `JournalContract.IncludedContract` | internal/journal/inbox.go:79-100 | All of the named inputs become included exactly if each is named once and undecided in the fenced run; otherwise none |
| `JournalContract.WaitContract` | internal/journal/interactions.go:148-210 | A run waits exactly with a well-formed question, no undecided input and the binding its call has now; the new wait has its digest and the deadline of its settings; pending input alone is reported as pending |
| `JournalContract.SupersedeContract` | internal/journal/interactions.go:429-457 | Exactly the decided or superseded approval that the fenced run continues can be given up |
| `JournalContract.FirstAttemptContract` | internal/journal/operations.go:34-97 | A call is sent first exactly if it is well formed, reviewed, bound as the run stands, alone unresolved, new, and approved in time for this very call where it needs approval; an approval for another journey or binding is given up instead |
| `JournalContract.SecondAttemptContract` | internal/journal/operations.go:98-117 | A call is sent again exactly if it is on record as the same call without effects, rejected or uncertain, and not repeated yet |
| `JournalContract.OtherAttemptsRefused` | internal/journal/operations.go:34-38 | Any other attempt number is refused and changes nothing |
| `JournalContract.EndContract` | internal/journal/operations.go:120-146 | An outcome is recorded exactly for the attempt in flight of a call of the fenced run |
| `JournalContract.StartContract` | internal/journal/sessions.go:10-76 | A run starts exactly with nothing unresolved, under the conversation's digest, or the shared one where it has none, and for its journey; it pins the conversation and makes its digest the shared one if there is none |
| `JournalContract.ResolveContract` | internal/journal/definitions.go:34-117 | Under the fence a conversation takes the shared digest exactly if it has none, or they differ, no interaction is open, nothing is unresolved and the run is no reply; it is told the digest it then has, and either is refused exactly if it is not served |
| `JournalContract.ScopeContract` | internal/journal/scope.go:27-49 | What governs a run is recorded once, complete and under the fence, and never changed |
| `JournalContract.ActiveContract` | internal/journal/active.go:58-80 | The active journeys become any list without a blank or a repetition, under the fence |
| `JournalContract.FinishContract` | internal/journal/sessions.go:77-155 | A run ends in a final state under the fence; completion alone is refused, as pending, with undecided input; every other end gives up that input and what is in flight |
| `JournalContract.NoteContract` | internal/journal/history.go:17-37 | A note under the fence adds an event and changes nothing else |
| `JournalContract.PendingContract` | internal/journal/inbox.go:20-75 | The inbox of a list of commands is the inboxes of its parts in order |
| `JournalContract.PinnedContract` | internal/journal/active.go:16-53 | A journey is pinned exactly while an approval for it is open, or decided and unused by the run that continues it, or one of its calls is unresolved |
| `JournalProgress.Recovered` | internal/journal/owners.go:121-190 | In every reachable thread, a run still live after the reaper looked at it is running under a valid lease or can be claimed by its own command |
| `JournalProgress.SentMeansApproved` | internal/journal/operations.go:66-97 | In every reachable thread, behind every operation that required approval is a person's "approve" to an interaction with that call, journey and binding, by the command that opened its run |
| `JournalProgress.MessageIsAnswered` | internal/journal/sessions.go:77-155 | Whatever its past, a conversation at rest accepts every step that a new message takes, from admission to the answer, and is at rest again, with the shared definition |
| `JournalProgress.ApprovedIsSent` | internal/journal/operations.go:34-97 | A call that a person approves in time is sent: every step from the reply to the recorded outcome is accepted, under the definition the approval was asked under, and the approval is spent |
| `JournalTelling.LogTellsAll` | internal/journal/store.go:118-129 | In every reachable thread the events, read in order, tell exactly the runs and their states, the commands and their fates, the calls and their outcomes, and the answers of the runs completed by one |
| `JournalTelling.StepTells` | internal/journal/sessions.go:126-155 | Each transaction, successful or refused, appends the events that tell its changes, if an ending names no call or a completed one |
| `GuardedCall.FencedOut` | internal/journal/owners.go:82-103 | A transaction of an owner that fails the fence commits nothing |
| `JournalStore.ThreadStore.constructor` | internal/journal/commands.go:27-29 | A new thread is empty and satisfies the invariant |
| `JournalStore.ThreadStore.AppendEvent` | internal/journal/store.go:118-129 | The log is the old one with the event under the next sequence number |
| `JournalStore.ThreadStore.LockOwner` | internal/journal/owners.go:82-103 | Ok exactly for the running owner with its epoch, identity and an unexpired lease, Forbidden for another principal |
| `JournalStore.ThreadStore.Claim` | internal/journal/owners.go:21-80 | Commits exactly the claim transaction and keeps the invariant |
| `JournalStore.ThreadStore.Renew` | internal/journal/owners.go:107-118 | Commits exactly a new lease for the holder, nothing otherwise |
| `JournalStore.ThreadStore.InterruptExpired` | internal/journal/owners.go:161-190 | Interrupts exactly an expired live run that is not an unclaimed reply continuation |
| `JournalStore.ThreadStore.Reap` | internal/journal/owners.go:121-160 | One candidate, possibly stale: commits exactly the interruption and expiry due at the time of its transaction |
| `JournalStore.ThreadStore.Pending` | internal/journal/inbox.go:20-75 | Returns exactly the run's undecided commands, in order |
| `JournalStore.ThreadStore.Included` | internal/journal/inbox.go:79-100 | Marks all given commands included or, if one is not undecided for this run, none |
| `JournalStore.ThreadStore.DisposePending` | internal/journal/inbox.go:102-134 | Gives every undecided command of the run the reason, and reports each once, in order |
| `JournalStore.ThreadStore.AdmitInput` | internal/journal/commands.go:13-91 | Commits exactly the admission transaction; a refusal also rolls back the overdue work closed on the way |
| `JournalStore.ThreadStore.Accept` | internal/journal/commands.go:48-88 | The command joins the live run or opens its own, or is refused as busy or conflicting |
| `JournalStore.ThreadStore.Wait` | internal/journal/interactions.go:83-210 | Opens the interaction, with its checkpoint, stores the history and releases the run exactly if the proposal is valid, nothing is pending and the binding is the expected one |
| `JournalStore.ThreadStore.ExpireInteractions` | internal/journal/interactions.go:229-277 | Closes exactly the overdue interaction, fails its run and appends both events |
| `JournalStore.ThreadStore.Reply` | internal/journal/interactions.go:278-385 | Commits exactly the reply transaction; a late reply commits the expiry it found and fails |
| `JournalStore.ThreadStore.CheckReply` | internal/journal/interactions.go:115-145 | Accepts exactly a decision on the bound call, or acceptable answers without a decision |
| `JournalStore.ThreadStore.Continuation` | internal/journal/interactions.go:386-410 | Returns the answered interaction that this run continues, behind the fence, and nothing for a run that is no reply |
| `Questions.CheckQuestions` | internal/journal/interactions.go:96-113 | Accepts exactly one to three questions with distinct identifiers, each with two or three distinct, described options |
| `Questions.CheckAnswers` | internal/journal/interactions.go:122-144 | Accepts exactly as many answers as questions, one acceptable answer for each |
| `Questions.AnswersExactlyTheQuestions` | internal/journal/interactions.go:122-128 | An accepted reply answers exactly the questions asked |
| `Questions.OptionIsOffered` | internal/journal/interactions.go:126-142 | Beside a given custom text every accepted option is an offered one, exactly unless that text is white space; then every option is accepted, and some option is not offered |
| `Questions.AnswerContract` | internal/journal/interactions.go:126-142 | Without an option an answer is accepted exactly if its text says something and is not too long; without a text exactly if it names an offered option; with both never, unless the text is white space |
| `JournalHistory.HistoryStep` | internal/journal/interactions.go:202-264 | The stored history changes in three ways only: a wait writes its checkpoint, an expiry adds the result for its call, a pinned run that ends with a history writes it; only a wait adds an interaction |
| `JournalHistory.ClosedUnlessOwed` | internal/journal/sessions.go:126-130 | In every reachable conversation the stored history leaves open exactly the calls of the owed waits, one each, and is closed exactly if none is owed; a wait is owed from when it is stored until it expires, its own continuation waits again or answers, or any run ends with an error and delivers a history; an answer of another run, an interruption and an ending without a history change nothing |
| `JournalHistory.SettlesStep` | internal/journal/sessions.go:99-155 | Each transaction keeps this, and keeps every open wait and every live continuation owed with its checkpoint stored |
| `JournalHistory.Loads` | internal/journal/sessions.go:57-60 | A live run finds its own wait's checkpoint stored, or a history that leaves open the calls of other owed waits only |
| `JournalHistory.AfterRemains` | internal/journal/sessions.go:99-155 | Through any transactions of anyone, what a claimed run found stored stays stored as long as that run is running |
| `OpenHistory.AnsweredButOpen` | internal/runtime/interactions.go:234-237 | A lawful run of a new conversation, given transaction by transaction, that comes to rest after an answered run with a call still open in the stored history |
| `JournalHistory.OwedAtRest` | internal/journal/owners.go:161-190 | Between runs every owed wait was answered and its continuation has ended |
| `JournalHistory.ContinuationEnds` | internal/journal/sessions.go:99-155 | While a continuation lives its checkpoint stays stored; when it stops its call stays open exactly if it neither waited again nor ended with a history, so always after an interruption |
| `JournalStore.ThreadStore.Supersede` | internal/journal/interactions.go:429-437 | Marks a decided approval of this run superseded, accepts one already superseded, refuses any other |
| `JournalStore.ThreadStore.BeginAttempt` | internal/journal/operations.go:34-119 | Commits exactly the intent, or the superseded marker, or nothing, with the error the code returns |
| `JournalStore.ThreadStore.EndAttempt` | internal/journal/operations.go:120-146 | Settles the operation and the attempt that are in flight together, or neither |
| `JournalStore.ThreadStore.MarkOperationsUnknown` | internal/journal/operations.go:148-175 | Marks what the run has in flight unknown, with its event, and nothing else |
| `JournalStore.ThreadStore.Start` | internal/journal/sessions.go:10-76 | Pins and starts the run, refuses while anything is unresolved, and says what becomes of the shared pointer; returns the stored history |
| `JournalStore.ThreadStore.Finish` | internal/journal/sessions.go:77-155 | Ends the run with its events and, if it is pinned, the history it delivers; completion is refused while input is pending, other endings dispose of it |
| `JournalStore.ThreadStore.ResolveDefinition` | internal/journal/definitions.go:53-117 | Keeps, sets or moves the pin exactly as idleness and the served sets allow |
| `JournalStore.ThreadStore.RecordScope` | internal/journal/scope.go:27-49 | Writes version, endpoint and settings once; a second write must say the same |
| `JournalStore.ThreadStore.ActiveJourneys` | internal/journal/active.go:16-53 | Returns the stored order and exactly the pinned journeys, each once |
| `JournalStore.ThreadStore.SetActive` | internal/journal/active.go:58-80 | Replaces the order by a list of distinct non-empty IDs, or changes nothing |
| `Rollout.ThreadInSystem` | internal/journal/definitions.go:152-217 | What a system of many conversations and activations does to one thread is what that thread's own transactions do |
| `Rollout.ThreadSchedule` | internal/journal/owners.go:82-103 | In a lawful run of the system those transactions are a schedule of the thread: owners issued, clock not going back |
| `Rollout.EveryThreadGrows` | internal/journal/commands.go:26-32 | From a system without conversations, every conversation ever there grew from a new thread by its own transactions |
| `Rollout.SystemPinStable` | internal/journal/definitions.go:53-117 | Under any lawful interleaving with other conversations and activations, a conversation held by a wait or its live continuation keeps its definition digest |
| `Rollout.SystemLostForever` | internal/journal/owners.go:82-118 | Under any lawful interleaving, an issued owner that fails the fence never passes it again |
| `Rollout.SystemReachable` | internal/journal/definitions.go:152-217 | In every reachable system every thread satisfies the journal invariant |
| `Rollout.HeldPinIsReferenced` | internal/journal/definitions.go:23-33 | The digest of an open wait, or of its live continuation, is in the referenced set |
| `Rollout.MoveIsServed` | internal/journal/definitions.go:152-217 | Current moves only against the expected value, by a replica that serves the candidate, the old current and every referenced digest |
| `Rollout.ActivationContract` | internal/journal/definitions.go:152-217 | An activation is accepted exactly if its candidate is current already, or the caller serves it, the expected current set and every digest in use, and, without rollback, it was never activated; only that last failure is superseded |
| `Rollout.ReferencedContract` | internal/journal/definitions.go:18-33 | A digest is in use exactly if it is current or the pin of a conversation with an open interaction, a live continuation or an unresolved call |
| `Rollout.RolloutReaches` | internal/journal/definitions.go:53-117 | After current moved to d, every conversation that resolves its definition while free, on a replica that serves d, ends pinned to d, and only it changes |
| `Rollout.RolloutSpares` | internal/journal/definitions.go:53-117 | A pinned conversation that is not free keeps its digest, and needs it served |
| `Rollout.NeverCurrentTwice` | internal/journal/definitions.go:171-179 | Under any interleaving of forward activations of stored sets, with current created by activation, no digest becomes current twice nor after an earlier activation |
| `Rollout.MarkedNeverReturns` | internal/journal/definitions.go:171-179 | In any run without rollbacks, unstored candidates and starting runs included, current never moves to a set that has an activation time |
| `Rollout.ComesBackIffUnmarked` | internal/journal/definitions.go:171-179 | After current moved on from d, a forward activation of d is accepted exactly when d has no activation time |
| `Rollout.BootstrapRepeats` | internal/journal/sessions.go:36-48 | From the empty system: two sets stored, one conversation admitted, claimed and started, two forward moves, and the first set has become current twice; a lawful run without rollbacks, its owner issued by Claim |
| `ActivationCommand.ActivateSet` | internal/defstore/activate.go:50-120 | The bounded retry loop computes the report of the reference definition for every sequence of views |
| `ActivationCommand.ReportIsTruthful` | internal/defstore/activate.go:50-120 | The reported outcome holds at the deciding call; every earlier compare-and-set was turned away and wrote nothing; Activated made the candidate current, and marked it if stored; a refusal names what could not be loaded or follows five refused attempts |
| `ActivationCommand.ReportInSystem` | internal/defstore/activate.go:50-120 | With the candidate stored first and others taking any steps before each call: Activated means that its compare-and-set, as a step of the system, left the candidate current and marked; AlreadyCurrent and Superseded hold of the system read; every earlier compare-and-set left the system as it was |
| `ActivationCommand.SupersededIsWrongIffRaced` | internal/defstore/activate.go:78-90 | Superseded is reported while the candidate is current exactly when an attempt is reached whose first read does not find it current and whose second read finds it activated and current |
| `ActivationCommand.SupersededWhileCurrent` | internal/defstore/activate.go:78-90 | The race as concrete views |
| `ActivationCommand.ConcurrentRunsSucceed` | internal/defstore/activate.go:44-49 | Once the candidate is current to stay, at any moment up to the last compare-and-set, the command does not fail if what is referenced can be loaded |
| `ActivationCommand.UndisturbedCommand` | internal/defstore/activate.go:67-112 | When every call finds the same tables, the candidate is activated exactly if it is not current, not barred and what is in use can be loaded; each other outcome has its exact condition |
| `ActivationCommand.Store.Activate` | internal/journal/definitions.go:152-217 | The compare-and-set over the tables, row by row, commits exactly the activation function |
| `ActivationCommand.Store.Put` | internal/journal/definitions.go:259-280 | Stores files under a hexadecimal digest, refuses no files or an empty path, and keeps the first files stored |
| `EventLog.ReadIsConsecutive` | internal/journal/observe.go:118-137 | A read above a cursor is the consecutive run of numbers, each with its row |
| `EventLog.Observe` | internal/platform/platform.go:315-358 | For any growing logs and any cancellation, delivers the events above max(cursor, watermark) in order, once each, without a gap |
| `JournalTheorems.LogsGrow` | internal/journal/store.go:118-129 | The logs of one thread at any later and later moments of any run are growing logs, as an observer needs them |
| `EventLog.ReadsCompose` | internal/platform/platform.go:330-356 | Two successive reads are one read, whatever was appended between them |
| `GuardedCall.HeldThroughout` | internal/journal/owners.go:82-118 | An owner that still holds the thread after others worked on it finds operations, attempts, interactions, active order and its run's scope and digest unchanged |
| `GuardedCall.RetryAccepted` | internal/runtime/tool_policy.go:43-52 | While ownership holds, the second attempt that the retry rule allows is accepted by the journal |
| `GuardedCall.EndAccepted` | internal/journal/operations.go:120-146 | While ownership holds, the outcome of a recorded attempt is always accepted |
| `GuardedCall.SettledMeansResolved` | internal/journal/operations.go:59-65 | A call settled under the fence leaves nothing unresolved on the thread |
| `GuardedCall.AttemptCall` | internal/runtime/tool_policy.go:19-57 | One attempt sends only after its intent is on record; success, missing authorisation, rejection, a 403 and a transport failure each give their verdict and stored outcome, and exactly rejection and transport failure of a first read-only or idempotent call are repeated; a first send is of an operation that was not there |
| `GuardedCall.Guarded` | internal/runtime/tool_policy.go:14-62 | At most two sends, one if effectful, under one call ID and binding; each remote result gives its own verdict and stored outcome; the second send happens exactly after a rejection or a transport failure of a read-only or idempotent call; a nil error leaves nothing unresolved; after the first intent the only refusal is lost ownership |
| `History.CloseOpen` | internal/runtime/interactions.go:232-260 | For any history nothing stays unanswered; a history whose calls and results match so far becomes closed |
| `History.ResponseOpens` | internal/runtime/interactions.go:492-502 | A response with distinct call IDs, none of them open, opens exactly its calls besides those that were open |
| `History.ExpiryCloses` | internal/journal/interactions.go:247-264 | The result written on expiry closes its own call, and the checkpoint exactly if no other call was open |
| `History.LastIsLatest` | internal/runtime/history.go:60-80 | The call recorded for a result is the most recent earlier call of that ID |
| `TrimHistory.Group` | internal/runtime/history.go:46-80 | Units are exactly the maximal runs of turns bound by a call before and its result after; turns kept are exactly the latest and those with a protected call |
| `TrimHistory.MergeKeepsUnits` | internal/runtime/history.go:71-77 | Overlapping merges leave units contiguous |
| `TrimHistory.Trim` | internal/runtime/history.go:37-119 | Drops the oldest droppable units up to the first boundary where the estimate fits, or all of them, and reports exact counts; otherwise a copy and no truncation |
| `TrimHistory.OneAnswer` | internal/runtime/history.go:82-119 | The result is determined by the history, the budget and the protected calls |
| `TrimHistory.KeptStays` | internal/runtime/history.go:57-70 | The latest turn and every turn with a protected call survive any cut |
| `TrimHistory.BoundContract` | internal/runtime/history.go:60-77 | Neighbouring turns stay together exactly if a result after them answers a call before them, the most recent of its ID |
| `TrimHistory.CutContract` | internal/runtime/history.go:82-119 | A message goes exactly if its turn is before the cut and no turn tied to it is the latest or holds a protected call |
| `TrimHistory.NeverSplit` | internal/runtime/history.go:71-77 | At every boundary a result and its most recent earlier call are dropped together or kept together |
| `TrimHistory.TrimKeepsClosed` | internal/runtime/history.go:37-119 | A closed history cut at any boundary is closed |
| `TrimHistory.TrimKeepsOpen` | internal/runtime/history.go:37-119 | A history cut at any boundary leaves open exactly the open calls whose messages stay |
| `TrimHistory.InputsShown` | internal/runtime/interactions.go:353-362 | The request ends with the inputs from some point on; input j is missing exactly if it is not the latest and no cut up to its own turn makes the history fit |
| `TrimHistory.InputsInRequest` | internal/runtime/interactions.go:353-366 | Some input is missing exactly if there are two at least, the history is over a positive budget, and no cut before the inputs makes it fit |
| `TrimHistory.InputCanBeDropped` | internal/runtime/interactions.go:354-364 | For any way of estimating size, two or more inputs that are over a positive budget after an empty history meet the condition for leaving one out |
| `Dispatch.PlanCalls` | internal/runtime/dispatch.go:171-196 | One step per call in order; when one call activates, every other is set aside; kinds exactly as named |
| `Dispatch.OwningJourney` | internal/runtime/dispatch.go:157-164 | The most recently used active journey with the alias, or none |
| `Harness.Conversation.RunHarness` | internal/runtime/interactions.go:227-610 | From any history that leaves open the calls of earlier waits: requests show no open call but those; an answer leaves open exactly those, and an error nothing; a wait adds exactly its own call, parks that call and that history in an open interaction and has written the active order; answers and waits are reached only with nothing unresolved on the thread; an answer is the text of the last response, and the rounds run out after sixteen requests |
| `Harness.Conversation.Invoke` | internal/runtime/interactions.go:348-388 | The history gains one message per inbox text and the response; exactly the inbox commands become included; the request shows no open call but those the run found, and ends with the inbox texts but for those missing, which are some exactly under the stated condition; a failure restores the history |
| `Harness.Conversation.CarryOut` | internal/runtime/interactions.go:510-607 | A round ends with the calls open that the run found, or waits with exactly one more, and with memory and journal agreeing on the active order |
| `Harness.Conversation.PlanStep` | internal/runtime/interactions.go:511-603 | Calls that are inactive or set aside never reach the store; an alias call is sent once under its own binding, or waits; each other kind sends nothing and answers its call; it waits for a person exactly for a question or a tool that requires approval |
| `Harness.Conversation.Ask` | internal/runtime/interactions.go:559-592 | Siblings are deferred, and of the response's calls the waiting one alone stays open; if steering came first it is closed too |
| `Harness.Conversation.Settle` | internal/runtime/interactions.go:413-423 | A result is added, a business rejection spends one repair, and exactly a rejection with none left fails |
| `Harness.Conversation.Resume` | internal/runtime/interactions.go:424-488 | The approved call is dispatched under its own binding, superseded or asked about again; the journal never finds it superseded at dispatch, and every wait is entered with the active order written |
| `Harness.Conversation.CallTool` | internal/runtime/interactions.go:593-602 | A call that returns without error, or whose approval was superseded, leaves nothing unresolved and the stored order as it was |
| `Harness.Conversation.ActivateJourney` | internal/runtime/interactions.go:156-194 | The order rebuilt from the journal is the one in memory: activation acts on it as if applied directly, under the pins of the thread, and no pinned journey leaves |
| `Harness.Conversation.Flush` | internal/runtime/interactions.go:55-65 | On success the stored order is the one in memory |
| `Harness.Conversation.Begin` | internal/runtime/interactions.go:311-343 | A continuation starts from the checkpoint in its interaction and ends with its own call closed or a new wait on the same call; an approved call is sent exactly if it is still offered under its binding, and nothing is sent for a denial or an answer |
| `Harness.Conversation.Prepare` | internal/runtime/run.go:347-405 | The loop starts with the stored journeys that are available, cut to the limit under the pins of the thread, the target on top, and memory equal to the store |
| `Harness.OpeningKeepsPinned` | internal/runtime/run.go:363-390 | A stored, available and pinned journey is never missing when a run opens |
| `Harness.OpensWithAll` | internal/runtime/run.go:363-390 | When the limit allows, a run opens with all stored journeys that are available, in order, an available stored target on top |
| `Harness.ParkedStays` | internal/journal/interactions.go:386-410 | What a wait parks stays as written through any transactions, with exactly its own call open besides those its run found, as its continuation needs it |
| `Harness.StartsLoadable` | internal/journal/sessions.go:57-60 | After any runs, what Start returns is what the loop needs: it leaves open the calls of the owed waits that the run does not continue, and for a continuation its own call too |
| `Harness.Conversation.Converse` | internal/runtime/run.go:347-405 | The contract of the loop holds for the whole run |
| `Harness.Conversation.Iterate` | internal/platform/platform.go:257-299 | An answer or an error is committed with its history; when input beats the final commit, the next iteration starts with the answered history and nothing unresolved |
| `Harness.Conversation.Execute` | internal/platform/platform.go:257-299 | For any number of iterations that lose the final commit: each starts with what the run found open and nothing unresolved, and the run ends as waiting, committed with its history, or without a commit |
| `Journeys.ActivateNew` | internal/journeys/journeys.go:80-97 | Refused exactly when at least limit active journeys are pinned; otherwise size min(old + 1, limit), exactly the oldest unpinned evicted, no pinned one |
| `Journeys.ActivateAgain` | internal/journeys/journeys.go:84-87 | An active journey only moves to the end, even above the limit |
| `Journeys.FitResult` | internal/journeys/journeys.go:99-106 | Exactly the oldest unpinned go, until the limit or the pinned ones are reached |
| `Journeys.EvictsOldest` | internal/journeys/journeys.go:110-121 | Victims come before every unpinned journey that stays |
| `Journeys.OrderedByLastUse` | internal/journeys/journeys.go:49-121 | Over any sequence of operations the list has no duplicate and is ordered by last use |
| `Journeys.ActiveSet.constructor` | internal/journeys/journeys.go:27-36 | Keeps the first occurrence of each non-empty ID |
| `Journeys.ActiveSet.Remove` | internal/journeys/journeys.go:50-62 | Removes exactly the given journeys and returns those that were there, in order |
| `Journeys.ActiveSet.Touch` | internal/journeys/journeys.go:65-72 | Moves the journey to the end; says whether that changed anything |
| `Journeys.ActiveSet.FindVictims` | internal/journeys/journeys.go:110-121 | The oldest unpinned journeys over the limit and whether they suffice |
| `Journeys.ActiveSet.Activate` | internal/journeys/journeys.go:80-97 | The new order, the evicted journeys and the error of the specification |
| `Journeys.ActiveSet.Fit` | internal/journeys/journeys.go:99-106 | The new order and the evicted journeys of the specification |
| `Versions.TotalPreorder` | internal/definitions/selectors.go:58-72 | Over all strings comparison is reflexive, mirrored and transitive |
| `Versions.FirstDifferenceDecides` | internal/definitions/selectors.go:55-92 | One version comes before another exactly if its segment does at the first one that differs: a missing segment before any, a smaller integer, a number before text, text by its first differing character or as a proper prefix |
| `Versions.PrefixFirst` | internal/definitions/selectors.go:55-72 | A version comes before all its refinements |
| `Versions.ContainsByOrder` | internal/definitions/selectors.go:45-53 | A range holds exactly what does not come before its minimum and comes before its maximum |
| `Versions.NumericByValue` | internal/definitions/selectors.go:74-92 | All-digit segments compare as the integers they denote, whatever their leading zeros and length |
| `Versions.EqualVersions` | internal/definitions/selectors.go:58-92 | Versions compare equal exactly when their segments are the same up to leading zeros |
| `Versions.CompareVersions` | internal/definitions/selectors.go:58-72 | The loop computes the lexicographic order of the segments |
| `Versions.IsNumeric` | internal/definitions/selectors.go:94-104 | True exactly for non-empty strings of digits |
| `Versions.ContainsConvex` | internal/definitions/selectors.go:45-53 | A range that contains two versions contains all between them |
| `Versions.AcceptedContainsMinimum` | internal/definitions/compile.go:300-318 | With valid bounds and a minimum, a range is accepted exactly when it contains its minimum, and exactly when it contains anything |
| `Resolve.ResolveJourney` | internal/catalog/resolve.go:87-240 | The reasons are exactly those that hold, each once; without any the tools are exactly those selected, in order of alias |
| `Resolve.TryOps` | internal/catalog/resolve.go:138-160 | The first alternative with a candidate decides: chosen if it has one, ambiguous if more; otherwise missing |
| `Resolve.FinalIs` | internal/catalog/resolve.go:115-175 | Tags add tools and approvals and never change what an op selector said; the last op selector decides alias and class |
| `Resolve.CheckAliases` | internal/catalog/resolve.go:190-217 | Reports exactly the invalid aliases, the reserved ones and those shared by two keys |
| `Resolve.CheckKeys` | internal/catalog/resolve.go:177-189 | Reports exactly the keys with more than one selected tool |
| `Catalog.OrderIndependent` | internal/catalog/resolve.go:84-87 | Permuting the advertised tools changes neither availability, nor the set of reasons, nor the resolved list |
| `Catalog.AvailableIsSound` | internal/catalog/resolve.go:177-240 | An available journey has one tool per key, non-empty and not denied, valid, unreserved and unique aliases, and at most max_tools tools |
| `Catalog.AvailableExactly` | internal/catalog/resolve.go:87-240 | A journey is available exactly if its range holds the version, every selector by key finds one tool for its first key on offer, and what is picked has valid, unshared aliases, one tool a key, and is not too much |
| `Catalog.OffersExactly` | internal/catalog/resolve.go:115-240 | An available journey offers exactly the picked tools, with the class and alias of the last selector by key, effectful unless said, and approval for all that is not read-only or asked for |
| `Catalog.DerivedAliasValid` | internal/definitions/selectors.go:109-138 | A derived alias is valid exactly when the key has 1 to 64 bytes and does not start with a digit |
| `Policies.CheckPolicies` | internal/catalog/resolve.go:267-319 | Changes exactly the conflicting resolutions, which lose their tools and list their conflicting names once, in order |
| `Policies.RemovesOnlyConflicting` | internal/catalog/resolve.go:267-319 | A resolution changes exactly when it conflicts, and stays available exactly when it was and does not |
| `Policies.ConsistentAfterwards` | internal/catalog/resolve.go:260-319 | Afterwards no key or alias has two policies, exactly if before it the keyless or aliasless tools of resolutions without a reportable conflict agreed |
| `Policies.NamelessEscape` | internal/catalog/resolve.go:295-307 | Two tools with an empty key and different policies both pass |
| `Policies.Idempotent` | internal/catalog/resolve.go:267-319 | Checking the result again changes nothing |
| `Compile.CompileTools` | internal/definitions/compile.go:320-415 | Accepts exactly entries with one of op and tags, a known class, an alias where several alternatives need one, every key once and none denied, distinct valid unreserved aliases, and a proper deny list; derives the missing aliases |
| `Compile.JourneyPolicies` | internal/definitions/compile.go:507-530 | The strictest class per key, and approval if any selector asks for it or the key is not read-only |
| `Compile.PolicyContract` | internal/definitions/compile.go:495-530 | Class by class: effectful if one selector says so or says nothing, read-only only if all do; approval unless all say read-only and none asks |
| `Compile.SelectedContract` | internal/definitions/compile.go:320-415 | A compiled entry has the keys or tags, the class by its name, the approval, and the given or derived alias of the raw one |
| `Compile.CheckAliasOps` | internal/definitions/compile.go:533-552 | Accepts exactly sets in which an alias names one encoded list of operations |
| `Compile.CheckPolicyConflicts` | internal/definitions/compile.go:559-591 | Accepts exactly sets in which a key has one effective policy |
| `Compile.EncodeInjective` | internal/definitions/compile.go:543 | The NUL-joined encoding tells NUL-free lists apart |
| `Compile.EncodeCollides` | internal/definitions/compile.go:543 | With a NUL in a key two lists encode alike |
| `Compile.StaticImpliesDynamic` | internal/definitions/compile.go:555-591 | For a compiled set of op selectors with NUL-free keys, the check over resolutions changes nothing, whatever the endpoint advertises |
| `Compile.ResolvedConsistent` | internal/catalog/resolve.go:260-319 | For any set, tag selectors included, and any snapshot: after the check no operation key and no alias has two policies among the available journeys |

## Left out

- JournalSteps.StepKeeps: one clock reading per transaction; a transaction that reads the database clock twice sees one value here.
- Harness.Conversation.Execute: looks at any given number of iterations of the unbounded loop; a cancelled context ends the run without a commit, as lost ownership does here.
- Harness.Conversation.RunHarness: assumes that the calls of one model response have distinct IDs, none of which is still open from before the run; what a result message contains is not modelled.
- Harness.Conversation.Invoke: usage records, request provenance and prompt composition are a fenced call without effect here; a response is calls or one text, as modelRun builds it (internal/runtime/run.go:507-523).
- JournalStore.ThreadStore.Finish: failure reasons and limit details of the terminal event are not modelled.
- JournalTelling.LogTellsAll: assumes that a run that ends names no call, as in the runtime (internal/platform/platform.go:286 passes fields that nothing sets), or one that is on record as completed.
- Resolve.ResolveJourney: the order of the reported reasons is not modelled, only their set.
- Compile.CompileTools: works on decoded entries; YAML decoding and error texts are not modelled.
- Compile.CheckAliasOps: journeys are visited in the given order; the sorted order in the source only selects the error text.
- Identifiers taken by another conversation: a key violation across threads is a transaction that fails and changes nothing.
- Catalog snapshots, conversation catalog pins, usage totals, settings and tenant directory: easy members that no property here needs.
- Binding's load-and-retry loop and the supervisor's claim and renewal timers: single-branch facts around modelled transactions.
- SQL, connection pooling, advisory locks, HTTP and AG-UI streaming, identity and tokens, MCP sessions, model providers, skill packaging, YAML and SHA-256: inputs and outcomes of these are parameters.
