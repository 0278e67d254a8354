/** What each transaction can touch: the fence around a running run, the operations and
    attempts, the approval markers, and the continuations nobody has claimed yet. */
module JournalEffects {
  import opened Basics
  import opened EventLog
  import opened Journal
  import History
  import opened JournalInvariant

  /** Without a claim: whoever runs was running, under the same owner, and a lease that
      has run out is not extended. */
  ghost predicate Fenced(a: Run, now: int, b: Run) {
    b.state.Running? ==>
      a.state.Running? && b.owner == a.owner && b.epoch == a.epoch && (a.lease <= now ==> b.lease == a.lease)
  }

  ghost predicate RunsFenced(t: Thread, now: int, u: Thread) {
    && u.epoch == t.epoch
    && (forall r :: r in t.runs ==> r in u.runs && Fenced(t.runs[r], now, u.runs[r]))
    && (forall r :: r in u.runs && r !in t.runs ==> !u.runs[r].state.Running?)
  }

  /** The run of operation c runs now. */
  predicate InRun(t: Thread, c: Id)
    requires c in t.operations
  {
    t.operations[c].run in t.runs && t.runs[t.operations[c].run].state.Running?
  }

  /** No operation, attempt or dispatched approval appears, and what a stopped run left
      unresolved stays unresolved. */
  ghost predicate CallsUntouched(t: Thread, u: Thread) {
    && u.operations.Keys == t.operations.Keys && u.attempts.Keys == t.attempts.Keys
    && (forall c :: c in t.operations ==>
          u.operations[c].run == t.operations[c].run
          && (Unresolved(t.operations[c].outcome) && !InRun(t, c) ==> Unresolved(u.operations[c].outcome)))
    && (forall i :: i in u.interactions && u.interactions[i].marker.Dispatched? ==>
          i in t.interactions && t.interactions[i].marker.Dispatched?)
  }

  /** A pending reply continuation stays pending and stays a continuation. */
  ghost predicate ContinuationsKept(t: Thread, u: Thread) {
    forall r :: IsContinuation(t, r) ==>
      && IsContinuation(u, r)
      && (r in t.runs && t.runs[r].state.Pending? && t.runs[r].epoch == 0 ==>
            r in u.runs && u.runs[r].state.Pending? && u.runs[r].epoch == 0)
  }

  /** What a transaction other than a claim or the start of an attempt may do. */
  ghost predicate Quiet(t: Thread, now: int, u: Thread) {
    RunsFenced(t, now, u) && CallsUntouched(t, u) && ContinuationsKept(t, u)
  }

  lemma QuietReflexive(t: Thread, now: int)
    ensures Quiet(t, now, t)
  {
  }

  lemma QuietTransitive(t: Thread, now: int, u: Thread, v: Thread)
    requires Quiet(t, now, u) && Quiet(u, now, v)
    ensures Quiet(t, now, v)
  {
  }

  lemma SameInteractions(t: Thread, u: Thread)
    requires u.interactions == t.interactions
    ensures forall r :: IsContinuation(t, r) ==> IsContinuation(u, r)
  {
  }

  lemma MarkEffect(t: Thread, run: Id)
    ensures var u := MarkUnknown(t, run);
      && u.operations.Keys == t.operations.Keys && u.attempts.Keys == t.attempts.Keys
          && u.interactions == t.interactions
      && u.runs == t.runs && u.pin == t.pin && u.epoch == t.epoch
      && (forall c :: c in t.operations ==>
          u.operations[c] == t.operations[c] || u.operations[c] == t.operations[c].(outcome := Unknown))
  {
    hide AppendAll;
  }

  /** A run that is no unclaimed continuation stops; its operation in flight is marked. */
  lemma StopQuiet(t: Thread, now: int, u: Thread, run: Id)
    requires run in t.runs && run in u.runs && u.runs == t.runs[run := u.runs[run]] && !u.runs[run].state.Running?
    requires !(t.runs[run].state.Pending? && t.runs[run].epoch == 0 && IsContinuation(t, run))
    requires u.interactions == t.interactions && u.epoch == t.epoch
    requires u.operations.Keys == t.operations.Keys && u.attempts.Keys == t.attempts.Keys
    requires forall c ::
      c in t.operations ==>
        u.operations[c] == t.operations[c] || u.operations[c] == t.operations[c].(outcome := Unknown)
    ensures Quiet(t, now, u)
  {
    SameInteractions(t, u);
  }

  lemma InterruptQuiet(t: Thread, now: int, run: Id)
    requires run in t.runs && Lost(t, now, run)
    ensures Quiet(t, now, Interrupt(t, run)) && Interrupt(t, run).pin == t.pin
  {
    hide AppendAll, DisposeRows, DisposeEvents, MarkUnknown, Quiet;
    MarkEffect(t.(runs := t.runs[run := t.runs[run].(state := Interrupted)]), run);
    StopQuiet(t, now, Interrupt(t, run), run);
  }

  lemma LapseQuiet(t: Thread, now: int, i: Id)
    requires i in t.interactions && t.interactions[i].state.Open?
    ensures Quiet(t, now, Lapse(t, i)) && Lapse(t, i).pin == t.pin
  {
    hide AppendAll;
    var u := Lapse(t, i);
    forall r | IsContinuation(t, r) ensures IsContinuation(u, r) {
      var j :| j in t.interactions && t.interactions[j].state.Answered? && t.interactions[j].continuation == r;
      assert u.interactions[j] == t.interactions[j];
    }
  }

  lemma ReapQuiet(t: Thread, now: int, candidate: Id)
    ensures Quiet(t, now, Reap(t, now, candidate)) && Reap(t, now, candidate).pin == t.pin
  {
    hide AppendAll, Quiet, Interrupt, Lapse;
    QuietReflexive(t, now);
    var u := InterruptExpired(t, now, candidate);
    var run := LiveCandidate(t, candidate);
    if run != "" && Lost(t, now, run) {
      InterruptQuiet(t, now, run);
    }
    QuietReflexive(u, now);
    var i := Overdue(u.interactions, now);
    if i != "" {
      LapseQuiet(u, now, i);
    }
    QuietTransitive(t, now, u, Reap(t, now, candidate));
  }

  lemma AnswerQuiet(t: Thread, now: int, c: Command)
    requires c.interactionID in t.interactions && t.interactions[c.interactionID].state.Open? && c.runID !in t.runs
    ensures var u := Answer(t, now, c, t.interactions[c.interactionID]); Quiet(t, now, u) && u.pin == t.pin
  {
    hide AppendAll;
    var u := Answer(t, now, c, t.interactions[c.interactionID]);
    forall r | IsContinuation(t, r) ensures IsContinuation(u, r) {
      var j :| j in t.interactions && t.interactions[j].state.Answered? && t.interactions[j].continuation == r;
      assert u.interactions[j] == t.interactions[j];
    }
  }

  lemma AdmitQuiet(t: Thread, now: int, c: Command)
    ensures Quiet(t, now, Admit(t, now, c).thread) && Admit(t, now, c).thread.pin == t.pin
  {
    hide AppendAll, Quiet, InterruptExpired, Lapse, Answer;
    QuietReflexive(t, now);
    if c.interactionID != "" {
      if c.interactionID in t.interactions && t.interactions[c.interactionID].state.Open? {
        if c.runID !in t.runs {
          AnswerQuiet(t, now, c);
        }
      }
      var i := Overdue(t.interactions, now);
      if i != "" {
        LapseQuiet(t, now, i);
      }
    } else {
      ReapQuiet(t, now, "");
      var u := ExpireInteractions(InterruptExpired(t, now, ""), now);
      var v := AdmitFresh(t, u, now, c);
      if v.err == Ok {
        FreshQuiet(t, u, now, c);
        QuietTransitive(t, now, u, v.thread);
      }
    }
  }

  lemma FreshQuiet(t: Thread, u: Thread, now: int, c: Command)
    requires AdmitFresh(t, u, now, c).err == Ok
    ensures var v := AdmitFresh(t, u, now, c).thread; Quiet(u, now, v) && v.pin == u.pin
  {
    hide AppendAll;
    SameInteractions(u, AdmitFresh(t, u, now, c).thread);
  }

  lemma {:induction false} IncludeQuiet(t: Thread, now: int, run: Id, communications: seq<Id>)
    ensures var r := IncludeAll(t, run, communications);
      r.Some? ==> Quiet(t, now, r.value) && r.value.pin == t.pin && r.value.operations == t.operations
                  && r.value.interactions == t.interactions && r.value.runs == t.runs && r.value.attempts == t.attempts
                      && r.value.epoch == t.epoch
    decreases |communications|
  {
    hide AppendAll, Quiet;
    QuietReflexive(t, now);
    if communications != [] {
      var next := IncludeOne(t, run, communications[0]);
      if next.Some? {
        IncludeQuiet(next.value, now, run, communications[1..]);
        var last := IncludeAll(next.value, run, communications[1..]);
        if last.Some? {
          RowsOnlyQuiet(t, now, last.value);
        }
      }
    }
  }

  lemma RowsOnlyQuiet(t: Thread, now: int, u: Thread)
    requires u.runs == t.runs && u.interactions == t.interactions && u.operations == t.operations
      && u.attempts == t.attempts && u.epoch == t.epoch
    ensures Quiet(t, now, u)
  {
  }

  lemma RunOnlyQuiet(t: Thread, now: int, u: Thread)
    requires u.interactions == t.interactions && u.operations == t.operations && u.attempts == t.attempts
      && u.epoch == t.epoch
    requires u.runs.Keys == t.runs.Keys
    requires forall r ::
      r in t.runs ==> u.runs[r] == t.runs[r] || (t.runs[r].state.Running? && Fenced(t.runs[r], now, u.runs[r]))
    ensures Quiet(t, now, u)
  {
    SameInteractions(t, u);
  }

  lemma WaitQuiet(t: Thread, now: int, o: Owner, p: Proposal)
    ensures var u := Wait(t, now, o, p).thread; Quiet(t, now, u) && u.pin == t.pin
  {
    hide AppendAll, BindCall, Expected, HasPending, WellAsked, Quiet;
    QuietReflexive(t, now);
    var u := Wait(t, now, o, p).thread;
    if u != t {
      ReleaseQuiet(t, now, u, o.Run(), p.id);
    }
  }

  /** A running run is released and a new open interaction appears. */
  lemma ReleaseQuiet(t: Thread, now: int, u: Thread, run: Id, i: Id)
    requires run in t.runs && t.runs[run].state.Running? && run in u.runs && u.runs == t.runs[run := u.runs[run]]
    requires !u.runs[run].state.Running? && i !in t.interactions && i in u.interactions
    requires u.interactions == t.interactions[i := u.interactions[i]] && u.interactions[i].state.Open?
      && !u.interactions[i].marker.Dispatched?
    requires u.operations == t.operations && u.attempts == t.attempts && u.epoch == t.epoch
    ensures Quiet(t, now, u)
  {
    forall r | IsContinuation(t, r) ensures IsContinuation(u, r) {
      var j :| j in t.interactions && t.interactions[j].state.Answered? && t.interactions[j].continuation == r;
      assert u.interactions[j] == t.interactions[j];
    }
  }

  lemma SupersedeQuiet(t: Thread, now: int, run: Id, i: Id)
    ensures var u := SupersedeMark(t, run, i).thread; Quiet(t, now, u) && u.pin == t.pin
  {
    hide AppendAll;
    var u := SupersedeMark(t, run, i).thread;
    forall r | IsContinuation(t, r) ensures IsContinuation(u, r) {
      var j :| j in t.interactions && t.interactions[j].state.Answered? && t.interactions[j].continuation == r;
      assert u.interactions[j].state.Answered? && u.interactions[j].continuation == r;
    }
  }

  lemma FinishQuiet(
      t: Thread, now: int, o: Owner, state: RunState, history: Option<seq<History.Message>>,
      answer: string, callID: Id, tool: Id)
    ensures var u := Finish(t, now, o, state, history, answer, callID, tool).thread; Quiet(t, now, u) && u.pin == t.pin
  {
    hide AppendAll, DisposeRows, DisposeEvents, MarkUnknown, Quiet;
    QuietReflexive(t, now);
    MarkEffect(t, o.Run());
    var r := Finish(t, now, o, state, history, answer, callID, tool);
    if r.err == Ok {
      StopQuiet(t, now, r.thread, o.Run());
    }
  }

  lemma EndQuiet(t: Thread, now: int, o: Owner, callID: Id, name: Id, attempt: int, outcome: Outcome)
    ensures var u := EndAttempt(t, now, o, callID, name, attempt, outcome).thread; Quiet(t, now, u) && u.pin == t.pin
  {
    hide AppendAll;
    SameInteractions(t, EndAttempt(t, now, o, callID, name, attempt, outcome).thread);
  }

  lemma RenewQuiet(t: Thread, now: int, o: Owner, duration: int)
    ensures Quiet(t, now, Renew(t, now, o, duration).thread) && Renew(t, now, o, duration).thread.pin == t.pin
  {
    RunOnlyQuiet(t, now, Renew(t, now, o, duration).thread);
  }

  lemma ScopeQuiet(t: Thread, now: int, o: Owner, scope: Scope)
    ensures Quiet(t, now, RecordScope(t, now, o, scope).thread) && RecordScope(t, now, o, scope).thread.pin == t.pin
  {
    RunOnlyQuiet(t, now, RecordScope(t, now, o, scope).thread);
  }

  lemma StartQuiet(t: Thread, now: int, o: Owner, journey: Id, digest: Digest, current: Option<Digest>)
    ensures Quiet(t, now, Start(t, now, o, journey, digest, current).thread)
  {
    RunOnlyQuiet(t, now, Start(t, now, o, journey, digest, current).thread);
  }

  lemma ResolveQuiet(t: Thread, now: int, o: Owner, current: Option<Digest>, served: set<Digest>)
    ensures Quiet(t, now, ResolveDefinition(t, now, o, current, served).thread)
  {
    hide AppendAll;
    RowsOnlyQuiet(t, now, ResolveDefinition(t, now, o, current, served).thread);
  }

  lemma NoteQuiet(t: Thread, now: int, o: Owner, ids: seq<Id>)
    ensures Quiet(t, now, Note(t, now, o).thread) && Note(t, now, o).thread.pin == t.pin
    ensures Quiet(t, now, SetActive(t, now, o, ids).thread) && SetActive(t, now, o, ids).thread.pin == t.pin
  {
    hide AppendAll;
    RowsOnlyQuiet(t, now, Note(t, now, o).thread);
    RowsOnlyQuiet(t, now, SetActive(t, now, o, ids).thread);
  }

  lemma IncludedQuiet(t: Thread, now: int, o: Owner, communications: seq<Id>)
    ensures Quiet(t, now, Included(t, now, o, communications).thread)
      && Included(t, now, o, communications).thread.pin == t.pin
  {
    hide Quiet;
    QuietReflexive(t, now);
    IncludeQuiet(t, now, o.Run(), communications);
  }

  lemma OwnedSupersedeQuiet(t: Thread, now: int, o: Owner, i: Id)
    ensures Quiet(t, now, Supersede(t, now, o, i).thread) && Supersede(t, now, o, i).thread.pin == t.pin
  {
    hide Quiet;
    QuietReflexive(t, now);
    SupersedeQuiet(t, now, o.Run(), i);
  }

  /** Every transaction but a claim and the start of an attempt is quiet; only starting and
      resolving may pin. */
  lemma StepQuiet(t: Thread, now: int, current: Option<Digest>, s: Step)
    requires !s.StepClaim? && !s.StepBegin?
    ensures Quiet(t, now, Apply(t, now, current, s).thread)
    ensures !s.StepStart? && !s.StepResolve? ==> Apply(t, now, current, s).thread.pin == t.pin
  {
    hide Quiet, Admit, Reap, Included, Wait, Supersede, EndAttempt, Finish, Renew, Start, ResolveDefinition;
    hide RecordScope, SetActive, Note, Claim, BeginAttempt;
    match s {
      case StepAdmit(c) => AdmitQuiet(t, now, c);
      case StepReap(candidate) => ReapQuiet(t, now, candidate);
      case StepIncluded(o, communications) => IncludedQuiet(t, now, o, communications);
      case StepWait(o, p) => WaitQuiet(t, now, o, p);
      case StepSupersede(o, i) => OwnedSupersedeQuiet(t, now, o, i);
      case StepEnd(o, callID, name, attempt, outcome) => EndQuiet(t, now, o, callID, name, attempt, outcome);
      case StepFinish(o, state, history, answer, callID, tool) =>
        FinishQuiet(t, now, o, state, history, answer, callID, tool);
      case StepRenew(o, duration) => RenewQuiet(t, now, o, duration);
      case StepStart(o, journey, digest) => StartQuiet(t, now, o, journey, digest, current);
      case StepResolve(o, served) => ResolveQuiet(t, now, o, current, served);
      case StepScope(o, scope) => ScopeQuiet(t, now, o, scope);
      case StepActive(o, ids) => NoteQuiet(t, now, o, ids);
      case StepNote(o) => NoteQuiet(t, now, o, []);
    }
  }

  /** A claim touches one pending run and takes the next epoch. */
  lemma ClaimEffect(t: Thread, now: int, c: Command, id: Id, duration: int)
    ensures var r := Claim(t, now, c, id, duration);
      && CallsUntouched(t, r.thread) && r.thread.pin == t.pin && r.thread.interactions == t.interactions
      && (r.err != Ok ==> r.thread == t)
      && (r.err == Ok ==>
            && c.runID in t.runs && t.runs[c.runID].state.Pending? && r.thread.epoch == t.epoch + 1
            && r.thread.runs == t.runs[c.runID := r.thread.runs[c.runID]]
            && r.thread.runs[c.runID].state.Running? && r.thread.runs[c.runID].epoch == t.epoch + 1
            && r.thread.runs[c.runID].owner == id && r.thread.runs[c.runID].lease > now)
  {
    hide AppendAll;
  }

  /** Nothing was dispatched: at most the approval was superseded. */
  ghost predicate NothingBegun(t: Thread, u: Thread) {
    u.operations == t.operations && u.attempts == t.attempts && CallsUntouched(t, u)
  }

  /** One operation was created; if it needs an approval, one decided approval was spent on it. */
  ghost predicate CallBegun(t: Thread, u: Thread, op: Call, approval: Id) {
    && op.callID !in t.operations && u.operations.Keys == t.operations.Keys + {op.callID}
    && u.operations[op.callID].requiresApproval == op.requiresApproval
    && (if op.requiresApproval
        then approval in t.interactions && t.interactions[approval].marker.Decided?
            && t.interactions[approval].callID == op.callID
             && u.interactions == t.interactions[approval := t.interactions[approval].(marker := Dispatched)]
        else u.interactions == t.interactions)
  }

  /** A settled or unknown operation is in flight again. */
  ghost predicate CallRepeated(t: Thread, u: Thread, op: Call) {
    && op.callID in t.operations && u.operations.Keys == t.operations.Keys && u.interactions == t.interactions
    && !t.operations[op.callID].policy.Effectful? && !t.operations[op.callID].outcome.Dispatching?
  }

  lemma FirstEffect(t: Thread, now: int, run: Id, op: Call, approval: Id)
    requires run in t.runs
    ensures var r := FirstAttempt(t, now, run, op, approval);
      && r.thread.runs == t.runs && r.thread.pin == t.pin && r.thread.epoch == t.epoch && ContinuationsKept(t, r.thread)
      && (if r.err == Ok then CallBegun(t, r.thread, op, approval) else NothingBegun(t, r.thread))
  {
    hide AppendAll, IsContinuation, ContinuationsKept;
    FirstKeepsContinuations(t, now, run, op, approval);
  }

  lemma FirstKeepsContinuations(t: Thread, now: int, run: Id, op: Call, approval: Id)
    requires run in t.runs
    ensures ContinuationsKept(t, FirstAttempt(t, now, run, op, approval).thread)
  {
    hide AppendAll;
    var u := FirstAttempt(t, now, run, op, approval).thread;
    forall r | IsContinuation(t, r) ensures IsContinuation(u, r) {
      var j :| j in t.interactions && t.interactions[j].state.Answered? && t.interactions[j].continuation == r;
      assert u.interactions[j].state.Answered? && u.interactions[j].continuation == r;
    }
  }

  lemma SecondEffect(t: Thread, run: Id, op: Call)
    ensures var r := SecondAttempt(t, run, op);
      && r.thread.runs == t.runs && r.thread.pin == t.pin && r.thread.epoch == t.epoch && ContinuationsKept(t, r.thread)
      && (if r.err == Ok then CallRepeated(t, r.thread, op) else NothingBegun(t, r.thread))
  {
    hide AppendAll;
    SameInteractions(t, SecondAttempt(t, run, op).thread);
  }

  /** The start of an attempt leaves runs and pin alone.  An operation that needs an approval
      appears only together with its approval's move from decided to dispatched. */
  lemma BeginEffect(t: Thread, now: int, o: Owner, op: Call, attempt: int, approval: Id)
    ensures var r := BeginAttempt(t, now, o, op, attempt, approval);
      && r.thread.runs == t.runs && r.thread.pin == t.pin && r.thread.epoch == t.epoch && ContinuationsKept(t, r.thread)
      && (r.err != Ok ==> NothingBegun(t, r.thread))
      && (r.err == Ok ==> CallBegun(t, r.thread, op, approval) || CallRepeated(t, r.thread, op))
  {
    hide FirstAttempt, SecondAttempt, CallBegun, CallRepeated, NothingBegun, ContinuationsKept;
    Untouched(t);
    if o.Run() in t.runs {
      FirstEffect(t, now, o.Run(), op, approval);
    }
    SecondEffect(t, o.Run(), op);
  }

  lemma Untouched(t: Thread)
    ensures NothingBegun(t, t) && ContinuationsKept(t, t)
  {
  }
}
