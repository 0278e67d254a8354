/** Conversation histories: messages, the calls in them that have no result yet, and turns. */
module History {
  import opened Basics

  datatype Content = FunctionCall(id: Id, name: Id, arguments: string) | FunctionResult(id: Id) | Text(text: string)

  datatype Message = Message(user: bool, contents: seq<Content>)

  // ---------------------------------------------------------------- calls and their results

  /** Reads one content: a call opens its ID, a result closes it.  None when a call reuses an open
      ID or a result answers nothing. */
  function Read(open: set<Id>, c: Content): Option<set<Id>> {
    match c
    case FunctionCall(id, _, _) => if id in open then None else Some(open + {id})
    case FunctionResult(id) => if id in open then Some(open - {id}) else None
    case Text(_) => Some(open)
  }

  function ReadAll(open: set<Id>, cs: seq<Content>): Option<set<Id>> {
    if cs == [] then Some(open)
    else
      var before := ReadAll(open, cs[..|cs| - 1]);
      if before.None? then None else Read(before.value, cs[|cs| - 1])
  }

  /** The calls of a history that wait for a result, if its calls and results match up so far. */
  function Open(h: seq<Message>): Option<set<Id>> {
    if h == [] then Some({})
    else
      var before := Open(h[..|h| - 1]);
      if before.None? then None else ReadAll(before.value, h[|h| - 1].contents)
  }

  /** Every call has exactly one result, after it, and every result has its call. */
  predicate Closed(h: seq<Message>) {
    Open(h) == Some({})
  }

  lemma EmptyClosed()
    ensures Closed([])
  {
  }

  lemma {:induction false} OpenAppend(h: seq<Message>, m: Message)
    ensures Open(h + [m]) == if Open(h).None? then None else ReadAll(Open(h).value, m.contents)
  {
    assert (h + [m])[..|h|] == h;
  }

  lemma {:induction false} ReadOne(open: set<Id>, c: Content)
    ensures ReadAll(open, [c]) == Read(open, c)
  {
    assert [c][..0] == [];
  }

  function ResultMessage(id: Id): Message { Message(false, [FunctionResult(id)]) }

  lemma {:induction false} ResultCloses(h: seq<Message>, id: Id)
    requires Open(h).Some? && id in Open(h).value
    ensures Open(h + [ResultMessage(id)]) == Some(Open(h).value - {id})
  {
    OpenAppend(h, ResultMessage(id));
    ReadOne(Open(h).value, FunctionResult(id));
  }

  /** An interaction that expires closes its own call, and the checkpoint exactly if no other was open. */
  lemma {:induction false} ExpiryCloses(checkpoint: seq<Message>, call: Id)
    requires Open(checkpoint).Some? && call in Open(checkpoint).value
    ensures Open(checkpoint + [ResultMessage(call)]) == Some(Open(checkpoint).value - {call})
    ensures Closed(checkpoint + [ResultMessage(call)]) <==> Open(checkpoint) == Some({call})
  {
    ResultCloses(checkpoint, call);
    var open := Open(checkpoint).value;
    assert open - {call} == {} ==> open == {call};
  }

  lemma {:induction false} TextOpensNothing(h: seq<Message>, user: bool, text: string)
    ensures Open(h + [Message(user, [Text(text)])]) == Open(h)
  {
    OpenAppend(h, Message(user, [Text(text)]));
    if Open(h).Some? {
      ReadOne(Open(h).value, Text(text));
    }
  }

  predicate AllCalls(cs: seq<Content>) {
    forall k :: 0 <= k < |cs| ==> cs[k].FunctionCall?
  }

  /** A response that proposes calls, no two under one ID. */
  predicate DistinctCalls(cs: seq<Content>) {
    && AllCalls(cs)
    && forall j, k :: 0 <= j < k < |cs| ==> cs[j].id != cs[k].id
  }

  function IdsFrom(cs: seq<Content>, k: nat): set<Id>
    requires AllCalls(cs)
  {
    set j | k <= j < |cs| :: cs[j].id
  }

  lemma {:induction false} CallsOpen(open: set<Id>, cs: seq<Content>)
    requires DistinctCalls(cs) && forall k :: 0 <= k < |cs| ==> cs[k].id !in open
    ensures ReadAll(open, cs) == Some(open + IdsFrom(cs, 0))
  {
    if cs != [] {
      var last := |cs| - 1;
      CallsOpen(open, cs[..last]);
      assert IdsFrom(cs, 0) == IdsFrom(cs[..last], 0) + {cs[last].id};
      assert cs[last].id !in open + IdsFrom(cs[..last], 0);
      assert open + IdsFrom(cs, 0) == open + IdsFrom(cs[..last], 0) + {cs[last].id};
    } else {
      assert open + IdsFrom(cs, 0) == open;
    }
  }

  /** A response with distinct calls, none of them open, opens exactly its calls. */
  lemma {:induction false} ResponseOpens(h: seq<Message>, cs: seq<Content>)
    requires Open(h).Some? && DistinctCalls(cs) && Open(h).value !! IdsFrom(cs, 0)
    ensures Open(h + [Message(false, cs)]) == Some(Open(h).value + IdsFrom(cs, 0))
  {
    OpenAppend(h, Message(false, cs));
    forall k | 0 <= k < |cs| ensures cs[k].id !in Open(h).value {
      assert cs[k].id in IdsFrom(cs, 0);
    }
    CallsOpen(Open(h).value, cs);
  }

  // ---------------------------------------------------------------- closing what a stopped run left open

  /** The calls without a later result, in any history at all. */
  function Unanswered(h: seq<Message>): set<Id> {
    if h == [] then {} else UnansweredAfter(Unanswered(h[..|h| - 1]), h[|h| - 1].contents)
  }

  function UnansweredAfter(open: set<Id>, cs: seq<Content>): set<Id> {
    if cs == [] then open
    else
      var before := UnansweredAfter(open, cs[..|cs| - 1]);
      match cs[|cs| - 1]
      case FunctionCall(id, _, _) => before + {id}
      case FunctionResult(id) => before - {id}
      case Text(_) => before
  }

  lemma {:induction false} ReadAllUnanswered(open: set<Id>, cs: seq<Content>)
    ensures ReadAll(open, cs).Some? ==> ReadAll(open, cs).value == UnansweredAfter(open, cs)
  {
    if cs != [] {
      ReadAllUnanswered(open, cs[..|cs| - 1]);
    }
  }

  /** Where calls and results match up, the open calls are the unanswered ones. */
  lemma {:induction false} OpenUnanswered(h: seq<Message>)
    ensures Open(h).Some? ==> Open(h).value == Unanswered(h)
  {
    if h != [] {
      OpenUnanswered(h[..|h| - 1]);
      if Open(h[..|h| - 1]).Some? {
        ReadAllUnanswered(Open(h[..|h| - 1]).value, h[|h| - 1].contents);
      }
    }
  }

  lemma {:induction false} ResultAnswers(h: seq<Message>, id: Id)
    ensures Unanswered(h + [ResultMessage(id)]) == Unanswered(h) - {id}
  {
    assert (h + [ResultMessage(id)])[..|h|] == h;
    var cs := [FunctionResult(id)];
    assert cs[..0] == [];
    assert UnansweredAfter(Unanswered(h), cs[..0]) == Unanswered(h);
  }

  /** A stopped run answers every call it left open; whatever the history was, none stays unanswered, and
      a history whose calls and results matched up so far is closed. */
  method CloseOpen(h: seq<Message>) returns (r: seq<Message>)
    ensures |h| <= |r| && r[..|h|] == h && Unanswered(r) == {}
    ensures Open(h).Some? ==> Closed(r)
  {
    var open, order := FindOpen(h);
    OpenUnanswered(h);
    r := h;
    var k := 0;
    while k < |order|
      invariant 0 <= k <= |order| && |h| <= |r| && r[..|h|] == h
      invariant Unanswered(r) == open && (forall x :: x in open ==> x in order[k..])
      invariant Open(h).Some? ==> Open(r) == Some(open)
    {
      var id := order[k];
      if id in open {
        ResultAnswers(r, id);
        if Open(h).Some? {
          ResultCloses(r, id);
        }
        r := r + [ResultMessage(id)];
        open := open - {id};
      }
      assert order[k..] == [id] + order[k + 1..];
      k := k + 1;
    }
    assert open == {};
  }

  method FindOpen(h: seq<Message>) returns (open: set<Id>, order: seq<Id>)
    ensures open == Unanswered(h) && forall x :: x in open ==> x in order
  {
    open, order := {}, [];
    var i := 0;
    while i < |h|
      invariant 0 <= i <= |h| && open == Unanswered(h[..i]) && forall x :: x in open ==> x in order
    {
      var k := 0;
      var cs := h[i].contents;
      while k < |cs|
        invariant 0 <= k <= |cs| && open == UnansweredAfter(Unanswered(h[..i]), cs[..k])
          && forall x :: x in open ==> x in order
      {
        assert cs[..k + 1][..k] == cs[..k];
        match cs[k] {
          case FunctionCall(id, _, _) =>
            if id !in open {
              order := order + [id];
            }
            open := open + {id};
          case FunctionResult(id) => open := open - {id};
          case Text(_) =>
        }
        k := k + 1;
      }
      assert cs[..k] == cs && h[..i + 1][..i] == h[..i];
      i := i + 1;
    }
    assert h[..i] == h;
  }

  // ---------------------------------------------------------------- turns and the latest call

  /** A turn starts at a user message; messages before the first one form a leading turn. */
  function TurnOf(h: seq<Message>, i: nat): nat
    requires i < |h|
  {
    if i == 0 then 0 else TurnOf(h, i - 1) + (if h[i].user then 1 else 0)
  }

  function Turns(h: seq<Message>): nat {
    if h == [] then 0 else TurnOf(h, |h| - 1) + 1
  }

  lemma {:induction false} TurnsGrow(h: seq<Message>, i: nat, j: nat)
    requires i <= j < |h|
    ensures TurnOf(h, i) <= TurnOf(h, j) < Turns(h)
  {
    TurnsBefore(h, i, j);
    TurnsBefore(h, j, |h| - 1);
  }

  lemma {:induction false} TurnsBefore(h: seq<Message>, i: nat, j: nat)
    requires i <= j < |h|
    ensures TurnOf(h, i) <= TurnOf(h, j)
    decreases j
  {
    if i < j {
      TurnsBefore(h, i, j - 1);
    }
  }

  datatype Pos = Pos(msg: nat, part: nat)
  {
    predicate Before(q: Pos) { msg < q.msg || (msg == q.msg && part < q.part) }
  }

  /** A reading position: inside message msg, before its content number part. */
  predicate At(h: seq<Message>, p: Pos) {
    (p.msg < |h| && p.part <= |h[p.msg].contents|) || p == Pos(|h|, 0)
  }

  predicate IsCall(h: seq<Message>, p: Pos, id: Id) {
    p.msg < |h| && p.part < |h[p.msg].contents| && h[p.msg].contents[p.part].FunctionCall?
        && h[p.msg].contents[p.part].id == id
  }

  /** The most recent call of every ID before position p. */
  function Last(h: seq<Message>, p: Pos): (m: map<Id, Pos>)
    requires At(h, p)
    decreases p.msg, p.part
  {
    if p.part > 0 then
      var c := h[p.msg].contents[p.part - 1];
      var before := Last(h, Pos(p.msg, p.part - 1));
      if c.FunctionCall? then before[c.id := Pos(p.msg, p.part - 1)] else before
    else if p.msg > 0 then Last(h, Pos(p.msg - 1, |h[p.msg - 1].contents|))
    else map[]
  }

  /** Last is what its name says: a call of the ID, before p, with no other call of the ID between. */
  ghost predicate Latest(h: seq<Message>, q: Pos, id: Id, p: Pos) {
    IsCall(h, q, id) && q.Before(p) && forall r: Pos :: IsCall(h, r, id) && r.Before(p) ==> r == q || r.Before(q)
  }

  lemma {:induction false} LastIsLatest(h: seq<Message>, p: Pos, id: Id)
    requires At(h, p)
    ensures id in Last(h, p) ==> Latest(h, Last(h, p)[id], id, p)
    ensures id !in Last(h, p) ==> forall r: Pos :: IsCall(h, r, id) ==> !r.Before(p)
    decreases p.msg, p.part
  {
    if p.part > 0 {
      var q := Pos(p.msg, p.part - 1);
      LastIsLatest(h, q, id);
      forall r: Pos | IsCall(h, r, id) && r.Before(p) ensures r.Before(q) || r == q {
      }
    } else if p.msg > 0 {
      var q := Pos(p.msg - 1, |h[p.msg - 1].contents|);
      LastIsLatest(h, q, id);
      forall r: Pos | IsCall(h, r, id) && r.Before(p) ensures r.Before(q) {
      }
    }
  }
}
