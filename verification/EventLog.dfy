/** The per-thread event log (store.go appendEvent, observe.go readEvents) and the
    polling observer of platform.go.  Rows are keyed by sequence number, as in the
    table's primary key, so "no gap" is something to prove and not a list's nature. */
module EventLog {

  datatype Log<E> = Log(sequence: nat, rows: map<nat, E>)

  function Append<E>(log: Log<E>, e: E): (r: Log<E>) {
    Log(log.sequence + 1, log.rows[log.sequence + 1 := e])
  }

  function AppendAll<E>(log: Log<E>, es: seq<E>): (r: Log<E>)
    decreases |es|
  {
    if es == [] then log else AppendAll(Append(log, es[0]), es[1..])
  }

  /** The stored sequence numbers are exactly 1..sequence. */
  ghost predicate GapFree<E>(log: Log<E>) {
    forall n: nat :: n in log.rows <==> 1 <= n <= log.sequence
  }

  /** later is earlier with rows added and none changed. */
  ghost predicate Extends<E>(earlier: Log<E>, later: Log<E>) {
    && earlier.sequence <= later.sequence
    && forall n: nat :: n in earlier.rows ==> n in later.rows && later.rows[n] == earlier.rows[n]
  }

  lemma {:induction false} AppendAllExtends<E>(log: Log<E>, es: seq<E>)
    requires GapFree(log)
    ensures GapFree(AppendAll(log, es))
    ensures Extends(log, AppendAll(log, es))
    ensures AppendAll(log, es).sequence == log.sequence + |es|
    ensures forall k: nat :: k < |es| ==> AppendAll(log, es).rows[log.sequence + 1 + k] == es[k]
    decreases |es|
  {
    if es != [] {
      var next := Append(log, es[0]);
      AppendAllExtends(next, es[1..]);
      forall k: nat | k < |es|
        ensures AppendAll(log, es).rows[log.sequence + 1 + k] == es[k]
      {
        if k > 0 {
          assert es[1..][k - 1] == es[k];
          assert next.sequence + 1 + (k - 1) == log.sequence + 1 + k;
        } else {
          assert log.sequence + 1 in next.rows;
        }
      }
    }
  }

  /** A row as the observer sees it. */
  datatype Entry<E> = Entry(sequence: nat, event: E)

  /** The stored rows with after < sequence <= upto, ascending. */
  function Between<E>(log: Log<E>, after: nat, upto: nat): (r: seq<Entry<E>>)
    decreases upto
  {
    if upto <= after then []
    else Between(log, after, upto - 1) + (if upto in log.rows then [Entry(upto, log.rows[upto])] else [])
  }

  /** What a poll returns: every row above `after`, in sequence order. */
  function ReadAfter<E>(log: Log<E>, after: nat): (r: seq<Entry<E>>) {
    Between(log, after, log.sequence)
  }

  /** In a gap-free log a read is the consecutive run of sequence numbers, each with its row. */
  lemma {:induction false} ReadIsConsecutive<E>(log: Log<E>, after: nat, upto: nat)
    requires GapFree(log) && after <= upto <= log.sequence
    ensures |Between(log, after, upto)| == upto - after
    ensures forall k: nat :: k < upto - after ==>
      Between(log, after, upto)[k] == Entry(after + 1 + k, log.rows[after + 1 + k])
    decreases upto
  {
    if after < upto {
      ReadIsConsecutive(log, after, upto - 1);
    }
  }

  /** Reading on past x and then past y is one read past x, whatever was appended meanwhile. */
  lemma {:induction false} ReadsCompose<E>(earlier: Log<E>, later: Log<E>, after: nat, mid: nat, upto: nat)
    requires GapFree(earlier) && GapFree(later) && Extends(earlier, later)
    requires after <= mid <= upto && mid <= earlier.sequence
    ensures Between(earlier, after, mid) + Between(later, mid, upto) == Between(later, after, upto)
    decreases upto
  {
    if upto == mid {
      SamePrefix(earlier, later, after, mid);
    } else {
      ReadsCompose(earlier, later, after, mid, upto - 1);
    }
  }

  lemma {:induction false} SamePrefix<E>(earlier: Log<E>, later: Log<E>, after: nat, mid: nat)
    requires GapFree(earlier) && Extends(earlier, later) && mid <= earlier.sequence
    ensures Between(earlier, after, mid) == Between(later, after, mid)
    decreases mid
  {
    if after < mid {
      SamePrefix(earlier, later, after, mid - 1);
    }
  }

  /** The logs an observer meets: its snapshot, then what each poll finds. */
  ghost predicate Growing<E>(snapshot: Log<E>, polls: seq<Log<E>>) {
    && GapFree(snapshot)
    && (forall k :: 0 <= k < |polls| ==> GapFree(polls[k]) && Extends(snapshot, polls[k]))
    && (forall j, k :: 0 <= j < k < |polls| ==> Extends(polls[j], polls[k]))
  }

  function Max(a: nat, b: nat): nat { if a < b then b else a }

  function LastSeen<E>(snapshot: Log<E>, polls: seq<Log<E>>): Log<E> {
    if polls == [] then snapshot else polls[|polls| - 1]
  }

  /** The rows an observer that started above `start` owes its receiver once it has seen `log`. */
  function Owed<E>(log: Log<E>, start: nat): seq<Entry<E>> {
    Between(log, start, log.sequence)
  }

  function Take<T>(s: seq<T>, n: nat): seq<T> {
    if |s| <= n then s else s[..n]
  }

  /** One batch, event by event: the cursor follows the last event taken; the receiver
      cancels when its patience is spent. */
  method Deliver<E>(batch: seq<Entry<E>>, before: seq<Entry<E>>, cursor: nat, patience: nat)
    returns (delivered: seq<Entry<E>>, after: nat, cancelled: bool)
    requires |before| <= patience
    ensures cancelled <==> patience < |before + batch|
    ensures delivered == Take(before + batch, patience)
    ensures !cancelled ==> after == if batch == [] then cursor else batch[|batch| - 1].sequence
  {
    delivered, after, cancelled := before, cursor, false;
    var j := 0;
    while j < |batch|
      invariant 0 <= j <= |batch|
      invariant delivered == before + batch[..j]
      invariant after == if j == 0 then cursor else batch[j - 1].sequence
      invariant |delivered| <= patience
    {
      if |delivered| == patience {
        assert (before + batch)[..patience] == delivered;
        cancelled := true;
        return;
      }
      delivered := delivered + [batch[j]];
      after := batch[j].sequence;
      j := j + 1;
    }
  }

  /** platform.go Observe.  polls[k] is the log at the k-th poll; `patience` is how many
      events the receiver takes before it cancels.  A negative cursor is refused. */
  method Observe<E>(snapshot: Log<E>, polls: seq<Log<E>>, cursor: int, patience: nat)
    returns (refused: bool, delivered: seq<Entry<E>>)
    requires Growing(snapshot, polls)
    ensures refused <==> cursor < 0
    ensures refused ==> delivered == []
    ensures !refused ==>
      delivered == Take(Owed(LastSeen(snapshot, polls), Max(cursor, snapshot.sequence)), patience)
  {
    refused, delivered := cursor < 0, [];
    if refused {
      return;
    }
    var start := Max(cursor, snapshot.sequence);
    var after := start;
    ghost var seen := snapshot;
    var k := 0;
    while k < |polls|
      invariant 0 <= k <= |polls|
      invariant seen == if k == 0 then snapshot else polls[k - 1]
      invariant after == Max(start, seen.sequence)
      invariant delivered == Owed(seen, start)
      invariant |delivered| <= patience
    {
      var batch := ReadAfter(polls[k], after);
      NextBatch(seen, polls[k], start);
      var cancelled;
      delivered, after, cancelled := Deliver(batch, delivered, after, patience);
      if cancelled {
        CancelledPrefix(snapshot, polls, k, start, patience);
        return;
      }
      seen := polls[k];
      k := k + 1;
    }
  }

  /** One poll: the batch is exactly what is newly owed, and its last row is where the cursor goes. */
  lemma NextBatch<E>(seen: Log<E>, log: Log<E>, start: nat)
    requires GapFree(seen) && GapFree(log) && Extends(seen, log)
    ensures Owed(seen, start) + ReadAfter(log, Max(start, seen.sequence)) == Owed(log, start)
    ensures var batch := ReadAfter(log, Max(start, seen.sequence));
      Max(start, log.sequence) == if batch == [] then Max(start, seen.sequence) else batch[|batch| - 1].sequence
  {
    var after := Max(start, seen.sequence);
    if start <= seen.sequence {
      ReadsCompose(seen, log, start, seen.sequence, log.sequence);
    }
    if after <= log.sequence {
      ReadIsConsecutive(log, after, log.sequence);
    }
  }

  /** A cancelled delivery is a prefix of what the observer would have owed in the end. */
  lemma CancelledPrefix<E>(snapshot: Log<E>, polls: seq<Log<E>>, k: nat, start: nat, patience: nat)
    requires Growing(snapshot, polls) && k < |polls|
    requires patience < |Owed(polls[k], start)|
    ensures Take(Owed(LastSeen(snapshot, polls), start), patience) == Take(Owed(polls[k], start), patience)
  {
    var last := LastSeen(snapshot, polls);
    assert Extends(polls[k], last);
    assert start <= polls[k].sequence;
    ReadsCompose(polls[k], last, start, polls[k].sequence, last.sequence);
  }
}
