/**
 All committed versions of one run, oldest first, and transactions attempted by sessions that
 may hold any earlier version of the run row.
 */
module History {
  import opened Basics
  import opened RunStates
  import opened TestEvidence
  import opened Store
  import opened Risk
  import opened Transactions

  type Versions = seq<Tables>

  function Latest(h: Versions): Tables
    requires h != []
  {
    h[|h| - 1]
  }

  /**
   A transaction attempt: the session's row copy is version `at`, its other reads happened at
   versions `first` and `second`, no earlier than the copy, and `ops` are its writes in order.
   */
  datatype Attempt = Attempt(at: nat, first: nat, second: nat, request: Request, ops: seq<Op>)

  /** The writes are the ones the request calls for, with timeline notes anywhere among them. */
  predicate OpsMatch(request: Request, writes: seq<Op>, ops: seq<Op>) {
    && Core(ops) == writes
    && (request.Approve? ==> ops == writes + [Append(ApprovalGiven)])
  }

  /** The reads of a publication were made by the same session, at version `first`. */
  predicate Attemptable(search: Matcher, h: Versions, a: Attempt) {
    && a.at <= a.first < |h| && a.at <= a.second < |h|
    && (a.request.RecordPublication? ==> PushAllowed(h[a.first]) == Some(a.request.publication))
    && var w := Writes(search, a.request, h[a.at].row, h[a.first], h[a.second]);
       w.Some? && OpsMatch(a.request, w.value, a.ops)
  }

  /** What the attempt commits on top of the latest version, if the constraints let it. */
  function Committed(search: Matcher, h: Versions, a: Attempt): Option<Tables>
    requires h != [] && Attemptable(search, h, a)
  {
    match Commit(h[a.at].row, Latest(h), a.ops)
    case Ok(t) => Some(t)
    case Err(_) => None
  }

  ghost predicate Adjacent(a: Tables, b: Tables) {
    Follows(a, b) && a.row.lastSequence < b.row.lastSequence && EventsKept(a, b)
  }

  ghost predicate SoundAt(search: Matcher, h: Versions, k: nat)
    requires k < |h|
  {
    LogOk(h[k]) && RowsOk(search, h[k])
  }

  ghost predicate AdjacentAt(h: Versions, k: nat)
    requires 0 < k < |h|
  {
    Adjacent(h[k - 1], h[k])
  }

  ghost predicate HistoryOk(search: Matcher, h: Versions) {
    && h != []
    && (forall k: nat :: k < |h| ==> SoundAt(search, h, k))
    && (forall k: nat :: 0 < k < |h| ==> AdjacentAt(h, k))
  }

  // ------------------------------------------------------------------ consequences over distance

  lemma {:induction false} SequenceGrows(search: Matcher, h: Versions, i: nat, k: nat)
    requires HistoryOk(search, h) && i < k < |h|
    ensures h[i].row.lastSequence < h[k].row.lastSequence
    decreases k
  {
    assert AdjacentAt(h, k);
    if i < k - 1 {
      SequenceGrows(search, h, i, k - 1);
    }
  }

  lemma OpenBefore(search: Matcher, h: Versions, k: nat)
    requires HistoryOk(search, h) && 0 < k < |h|
    ensures !IsTerminal(h[k - 1].row.state)
  {
    assert AdjacentAt(h, k);
  }

  /** No version follows a terminal one. */
  lemma TerminalIsLast(search: Matcher, h: Versions, i: nat)
    requires HistoryOk(search, h) && i < |h| && IsTerminal(h[i].row.state)
    ensures i == |h| - 1
  {
    if i + 1 < |h| {
      OpenBefore(search, h, i + 1);
    }
  }

  /** The timeline is append-only: a later version has every event of an earlier one, unchanged. */
  lemma {:induction false} TimelineIsAppendOnly(search: Matcher, h: Versions, i: nat, k: nat)
    requires HistoryOk(search, h) && i <= k < |h|
    ensures EventsKept(h[i], h[k])
    decreases k
  {
    if i < k {
      TimelineIsAppendOnly(search, h, i, k - 1);
      assert AdjacentAt(h, k);
    }
  }

  lemma {:induction false} DecisionIsFinal(search: Matcher, h: Versions, i: nat, k: nat)
    requires HistoryOk(search, h) && i <= k < |h| && h[i].approval.Some?
    ensures h[k].approval == h[i].approval
    decreases k
  {
    if i < k {
      DecisionIsFinal(search, h, i, k - 1);
      assert AdjacentAt(h, k);
    }
  }

  /** A parked run becomes active again only through a revision request made in between. */
  lemma {:induction false} OnlyRevisionUnparks(search: Matcher, h: Versions, i: nat, k: nat)
    requires HistoryOk(search, h) && i <= k < |h|
    requires Parked(h[i].row.state) && !Parked(h[k].row.state)
    ensures h[i].approval.None? && Revised(h[k])
    decreases k
  {
    assert i < k;
    assert AdjacentAt(h, k);
    if Parked(h[k - 1].row.state) {
      if h[i].approval.Some? {
        DecisionIsFinal(search, h, i, k - 1);
      }
    } else {
      OnlyRevisionUnparks(search, h, i, k - 1);
    }
  }

  // ------------------------------------------------------------------ attempts

  lemma {:induction false} CoreKeepsTransitions(ops: seq<Op>, i: nat)
    requires i < |Core(ops)| && Core(ops)[i].Transition?
    ensures WritesSomeEvent(ops)
    decreases |ops|
  {
    if ops[0].Append? || ops[0].Transition? {
      assert WritesEvent(ops[0]);
    } else {
      CoreKeepsTransitions(ops[1..], i - 1);
      var j :| 0 <= j < |ops[1..]| && WritesEvent(ops[1..][j]);
      assert ops[j + 1] == ops[1..][j];
    }
  }

  /** Every request that writes anything writes an event: this is what the constraint guards. */
  lemma RequestsWriteEvents(search: Matcher, request: Request, row: RunRow, first: Tables, second: Tables, ops: seq<Op>)
    requires Writes(search, request, row, first, second).Some?
    requires OpsMatch(request, Writes(search, request, row, first, second).value, ops)
    ensures WritesSomeEvent(ops)
  {
    var w := Writes(search, request, row, first, second).value;
    match request {
      case Approve => assert WritesEvent(ops[|ops| - 1]);
      case StepDone(work) =>
        CoreKeepsTransitions(ops, if row.state == Verifying then 1 else 0);
      case RecordPublication(_) => CoreKeepsTransitions(ops, 1);
      case _ =>
        assert w[|w| - 1].Transition?;
        CoreKeepsTransitions(ops, |w| - 1);
    }
  }

  /**
   Stale sessions lose: an attempt commits only if its row copy is the latest version, and then
   all its other reads were of the latest version too. No lock is involved.
   */
  lemma OnlyFreshCommits(search: Matcher, h: Versions, a: Attempt)
    requires HistoryOk(search, h) && Attemptable(search, h, a) && Committed(search, h, a).Some?
    ensures a.at == a.first == a.second == |h| - 1
  {
    if a.at < |h| - 1 {
      SequenceGrows(search, h, a.at, |h| - 1);
      RequestsWriteEvents(search, a.request, h[a.at].row, h[a.first], h[a.second], a.ops);
      assert SoundAt(search, h, |h| - 1);
      StaleWriterCannotCommit(h[a.at].row, Latest(h), a.ops);
    }
  }

  lemma AttemptKeepsHistory(search: Matcher, h: Versions, a: Attempt)
    requires HistoryOk(search, h) && Attemptable(search, h, a) && Committed(search, h, a).Some?
    ensures HistoryOk(search, h + [Committed(search, h, a).value])
    ensures DecidesAs(a.request, Latest(h), Committed(search, h, a).value)
  {
    OnlyFreshCommits(search, h, a);
    var t, u := Latest(h), Committed(search, h, a).value;
    var w := Writes(search, a.request, t.row, t, t).value;
    assert SoundAt(search, h, |h| - 1);
    CommitEffect(t, a.ops);
    ExecKeepsEvents(Tx(t.row, t), a.ops);
    RequestKeeps(search, t, a.request);
    RequestsWriteEvents(search, a.request, t.row, t, t, a.ops);
    if a.request.Approve? {
      assert Core(a.ops) == w;
    }
    SameRestTransports(search, t, Commit(t.row, t, w).value, u);
    HistoryExtends(search, h, u);
  }

  lemma HistoryExtends(search: Matcher, h: Versions, u: Tables)
    requires HistoryOk(search, h) && LogOk(u) && RowsOk(search, u) && Adjacent(Latest(h), u)
    ensures HistoryOk(search, h + [u])
  {
    var g := h + [u];
    forall k: nat | k < |g| ensures SoundAt(search, g, k) {
      if k < |h| {
        assert SoundAt(search, h, k);
        assert g[k] == h[k];
      }
    }
    forall k: nat | 0 < k < |g| ensures AdjacentAt(g, k) {
      if k < |h| {
        assert AdjacentAt(h, k);
        assert g[k] == h[k] && g[k - 1] == h[k - 1];
      }
    }
  }

  /** A request whose last write is a transition commits a run in that state. */
  lemma CommitsItsLastTransition(search: Matcher, h: Versions, a: Attempt, target: RunState)
    requires HistoryOk(search, h) && Attemptable(search, h, a) && Committed(search, h, a).Some?
    requires var w := Writes(search, a.request, h[a.at].row, h[a.first], h[a.second]).value;
             w != [] && w[|w| - 1] == Transition(target)
    ensures Committed(search, h, a).value.row.state == target
  {
    FreshCommit(search, h, a);
    LastTransitionWins(Latest(h), Core(a.ops), a.ops, target);
  }

  /** A commit seen from the latest version, where its copy and all its reads turn out to be. */
  lemma FreshCommit(search: Matcher, h: Versions, a: Attempt)
    requires HistoryOk(search, h) && Attemptable(search, h, a) && Committed(search, h, a).Some?
    ensures a.at == a.first == a.second == |h| - 1 && LogOk(Latest(h))
    ensures Core(a.ops) == Writes(search, a.request, h[a.at].row, h[a.first], h[a.second]).value
    ensures Commit(Latest(h).row, Latest(h), a.ops) == Ok(Committed(search, h, a).value)
  {
    OnlyFreshCommits(search, h, a);
    assert SoundAt(search, h, |h| - 1);
  }

  lemma LastTransitionWins(t: Tables, w: seq<Op>, ops: seq<Op>, target: RunState)
    requires LogOk(t) && Core(ops) == w && w != [] && w[|w| - 1] == Transition(target)
    requires Commit(t.row, t, ops).Ok?
    ensures Commit(t.row, t, ops).value.row.state == target
  {
    CommitEffect(t, ops);
    assert w == w[..|w| - 1] + [Transition(target)];
    ExecSnoc(Tx(t.row, t), w[..|w| - 1], Transition(target));
  }
}
