/**
 The rows belonging to one run (backend/app/models/core.py, backend/app/models/review.py) and
 what one database transaction of backend/app/services/event_service.py and
 backend/app/services/review_service.py does to them.

 A session works on its own copy of the run row, which may be older than the committed one.
 Nothing locks the row: an insert that meets an existing (run, sequence) pair, or a second
 approval, is refused by a unique constraint and aborts the transaction.
 */
module Store {
  import opened Basics
  import opened RunStates
  import opened TestEvidence

  datatype RunRow = RunRow(state: RunState, lastSequence: nat, requirePlanApproval: bool)

  datatype NoteKind = Info | Warning | ToolCalled | Retrieval | TestRun | ApprovalGiven

  /** A timeline entry is a state change or a note; only `transition` writes the former. */
  datatype EventKind = StateChanged | Note(note: NoteKind)

  datatype Event = Event(kind: EventKind, state: RunState)

  datatype Plan = Plan(version: nat)

  datatype Diff = Diff(text: string, hash: Digest, filesChanged: nat, blocking: bool)

  datatype Decision = Approved | Rejected | RevisionRequested

  datatype Approval = Approval(decision: Decision, diffHash: Digest)

  /** `gated` is the stored diff text the gate compared with the approval; it is not what the branch holds. */
  datatype PullRequest = PullRequest(approvalHash: Digest, gated: string)

  /**
   All committed rows of one run. `evidence` is a history variable: the outcomes that the
   last committed `_await_approval` step looked at.
   */
  datatype Tables = Tables(
    row: RunRow,
    events: map<nat, Event>,
    plans: seq<Plan>,
    diffs: seq<Diff>,
    approval: Option<Approval>,
    pulls: seq<PullRequest>,
    evidence: Option<seq<TestOutcome>>)

  /** One write inside a transaction. */
  datatype Op =
    | Append(note: NoteKind)
    | Transition(target: RunState)
    | StorePlan
    | StoreDiff(diff: Diff)
    | Decide(approval: Approval)
    | RecordPull(pull: PullRequest)
    | Witness(outcomes: seq<TestOutcome>)

  datatype Failure = Conflict | IllegalTransition

  /** A transaction in progress: the session's copy of the run row, and the rows as it would leave them. */
  datatype Tx = Tx(copy: RunRow, db: Tables)

  datatype Result<+T> = Ok(value: T) | Err(failure: Failure)

  /** `_append_event_for`: the next number comes from the copy; the constraint is on the table. */
  function InsertEvent(tx: Tx, kind: EventKind, state: RunState): Result<Tx> {
    var seq_ := tx.copy.lastSequence + 1;
    if seq_ in tx.db.events then
      Err(Conflict)
    else
      Ok(Tx(tx.copy.(lastSequence := seq_),
            tx.db.(row := tx.db.row.(lastSequence := seq_),
                   events := tx.db.events[seq_ := Event(kind, state)])))
  }

  /** `transition`: refuses an illegal edge before touching anything, then writes state and event. */
  function ApplyTransition(tx: Tx, target: RunState): Result<Tx> {
    if !CanTransition(tx.copy.state, target) then
      Err(IllegalTransition)
    else
      InsertEvent(Tx(tx.copy.(state := target), tx.db.(row := tx.db.row.(state := target))), StateChanged, target)
  }

  function Apply(tx: Tx, op: Op): Result<Tx> {
    match op
    case Append(note) => InsertEvent(tx, Note(note), tx.copy.state)
    case Transition(target) => ApplyTransition(tx, target)
    case StorePlan => Ok(tx.(db := tx.db.(plans := tx.db.plans + [Plan(|tx.db.plans| + 1)])))
    case StoreDiff(diff) => Ok(tx.(db := tx.db.(diffs := tx.db.diffs + [diff])))
    case Decide(approval) =>
      if tx.db.approval.Some? then Err(Conflict) else Ok(tx.(db := tx.db.(approval := Some(approval))))
    case RecordPull(pull) => Ok(tx.(db := tx.db.(pulls := tx.db.pulls + [pull])))
    case Witness(outcomes) => Ok(tx.(db := tx.db.(evidence := Some(outcomes))))
  }

  /** A whole transaction: the first refused write aborts it, and nothing is committed. */
  function Exec(tx: Tx, ops: seq<Op>): Result<Tx>
    decreases |ops|
  {
    if ops == [] then Ok(tx)
    else
      match Apply(tx, ops[0])
      case Err(f) => Err(f)
      case Ok(next) => Exec(next, ops[1..])
  }

  /** What a commit would leave behind, for a session holding `copy` over the committed `db`. */
  function Commit(copy: RunRow, db: Tables, ops: seq<Op>): Result<Tables> {
    match Exec(Tx(copy, db), ops)
    case Err(f) => Err(f)
    case Ok(tx) => Ok(tx.db)
  }

  predicate WritesEvent(op: Op) {
    op.Append? || op.Transition?
  }

  /** Every run transaction of the services writes at least one event. */
  predicate WritesSomeEvent(ops: seq<Op>) {
    exists i :: 0 <= i < |ops| && WritesEvent(ops[i])
  }

  // ------------------------------------------------------------------ the event log

  ghost predicate Numbered(t: Tables) {
    forall k :: k in t.events <==> 1 <= k <= t.row.lastSequence
  }

  /** The run's state after its first `n` events, read off the log alone. */
  ghost function StateAfter(t: Tables, n: nat): RunState {
    if n == 0 then Created
    else if n in t.events && t.events[n].kind == StateChanged then t.events[n].state
    else StateAfter(t, n - 1)
  }

  /**
   Event `k` is consistent with the log before it: a state change takes a legal edge, anything else repeats
   the state.
   */
  ghost predicate EventFits(t: Tables, k: nat)
    requires k > 0
  {
    k in t.events ==>
      if t.events[k].kind == StateChanged then CanTransition(StateAfter(t, k - 1), t.events[k].state)
      else t.events[k].state == StateAfter(t, k - 1)
  }

  /**
   The committed log: numbered exactly 1..lastSequence, its state changes a path from CREATED
   in the transition table, and the row in the state the log ends in.
   */
  ghost predicate LogOk(t: Tables) {
    && Numbered(t)
    && (forall k: nat :: k > 0 ==> EventFits(t, k))
    && t.row.state == StateAfter(t, t.row.lastSequence)
  }

  /** Inserting event number `n + 1` leaves the state after every earlier event alone. */
  lemma {:induction false} StateAfterFrame(t: Tables, t': Tables, n: nat)
    requires forall k: nat :: 1 <= k <= n ==>
               (k in t.events <==> k in t'.events) && (k in t.events ==> t.events[k] == t'.events[k])
    ensures StateAfter(t, n) == StateAfter(t', n)
  {
    if n > 0 {
      StateAfterFrame(t, t', n - 1);
    }
  }

  /** What one event adds: the number after the last, and its own state if it is a state change. */
  ghost predicate ExtendsLog(t: Tables, t': Tables, kind: EventKind, state: RunState) {
    && t'.row.lastSequence == t.row.lastSequence + 1
    && t'.events == t.events[t'.row.lastSequence := Event(kind, state)]
    && t'.row.state == state
    && t'.row.requirePlanApproval == t.row.requirePlanApproval
    && if kind == StateChanged then CanTransition(t.row.state, state) else state == t.row.state
  }

  lemma ExtendKeepsLog(t: Tables, t': Tables, kind: EventKind, state: RunState)
    requires LogOk(t) && ExtendsLog(t, t', kind, state)
    ensures LogOk(t')
  {
    var n := t.row.lastSequence;
    forall k: nat | k <= n ensures StateAfter(t, k) == StateAfter(t', k) {
      StateAfterFrame(t, t', k);
    }
    assert StateAfter(t', n + 1) == state;
    forall k: nat | k > 0 ensures EventFits(t', k) {
      assert EventFits(t, k);
    }
  }

  /** One write by an up-to-date session keeps the log, and keeps the session up to date. */
  lemma ApplyKeepsLog(tx: Tx, op: Op)
    requires LogOk(tx.db) && tx.copy == tx.db.row && Apply(tx, op).Ok?
    ensures LogOk(Apply(tx, op).value.db)
    ensures Apply(tx, op).value.copy == Apply(tx, op).value.db.row
  {
    var t, t' := tx.db, Apply(tx, op).value.db;
    match op {
      case Append(note) =>
        ExtendKeepsLog(t, t', Note(note), tx.copy.state);
      case Transition(target) =>
        ExtendKeepsLog(t, t', StateChanged, target);
      case _ =>
        LogReadsOnlyEvents(t, t');
    }
  }

  lemma LogReadsOnlyEvents(t: Tables, t': Tables)
    requires LogOk(t) && t'.row == t.row && t'.events == t.events
    ensures LogOk(t')
  {
    forall n: nat ensures StateAfter(t, n) == StateAfter(t', n) {
      StateAfterFrame(t, t', n);
    }
    forall k: nat | k > 0 ensures EventFits(t', k) {
      assert EventFits(t, k);
    }
  }

  lemma {:induction false} ExecKeepsLog(tx: Tx, ops: seq<Op>)
    requires LogOk(tx.db) && tx.copy == tx.db.row && Exec(tx, ops).Ok?
    ensures LogOk(Exec(tx, ops).value.db)
    ensures Exec(tx, ops).value.copy == Exec(tx, ops).value.db.row
    ensures Exec(tx, ops).value.db.row.lastSequence >= tx.db.row.lastSequence
    decreases |ops|
  {
    if ops != [] {
      ApplyKeepsLog(tx, ops[0]);
      ExecKeepsLog(Apply(tx, ops[0]).value, ops[1..]);
    }
  }

  ghost predicate EventsKept(a: Tables, b: Tables) {
    forall n :: n in a.events ==> n in b.events && b.events[n] == a.events[n]
  }

  /** No transaction rewrites or drops an event. */
  lemma {:induction false} ExecKeepsEvents(tx: Tx, ops: seq<Op>)
    requires Exec(tx, ops).Ok?
    ensures EventsKept(tx.db, Exec(tx, ops).value.db)
    decreases |ops|
  {
    if ops != [] {
      ExecKeepsEvents(Apply(tx, ops[0]).value, ops[1..]);
    }
  }

  // ------------------------------------------------------------------ the log as a path

  /** The states the run has been in according to its first `n` events, in order. */
  ghost function StatesVisited(t: Tables, n: nat): seq<RunState> {
    if n == 0 then [Created]
    else if n in t.events && t.events[n].kind == StateChanged then StatesVisited(t, n - 1) + [t.events[n].state]
    else StatesVisited(t, n - 1)
  }

  /** The state-changed events, in order, are a path from CREATED in the transition table. */
  lemma {:induction false} StateChangesFormAPath(t: Tables, n: nat)
    requires LogOk(t) && n <= t.row.lastSequence
    ensures var p := StatesVisited(t, n);
            p != [] && IsPath(p) && p[0] == Created && p[|p| - 1] == StateAfter(t, n)
  {
    if n > 0 {
      StateChangesFormAPath(t, n - 1);
      assert EventFits(t, n);
    }
  }

  // ------------------------------------------------------------------ stale writers

  /** A session whose next number is taken cannot complete any transaction that writes an event. */
  lemma {:induction false} TakenNumberAborts(tx: Tx, ops: seq<Op>)
    requires tx.copy.lastSequence + 1 in tx.db.events && WritesSomeEvent(ops)
    ensures Exec(tx, ops).Err?
    decreases |ops|
  {
    if !WritesEvent(ops[0]) && Apply(tx, ops[0]).Ok? {
      var i :| 0 <= i < |ops| && WritesEvent(ops[i]);
      assert ops[1..][i - 1] == ops[i];
      TakenNumberAborts(Apply(tx, ops[0]).value, ops[1..]);
    }
  }

  /**
   Stale writers cannot commit: over a well-formed log, a session whose copy of the run row is
   behind the committed row cannot commit anything, whatever it tries to write.
   */
  lemma StaleWriterCannotCommit(copy: RunRow, db: Tables, ops: seq<Op>)
    requires LogOk(db) && WritesSomeEvent(ops)
    requires copy.lastSequence < db.row.lastSequence
    ensures Commit(copy, db, ops).Err?
  {
    TakenNumberAborts(Tx(copy, db), ops);
  }

  lemma {:induction false} EventsAdvance(tx: Tx, ops: seq<Op>)
    requires LogOk(tx.db) && tx.copy == tx.db.row && Exec(tx, ops).Ok? && WritesSomeEvent(ops)
    ensures Exec(tx, ops).value.db.row.lastSequence > tx.db.row.lastSequence
    decreases |ops|
  {
    ApplyKeepsLog(tx, ops[0]);
    var next := Apply(tx, ops[0]).value;
    if WritesEvent(ops[0]) {
      ExecKeepsLog(next, ops[1..]);
    } else {
      var i :| 0 <= i < |ops| && WritesEvent(ops[i]);
      assert ops[1..][i - 1] == ops[i];
      EventsAdvance(next, ops[1..]);
    }
  }

  /** A state is final in the log: once a terminal state is reached, nothing but notes can follow. */
  lemma {:induction false} TerminalIsNeverLeft(t: Tables, k: nat, n: nat)
    requires LogOk(t) && k <= n <= t.row.lastSequence && IsTerminal(StateAfter(t, k))
    ensures StateAfter(t, n) == StateAfter(t, k)
    decreases n
  {
    if k < n {
      TerminalIsNeverLeft(t, k, n - 1);
      assert EventFits(t, n);
    }
  }

  // ------------------------------------------------------------------ notes carry no data

  /** The writes of a transaction without its timeline notes. */
  function Core(ops: seq<Op>): seq<Op> {
    if ops == [] then []
    else if ops[0].Append? then Core(ops[1..])
    else [ops[0]] + Core(ops[1..])
  }

  /** Equal in everything but the event log and its counter. */
  predicate SameRest(a: Tables, b: Tables) {
    && a.row.state == b.row.state
    && a.row.requirePlanApproval == b.row.requirePlanApproval
    && a.plans == b.plans && a.diffs == b.diffs && a.approval == b.approval
    && a.pulls == b.pulls && a.evidence == b.evidence
  }

  ghost predicate Fresh(tx: Tx) {
    tx.copy == tx.db.row && Numbered(tx.db)
  }

  lemma ApplyFresh(tx: Tx, op: Op)
    requires Fresh(tx) && Apply(tx, op).Ok?
    ensures Fresh(Apply(tx, op).value)
  {
  }

  /** For an up-to-date session the outcome depends on the core writes only. */
  lemma {:induction false} NotesCarryNoData(a: Tx, b: Tx, ops: seq<Op>)
    requires Fresh(a) && Fresh(b) && SameRest(a.db, b.db)
    ensures Exec(a, ops).Ok? <==> Exec(b, Core(ops)).Ok?
    ensures Exec(a, ops).Ok? ==> SameRest(Exec(a, ops).value.db, Exec(b, Core(ops)).value.db)
    decreases |ops|
  {
    if ops == [] {
    } else if ops[0].Append? {
      ApplyFresh(a, ops[0]);
      NotesCarryNoData(Apply(a, ops[0]).value, b, ops[1..]);
    } else {
      assert Core(ops)[0] == ops[0] && Core(ops)[1..] == Core(ops[1..]);
      if Apply(a, ops[0]).Ok? {
        ApplyFresh(a, ops[0]);
        ApplyFresh(b, ops[0]);
        NotesCarryNoData(Apply(a, ops[0]).value, Apply(b, ops[0]).value, ops[1..]);
      }
    }
  }

  /** The committed effect of any transaction, up to its notes. */
  lemma CommitEffect(t: Tables, ops: seq<Op>)
    requires LogOk(t)
    ensures Commit(t.row, t, ops).Ok? <==> Commit(t.row, t, Core(ops)).Ok?
    ensures Commit(t.row, t, ops).Ok? ==>
              && SameRest(Commit(t.row, t, ops).value, Commit(t.row, t, Core(ops)).value)
              && LogOk(Commit(t.row, t, ops).value)
    ensures Commit(t.row, t, ops).Ok? && WritesSomeEvent(ops) ==>
              Commit(t.row, t, ops).value.row.lastSequence > t.row.lastSequence
  {
    var tx := Tx(t.row, t);
    NotesCarryNoData(tx, tx, ops);
    if Exec(tx, ops).Ok? {
      ExecKeepsLog(tx, ops);
      if WritesSomeEvent(ops) {
        EventsAdvance(tx, ops);
      }
    }
  }
}
