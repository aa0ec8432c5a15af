/**
 The resumable timeline: the server's cursor loop (backend/app/api/routes/runs.py,
 backend/app/services/event_service.py) and the client that merges what arrives
 (frontend/src/stores/runStore.ts), over a connection that may drop at any point.
 */
module Timeline {
  import opened Basics
  import opened RunStates
  import opened Store
  import opened Risk
  import opened History
  import opened Protocol
  import opened ProtocolInvariant
  import Jobs
  import ProtocolWitnesses

  /** An event with its sequence number, as it is sent. */
  datatype Ev = Ev(sequence: nat, event: Event)

  const PAGE := 500

  // ------------------------------------------------------------------ the server's log

  /** `list_events`: the events after a sequence number, in order, at most `limit` of them. */
  function ListEvents(events: map<nat, Event>, after: nat, limit: nat, top: nat): (page: seq<Ev>)
    ensures |page| <= limit
    decreases if top > after then top - after else 0
  {
    if limit == 0 || after >= top then []
    else if after + 1 in events then [Ev(after + 1, events[after + 1])] + ListEvents(events, after + 1, limit - 1, top)
    else ListEvents(events, after + 1, limit, top)
  }

  /** The whole log of a version of the run, whose events are numbered without gaps. */
  ghost function Log(t: Tables): (log: seq<Ev>)
    requires Numbered(t)
    ensures |log| == t.row.lastSequence
  {
    seq(t.row.lastSequence, i requires 0 <= i < t.row.lastSequence => Ev(i + 1, t.events[i + 1]))
  }

  function Page(t: Tables, after: nat): (page: seq<Ev>)
    ensures |page| <= PAGE
  {
    ListEvents(t.events, after, PAGE, t.row.lastSequence)
  }

  /** On a gap-free log a page is a contiguous slice: nothing is skipped. */
  lemma {:induction false} PageIsASlice(t: Tables, after: nat, limit: nat)
    requires Numbered(t)
    ensures ListEvents(t.events, after, limit, t.row.lastSequence)
            == if after >= |Log(t)| then [] else Log(t)[after..Min(after + limit, |Log(t)|)]
    decreases if t.row.lastSequence > after then t.row.lastSequence - after else 0
  {
    if limit > 0 && after < t.row.lastSequence {
      var log, b := Log(t), Min(after + limit, t.row.lastSequence);
      PageIsASlice(t, after + 1, limit - 1);
      assert after + 1 in t.events && log[after] == Ev(after + 1, t.events[after + 1]);
      assert ListEvents(t.events, after + 1, limit - 1, t.row.lastSequence) == log[after + 1..b];
      assert log[after..b] == [log[after]] + log[after + 1..b];
    }
  }

  /** The next page from a cursor inside the log, and the cursor it leaves. */
  lemma NextPage(t: Tables, cursor: nat)
    requires Numbered(t) && cursor <= t.row.lastSequence
    ensures var page, b := Page(t, cursor), Min(cursor + PAGE, t.row.lastSequence);
            && page == Log(t)[cursor..b]
            && (page == [] <==> cursor == t.row.lastSequence)
            && (page != [] ==> page[|page| - 1].sequence == b)
  {
    PageIsASlice(t, cursor, PAGE);
  }

  // ------------------------------------------------------------------ the client's merge

  ghost predicate Ascending(events: seq<Ev>) {
    forall i, j :: 0 <= i < j < |events| ==> events[i].sequence < events[j].sequence
  }

  predicate Holds(events: seq<Ev>, sequence: nat) {
    exists i :: 0 <= i < |events| && events[i].sequence == sequence
  }

  /** A stable sort by sequence number. */
  function SortBySequence(events: seq<Ev>): (r: seq<Ev>)
    ensures |r| == |events|
  {
    if events == [] then []
    else InsertBySequence(SortBySequence(events[..|events| - 1]), events[|events| - 1])
  }

  function InsertBySequence(sorted: seq<Ev>, e: Ev): (r: seq<Ev>)
    ensures |r| == |sorted| + 1
    ensures forall x :: x in r <==> x in sorted || x == e
  {
    if sorted == [] then [e]
    else
      var init, last := sorted[..|sorted| - 1], sorted[|sorted| - 1];
      assert sorted == init + [last];
      if e.sequence < last.sequence then InsertBySequence(init, e) + [last] else sorted + [e]
  }

  /** `mergeEvent`: a sequence already held is ignored; in order is the fast path; otherwise sort. */
  function MergeEvent(events: seq<Ev>, incoming: Ev): seq<Ev> {
    if Holds(events, incoming.sequence) then events
    else if events == [] || incoming.sequence > events[|events| - 1].sequence then events + [incoming]
    else SortBySequence(events + [incoming])
  }

  /** `mergeEvents`: one event after another. */
  function MergeEvents(events: seq<Ev>, incoming: seq<Ev>): seq<Ev> {
    if incoming == [] then events
    else MergeEvent(MergeEvents(events, incoming[..|incoming| - 1]), incoming[|incoming| - 1])
  }

  lemma {:induction false} SortingSorted(events: seq<Ev>)
    requires Ascending(events)
    ensures SortBySequence(events) == events
  {
    if events != [] {
      SortingSorted(events[..|events| - 1]);
      assert events == events[..|events| - 1] + [events[|events| - 1]];
    }
  }

  lemma {:induction false} InsertAscends(sorted: seq<Ev>, e: Ev)
    requires Ascending(sorted) && !Holds(sorted, e.sequence)
    ensures Ascending(InsertBySequence(sorted, e))
  {
    if sorted != [] {
      var init, last := sorted[..|sorted| - 1], sorted[|sorted| - 1];
      assert sorted == init + [last];
      assert last.sequence != e.sequence;
      if e.sequence < last.sequence {
        assert !Holds(init, e.sequence) by {
          assert forall i :: 0 <= i < |init| ==> init[i] == sorted[i];
        }
        InsertAscends(init, e);
        var r := InsertBySequence(init, e);
        forall i | 0 <= i < |r| ensures r[i].sequence < last.sequence {
          assert r[i] in r;
          assert r[i] in init || r[i] == e;
        }
      }
    }
  }

  /** Merging one event keeps the list ascending and adds at most that event. */
  lemma MergeOne(events: seq<Ev>, e: Ev)
    requires Ascending(events)
    ensures Ascending(MergeEvent(events, e))
    ensures Holds(events, e.sequence) ==> MergeEvent(events, e) == events
    ensures !Holds(events, e.sequence) ==> forall x :: x in MergeEvent(events, e) <==> x in events || x == e
  {
    if !Holds(events, e.sequence) {
      if events == [] || e.sequence > events[|events| - 1].sequence {
        assert events != [] ==> forall i :: 0 <= i < |events| ==> events[i].sequence <= events[|events| - 1].sequence;
      } else {
        SortingSorted(events);
        assert (events + [e])[..|events|] == events;
        InsertAscends(events, e);
      }
    }
  }

  /** Copies of one event are equal: what it takes for events to come from one log. */
  ghost predicate Agree(events: seq<Ev>) {
    forall x, y :: x in events && y in events && x.sequence == y.sequence ==> x == y
  }

  /** Merging any reordering with repeats of a set of events holds exactly that set, strictly ascending. */
  lemma {:induction false} MergeHoldsTheSet(incoming: seq<Ev>)
    requires Agree(incoming)
    ensures Ascending(MergeEvents([], incoming))
    ensures forall x :: x in MergeEvents([], incoming) <==> x in incoming
  {
    if incoming != [] {
      var init, last := incoming[..|incoming| - 1], incoming[|incoming| - 1];
      assert incoming == init + [last];
      assert forall x :: x in init ==> x in incoming;
      MergeHoldsTheSet(init);
      HoldsOneMore(init, MergeEvents([], init), last, incoming);
    }
  }

  lemma HoldsOneMore(init: seq<Ev>, held: seq<Ev>, last: Ev, incoming: seq<Ev>)
    requires incoming == init + [last] && Agree(incoming)
    requires Ascending(held) && forall x :: x in held <==> x in init
    ensures Ascending(MergeEvent(held, last))
    ensures forall x :: x in MergeEvent(held, last) <==> x in incoming
  {
    MergeOne(held, last);
    if Holds(held, last.sequence) {
      var i :| 0 <= i < |held| && held[i].sequence == last.sequence;
      assert held[i] in held;
      assert held[i] == last;
    }
  }

  /** A strictly ascending list is determined by its elements. */
  lemma {:induction false} AscendingIsUnique(a: seq<Ev>, b: seq<Ev>)
    requires Ascending(a) && Ascending(b) && forall x :: x in a <==> x in b
    ensures a == b
  {
    assert a == [] <==> b == [] by {
      if a != [] { assert a[0] in b; }
      if b != [] { assert b[0] in a; }
    }
    if a != [] {
      var x, y := a[|a| - 1], b[|b| - 1];
      assert x in b && y in a;
      assert x.sequence <= y.sequence && y.sequence <= x.sequence;
      assert x == y;
      var a', b' := a[..|a| - 1], b[..|b| - 1];
      assert a == a' + [x] && b == b' + [y];
      forall z ensures z in a' <==> z in b' {
        LastIsApart(a, z);
        LastIsApart(b, z);
      }
      AscendingIsUnique(a', b');
    }
  }

  lemma LastIsApart(a: seq<Ev>, z: Ev)
    requires Ascending(a) && a != []
    ensures z in a[..|a| - 1] <==> z in a && z != a[|a| - 1]
  {
  }

  /** Order and repetition of arrivals do not matter. */
  lemma MergeIgnoresOrder(a: seq<Ev>, b: seq<Ev>)
    requires Agree(a) && forall x :: x in a <==> x in b
    ensures MergeEvents([], a) == MergeEvents([], b)
  {
    assert Agree(b);
    MergeHoldsTheSet(a);
    MergeHoldsTheSet(b);
    AscendingIsUnique(MergeEvents([], a), MergeEvents([], b));
  }

  // ------------------------------------------------------------------ one run's versions over time

  ghost predicate LogsGrow(h: Versions) {
    && h != []
    && (forall k :: 0 <= k < |h| ==> Numbered(h[k]))
    && (forall i, k :: 0 <= i <= k < |h| ==> Extends(h[i], h[k]))
  }

  ghost predicate Extends(a: Tables, b: Tables) {
    EventsKept(a, b) && a.row.lastSequence <= b.row.lastSequence
  }

  lemma HistoryLogsGrow(search: Matcher, h: Versions)
    requires HistoryOk(search, h)
    ensures LogsGrow(h)
  {
    forall k: nat | k < |h| ensures Numbered(h[k]) {
      assert SoundAt(search, h, k);
    }
    forall i: nat, k: nat | i <= k < |h| ensures Extends(h[i], h[k]) {
      TimelineIsAppendOnly(search, h, i, k);
      if i < k {
        SequenceGrows(search, h, i, k);
      }
    }
  }

  ghost function LogAt(h: Versions, k: nat): seq<Ev>
    requires LogsGrow(h) && k < |h|
  {
    Log(h[k])
  }

  lemma LogIsAPrefix(h: Versions, i: nat, k: nat)
    requires LogsGrow(h) && i <= k < |h|
    ensures LogAt(h, i) <= LogAt(h, k)
  {
  }

  // ------------------------------------------------------------------ one connection's generator

  datatype Frame = RunEvent(ev: Ev) | KeepAlive | RunFinished(state: RunState)

  const IDLE_TICKS_PER_COMMENT := 15

  /** The events among the frames. */
  function Sent(frames: seq<Frame>): seq<Ev> {
    if frames == [] then []
    else Sent(frames[..|frames| - 1]) + (if frames[|frames| - 1].RunEvent? then [frames[|frames| - 1].ev] else [])
  }

  lemma {:induction false} EventsAreSent(frames: seq<Frame>, events: seq<Ev>)
    requires |frames| == |events| && forall i :: 0 <= i < |frames| ==> frames[i] == RunEvent(events[i])
    ensures Sent(frames) == events
  {
    if frames != [] {
      EventsAreSent(frames[..|frames| - 1], events[..|frames| - 1]);
    }
  }

  lemma {:induction false} CommentsSendNothing(frames: seq<Frame>)
    requires forall i :: 0 <= i < |frames| ==> !frames[i].RunEvent?
    ensures Sent(frames) == []
  {
    if frames != [] {
      CommentsSendNothing(frames[..|frames| - 1]);
    }
  }

  /** What one turn of the generator's loop does, keep-alive comments aside. */
  ghost predicate Ticked(t: Tables, before: int, after: int, frames: seq<Frame>, ended: bool)
    requires Numbered(t)
  {
    var from := Max(before, 0);
    && after == (if from < t.row.lastSequence then Min(from + PAGE, t.row.lastSequence) else before)
    && (ended <==> from >= t.row.lastSequence && IsTerminal(t.row.state))
    && Sent(frames) == (if from < t.row.lastSequence then Log(t)[from..after] else [])
  }

  /** The next page from any position. */
  lemma PageFrom(t: Tables, from: nat)
    requires Numbered(t)
    ensures from >= t.row.lastSequence ==> Page(t, from) == []
    ensures from < t.row.lastSequence ==>
              var page, b := Page(t, from), Min(from + PAGE, t.row.lastSequence);
              page == Log(t)[from..b] && page != [] && page[|page| - 1].sequence == b
  {
    if from < t.row.lastSequence {
      NextPage(t, from);
    }
  }

  lemma TurnIsATick(t: Tables, before: int, after: int, events: seq<Ev>, frames: seq<Frame>, ended: bool)
    requires Numbered(t) && events == Page(t, Max(before, 0))
    requires after == if events == [] then before else events[|events| - 1].sequence
    requires ended <==> IsTerminal(t.row.state) && events == []
    requires if events == [] then forall i :: 0 <= i < |frames| ==> !frames[i].RunEvent?
             else |frames| == |events| && forall i :: 0 <= i < |frames| ==> frames[i] == RunEvent(events[i])
    ensures Ticked(t, before, after, frames, ended)
  {
    PageFrom(t, Max(before, 0));
    if events != [] {
      EventsAreSent(frames, events);
    } else {
      CommentsSendNothing(frames);
    }
  }

  /** The frames of a turn: the events from the cursor on, or now and then a comment, and at the end the state. */
  ghost predicate Emits(t: Tables, from: nat, after: int, idleTicks: nat, frames: seq<Frame>, ended: bool)
    requires Numbered(t)
  {
    if from < t.row.lastSequence then
      && from <= after <= |Log(t)| && |frames| == after - from
      && forall i :: 0 <= i < |frames| ==> frames[i] == RunEvent(Log(t)[from + i])
    else
      frames == (if idleTicks % 15 == 0 then [KeepAlive] else []) + (if ended then [RunFinished(t.row.state)] else [])
  }

  lemma TurnEmits(t: Tables, from: nat, after: int, idleTicks: nat, events: seq<Ev>, frames: seq<Frame>, ended: bool)
    requires Numbered(t) && events == Page(t, from)
    requires events != [] ==>
               && after == events[|events| - 1].sequence
               && |frames| == |events| && forall i :: 0 <= i < |frames| ==> frames[i] == RunEvent(events[i])
    requires events == [] ==> frames == (if idleTicks % 15 == 0 then [KeepAlive] else [])
                                        + (if ended then [RunFinished(t.row.state)] else [])
    ensures Emits(t, from, after, idleTicks, frames, ended)
  {
    PageFrom(t, from);
  }

  /** A page sent, or an idle turn, and the end of a finished run. */
  predicate Turned(t: Tables, before: int, after: int, idleBefore: nat, idle: nat, events: seq<Ev>,
                   frames: seq<Frame>, ended: bool)
  {
    && events == Page(t, Max(before, 0))
    && (ended <==> IsTerminal(t.row.state) && events == [])
    && if events == [] then
         && after == before && idle == idleBefore + 1
         && frames == (if idle % 15 == 0 then [KeepAlive] else []) + (if ended then [RunFinished(t.row.state)] else [])
       else
         && after == events[|events| - 1].sequence && idle == 0
         && |frames| == |events| && forall i :: 0 <= i < |frames| ==> frames[i] == RunEvent(events[i])
  }

  lemma WhatATurnDoes(t: Tables, before: int, after: int, idleBefore: nat, idle: nat, events: seq<Ev>,
                      frames: seq<Frame>, ended: bool)
    requires Numbered(t) && Turned(t, before, after, idleBefore, idle, events, frames, ended)
    ensures Ticked(t, before, after, frames, ended) && Emits(t, Max(before, 0), after, idle, frames, ended)
    ensures idle == if Max(before, 0) < t.row.lastSequence then 0 else idleBefore + 1
  {
    PageFrom(t, Max(before, 0));
    TurnIsATick(t, before, after, events, frames, ended);
    TurnEmits(t, Max(before, 0), after, idle, events, frames, ended);
  }

  /** The loop variables of `stream_events.generator`; one call of `Tick` is one turn of its loop. */
  class EventGenerator {
    var cursor: int
    var idleTicks: nat

    constructor (after: int, lastEventId: Option<nat>)
      ensures cursor == StartAfter(after, lastEventId) && idleTicks == 0
    {
      cursor := StartAfter(after, lastEventId);
      idleTicks := 0;
    }

    /**
     Sends the next page, and ends the stream once the run is terminal and nothing is left to send.
     The client chooses where the cursor starts, even beyond the log, and then nothing is sent until the
     log has passed it; sequence numbers begin at one, so a negative cursor reads like zero.
     */
    method Tick(t: Tables) returns (frames: seq<Frame>, ended: bool)
      requires Numbered(t)
      modifies this
      ensures Ticked(t, old(cursor), cursor, frames, ended)
      ensures Emits(t, Max(old(cursor), 0), cursor, idleTicks, frames, ended)
      ensures idleTicks == if Max(old(cursor), 0) < t.row.lastSequence then 0 else old(idleTicks) + 1
    {
      ghost var before, idleBefore := cursor, idleTicks;
      var events;
      events, frames := SendPage(t);
      ended := IsTerminal(t.row.state) && events == [];
      if ended {
        frames := frames + [RunFinished(t.row.state)];
      }
      WhatATurnDoes(t, before, cursor, idleBefore, idleTicks, events, frames, ended);
    }

    /** The next page, or an idle turn when there is none. */
    method SendPage(t: Tables) returns (events: seq<Ev>, frames: seq<Frame>)
      modifies this
      ensures events == Page(t, Max(old(cursor), 0))
      ensures cursor == if events == [] then old(cursor) else events[|events| - 1].sequence
      ensures idleTicks == if events == [] then old(idleTicks) + 1 else 0
      ensures if events == [] then frames == (if idleTicks % 15 == 0 then [KeepAlive] else [])
              else |frames| == |events| && forall i :: 0 <= i < |frames| ==> frames[i] == RunEvent(events[i])
    {
      events := Page(t, Max(cursor, 0));
      frames := SendEvents(events);
      if events != [] {
        idleTicks := 0;
      } else {
        frames := StayAlive();
      }
    }

    /** An idle turn; a comment now and then keeps the connection open. */
    method StayAlive() returns (frames: seq<Frame>)
      modifies this`idleTicks
      ensures idleTicks == old(idleTicks) + 1
      ensures frames == if idleTicks % IDLE_TICKS_PER_COMMENT == 0 then [KeepAlive] else []
    {
      idleTicks := idleTicks + 1;
      frames := [];
      if idleTicks % IDLE_TICKS_PER_COMMENT == 0 {
        frames := [KeepAlive];
      }
    }

    /** One frame per event; the cursor follows. */
    method SendEvents(events: seq<Ev>) returns (frames: seq<Frame>)
      modifies this`cursor
      ensures |frames| == |events| && forall i :: 0 <= i < |frames| ==> frames[i] == RunEvent(events[i])
      ensures cursor == if events == [] then old(cursor) else events[|events| - 1].sequence
    {
      frames := [];
      for i := 0 to |events|
        invariant |frames| == i
        invariant forall j :: 0 <= j < i ==> frames[j] == RunEvent(events[j])
        invariant cursor == if i == 0 then old(cursor) else events[i - 1].sequence
      {
        cursor := events[i].sequence;
        frames := frames + [RunEvent(events[i])];
      }
    }
  }

  function StartAfter(after: int, lastEventId: Option<nat>): int {
    if lastEventId.None? then after else Max(after, lastEventId.value)
  }

  // ------------------------------------------------------------------ the client

  /** A live connection: the generator's cursor, and the frames sent but not yet received. */
  datatype Connection = Connection(cursor: nat, inFlight: seq<Ev>)

  /** An `EventSource`: the `after` of its URL, the last event id it saw, and its connection if it has one. */
  datatype Stream = Stream(after: nat, lastEventId: Option<nat>, connection: Option<Connection>)

  /** How many versions are committed, and what one client holds. */
  datatype Client = Client(at: nat, events: seq<Ev>, stream: Option<Stream>)

  datatype StreamStep =
    | CommitNext
    | Connect
    | Poll
    | Receive
    | Disconnect
    | Close

  /** The highest sequence held, or zero. */
  function LastSequence(events: seq<Ev>): nat {
    if events == [] then 0 else events[|events| - 1].sequence
  }

  /**
   `watch`: the run and the history are fetched side by side, so they may show different
   versions; a terminal run opens no stream.
   */
  ghost function Watch(h: Versions, at: nat, runAt: nat, historyAt: nat): Client
    requires runAt <= at < |h| && historyAt <= at
  {
    var events := MergeEvents([], Page(h[historyAt], 0));
    Client(at, events, if IsTerminal(h[runAt].row.state) then None else Some(Stream(LastSequence(events), None, None)))
  }

  /** A step that is not enabled changes nothing; a dropped connection loses what is in flight. */
  function StreamDo(h: Versions, c: Client, step: StreamStep): Client {
    match step
    case CommitNext => if c.at + 1 < |h| then c.(at := c.at + 1) else c
    case Connect =>
      if c.stream.None? || c.stream.value.connection.Some? then c
      else
        var s := c.stream.value;
        c.(stream := Some(s.(connection := Some(Connection(StartAfter(s.after, s.lastEventId), [])))))
    case Poll =>
      if c.stream.None? || c.stream.value.connection.None? || c.at >= |h| then c
      else
        var k := c.stream.value.connection.value;
        var page := Page(h[c.at], k.cursor);
        if page == [] then c
        else
          var next := Connection(page[|page| - 1].sequence, k.inFlight + page);
          c.(stream := Some(c.stream.value.(connection := Some(next))))
    case Receive =>
      if c.stream.None? || c.stream.value.connection.None? || c.stream.value.connection.value.inFlight == [] then c
      else
        var s := c.stream.value;
        var e := s.connection.value.inFlight[0];
        Client(c.at, MergeEvent(c.events, e),
               Some(s.(lastEventId := Some(e.sequence),
                       connection := Some(s.connection.value.(inFlight := s.connection.value.inFlight[1..])))))
    case Disconnect =>
      if c.stream.None? then c else c.(stream := Some(c.stream.value.(connection := None)))
    case Close => c.(stream := None)
  }

  ghost function StreamAll(h: Versions, c: Client, steps: seq<StreamStep>): Client {
    if steps == [] then c
    else StreamDo(h, StreamAll(h, c, steps[..|steps| - 1]), steps[|steps| - 1])
  }

  // ------------------------------------------------------------------ the client holds a prefix

  /** What is in flight is a contiguous piece of the log that starts no later than where the client's list ends. */
  ghost predicate ConnectionOk(log: seq<Ev>, held: nat, k: Connection) {
    && |k.inFlight| <= k.cursor <= |log|
    && k.inFlight == log[k.cursor - |k.inFlight|..k.cursor]
    && k.cursor - |k.inFlight| <= held
  }

  ghost predicate StreamOk(log: seq<Ev>, held: nat, s: Stream) {
    && s.after <= held
    && (s.lastEventId.Some? ==> s.lastEventId.value <= held)
    && (s.connection.Some? ==> ConnectionOk(log, held, s.connection.value))
  }

  ghost predicate ClientOk(h: Versions, c: Client)
    requires LogsGrow(h)
  {
    && c.at < |h|
    && |c.events| <= |LogAt(h, c.at)|
    && c.events == LogAt(h, c.at)[..|c.events|]
    && (c.stream.Some? ==> StreamOk(LogAt(h, c.at), |c.events|, c.stream.value))
  }

  /** Merging an event of the log into a prefix that ends at or after it. */
  lemma MergeIntoPrefix(log: seq<Ev>, held: nat, j: nat)
    requires forall i :: 0 <= i < |log| ==> log[i].sequence == i + 1
    requires j <= held <= |log| && j < |log|
    ensures MergeEvent(log[..held], log[j]) == log[..Max(held, j + 1)]
  {
  }

  lemma {:induction false} MergePage(log: seq<Ev>, b: nat)
    requires forall i :: 0 <= i < |log| ==> log[i].sequence == i + 1
    requires b <= |log|
    ensures MergeEvents([], log[..b]) == log[..b]
  {
    if b > 0 {
      assert log[..b][..b - 1] == log[..b - 1];
      MergePage(log, b - 1);
      MergeIntoPrefix(log, b - 1, b - 1);
    }
  }

  lemma FirstPage(t: Tables)
    requires Numbered(t)
    ensures MergeEvents([], Page(t, 0)) == Log(t)[..Min(PAGE, |Log(t)|)]
  {
    PageIsASlice(t, 0, PAGE);
    if |Log(t)| > 0 {
      assert Page(t, 0) == Log(t)[..Min(PAGE, |Log(t)|)];
      MergePage(Log(t), Min(PAGE, |Log(t)|));
    }
  }

  lemma TakePrefix(a: seq<Ev>, b: seq<Ev>, n: nat)
    requires a <= b && n <= |a|
    ensures b[..n] == a[..n]
  {
  }

  lemma WatchIsOk(h: Versions, at: nat, runAt: nat, historyAt: nat)
    requires LogsGrow(h) && runAt <= at < |h| && historyAt <= at
    ensures ClientOk(h, Watch(h, at, runAt, historyAt))
    ensures |Watch(h, at, runAt, historyAt).events| == Min(PAGE, |LogAt(h, historyAt)|)
  {
    FirstPage(h[historyAt]);
    LogIsAPrefix(h, historyAt, at);
    TakePrefix(LogAt(h, historyAt), LogAt(h, at), Min(PAGE, |LogAt(h, historyAt)|));
  }

  lemma PolledConnection(log: seq<Ev>, held: nat, k: Connection, b: nat)
    requires ConnectionOk(log, held, k) && k.cursor <= b <= |log|
    ensures ConnectionOk(log, held, Connection(b, k.inFlight + log[k.cursor..b]))
  {
    assert k.inFlight + log[k.cursor..b] == log[k.cursor - |k.inFlight|..b];
  }

  lemma PollIsOk(h: Versions, c: Client)
    requires LogsGrow(h) && ClientOk(h, c)
    ensures ClientOk(h, StreamDo(h, c, Poll))
  {
    if c.stream.Some? && c.stream.value.connection.Some? {
      var k, log := c.stream.value.connection.value, LogAt(h, c.at);
      NextPage(h[c.at], k.cursor);
      PolledConnection(log, |c.events|, k, Min(k.cursor + PAGE, |log|));
    }
  }

  /**
   What the model calls a poll is one turn of the server's loop: at an open connection's cursor it
   puts in flight exactly the events the turn sends and moves the cursor as the turn does; the turn
   ends the stream exactly when the run is terminal and nothing was sent.
   */
  lemma PollIsOneTurn(h: Versions, c: Client, after: int, frames: seq<Frame>, ended: bool)
    requires LogsGrow(h) && ClientOk(h, c) && c.stream.Some? && c.stream.value.connection.Some?
    requires Ticked(h[c.at], c.stream.value.connection.value.cursor, after, frames, ended)
    ensures after >= 0
    ensures var s := c.stream.value;
            StreamDo(h, c, Poll) ==
            c.(stream := Some(s.(connection := Some(Connection(after, s.connection.value.inFlight + Sent(frames))))))
    ensures ended <==> IsTerminal(h[c.at].row.state) && Sent(frames) == []
  {
    var k := c.stream.value.connection.value;
    TickedFrom(h[c.at], k.cursor, after, frames, ended);
    assert k.inFlight + [] == k.inFlight;
  }

  /** A turn at a cursor inside the log sends the page from there. */
  lemma TickedFrom(t: Tables, cursor: nat, after: int, frames: seq<Frame>, ended: bool)
    requires Numbered(t) && cursor <= t.row.lastSequence && Ticked(t, cursor, after, frames, ended)
    ensures var page := Page(t, cursor);
            && Sent(frames) == page && after == (if page == [] then cursor else page[|page| - 1].sequence)
            && (ended <==> IsTerminal(t.row.state) && page == [])
  {
    NextPage(t, cursor);
  }

  /** The next event of a connection goes where the client's list ends, or is already in it. */
  lemma ReceiveOne(log: seq<Ev>, held: nat, k: Connection)
    requires forall i :: 0 <= i < |log| ==> log[i].sequence == i + 1
    requires held <= |log| && ConnectionOk(log, held, k) && k.inFlight != []
    ensures var now := Max(held, k.cursor - |k.inFlight| + 1);
            && now <= |log| && MergeEvent(log[..held], k.inFlight[0]) == log[..now]
            && k.inFlight[0].sequence <= now
            && ConnectionOk(log, now, k.(inFlight := k.inFlight[1..]))
  {
    var j := k.cursor - |k.inFlight|;
    assert k.inFlight[0] == log[j];
    MergeIntoPrefix(log, held, j);
    assert k.inFlight[1..] == log[j + 1..k.cursor];
  }

  lemma ReceiveIsOk(h: Versions, c: Client)
    requires LogsGrow(h) && ClientOk(h, c)
    ensures ClientOk(h, StreamDo(h, c, Receive))
    ensures |StreamDo(h, c, Receive).events| >= |c.events|
  {
    if c.stream.Some? && c.stream.value.connection.Some? && c.stream.value.connection.value.inFlight != [] {
      ReceiveOne(LogAt(h, c.at), |c.events|, c.stream.value.connection.value);
    }
  }

  lemma CommitIsOk(h: Versions, c: Client)
    requires LogsGrow(h) && ClientOk(h, c)
    ensures ClientOk(h, StreamDo(h, c, CommitNext))
  {
    if c.at + 1 < |h| {
      LogIsAPrefix(h, c.at, c.at + 1);
      StreamStays(LogAt(h, c.at), LogAt(h, c.at + 1), |c.events|, c.stream);
      TakePrefix(LogAt(h, c.at), LogAt(h, c.at + 1), |c.events|);
    }
  }

  /** A longer log changes nothing for what is in flight. */
  lemma StreamStays(early: seq<Ev>, log: seq<Ev>, held: nat, stream: Option<Stream>)
    requires early <= log && (stream.Some? ==> StreamOk(early, held, stream.value))
    ensures stream.Some? ==> StreamOk(log, held, stream.value)
  {
  }

  lemma StepIsOk(h: Versions, c: Client, step: StreamStep)
    requires LogsGrow(h) && ClientOk(h, c)
    ensures ClientOk(h, StreamDo(h, c, step))
    ensures |StreamDo(h, c, step).events| >= |c.events| && StreamDo(h, c, step).at >= c.at
  {
    match step {
      case CommitNext => CommitIsOk(h, c);
      case Poll => PollIsOk(h, c);
      case Receive => ReceiveIsOk(h, c);
      case _ =>
    }
  }

  lemma {:induction false} StepsAreOk(h: Versions, c: Client, steps: seq<StreamStep>)
    requires LogsGrow(h) && ClientOk(h, c)
    ensures ClientOk(h, StreamAll(h, c, steps)) && StreamAll(h, c, steps).at >= c.at
    ensures |StreamAll(h, c, steps).events| >= |c.events|
  {
    if steps != [] {
      StepsAreOk(h, c, steps[..|steps| - 1]);
      StepIsOk(h, StreamAll(h, c, steps[..|steps| - 1]), steps[|steps| - 1]);
    }
  }

  /**
   The client always holds a prefix: for every history of the whole system, every run in it, and
   every interleaving of commits, polls, receipts, disconnects and reconnects after a `watch`,
   the client's list is exactly the first events of the server's log, and never gets shorter.
   */
  lemma ClientHoldsAPrefix(search: Matcher, history: seq<Step>, r: Jobs.RunId, at: nat, runAt: nat, historyAt: nat,
                           steps: seq<StreamStep>, more: seq<StreamStep>)
    requires r in After(search, history).runs
    requires runAt <= at < |After(search, history).runs[r]| && historyAt <= at
    ensures var h := After(search, history).runs[r];
            var early := StreamAll(h, Watch(h, at, runAt, historyAt), steps);
            var late := StreamAll(h, Watch(h, at, runAt, historyAt), steps + more);
            && LogsGrow(h) && early.at <= late.at < |h|
            && early.events <= late.events <= LogAt(h, late.at)
  {
    var h := After(search, history).runs[r];
    EveryHistoryIsSafe(search, history);
    HistoryLogsGrow(search, h);
    WatchIsOk(h, at, runAt, historyAt);
    var c := Watch(h, at, runAt, historyAt);
    StepsAreOk(h, c, steps);
    var early := StreamAll(h, c, steps);
    StepsAreOk(h, early, more);
    AllInTwoParts(h, c, steps, more);
    LogIsAPrefix(h, early.at, StreamAll(h, early, more).at);
  }

  lemma {:induction false} AllInTwoParts(h: Versions, c: Client, steps: seq<StreamStep>, more: seq<StreamStep>)
    ensures StreamAll(h, c, steps + more) == StreamAll(h, StreamAll(h, c, steps), more)
  {
    if more == [] {
      assert steps + more == steps;
    } else {
      assert (steps + more)[..|steps + more| - 1] == steps + more[..|more| - 1];
      AllInTwoParts(h, c, steps, more[..|more| - 1]);
    }
  }

  // ------------------------------------------------------------------ catching up

  function Receives(n: nat): seq<StreamStep> {
    seq(n, _ => Receive)
  }

  /** After `n` receipts from a connection. */
  ghost predicate Drained(h: Versions, c: Client, k: Connection, n: nat, d: Client)
    requires LogsGrow(h) && n <= |k.inFlight| <= k.cursor
  {
    && d.at == c.at && ClientOk(h, d)
    && d.stream.Some? && d.stream.value.connection == Some(Connection(k.cursor, k.inFlight[n..]))
    && |d.events| == Max(|c.events|, if n == 0 then 0 else k.cursor - |k.inFlight| + n)
  }

  lemma OneReceipt(h: Versions, c: Client, k: Connection, n: nat, d: Client)
    requires LogsGrow(h) && n < |k.inFlight| <= k.cursor && Drained(h, c, k, n, d)
    ensures Drained(h, c, k, n + 1, StreamDo(h, d, Receive))
  {
    ReceiveIsOk(h, d);
    var log := LogAt(h, d.at);
    var j := k.cursor - |k.inFlight| + n;
    assert k.inFlight[n..][0] == log[j];
    MergeIntoPrefix(log, |d.events|, j);
    assert k.inFlight[n..][1..] == k.inFlight[n + 1..];
  }

  lemma {:induction false} ReceivingDrains(h: Versions, c: Client, n: nat)
    requires LogsGrow(h) && ClientOk(h, c) && c.stream.Some? && c.stream.value.connection.Some?
    requires n <= |c.stream.value.connection.value.inFlight|
    ensures Drained(h, c, c.stream.value.connection.value, n, StreamAll(h, c, Receives(n)))
  {
    var k := c.stream.value.connection.value;
    if n == 0 {
      assert k.inFlight[0..] == k.inFlight;
    } else {
      ReceivingDrains(h, c, n - 1);
      assert Receives(n)[..n - 1] == Receives(n - 1);
      OneReceipt(h, c, k, n - 1, StreamAll(h, c, Receives(n - 1)));
    }
  }

  /** An idle connection that polls and delivers gains a whole page, so no page limit loses an event for good. */
  lemma OnePageAtATime(h: Versions, c: Client)
    requires LogsGrow(h) && ClientOk(h, c) && c.stream.Some?
    requires c.stream.value.connection == Some(Connection(|c.events|, []))
    ensures var b := Min(|c.events| + PAGE, |LogAt(h, c.at)|);
            StreamAll(h, StreamDo(h, c, Poll), Receives(b - |c.events|)).events == LogAt(h, c.at)[..b]
  {
    PolledPage(h, c);
    var p, n := StreamDo(h, c, Poll), Min(|c.events| + PAGE, |LogAt(h, c.at)|) - |c.events|;
    ReceivingDrains(h, p, n);
    DrainedIsThere(h, p, p.stream.value.connection.value, n, StreamAll(h, p, Receives(n)));
  }

  lemma PolledPage(h: Versions, c: Client)
    requires LogsGrow(h) && ClientOk(h, c) && c.stream.Some?
    requires c.stream.value.connection == Some(Connection(|c.events|, []))
    ensures var p, b := StreamDo(h, c, Poll), Min(|c.events| + PAGE, |LogAt(h, c.at)|);
            && ClientOk(h, p) && p.events == c.events && p.at == c.at
            && p.stream.Some? && p.stream.value.connection.Some?
            && p.stream.value.connection.value.cursor == b
            && |p.stream.value.connection.value.inFlight| == b - |c.events|
  {
    NextPage(h[c.at], |c.events|);
    PollIsOk(h, c);
  }

  lemma DrainedIsThere(h: Versions, c: Client, k: Connection, n: nat, d: Client)
    requires LogsGrow(h) && n <= |k.inFlight| <= k.cursor && Drained(h, c, k, n, d)
    requires k.cursor - |k.inFlight| == |c.events| && n == |k.inFlight|
    ensures d.at == c.at < |h| && k.cursor <= |LogAt(h, d.at)| && d.events == LogAt(h, d.at)[..k.cursor]
  {
  }

  // ------------------------------------------------------------------ resuming

  /**
   What a client starts with: the first page of the history it fetched; and, unless the run was seen
   finished, a stream that will start right after the last event held.
   */
  lemma WatchOpensAtTheEnd(h: Versions, at: nat, runAt: nat, historyAt: nat)
    requires LogsGrow(h) && runAt <= at < |h| && historyAt <= at
    ensures var c, log := Watch(h, at, runAt, historyAt), LogAt(h, historyAt);
            && c.at == at && c.events == log[..Min(500, |log|)]
            && c.stream == if h[runAt].row.state in {Completed, RunState.Failed, Cancelled} then None
                           else Some(Stream(Min(500, |log|), None, None))
  {
    FirstPage(h[historyAt]);
  }

  /** Where a stream starts when it connects. */
  function ResumesAt(s: Stream): nat {
    if s.lastEventId.Some? && s.lastEventId.value > s.after then s.lastEventId.value else s.after
  }

  /**
   Dropping a connection loses what is in flight and nothing else; the next one starts after the last
   event that was received, or where the first one started if none was, and never beyond what is held.
   */
  lemma ReconnectingResumes(h: Versions, c: Client)
    requires LogsGrow(h) && ClientOk(h, c) && c.stream.Some?
    ensures var s, from := c.stream.value, ResumesAt(c.stream.value);
            var dropped := StreamDo(h, c, Disconnect);
            && dropped == Client(c.at, c.events, Some(Stream(s.after, s.lastEventId, None)))
            && StreamDo(h, dropped, Connect)
               == Client(c.at, c.events, Some(Stream(s.after, s.lastEventId, Some(Connection(from, [])))))
            && from <= |c.events|
  {
  }

  /** The next connection would start where the client's list ends, and what is in flight does. */
  predicate InStep(c: Client) {
    c.stream.Some? ==>
      && ResumesAt(c.stream.value) == |c.events|
      && (c.stream.value.connection.Some? ==>
            c.stream.value.connection.value.cursor == |c.events| + |c.stream.value.connection.value.inFlight|)
  }

  lemma ReceivingStaysInStep(h: Versions, c: Client)
    requires LogsGrow(h) && ClientOk(h, c) && InStep(c)
    ensures InStep(StreamDo(h, c, Receive))
  {
    if c.stream.Some? && c.stream.value.connection.Some? && c.stream.value.connection.value.inFlight != [] {
      var k, log := c.stream.value.connection.value, LogAt(h, c.at);
      ReceiveOne(log, |c.events|, k);
      assert k.inFlight[0] == log[|c.events|];
      assert |StreamDo(h, c, Receive).events| == |c.events| + 1;
    }
  }

  lemma StaysInStep(h: Versions, c: Client, step: StreamStep)
    requires LogsGrow(h) && ClientOk(h, c) && InStep(c)
    ensures InStep(StreamDo(h, c, step))
  {
    match step {
      case Receive => ReceivingStaysInStep(h, c);
      case Poll =>
        if c.stream.Some? && c.stream.value.connection.Some? {
          NextPage(h[c.at], c.stream.value.connection.value.cursor);
        }
      case _ =>
    }
  }

  lemma {:induction false} StepsStayInStep(h: Versions, c: Client, steps: seq<StreamStep>)
    requires LogsGrow(h) && ClientOk(h, c) && InStep(c)
    ensures InStep(StreamAll(h, c, steps))
  {
    if steps != [] {
      StepsStayInStep(h, c, steps[..|steps| - 1]);
      StepsAreOk(h, c, steps[..|steps| - 1]);
      StaysInStep(h, StreamAll(h, c, steps[..|steps| - 1]), steps[|steps| - 1]);
    }
  }

  /**
   No event is sent twice and none is skipped: whatever a client has been through since its watch, a new
   connection starts exactly where its list ends, and what is in flight starts there too.
   */
  lemma NothingIsSentTwice(search: Matcher, history: seq<Step>, r: Jobs.RunId, at: nat, runAt: nat, historyAt: nat,
                           steps: seq<StreamStep>)
    requires r in After(search, history).runs
    requires runAt <= at < |After(search, history).runs[r]| && historyAt <= at
    ensures var h := After(search, history).runs[r]; InStep(StreamAll(h, Watch(h, at, runAt, historyAt), steps))
  {
    var h := After(search, history).runs[r];
    EveryHistoryIsSafe(search, history);
    HistoryLogsGrow(search, h);
    WatchIsOk(h, at, runAt, historyAt);
    WatchOpensAtTheEnd(h, at, runAt, historyAt);
    StepsStayInStep(h, Watch(h, at, runAt, historyAt), steps);
  }

  /** Time passing shows the client nothing by itself, and closing a stream takes nothing away. */
  lemma WaitingAndClosing(h: Versions, c: Client)
    ensures StreamDo(h, c, CommitNext) == Client(if c.at + 1 < |h| then c.at + 1 else c.at, c.events, c.stream)
    ensures StreamDo(h, c, Close) == Client(c.at, c.events, None)
  {
  }

  /** An open connection with nothing in flight. */
  predicate Listening(c: Client, cursor: nat) {
    c.stream.Some? && c.stream.value.connection == Some(Connection(cursor, []))
  }

  /** A page polled and received: the cursor is past it, and so is what is held. */
  lemma OnePageMore(h: Versions, c: Client, cursor: nat) returns (steps: seq<StreamStep>)
    requires LogsGrow(h) && ClientOk(h, c) && Listening(c, cursor) && cursor < |LogAt(h, c.at)|
    ensures var d, b := StreamAll(h, c, steps), Min(cursor + PAGE, |LogAt(h, c.at)|);
            ClientOk(h, d) && d.at == c.at && Listening(d, b) && |d.events| == Max(|c.events|, b)
  {
    var b := Min(cursor + PAGE, |LogAt(h, c.at)|);
    var p := StreamDo(h, c, Poll);
    PolledFrom(h, c, cursor);
    ReceivingDrains(h, p, b - cursor);
    steps := [Poll] + Receives(b - cursor);
    AllInTwoParts(h, c, [Poll], Receives(b - cursor));
    assert StreamAll(h, c, [Poll]) == p by {
      assert [Poll][..0] == [];
    }
    DrainedListens(h, p, p.stream.value.connection.value, StreamAll(h, p, Receives(b - cursor)));
  }

  lemma PolledFrom(h: Versions, c: Client, cursor: nat)
    requires LogsGrow(h) && ClientOk(h, c) && Listening(c, cursor) && cursor < |LogAt(h, c.at)|
    ensures var p, b := StreamDo(h, c, Poll), Min(cursor + PAGE, |LogAt(h, c.at)|);
            && ClientOk(h, p) && p.at == c.at && p.events == c.events
            && p.stream.Some? && p.stream.value.connection.Some?
            && p.stream.value.connection.value.cursor == b
            && |p.stream.value.connection.value.inFlight| == b - cursor > 0
  {
    NextPage(h[c.at], cursor);
    PollIsOk(h, c);
  }

  lemma DrainedListens(h: Versions, c: Client, k: Connection, d: Client)
    requires LogsGrow(h) && 0 < |k.inFlight| <= k.cursor && Drained(h, c, k, |k.inFlight|, d)
    ensures ClientOk(h, d) && d.at == c.at && Listening(d, k.cursor) && |d.events| == Max(|c.events|, k.cursor)
  {
    assert k.inFlight[|k.inFlight|..] == [];
  }

  lemma {:induction false} ListeningCatchesUp(h: Versions, c: Client, cursor: nat) returns (steps: seq<StreamStep>)
    requires LogsGrow(h) && ClientOk(h, c) && Listening(c, cursor)
    ensures StreamAll(h, c, steps).at == c.at && StreamAll(h, c, steps).events == LogAt(h, c.at)
    decreases |LogAt(h, c.at)| - cursor
  {
    if cursor == |LogAt(h, c.at)| {
      steps := [];
    } else {
      var first := OnePageMore(h, c, cursor);
      var d := StreamAll(h, c, first);
      var more := ListeningCatchesUp(h, d, Min(cursor + PAGE, |LogAt(h, c.at)|));
      steps := first + more;
      AllInTwoParts(h, c, first, more);
    }
  }

  /**
   No event is lost for good: whatever a client with a stream has been through, if it reconnects and
   listens on it can come to hold the whole log, however many pages that is.
   */
  lemma EveryClientCanCatchUp(search: Matcher, history: seq<Step>, r: Jobs.RunId, at: nat, runAt: nat, historyAt: nat,
                              steps: seq<StreamStep>)
    returns (more: seq<StreamStep>)
    requires r in After(search, history).runs
    requires runAt <= at < |After(search, history).runs[r]| && historyAt <= at
    requires StreamAll(After(search, history).runs[r], Watch(After(search, history).runs[r], at, runAt, historyAt),
                       steps).stream.Some?
    ensures var h := After(search, history).runs[r];
            var c := StreamAll(h, Watch(h, at, runAt, historyAt), steps);
            LogsGrow(h) && c.at < |h| && StreamAll(h, c, more).events == LogAt(h, c.at)
  {
    var h := After(search, history).runs[r];
    EveryHistoryIsSafe(search, history);
    HistoryLogsGrow(search, h);
    WatchIsOk(h, at, runAt, historyAt);
    StepsAreOk(h, Watch(h, at, runAt, historyAt), steps);
    more := ReconnectsAndCatchesUp(h, StreamAll(h, Watch(h, at, runAt, historyAt), steps));
  }

  lemma ReconnectsAndCatchesUp(h: Versions, c: Client) returns (more: seq<StreamStep>)
    requires LogsGrow(h) && ClientOk(h, c) && c.stream.Some?
    ensures StreamAll(h, c, more).events == LogAt(h, c.at)
  {
    ReconnectingResumes(h, c);
    StepIsOk(h, c, Disconnect);
    var dropped := StreamDo(h, c, Disconnect);
    StepIsOk(h, dropped, Connect);
    var d := StreamDo(h, dropped, Connect);
    var later := ListeningCatchesUp(h, d, d.stream.value.connection.value.cursor);
    more := [Disconnect, Connect] + later;
    AllInTwoParts(h, c, [Disconnect, Connect], later);
    assert [Disconnect, Connect][..1] == [Disconnect] && [Disconnect][..0] == [];
    assert StreamAll(h, c, [Disconnect]) == dropped;
  }

  /**
   Watching a run that is seen finished opens no stream, so the history fetched beside it is all the
   client ever gets. It is the whole log exactly when that fits in one page and the history was read
   no earlier than the last event was committed.
   */
  lemma FinishedRunsShowWhatWasFetched(h: Versions, at: nat, runAt: nat, historyAt: nat, steps: seq<StreamStep>)
    requires LogsGrow(h) && runAt <= at < |h| && historyAt <= at && IsTerminal(h[runAt].row.state)
    ensures var held, log := StreamAll(h, Watch(h, at, runAt, historyAt), steps).events, LogAt(h, |h| - 1);
            && held == LogAt(h, historyAt)[..Min(PAGE, |LogAt(h, historyAt)|)]
            && (held == log <==> |log| <= PAGE && |LogAt(h, historyAt)| == |log|)
  {
    FirstPage(h[historyAt]);
    NoStreamNoChange(h, Watch(h, at, runAt, historyAt), steps);
    LogIsAPrefix(h, historyAt, |h| - 1);
    FirstPageIsAll(LogAt(h, historyAt), LogAt(h, |h| - 1));
  }

  lemma FirstPageIsAll(early: seq<Ev>, log: seq<Ev>)
    requires early <= log
    ensures early[..Min(PAGE, |early|)] == log <==> |log| <= PAGE && |early| == |log|
  {
    if |log| <= PAGE && |early| == |log| {
      assert early == log;
    }
  }

  lemma {:induction false} NoStreamNoChange(h: Versions, c: Client, steps: seq<StreamStep>)
    requires c.stream.None?
    ensures StreamAll(h, c, steps).events == c.events && StreamAll(h, c, steps).stream.None?
  {
    if steps != [] {
      NoStreamNoChange(h, c, steps[..|steps| - 1]);
    }
  }

  /**
   The two fetches may show different versions: whenever a run is seen finished beside a history
   read one version earlier, the client never shows the end of the log, however short it is.
   */
  lemma EarlyHistoryStaysIncomplete(search: Matcher, h: Versions, steps: seq<StreamStep>)
    requires HistoryOk(search, h) && |h| >= 2 && IsTerminal(Latest(h).row.state)
    ensures LogsGrow(h)
    ensures var n := |h| - 1; StreamAll(h, Watch(h, n, n, n - 1), steps).events < LogAt(h, n)
  {
    HistoryLogsGrow(search, h);
    SequenceGrows(search, h, |h| - 2, |h| - 1);
    FinishedRunsShowWhatWasFetched(h, |h| - 1, |h| - 1, |h| - 2, steps);
    LogIsAPrefix(h, |h| - 2, |h| - 1);
  }

  /** The system does get there: a run is cancelled, and a client reads its history just before that. */
  lemma AFinishedRunCanStayIncomplete(search: Matcher, steps: seq<StreamStep>)
    ensures var s := After(search, ProtocolWitnesses.SUCCEEDED);
            && 0 in s.runs && |s.runs[0]| == 2 && LogsGrow(s.runs[0])
            && StreamAll(s.runs[0], Watch(s.runs[0], 1, 1, 0), steps).events < LogAt(s.runs[0], 1)
  {
    ProtocolWitnesses.SecondIsDone(search);
    EveryHistoryIsSafe(search, ProtocolWitnesses.SUCCEEDED);
    EarlyHistoryStaysIncomplete(search, After(search, ProtocolWitnesses.SUCCEEDED).runs[0], steps);
  }
}
