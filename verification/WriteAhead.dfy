/**
 The two promise queues a run writes through: stream chunks, and snapshots of the
 state that must not overtake the chunks appended before them. A handler is called
 when its link starts and the next link starts only once it has settled; a failure
 settles its link like a success, after leaving a mark.
 */
module WriteAhead {
  import opened Prelude

  /** A snapshot waits for every output link that existed when it was published. */
  datatype Snapshot = Snapshot(needs: nat)

  datatype Delivery = ChunkHanded(sequence: nat) | StateHanded(index: nat)

  /**
   `links` holds the sequence numbers of the chunks chained so far, `failedAt` the
   link whose handler failed. A link is settled once its handler has returned.
   */
  datatype Queues = Queues(
    sequence: nat, links: seq<nat>, started: nat, settled: nat, failedAt: Option<nat>,
    snapshots: seq<Snapshot>, handed: nat, returned: nat, publicationFailed: bool,
    log: seq<Delivery>)

  datatype Event =
    | Append(empty: bool)
    | Publish
    | StartChunk
    | SettleChunk(ok: bool)
    | StartSnapshot
    | SettleSnapshot(ok: bool)

  function Empty(): Queues {
    Queues(0, [], 0, 0, None, [], 0, 0, false, [])
  }

  function PublishNow(q: Queues): Queues {
    if q.publicationFailed then q else q.(snapshots := q.snapshots + [Snapshot(|q.links|)])
  }

  /** An empty chunk is ignored; a chunk after a failure only takes its number. */
  function AppendNow(q: Queues): Queues {
    var numbered := q.(sequence := q.sequence + 1);
    if q.failedAt.Some? then numbered else numbered.(links := q.links + [q.sequence])
  }

  /** The next output link runs; after a failure it hands nothing over. */
  function StartNextChunk(q: Queues): Queues {
    if q.started != q.settled || q.started >= |q.links| then q
    else
      q.(started := q.started + 1,
         log := if q.failedAt.Some? then q.log else q.log + [ChunkHanded(q.links[q.started])])
  }

  /** A failing handler marks the output as failed and publishes the state; a link that handed nothing over cannot fail. */
  function SettleNextChunk(q: Queues, ok: bool): Queues {
    if q.started == q.settled then q
    else if ok || q.failedAt.Some? then q.(settled := q.started)
    else PublishNow(q.(failedAt := Some(q.settled))).(settled := q.started)
  }

  function StartNextSnapshot(q: Queues): Queues {
    if q.handed != q.returned || q.handed >= |q.snapshots| || q.settled < q.snapshots[q.handed].needs then q
    else q.(handed := q.handed + 1, log := q.log + [StateHanded(q.handed)])
  }

  function SettleNextSnapshot(q: Queues, ok: bool): Queues {
    if q.handed == q.returned then q
    else q.(returned := q.handed, publicationFailed := q.publicationFailed || !ok)
  }

  function Step(q: Queues, e: Event): Queues {
    match e
    case Append(empty) => if empty then q else AppendNow(q)
    case Publish => PublishNow(q)
    case StartChunk => StartNextChunk(q)
    case SettleChunk(ok) => SettleNextChunk(q, ok)
    case StartSnapshot => StartNextSnapshot(q)
    case SettleSnapshot(ok) => SettleNextSnapshot(q, ok)
  }

  function Run(events: seq<Event>): Queues {
    if events == [] then Empty() else Step(Run(events[..|events| - 1]), Last(events))
  }

  // ----- what the log shows -----

  /** The chunk numbers handed over, in log order. */
  function Chunks(log: seq<Delivery>): seq<nat> {
    if log == [] then []
    else Chunks(log[..|log| - 1]) + (if Last(log).ChunkHanded? then [Last(log).sequence] else [])
  }

  /** The snapshots handed over, in log order. */
  function States(log: seq<Delivery>): seq<nat> {
    if log == [] then []
    else States(log[..|log| - 1]) + (if Last(log).StateHanded? then [Last(log).index] else [])
  }

  function UpTo(n: nat): seq<nat> {
    seq(n, i => if i >= 0 then i else 0)
  }

  /** How many links hand a chunk over: all that started, or those up to the failing one. */
  function HandedLinks(q: Queues): nat {
    match q.failedAt
    case None => q.started
    case Some(at) => at + 1
  }

  /** When a snapshot was handed over, every chunk appended before it was published had been, or output had failed. */
  predicate WrittenAhead(q: Queues, p: nat)
    requires p < |q.log|
  {
    q.log[p].StateHanded? ==>
      && q.log[p].index < |q.snapshots|
      && var before := |Chunks(q.log[..p])|;
      before >= q.snapshots[q.log[p].index].needs || q.failedAt == Some(before - 1)
  }

  predicate Ok(q: Queues) {
    && q.settled <= q.started <= q.settled + 1 && q.started <= |q.links|
    && q.returned <= q.handed <= q.returned + 1 && q.handed <= |q.snapshots|
    && (q.failedAt.Some? ==> q.failedAt.value < q.settled)
    && (forall i, j | 0 <= i < j < |q.links| :: q.links[i] < q.links[j])
    && (forall i | 0 <= i < |q.links| :: q.links[i] < q.sequence)
    && HandedLinks(q) <= |q.links|
    && Chunks(q.log) == q.links[..HandedLinks(q)]
    && States(q.log) == UpTo(q.handed)
    && forall p | 0 <= p < |q.log| :: WrittenAhead(q, p)
  }

  lemma ChunksNext(log: seq<Delivery>, d: Delivery)
    ensures Chunks(log + [d]) == Chunks(log) + (if d.ChunkHanded? then [d.sequence] else [])
    ensures States(log + [d]) == States(log) + (if d.StateHanded? then [d.index] else [])
  {
    assert (log + [d])[..|log|] == log;
  }

  /** Entries already in the log stay written ahead as snapshots, links and failures are added. */
  lemma StillAhead(q: Queues, after: Queues)
    requires Ok(q)
    requires q.log <= after.log && q.snapshots <= after.snapshots
    requires after.failedAt == q.failedAt || q.failedAt.None?
    ensures forall p | 0 <= p < |q.log| :: WrittenAhead(after, p)
  {
    forall p | 0 <= p < |q.log| ensures WrittenAhead(after, p) {
      assert WrittenAhead(q, p);
      assert after.log[..p] == q.log[..p] && after.log[p] == q.log[p];
    }
  }

  lemma PublishKeeps(q: Queues)
    requires Ok(q)
    ensures Ok(PublishNow(q))
  {
    StillAhead(q, PublishNow(q));
  }

  lemma AppendKeeps(q: Queues)
    requires Ok(q)
    ensures Ok(AppendNow(q))
  {
    StillAhead(q, AppendNow(q));
    assert AppendNow(q).links[..HandedLinks(q)] == q.links[..HandedLinks(q)];
  }

  lemma ChunkLogged(q: Queues)
    requires Ok(q) && q.failedAt.None? && q.started < |q.links|
    ensures var log := q.log + [ChunkHanded(q.links[q.started])];
      Chunks(log) == q.links[..q.started + 1] && States(log) == UpTo(q.handed)
  {
    ChunksNext(q.log, ChunkHanded(q.links[q.started]));
    assert q.links[..q.started] + [q.links[q.started]] == q.links[..q.started + 1];
    assert States(q.log) + [] == States(q.log);
  }

  lemma StartChunkKeeps(q: Queues)
    requires Ok(q)
    ensures Ok(StartNextChunk(q))
  {
    StillAhead(q, StartNextChunk(q));
    if q.started == q.settled && q.started < |q.links| && q.failedAt.None? {
      ChunkLogged(q);
    }
  }

  lemma SettleChunkKeeps(q: Queues, ok: bool)
    requires Ok(q)
    ensures Ok(SettleNextChunk(q, ok))
  {
    StillAhead(q, SettleNextChunk(q, ok));
  }

  lemma StateLogged(q: Queues)
    requires Ok(q)
    ensures var log := q.log + [StateHanded(q.handed)];
      Chunks(log) == q.links[..HandedLinks(q)] && States(log) == UpTo(q.handed + 1) && log[..|q.log|] == q.log
  {
    ChunksNext(q.log, StateHanded(q.handed));
    assert Chunks(q.log) + [] == Chunks(q.log);
    assert UpTo(q.handed) + [q.handed] == UpTo(q.handed + 1);
  }

  /** A snapshot is handed over only behind every link it waits for. */
  lemma NewStateAhead(q: Queues)
    requires Ok(q) && q.handed < |q.snapshots| && q.settled >= q.snapshots[q.handed].needs
    ensures WrittenAhead(q.(handed := q.handed + 1, log := q.log + [StateHanded(q.handed)]), |q.log|)
  {
    StateLogged(q);
  }

  lemma StartSnapshotKeeps(q: Queues)
    requires Ok(q)
    ensures Ok(StartNextSnapshot(q))
  {
    var after := StartNextSnapshot(q);
    if after != q {
      StillAhead(q, after);
      NewStateAhead(q);
      StateLogged(q);
      forall p | 0 <= p < |after.log| ensures WrittenAhead(after, p) {
        assert p < |q.log| || p == |q.log|;
      }
    }
  }

  /** Under every scheduling both queues keep their order, and no snapshot overtakes a chunk appended before it. */
  lemma {:induction false} RunOk(events: seq<Event>)
    ensures Ok(Run(events))
  {
    if events != [] {
      var q := Run(events[..|events| - 1]);
      RunOk(events[..|events| - 1]);
      match Last(events) {
        case Append(empty) => AppendKeeps(q);
        case Publish => PublishKeeps(q);
        case StartChunk => StartChunkKeeps(q);
        case SettleChunk(ok) => SettleChunkKeeps(q, ok);
        case StartSnapshot => StartSnapshotKeeps(q);
        case SettleSnapshot(ok) => StillAhead(q, SettleNextSnapshot(q, ok));
      }
    }
  }

  // ----- nothing is lost -----

  function Appended(events: seq<Event>): nat {
    if events == [] then 0
    else Appended(events[..|events| - 1]) + (if Last(events) == Append(false) then 1 else 0)
  }

  lemma {:induction false} LinksAreAppends(events: seq<Event>)
    ensures Run(events).sequence == Appended(events)
    ensures Run(events).failedAt.None? ==> Run(events).links == UpTo(Appended(events))
  {
    if events != [] {
      LinksAreAppends(events[..|events| - 1]);
      assert UpTo(Appended(events[..|events| - 1])) + [Appended(events[..|events| - 1])] == UpTo(Appended(events[..|events| - 1]) + 1);
    }
  }

  /** Once the output queue has drained without a failure, every chunk appended has been handed over, once and in order. */
  lemma DrainedDeliversAll(events: seq<Event>)
    requires Run(events).failedAt.None? && Run(events).started == |Run(events).links|
    ensures Chunks(Run(events).log) == UpTo(Appended(events))
  {
    RunOk(events);
    LinksAreAppends(events);
    assert Run(events).links[..|Run(events).links|] == Run(events).links;
  }

  /** A settled publication queue has handed over every snapshot published, in publish order, whatever failed. */
  lemma DrainedPublishesAll(events: seq<Event>)
    requires Run(events).handed == |Run(events).snapshots|
    ensures States(Run(events).log) == UpTo(|Run(events).snapshots|)
  {
    RunOk(events);
  }

  // ----- what a failure leaves, told by the events alone -----

  /** A handler that was called returns with a failure. */
  predicate HandlerFails(events: seq<Event>, p: nat)
    requires p < |events|
  {
    events[p] == SettleChunk(false) && Run(events[..p]).started > Run(events[..p]).settled
  }

  /** The first handler to fail breaks the output; the later links hand nothing over. */
  predicate OutputBreaks(events: seq<Event>, p: nat)
    requires p < |events|
  {
    HandlerFails(events, p) && forall j | 0 <= j < p :: !HandlerFails(events, j)
  }

  /** A snapshot that was handed over comes back with a failure. */
  predicate PublicationFails(events: seq<Event>, p: nat)
    requires p < |events|
  {
    events[p] == SettleSnapshot(false) && Run(events[..p]).handed > Run(events[..p]).returned
  }

  predicate NoneBefore(events: seq<Event>, n: nat)
    requires n <= |events|
  {
    forall j | 0 <= j < n :: !HandlerFails(events, j)
  }

  predicate PublishesBefore(events: seq<Event>, n: nat)
    requires n <= |events|
  {
    forall j | 0 <= j < n :: !PublicationFails(events, j)
  }

  lemma NoneOvertakes(events: seq<Event>)
    ensures Run(events).settled <= Run(events).started && Run(events).returned <= Run(events).handed
  {
    RunOk(events);
  }

  lemma MarkStep(q: Queues, e: Event)
    requires q.settled <= q.started && q.returned <= q.handed
    ensures Step(q, e).failedAt
         == if q.failedAt.None? && e == SettleChunk(false) && q.started > q.settled then Some(q.settled) else q.failedAt
    ensures Step(q, e).publicationFailed <==> q.publicationFailed || (e == SettleSnapshot(false) && q.handed > q.returned)
  {
  }

  /** The marks say what happened before an event. */
  predicate Told(events: seq<Event>, n: nat)
    requires n <= |events|
  {
    && (Run(events[..n]).failedAt.None? <==> NoneBefore(events, n))
    && (!Run(events[..n]).publicationFailed <==> PublishesBefore(events, n))
  }

  lemma RunNext(events: seq<Event>, n: nat)
    requires n < |events|
    ensures Run(events[..n + 1]) == Step(Run(events[..n]), events[n])
  {
    assert events[..n + 1][..n] == events[..n] && Last(events[..n + 1]) == events[n];
  }

  lemma TellsNext(events: seq<Event>, n: nat)
    requires n < |events| && Told(events, n)
    ensures Told(events, n + 1)
    ensures OutputBreaks(events, n) ==> Run(events[..n + 1]).failedAt == Some(Run(events[..n]).settled)
    ensures Run(events[..n]).failedAt.Some? ==> Run(events[..n + 1]).failedAt == Run(events[..n]).failedAt
  {
    RunNext(events, n);
    NoneOvertakes(events[..n]);
    MarkStep(Run(events[..n]), events[n]);
    assert NoneBefore(events, n + 1) <==> NoneBefore(events, n) && !HandlerFails(events, n);
    assert PublishesBefore(events, n + 1) <==> PublishesBefore(events, n) && !PublicationFails(events, n);
  }

  lemma {:induction false} AlwaysTold(events: seq<Event>, n: nat)
    requires n <= |events|
    ensures Told(events, n)
  {
    if n > 0 {
      AlwaysTold(events, n - 1);
      TellsNext(events, n - 1);
    }
  }

  /**
   The marks say what happened: the publication's that one failed, the output's that
   a handler did, and which link the first to fail was called for.
   */
  lemma {:induction false} MarksTell(events: seq<Event>, p: nat, n: nat)
    requires n <= |events|
    ensures Run(events[..n]).failedAt.None? <==> NoneBefore(events, n)
    ensures !Run(events[..n]).publicationFailed <==> PublishesBefore(events, n)
    ensures p < n && OutputBreaks(events, p) ==> Run(events[..n]).failedAt == Some(Run(events[..p]).settled)
  {
    AlwaysTold(events, n);
    if p < n && OutputBreaks(events, p) {
      AlwaysTold(events, n - 1);
      TellsNext(events, n - 1);
      if p < n - 1 {
        MarksTell(events, p, n - 1);
      }
    }
  }

  /** Each event queues exactly this: a chunk its link while the output stands, a publication or the break of the output a snapshot behind all links so far. */
  lemma QueuedExactly(events: seq<Event>, p: nat)
    requires p < |events|
    ensures var before, after := Run(events[..p]), Run(events[..p + 1]);
      && after.links == before.links + (if events[p] == Append(false) && NoneBefore(events, p) then [Appended(events[..p])] else [])
      && after.snapshots == before.snapshots +
           (if (events[p] == Publish || OutputBreaks(events, p)) && PublishesBefore(events, p) then [Snapshot(|before.links|)] else [])
  {
    AlwaysTold(events, p);
    NoneOvertakes(events[..p]);
    LinksAreAppends(events[..p]);
    RunNext(events, p);
  }

  // ----- the queues as the run holds them -----

  class Streams {
    var sequence: nat
    var links: seq<nat>
    var started: nat
    var settled: nat
    var failedAt: Option<nat>
    var snapshots: seq<Snapshot>
    var handed: nat
    var returned: nat
    var publicationFailed: bool
    var log: seq<Delivery>

    function Contents(): Queues
      reads this
    {
      Queues(sequence, links, started, settled, failedAt, snapshots, handed, returned, publicationFailed, log)
    }

    constructor ()
      ensures Contents() == Empty()
    {
      sequence, links, started, settled, failedAt := 0, [], 0, 0, None;
      snapshots, handed, returned, publicationFailed, log := [], 0, 0, false, [];
    }

    method PublishState()
      modifies this`snapshots
      ensures Contents() == PublishNow(old(Contents()))
    {
      if publicationFailed { return; }
      snapshots := snapshots + [Snapshot(|links|)];
    }

    method AppendChunk(empty: bool)
      modifies this`sequence, this`links
      ensures Contents() == Step(old(Contents()), Append(empty))
    {
      if empty { return; }
      var number := sequence;
      sequence := sequence + 1;
      if failedAt.Some? { return; }
      links := links + [number];
    }

    method RunChunk()
      modifies this`started, this`log
      ensures Contents() == StartNextChunk(old(Contents()))
    {
      if started != settled || started >= |links| { return; }
      if failedAt.None? { log := log + [ChunkHanded(links[started])]; }
      started := started + 1;
    }

    method ChunkReturned(ok: bool)
      modifies this`settled, this`failedAt, this`snapshots
      ensures Contents() == SettleNextChunk(old(Contents()), ok)
    {
      if started == settled { return; }
      if !ok && failedAt.None? {
        failedAt := Some(settled);
        PublishState();
      }
      settled := started;
    }

    method RunSnapshot()
      modifies this`handed, this`log
      ensures Contents() == StartNextSnapshot(old(Contents()))
    {
      if handed != returned || handed >= |snapshots| || settled < snapshots[handed].needs { return; }
      log := log + [StateHanded(handed)];
      handed := handed + 1;
    }

    method SnapshotReturned(ok: bool)
      modifies this`returned, this`publicationFailed
      ensures Contents() == SettleNextSnapshot(old(Contents()), ok)
    {
      if handed == returned { return; }
      returned := handed;
      if !ok { publicationFailed := true; }
    }
  }
}
