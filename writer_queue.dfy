/**
 * The writer's queue: the signed-in writer's tasks, the status, priority,
 * platform and search filters over them, the per-status counts, and the
 * transition button each row offers.
 */
module WriterQueue {
  import opened Seqs
  import opened Text
  import opened Types
  import opened Lookups
  import opened Store

  /* ---------------------------------------------------------------- */
  /*  myTasks                                                         */
  /* ---------------------------------------------------------------- */

  /** `t.writerId === currentUser?.id`: with nobody signed in the right side
      is `undefined`, which no id equals. */
  predicate Mine(t: Task, current: Option<User>)
  {
    current.Some? && t.writerId == current.value.id
  }

  function MyTasks(tasks: seq<Task>, current: Option<User>): (r: seq<Task>)
    ensures IsSubseq(r, tasks)
    ensures forall i :: 0 <= i < |r| ==> r[i] in tasks && Mine(r[i], current)
    ensures forall i :: 0 <= i < |tasks| && Mine(tasks[i], current) ==> tasks[i] in r
    ensures current.None? ==> r == []
  {
    var p := (t: Task) => Mine(t, current);
    FilterIsSubseq(tasks, p);
    Filter(tasks, p)
  }

  /* ---------------------------------------------------------------- */
  /*  filtered                                                        */
  /* ---------------------------------------------------------------- */

  /** The lower-cased query occurs in the client's or the location's name,
      each looked up in an id-to-name map and empty when missing. */
  predicate QueueSearchHit(t: Task, clients: seq<Client>, locations: seq<Location>, search: string)
  {
    ContainsIgnoringCase(OrElse(ClientMapGet(clients, t.clientId), ""), search) ||
    ContainsIgnoringCase(OrElse(LocationMapGet(locations, t.locationId), ""), search)
  }

  /** The queue's filters: `None` is "All" or "any". */
  datatype QueueFilters = QueueFilters(
    status: Option<InternalStatus>,
    priority: Option<Priority>,
    platform: Option<Platform>,
    search: string)

  predicate StatusOk(t: Task, f: QueueFilters)
  {
    f.status.None? || t.internalStatus == f.status.value
  }

  predicate PriorityOk(t: Task, f: QueueFilters)
  {
    f.priority.None? || t.priority == f.priority.value
  }

  predicate PlatformOk(t: Task, f: QueueFilters)
  {
    f.platform.None? || t.platform == f.platform.value
  }

  predicate SearchOk(t: Task, f: QueueFilters, clients: seq<Client>, locations: seq<Location>)
  {
    Trim(f.search) == [] || QueueSearchHit(t, clients, locations, f.search)
  }

  /** A task is listed when it passes every filter that is set. */
  predicate TaskShown(t: Task, f: QueueFilters, clients: seq<Client>, locations: seq<Location>)
  {
    StatusOk(t, f) && PriorityOk(t, f) && PlatformOk(t, f) && SearchOk(t, f, clients, locations)
  }

  function ByStatus(ts: seq<Task>, f: QueueFilters): (r: seq<Task>)
    ensures IsSubseq(r, ts)
    ensures forall i :: 0 <= i < |r| ==> r[i] in ts && StatusOk(r[i], f)
    ensures forall i :: 0 <= i < |ts| && StatusOk(ts[i], f) ==> ts[i] in r
  {
    if f.status.None? then
      IsSubseqRefl(ts);
      ts
    else
      var p := (t: Task) => t.internalStatus == f.status.value;
      FilterIsSubseq(ts, p);
      Filter(ts, p)
  }

  function ByPriority(ts: seq<Task>, f: QueueFilters): (r: seq<Task>)
    ensures IsSubseq(r, ts)
    ensures forall i :: 0 <= i < |r| ==> r[i] in ts && PriorityOk(r[i], f)
    ensures forall i :: 0 <= i < |ts| && PriorityOk(ts[i], f) ==> ts[i] in r
  {
    if f.priority.None? then
      IsSubseqRefl(ts);
      ts
    else
      var p := (t: Task) => t.priority == f.priority.value;
      FilterIsSubseq(ts, p);
      Filter(ts, p)
  }

  function ByPlatform(ts: seq<Task>, f: QueueFilters): (r: seq<Task>)
    ensures IsSubseq(r, ts)
    ensures forall i :: 0 <= i < |r| ==> r[i] in ts && PlatformOk(r[i], f)
    ensures forall i :: 0 <= i < |ts| && PlatformOk(ts[i], f) ==> ts[i] in r
  {
    if f.platform.None? then
      IsSubseqRefl(ts);
      ts
    else
      var p := (t: Task) => t.platform == f.platform.value;
      FilterIsSubseq(ts, p);
      Filter(ts, p)
  }

  function BySearch(ts: seq<Task>, f: QueueFilters, clients: seq<Client>, locations: seq<Location>): (r: seq<Task>)
    ensures IsSubseq(r, ts)
    ensures forall i :: 0 <= i < |r| ==> r[i] in ts && SearchOk(r[i], f, clients, locations)
    ensures forall i :: 0 <= i < |ts| && SearchOk(ts[i], f, clients, locations) ==> ts[i] in r
  {
    if Trim(f.search) == [] then
      IsSubseqRefl(ts);
      ts
    else
      var p := (t: Task) => QueueSearchHit(t, clients, locations, f.search);
      FilterIsSubseq(ts, p);
      Filter(ts, p)
  }

  /** `filtered`: status, then priority, then platform, then search. */
  function FilteredQueue(my: seq<Task>, f: QueueFilters, clients: seq<Client>, locations: seq<Location>): seq<Task>
  {
    BySearch(ByPlatform(ByPriority(ByStatus(my, f), f), f), f, clients, locations)
  }

  /** The listed tasks are, in queue order, exactly the writer's tasks that
      pass every filter that is set. */
  lemma FilteredQueueExactly(my: seq<Task>, f: QueueFilters, clients: seq<Client>, locations: seq<Location>)
    ensures var r := FilteredQueue(my, f, clients, locations);
      IsSubseq(r, my) &&
      (forall i :: 0 <= i < |r| ==> r[i] in my && TaskShown(r[i], f, clients, locations)) &&
      (forall i :: 0 <= i < |my| && TaskShown(my[i], f, clients, locations) ==> my[i] in r)
  {
    var r1 := ByStatus(my, f);
    var r2 := ByPriority(r1, f);
    var r3 := ByPlatform(r2, f);
    var r := BySearch(r3, f, clients, locations);
    IsSubseqTrans(r2, r1, my);
    IsSubseqTrans(r3, r2, my);
    IsSubseqTrans(r, r3, my);
    QueueSound(my, f, clients, locations, r1, r2, r3, r);
    QueueComplete(my, f, clients, locations, r1, r2, r3, r);
  }

  lemma QueueSound(my: seq<Task>, f: QueueFilters, clients: seq<Client>, locations: seq<Location>,
                   r1: seq<Task>, r2: seq<Task>, r3: seq<Task>, r: seq<Task>)
    requires r1 == ByStatus(my, f) && r2 == ByPriority(r1, f) && r3 == ByPlatform(r2, f)
    requires r == BySearch(r3, f, clients, locations)
    ensures forall i :: 0 <= i < |r| ==> r[i] in my && TaskShown(r[i], f, clients, locations)
  {
    forall i | 0 <= i < |r|
      ensures r[i] in my && TaskShown(r[i], f, clients, locations)
    {
      assert r[i] in r3;
      var a :| 0 <= a < |r3| && r3[a] == r[i];
      assert r3[a] in r2;
      var b :| 0 <= b < |r2| && r2[b] == r[i];
      assert r2[b] in r1;
    }
  }

  lemma QueueComplete(my: seq<Task>, f: QueueFilters, clients: seq<Client>, locations: seq<Location>,
                      r1: seq<Task>, r2: seq<Task>, r3: seq<Task>, r: seq<Task>)
    requires r1 == ByStatus(my, f) && r2 == ByPriority(r1, f) && r3 == ByPlatform(r2, f)
    requires r == BySearch(r3, f, clients, locations)
    ensures forall i :: 0 <= i < |my| && TaskShown(my[i], f, clients, locations) ==> my[i] in r
  {
    forall i | 0 <= i < |my| && TaskShown(my[i], f, clients, locations)
      ensures my[i] in r
    {
      assert my[i] in r1;
      var a :| 0 <= a < |r1| && r1[a] == my[i];
      assert r1[a] in r2;
      var b :| 0 <= b < |r2| && r2[b] == my[i];
      assert r2[b] in r3;
      var c :| 0 <= c < |r3| && r3[c] == my[i];
      assert r3[c] in r;
    }
  }

  /* ---------------------------------------------------------------- */
  /*  counts                                                          */
  /* ---------------------------------------------------------------- */

  /** `{ All, New, Writing, Written }` (New as `newTasks`): Delivered has no key of its own. */
  datatype QueueCounts = QueueCounts(all: nat, newTasks: nat, writing: nat, written: nat)

  /** How many tasks have status `s`. */
  function StatusCount(ts: seq<Task>, s: InternalStatus): nat
    decreases |ts|
  {
    if ts == [] then 0
    else StatusCount(ts[..|ts| - 1], s) + (if ts[|ts| - 1].internalStatus == s then 1 else 0)
  }

  /** The loop over the writer's tasks that bumps the key of each status the
      record has, and skips Delivered. */
  method Counts(my: seq<Task>) returns (c: QueueCounts)
    ensures c == QueueCounts(|my|, StatusCount(my, New), StatusCount(my, Writing),
                             StatusCount(my, InternalStatus.Written))
  {
    c := QueueCounts(|my|, 0, 0, 0);
    for i := 0 to |my|
      invariant c == QueueCounts(|my|, StatusCount(my[..i], New), StatusCount(my[..i], Writing),
                                 StatusCount(my[..i], InternalStatus.Written))
    {
      assert my[..i + 1][..i] == my[..i];
      match my[i].internalStatus
      case New => c := c.(newTasks := c.newTasks + 1);
      case Writing => c := c.(writing := c.writing + 1);
      case Written => c := c.(written := c.written + 1);
      case Delivered =>
    }
    assert my[..|my|] == my;
  }

  /** The four statuses split the tasks. */
  lemma {:induction false} StatusCountsTotal(ts: seq<Task>)
    ensures StatusCount(ts, New) + StatusCount(ts, Writing) + StatusCount(ts, InternalStatus.Written) +
      StatusCount(ts, InternalStatus.Delivered) == |ts|
    decreases |ts|
  {
    if ts != [] {
      StatusCountsTotal(ts[..|ts| - 1]);
    }
  }

  /** The three status counts never exceed All; what they miss is exactly
      the delivered tasks. */
  lemma CountsBound(my: seq<Task>)
    ensures StatusCount(my, New) + StatusCount(my, Writing) + StatusCount(my, InternalStatus.Written) ==
      |my| - StatusCount(my, InternalStatus.Delivered)
    ensures StatusCount(my, New) + StatusCount(my, Writing) + StatusCount(my, InternalStatus.Written) <= |my|
  {
    StatusCountsTotal(my);
  }

  /* ---------------------------------------------------------------- */
  /*  Row actions                                                     */
  /* ---------------------------------------------------------------- */

  datatype RowAction = StartButton | WrittenButton | NoTransition

  /** The transition button a row shows. */
  function RowActionOf(s: InternalStatus): (r: RowAction)
    ensures r == StartButton <==> s == New
    ensures r == WrittenButton <==> s == Writing
    ensures r == NoTransition <==> (s == InternalStatus.Written || s == InternalStatus.Delivered)
  {
    match s
    case New => StartButton
    case Writing => WrittenButton
    case _ => NoTransition
  }

  /** Pressing the row's button: "Start" moves the task to Writing, "Written"
      marks it written; a row without a button changes nothing. */
  method HandleRowAction(store: AppStore, t: Task, st: Stamp)
    modifies store
    ensures RowActionOf(t.internalStatus) == StartButton ==>
      store.State() == Apply(old(store.State()), StartWriting(t.id), st)
    ensures RowActionOf(t.internalStatus) == WrittenButton ==>
      store.State() == Apply(old(store.State()), MarkWritten(t.id), st)
    ensures RowActionOf(t.internalStatus) == NoTransition ==> store.State() == old(store.State())
  {
    match RowActionOf(t.internalStatus)
    case StartButton => store.StartWriting(t.id, st);
    case WrittenButton => store.MarkWritten(t.id, st);
    case NoTransition =>
  }
}
