/**
 * The provider's delivery queue: the written tasks, the client and platform
 * choices for its filters, the search over names and drafts, the name
 * lookups with their "Unknown" fallback, and the "Mark Delivered" action.
 */
module ProviderDelivery {
  import opened Seqs
  import opened Text
  import opened Types
  import opened Lookups
  import opened Store

  /* ---------------------------------------------------------------- */
  /*  Name lookups                                                    */
  /* ---------------------------------------------------------------- */

  /** `clients.find((c) => c.id === id)?.name ?? 'Unknown'` */
  function ClientName(clients: seq<Client>, id: string): string
  {
    OrElse(ClientFindName(clients, id), "Unknown")
  }

  function LocationName(locations: seq<Location>, id: string): string
  {
    OrElse(LocationFindName(locations, id), "Unknown")
  }

  function WriterName(users: seq<User>, id: string): string
  {
    OrElse(UserFindName(users, id), "Unknown")
  }

  /** An id that resolves gives the name of the first record with it; one
      that does not gives "Unknown". */
  lemma NameLookups(clients: seq<Client>, locations: seq<Location>, users: seq<User>, id: string)
    ensures (forall i :: 0 <= i < |clients| ==> clients[i].id != id) ==> ClientName(clients, id) == "Unknown"
    ensures (exists i :: 0 <= i < |clients| && clients[i].id == id) ==>
      exists i :: (0 <= i < |clients| && clients[i].id == id && ClientName(clients, id) == clients[i].name &&
        forall j :: 0 <= j < i ==> clients[j].id != id)
    ensures (forall i :: 0 <= i < |locations| ==> locations[i].id != id) ==> LocationName(locations, id) == "Unknown"
    ensures (exists i :: 0 <= i < |locations| && locations[i].id == id) ==>
      exists i :: (0 <= i < |locations| && locations[i].id == id && LocationName(locations, id) == locations[i].name &&
        forall j :: 0 <= j < i ==> locations[j].id != id)
    ensures (forall i :: 0 <= i < |users| ==> users[i].id != id) ==> WriterName(users, id) == "Unknown"
    ensures (exists i :: 0 <= i < |users| && users[i].id == id) ==>
      exists i :: (0 <= i < |users| && users[i].id == id && WriterName(users, id) == users[i].name &&
        forall j :: 0 <= j < i ==> users[j].id != id)
  {
  }

  /* ---------------------------------------------------------------- */
  /*  writtenTasks, uniqueClients, uniquePlatforms                    */
  /* ---------------------------------------------------------------- */

  predicate IsWritten(t: Task)
  {
    t.internalStatus == InternalStatus.Written
  }

  function WrittenTasks(tasks: seq<Task>): (r: seq<Task>)
    ensures IsSubseq(r, tasks)
    ensures forall i :: 0 <= i < |r| ==> r[i] in tasks && IsWritten(r[i])
    ensures forall i :: 0 <= i < |tasks| && IsWritten(tasks[i]) ==> tasks[i] in r
  {
    FilterIsSubseq(tasks, IsWritten);
    Filter(tasks, IsWritten)
  }

  /** `writtenTasks.map((t) => t.clientId)` */
  function TaskClientIds(ts: seq<Task>): (r: seq<string>)
    ensures |r| == |ts| && forall i :: 0 <= i < |ts| ==> r[i] == ts[i].clientId
  {
    if ts == [] then [] else [ts[0].clientId] + TaskClientIds(ts[1..])
  }

  /** `writtenTasks.map((t) => t.platform)` */
  function TaskPlatforms(ts: seq<Task>): (r: seq<Platform>)
    ensures |r| == |ts| && forall i :: 0 <= i < |ts| ==> r[i] == ts[i].platform
  {
    if ts == [] then [] else [ts[0].platform] + TaskPlatforms(ts[1..])
  }

  /** `[...new Set(ids)]` for the client filter. */
  function UniqueClients(written: seq<Task>): seq<string>
  {
    Dedupe(TaskClientIds(written))
  }

  function UniquePlatforms(written: seq<Task>): seq<Platform>
  {
    Dedupe(TaskPlatforms(written))
  }

  /** Each choice list names every value of the written tasks once, in the
      order in which the values first occur. */
  lemma UniqueChoices(written: seq<Task>)
    ensures var u := UniqueClients(written);
      Distinct(u) &&
      (forall c :: c in u <==> exists i :: 0 <= i < |written| && written[i].clientId == c) &&
      (forall i, j :: 0 <= i < j < |u| ==> FirstIndex(TaskClientIds(written), u[i]) < FirstIndex(TaskClientIds(written), u[j]))
    ensures var u := UniquePlatforms(written);
      Distinct(u) &&
      (forall p :: p in u <==> exists i :: 0 <= i < |written| && written[i].platform == p) &&
      (forall i, j :: 0 <= i < j < |u| ==> FirstIndex(TaskPlatforms(written), u[i]) < FirstIndex(TaskPlatforms(written), u[j]))
  {
    var ids := TaskClientIds(written);
    var ps := TaskPlatforms(written);
    DedupeFirstOccurrenceOrder(ids);
    DedupeFirstOccurrenceOrder(ps);
    forall c | c in Dedupe(ids)
      ensures exists i :: 0 <= i < |written| && written[i].clientId == c
    {
      var i :| 0 <= i < |ids| && ids[i] == c;
    }
    forall p | p in Dedupe(ps)
      ensures exists i :: 0 <= i < |written| && written[i].platform == p
    {
      var i :| 0 <= i < |ps| && ps[i] == p;
    }
  }

  /* ---------------------------------------------------------------- */
  /*  filteredTasks                                                   */
  /* ---------------------------------------------------------------- */

  /** The lower-cased query occurs in the client, location or writer name
      (with their "Unknown" fallback) or in the draft. */
  predicate DeliverySearchHit(t: Task, clients: seq<Client>, locations: seq<Location>, users: seq<User>,
                              search: string)
  {
    ContainsIgnoringCase(ClientName(clients, t.clientId), search) ||
    ContainsIgnoringCase(LocationName(locations, t.locationId), search) ||
    ContainsIgnoringCase(WriterName(users, t.writerId), search) ||
    ContainsIgnoringCase(t.contentDraft, search)
  }

  /** The delivery filters: `""` and `None` switch a filter off. The search
      is on whenever it is not empty, even when it is only spaces. */
  datatype DeliveryFilters = DeliveryFilters(search: string, clientId: string, platform: Option<Platform>)

  predicate DeliveryShown(t: Task, f: DeliveryFilters, clients: seq<Client>, locations: seq<Location>,
                          users: seq<User>)
  {
    (f.search == "" || DeliverySearchHit(t, clients, locations, users, f.search)) &&
    (f.clientId == "" || t.clientId == f.clientId) &&
    (f.platform.None? || t.platform == f.platform.value)
  }

  function BySearch(ts: seq<Task>, f: DeliveryFilters, clients: seq<Client>, locations: seq<Location>,
                    users: seq<User>): (r: seq<Task>)
    ensures IsSubseq(r, ts)
    ensures forall i :: 0 <= i < |r| ==>
      r[i] in ts && (f.search == "" || DeliverySearchHit(r[i], clients, locations, users, f.search))
    ensures forall i :: 0 <= i < |ts| && (f.search == "" || DeliverySearchHit(ts[i], clients, locations, users, f.search)) ==>
      ts[i] in r
  {
    if f.search == "" then
      IsSubseqRefl(ts);
      ts
    else
      var p := (t: Task) => DeliverySearchHit(t, clients, locations, users, f.search);
      FilterIsSubseq(ts, p);
      Filter(ts, p)
  }

  function ByClient(ts: seq<Task>, f: DeliveryFilters): (r: seq<Task>)
    ensures IsSubseq(r, ts)
    ensures forall i :: 0 <= i < |r| ==> r[i] in ts && (f.clientId == "" || r[i].clientId == f.clientId)
    ensures forall i :: 0 <= i < |ts| && (f.clientId == "" || ts[i].clientId == f.clientId) ==> ts[i] in r
  {
    if f.clientId == "" then
      IsSubseqRefl(ts);
      ts
    else
      var p := (t: Task) => t.clientId == f.clientId;
      FilterIsSubseq(ts, p);
      Filter(ts, p)
  }

  function ByPlatform(ts: seq<Task>, f: DeliveryFilters): (r: seq<Task>)
    ensures IsSubseq(r, ts)
    ensures forall i :: 0 <= i < |r| ==> r[i] in ts && (f.platform.None? || r[i].platform == f.platform.value)
    ensures forall i :: 0 <= i < |ts| && (f.platform.None? || ts[i].platform == f.platform.value) ==> ts[i] in r
  {
    if f.platform.None? then
      IsSubseqRefl(ts);
      ts
    else
      var p := (t: Task) => t.platform == f.platform.value;
      FilterIsSubseq(ts, p);
      Filter(ts, p)
  }

  /** `filteredTasks`: search, then client, then platform. */
  function FilteredTasks(written: seq<Task>, f: DeliveryFilters, clients: seq<Client>, locations: seq<Location>,
                         users: seq<User>): seq<Task>
  {
    ByPlatform(ByClient(BySearch(written, f, clients, locations, users), f), f)
  }

  /** The listed tasks are, in order, exactly the written tasks that pass
      every filter that is on. */
  lemma FilteredTasksExactly(written: seq<Task>, f: DeliveryFilters, clients: seq<Client>, locations: seq<Location>,
                             users: seq<User>)
    ensures var r := FilteredTasks(written, f, clients, locations, users);
      IsSubseq(r, written) &&
      (forall i :: 0 <= i < |r| ==> r[i] in written && DeliveryShown(r[i], f, clients, locations, users)) &&
      (forall i :: 0 <= i < |written| && DeliveryShown(written[i], f, clients, locations, users) ==> written[i] in r)
  {
    var r1 := BySearch(written, f, clients, locations, users);
    var r2 := ByClient(r1, f);
    var r := ByPlatform(r2, f);
    FilterChain(written, r1, r2, r,
      (t: Task) => f.search == "" || DeliverySearchHit(t, clients, locations, users, f.search),
      (t: Task) => f.clientId == "" || t.clientId == f.clientId,
      (t: Task) => f.platform.None? || t.platform == f.platform.value);
  }

  /* ---------------------------------------------------------------- */
  /*  Mark Delivered                                                  */
  /* ---------------------------------------------------------------- */

  /** `handleMarkDelivered` */
  method HandleMarkDelivered(store: AppStore, taskId: string, st: Stamp)
    modifies store
    ensures store.State() == Apply(old(store.State()), MarkDelivered(taskId), st)
  {
    store.MarkDelivered(taskId, st);
  }

  /** Marking delivered turns every task with the id into a delivered one
      with the same id and leaves the others as they were. */
  lemma DeliveredTasks(s: StoreState, id: string, st: Stamp)
    ensures var ts := Apply(s, MarkDelivered(id), st).tasks;
      |ts| == |s.tasks| &&
      (forall k :: 0 <= k < |ts| && s.tasks[k].id == id ==>
        ts[k].id == id && ts[k].internalStatus == InternalStatus.Delivered) &&
      (forall k :: 0 <= k < |ts| && s.tasks[k].id != id ==> ts[k] == s.tasks[k])
  {
    var e := CreateActivity(ActionText(s, MarkDelivered(id)), s.currentUser, st);
    assert Apply(s, MarkDelivered(id), st).tasks == UpdateTasks(s.tasks, id, MarkDelivered(id), e);
  }

  /** After "Mark Delivered" on an id, no task with that id is left in the
      written list, and the other written tasks stay in it. */
  lemma DeliveredLeavesQueue(s: StoreState, id: string, st: Stamp)
    ensures var r := Apply(s, MarkDelivered(id), st);
      (forall i :: 0 <= i < |WrittenTasks(r.tasks)| ==> WrittenTasks(r.tasks)[i].id != id) &&
      (forall i :: 0 <= i < |WrittenTasks(s.tasks)| && WrittenTasks(s.tasks)[i].id != id ==>
        WrittenTasks(s.tasks)[i] in WrittenTasks(r.tasks))
  {
    var ts := Apply(s, MarkDelivered(id), st).tasks;
    DeliveredTasks(s, id, st);
    WrittenWithoutId(s.tasks, ts, id);
  }

  lemma WrittenWithoutId(before: seq<Task>, after: seq<Task>, id: string)
    requires |after| == |before|
    requires forall k :: 0 <= k < |after| && before[k].id == id ==>
      after[k].id == id && after[k].internalStatus == InternalStatus.Delivered
    requires forall k :: 0 <= k < |after| && before[k].id != id ==> after[k] == before[k]
    ensures forall i :: 0 <= i < |WrittenTasks(after)| ==> WrittenTasks(after)[i].id != id
    ensures forall i :: 0 <= i < |WrittenTasks(before)| && WrittenTasks(before)[i].id != id ==>
      WrittenTasks(before)[i] in WrittenTasks(after)
  {
    var w := WrittenTasks(after);
    forall i | 0 <= i < |w|
      ensures w[i].id != id
    {
      var k :| 0 <= k < |after| && after[k] == w[i];
      assert before[k].id != id;
    }
    var w0 := WrittenTasks(before);
    forall i | 0 <= i < |w0| && w0[i].id != id
      ensures w0[i] in w
    {
      var k :| 0 <= k < |before| && before[k] == w0[i];
      assert after[k] == w0[i];
    }
  }
}
