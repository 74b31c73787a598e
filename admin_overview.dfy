/**
 * The admin overview: the pending-task total, monthly and annual revenue
 * from active clients, the client-status chart data, and the list of
 * locations at risk because too many of their tasks are still pending.
 */
module AdminOverview {
  import opened Seqs
  import opened Types
  import opened Lookups
  import opened AdminLocations

  /* ---------------------------------------------------------------- */
  /*  isPending, totalPending                                         */
  /* ---------------------------------------------------------------- */

  /** `isPending` names three of the four statuses: it is "not delivered". */
  lemma IsPendingIffNotDelivered(t: Task)
    ensures IsPending(t) <==> t.internalStatus != InternalStatus.Delivered
  {
  }

  predicate IsDelivered(t: Task)
  {
    t.internalStatus == InternalStatus.Delivered
  }

  /** `tasks.filter(isPending).length` */
  function TotalPending(tasks: seq<Task>): nat
  {
    Count(tasks, IsPending)
  }

  /** Every task is either pending or delivered, so the pending total is
      what remains once the delivered tasks are taken away. */
  lemma {:induction false} TotalPendingComplement(tasks: seq<Task>)
    ensures TotalPending(tasks) + Count(tasks, IsDelivered) == |tasks|
    decreases |tasks|
  {
    if tasks != [] {
      var pre, t := tasks[..|tasks| - 1], tasks[|tasks| - 1];
      assert pre + [t] == tasks;
      TotalPendingComplement(pre);
      CountSnoc(pre, t, IsPending);
      CountSnoc(pre, t, IsDelivered);
    }
  }

  /* ---------------------------------------------------------------- */
  /*  mrr, annualRevenue                                              */
  /* ---------------------------------------------------------------- */

  predicate IsActive(c: Client)
  {
    c.status == Active
  }

  /** `reduce((sum, c) => sum + c.mrr, 0)` */
  function SumMrr(cs: seq<Client>): int
    decreases |cs|
  {
    if cs == [] then 0 else SumMrr(cs[..|cs| - 1]) + cs[|cs| - 1].mrr
  }

  /** `mrr`: the active clients' monthly revenue, summed. */
  function Mrr(clients: seq<Client>): int
  {
    SumMrr(Filter(clients, IsActive))
  }

  function AnnualRevenue(clients: seq<Client>): int
  {
    Mrr(clients) * 12
  }

  lemma {:induction false} SumMrrAppend(a: seq<Client>, b: seq<Client>)
    ensures SumMrr(a + b) == SumMrr(a) + SumMrr(b)
    decreases |b|
  {
    if b == [] {
      assert a + b == a;
    } else {
      var pre := b[..|b| - 1];
      assert (a + b)[..|a + b| - 1] == a + pre;
      SumMrrAppend(a, pre);
    }
  }

  /** One more client adds its revenue when it is active and nothing when it
      is paused or cancelled; the annual figure moves twelve times as much. */
  lemma MrrSnoc(clients: seq<Client>, c: Client)
    ensures Mrr(clients + [c]) == Mrr(clients) + (if c.status == Active then c.mrr else 0)
    ensures AnnualRevenue(clients + [c]) == AnnualRevenue(clients) + (if c.status == Active then 12 * c.mrr else 0)
  {
    FilterAppend(clients, [c], IsActive);
    SumMrrAppend(Filter(clients, IsActive), Filter([c], IsActive));
    assert SumMrr([c]) == SumMrr([]) + c.mrr;
  }

  /** Revenue adds up over any split of the client list. */
  lemma MrrAppend(a: seq<Client>, b: seq<Client>)
    ensures Mrr(a + b) == Mrr(a) + Mrr(b)
  {
    FilterAppend(a, b, IsActive);
    SumMrrAppend(Filter(a, IsActive), Filter(b, IsActive));
  }

  /** Without active clients there is no revenue, whatever the others pay. */
  lemma {:induction false} MrrNoActive(clients: seq<Client>)
    requires forall i :: 0 <= i < |clients| ==> clients[i].status != Active
    ensures Mrr(clients) == 0 && AnnualRevenue(clients) == 0
    decreases |clients|
  {
    if clients != [] {
      var pre, c := clients[..|clients| - 1], clients[|clients| - 1];
      assert pre + [c] == clients;
      MrrNoActive(pre);
      MrrSnoc(pre, c);
    }
  }

  /* ---------------------------------------------------------------- */
  /*  clientStatusData                                                */
  /* ---------------------------------------------------------------- */

  /** One slice of the status chart: `{ name, value }`. */
  datatype StatusSlice = StatusSlice(name: ClientStatus, value: nat)

  /** How many clients have status `s`. */
  function StatusCount(cs: seq<Client>, s: ClientStatus): nat
    decreases |cs|
  {
    if cs == [] then 0
    else StatusCount(cs[..|cs| - 1], s) + (if cs[|cs| - 1].status == s then 1 else 0)
  }

  /** The three counters in their key order, zero ones dropped. */
  function StatusData(active: nat, paused: nat, cancelled: nat): seq<StatusSlice>
  {
    (if active > 0 then [StatusSlice(Active, active)] else []) +
    (if paused > 0 then [StatusSlice(Paused, paused)] else []) +
    (if cancelled > 0 then [StatusSlice(Cancelled, cancelled)] else [])
  }

  function SliceTotal(ss: seq<StatusSlice>): nat
  {
    if ss == [] then 0 else ss[0].value + SliceTotal(ss[1..])
  }

  /** The loop over the clients that fills the counters, then the entries
      with a positive value. */
  method ClientStatusData(clients: seq<Client>) returns (r: seq<StatusSlice>)
    ensures r == StatusData(StatusCount(clients, Active), StatusCount(clients, Paused), StatusCount(clients, Cancelled))
  {
    var active, paused, cancelled := 0, 0, 0;
    for i := 0 to |clients|
      invariant active == StatusCount(clients[..i], Active)
      invariant paused == StatusCount(clients[..i], Paused)
      invariant cancelled == StatusCount(clients[..i], Cancelled)
    {
      assert clients[..i + 1][..i] == clients[..i];
      match clients[i].status
      case Active => active := active + 1;
      case Paused => paused := paused + 1;
      case Cancelled => cancelled := cancelled + 1;
    }
    assert clients[..|clients|] == clients;
    r := StatusData(active, paused, cancelled);
  }

  /** Every client has exactly one of the three statuses. */
  lemma {:induction false} StatusCountsTotal(cs: seq<Client>)
    ensures StatusCount(cs, Active) + StatusCount(cs, Paused) + StatusCount(cs, Cancelled) == |cs|
    decreases |cs|
  {
    if cs != [] {
      StatusCountsTotal(cs[..|cs| - 1]);
    }
  }

  /** The chart shows each status with at least one client, once, in the
      order Active, Paused, Cancelled, and its values add up to the number of
      clients. */
  lemma ClientStatusDataShape(clients: seq<Client>)
    ensures var r := StatusData(StatusCount(clients, Active), StatusCount(clients, Paused),
                                StatusCount(clients, Cancelled));
      SliceTotal(r) == |clients| &&
      (forall i :: 0 <= i < |r| ==> r[i].value > 0 && r[i].value == StatusCount(clients, r[i].name)) &&
      (forall i, j :: 0 <= i < j < |r| ==> r[i].name != r[j].name) &&
      (forall s: ClientStatus :: StatusCount(clients, s) > 0 <==> exists i :: 0 <= i < |r| && r[i].name == s)
  {
    var a, p, c := StatusCount(clients, Active), StatusCount(clients, Paused), StatusCount(clients, Cancelled);
    StatusCountsTotal(clients);
    StatusDataShape(a, p, c);
    assert forall s: ClientStatus :: StatusCount(clients, s) == CounterOf(a, p, c, s);
  }

  /** The counter kept for status `s`. */
  function CounterOf(active: nat, paused: nat, cancelled: nat, s: ClientStatus): nat
  {
    match s
    case Active => active
    case Paused => paused
    case Cancelled => cancelled
  }

  /** The entries are the positive counters, each once, in key order. */
  lemma StatusDataShape(active: nat, paused: nat, cancelled: nat)
    ensures var r := StatusData(active, paused, cancelled);
      SliceTotal(r) == active + paused + cancelled &&
      (forall i :: 0 <= i < |r| ==> r[i].value > 0 && r[i].value == CounterOf(active, paused, cancelled, r[i].name)) &&
      (forall i, j :: 0 <= i < j < |r| ==> r[i].name != r[j].name) &&
      (forall s: ClientStatus :: CounterOf(active, paused, cancelled, s) > 0 <==> exists i :: 0 <= i < |r| && r[i].name == s)
  {
    var r := StatusData(active, paused, cancelled);
    var x := if active > 0 then [StatusSlice(Active, active)] else [];
    var y := if paused > 0 then [StatusSlice(Paused, paused)] else [];
    var z := if cancelled > 0 then [StatusSlice(Cancelled, cancelled)] else [];
    SliceTotalAppend(x + y, z);
    SliceTotalAppend(x, y);
    forall s: ClientStatus | CounterOf(active, paused, cancelled, s) > 0
      ensures exists i :: 0 <= i < |r| && r[i].name == s
    {
      assert StatusSlice(s, CounterOf(active, paused, cancelled, s)) in r;
    }
  }

  lemma {:induction false} SliceTotalAppend(a: seq<StatusSlice>, b: seq<StatusSlice>)
    ensures SliceTotal(a + b) == SliceTotal(a) + SliceTotal(b)
  {
    if a == [] {
      assert a + b == b;
    } else {
      assert (a + b)[1..] == a[1..] + b;
      SliceTotalAppend(a[1..], b);
    }
  }

  /* ---------------------------------------------------------------- */
  /*  atRiskLocations                                                 */
  /* ---------------------------------------------------------------- */

  /** Threshold of pending tasks from which a location is at risk. */
  const AtRiskThreshold := 3

  datatype AtRiskRow = AtRiskRow(id: string, name: string, city: string, clientName: string, pendingCount: int)

  function RowPending(row: AtRiskRow): int
  {
    row.pendingCount
  }

  /** `(pendingByLocation.get(loc.id) || 0) >= 3` */
  predicate AtRisk(m: Tally<string>, l: Location)
  {
    PendingAt(m, l.id) >= AtRiskThreshold
  }

  function AtRiskFilter(ls: seq<Location>, m: Tally<string>): seq<Location>
  {
    Filter(ls, (l: Location) => AtRisk(m, l))
  }

  /** The row shown for a location; the client name falls back to
      "Unknown". */
  function RowOf(l: Location, m: Tally<string>, clients: seq<Client>): AtRiskRow
  {
    AtRiskRow(l.id, l.name, l.city, OrElse(ClientMapGet(clients, l.clientId), "Unknown"), PendingAt(m, l.id))
  }

  function Rows(ls: seq<Location>, m: Tally<string>, clients: seq<Client>): (r: seq<AtRiskRow>)
    ensures |r| == |ls| && forall i :: 0 <= i < |ls| ==> r[i] == RowOf(ls[i], m, clients)
  {
    if ls == [] then [] else [RowOf(ls[0], m, clients)] + Rows(ls[1..], m, clients)
  }

  /** `atRiskLocations`: the pending counts, the locations at or over the
      threshold, their rows, sorted by pending count, largest first. */
  function AtRiskOf(tasks: seq<Task>, locations: seq<Location>, clients: seq<Client>): seq<AtRiskRow>
  {
    var m := TallyOf(tasks, IsPending, TaskLocation);
    SortDesc(Rows(AtRiskFilter(locations, m), m, clients), RowPending)
  }

  /** The computation as the page runs it: the counting loop, then the
      filter, map and sort. */
  method AtRiskLocations(tasks: seq<Task>, locations: seq<Location>, clients: seq<Client>)
    returns (r: seq<AtRiskRow>)
    ensures r == AtRiskOf(tasks, locations, clients)
  {
    var m := PendingByLocation(tasks);
    r := SortDesc(Rows(AtRiskFilter(locations, m), m, clients), RowPending);
  }

  /** `r` is sorted by non-increasing pending count, holds the row of every
      location at or over the threshold and of no other, and every row is at
      or over the threshold. */
  predicate ListsExactlyAtRisk(r: seq<AtRiskRow>, locations: seq<Location>, m: Tally<string>, clients: seq<Client>)
  {
    SortedDesc(r, RowPending) &&
    (forall i :: 0 <= i < |r| ==>
      exists j :: 0 <= j < |locations| && AtRisk(m, locations[j]) && r[i] == RowOf(locations[j], m, clients)) &&
    (forall j :: 0 <= j < |locations| && AtRisk(m, locations[j]) ==> RowOf(locations[j], m, clients) in r) &&
    (forall i :: 0 <= i < |r| ==> r[i].pendingCount >= AtRiskThreshold)
  }

  /** The list holds a row for every location with at least three pending
      tasks and for no other, sorted by non-increasing pending count; each
      row names its client, or "Unknown" when no client has its id. */
  lemma AtRiskExactly(tasks: seq<Task>, locations: seq<Location>, clients: seq<Client>)
    ensures ListsExactlyAtRisk(AtRiskOf(tasks, locations, clients), locations,
                               TallyOf(tasks, IsPending, TaskLocation), clients)
  {
    var m := TallyOf(tasks, IsPending, TaskLocation);
    var r := SortDesc(Rows(AtRiskFilter(locations, m), m, clients), RowPending);
    assert AtRiskOf(tasks, locations, clients) == r;
    SortedRowsShape(locations, m, clients, r);
  }

  /** Selects the rows with `c` pending tasks. */
  function PendingIs(c: int): AtRiskRow -> bool
  {
    (row: AtRiskRow) => row.pendingCount == c
  }

  /** The sort is stable: at-risk rows with the same pending count are listed
      in the order of their locations. */
  lemma AtRiskTiesKeepLocationOrder(tasks: seq<Task>, locations: seq<Location>, clients: seq<Client>, c: int)
    ensures var m := TallyOf(tasks, IsPending, TaskLocation);
      Filter(AtRiskOf(tasks, locations, clients), PendingIs(c)) ==
      Filter(Rows(AtRiskFilter(locations, m), m, clients), PendingIs(c))
  {
    var m := TallyOf(tasks, IsPending, TaskLocation);
    SortDescStable(Rows(AtRiskFilter(locations, m), m, clients), RowPending, PendingIs(c), c);
  }

  /** Any sorted reordering of the rows of the at-risk locations lists
      exactly those locations. */
  lemma SortedRowsShape(locations: seq<Location>, m: Tally<string>, clients: seq<Client>, r: seq<AtRiskRow>)
    requires multiset(r) == multiset(Rows(AtRiskFilter(locations, m), m, clients))
    requires SortedDesc(r, RowPending)
    ensures ListsExactlyAtRisk(r, locations, m, clients)
  {
    RowsSound(locations, m, clients, r);
    RowsComplete(locations, m, clients, r);
  }

  /** Every row of a reordering of the at-risk rows comes from an at-risk
      location. */
  lemma RowsSound(locations: seq<Location>, m: Tally<string>, clients: seq<Client>, r: seq<AtRiskRow>)
    requires multiset(r) == multiset(Rows(AtRiskFilter(locations, m), m, clients))
    ensures forall i :: 0 <= i < |r| ==>
      exists j :: 0 <= j < |locations| && AtRisk(m, locations[j]) && r[i] == RowOf(locations[j], m, clients)
    ensures forall i :: 0 <= i < |r| ==> r[i].pendingCount >= AtRiskThreshold
  {
    forall i | 0 <= i < |r|
      ensures exists j :: 0 <= j < |locations| && AtRisk(m, locations[j]) && r[i] == RowOf(locations[j], m, clients)
      ensures r[i].pendingCount >= AtRiskThreshold
    {
      assert r[i] in multiset(r);
      RowSound(locations, m, clients, r[i]);
    }
  }

  lemma RowSound(locations: seq<Location>, m: Tally<string>, clients: seq<Client>, row: AtRiskRow)
    requires row in multiset(Rows(AtRiskFilter(locations, m), m, clients))
    ensures exists j :: 0 <= j < |locations| && AtRisk(m, locations[j]) && row == RowOf(locations[j], m, clients)
    ensures row.pendingCount >= AtRiskThreshold
  {
    var at := AtRiskFilter(locations, m);
    var rows := Rows(at, m, clients);
    var k :| 0 <= k < |rows| && rows[k] == row;
    assert at[k] in locations;
    var j :| 0 <= j < |locations| && locations[j] == at[k];
  }

  /** Every at-risk location has its row in any reordering of the rows. */
  lemma RowsComplete(locations: seq<Location>, m: Tally<string>, clients: seq<Client>, r: seq<AtRiskRow>)
    requires multiset(r) == multiset(Rows(AtRiskFilter(locations, m), m, clients))
    ensures forall j :: 0 <= j < |locations| && AtRisk(m, locations[j]) ==> RowOf(locations[j], m, clients) in r
  {
    var at := AtRiskFilter(locations, m);
    var rows := Rows(at, m, clients);
    forall j | 0 <= j < |locations| && AtRisk(m, locations[j])
      ensures RowOf(locations[j], m, clients) in r
    {
      assert locations[j] in at;
      var k :| 0 <= k < |at| && at[k] == locations[j];
      assert rows[k] in multiset(r);
    }
  }

  /** A row's client name is that of the last client with the id, as the
      map keeps it, and "Unknown" when no client has the id. */
  lemma RowClientName(l: Location, m: Tally<string>, clients: seq<Client>)
    ensures (forall i :: 0 <= i < |clients| ==> clients[i].id != l.clientId) ==>
      RowOf(l, m, clients).clientName == "Unknown"
    ensures (exists i :: 0 <= i < |clients| && clients[i].id == l.clientId) ==>
      exists i :: 0 <= i < |clients| && clients[i].id == l.clientId && RowOf(l, m, clients).clientName == clients[i].name &&
        forall j :: i < j < |clients| ==> clients[j].id != l.clientId
  {
  }
}
