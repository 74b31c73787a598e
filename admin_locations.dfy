/**
 * The locations admin page: the comma-separated platform field, the SLA
 * field's fallback, the per-location count of pending tasks, the location
 * filters, and the save handler of the add/edit dialog.
 */
module AdminLocations {
  import opened Seqs
  import opened Text
  import opened Types
  import opened Lookups
  import opened Store

  /* ---------------------------------------------------------------- */
  /*  parsePlatforms                                                  */
  /* ---------------------------------------------------------------- */

  /** `pieces.map(s => s.trim())` */
  function TrimAll(pieces: seq<string>): (r: seq<string>)
    ensures |r| == |pieces|
    ensures forall i :: 0 <= i < |pieces| ==> r[i] == Trim(pieces[i])
  {
    Map(pieces, Trim)
  }

  /** `names.filter(s => valid.includes(s))`, each kept name as the
      platform it names. */
  function KnownPlatforms(names: seq<string>): (r: seq<Platform>)
    ensures |r| <= |names|
  {
    if names == [] then []
    else
      (match PlatformOfName(names[0]) case Some(p) => [p] case None => []) + KnownPlatforms(names[1..])
  }

  /** `parsePlatforms(str)` */
  function ParsePlatforms(str: string): seq<Platform>
  {
    KnownPlatforms(TrimAll(Split(str, ',')))
  }

  function PlatformNames(ps: seq<Platform>): (r: seq<string>)
    ensures |r| == |ps| && forall i :: 0 <= i < |ps| ==> r[i] == PlatformName(ps[i])
  {
    if ps == [] then [] else [PlatformName(ps[0])] + PlatformNames(ps[1..])
  }

  lemma {:induction false} KnownPlatformsAppend(a: seq<string>, b: seq<string>)
    ensures KnownPlatforms(a + b) == KnownPlatforms(a) + KnownPlatforms(b)
  {
    if a == [] {
      assert a + b == b;
    } else {
      assert (a + b)[0] == a[0] && (a + b)[1..] == a[1..] + b;
      KnownPlatformsAppend(a[1..], b);
    }
  }

  lemma TrimAllCons(x: string, rest: seq<string>)
    ensures TrimAll([x] + rest) == [Trim(x)] + TrimAll(rest)
  {
    MapCons(x, rest, Trim);
  }

  /** A field without commas yields the platform its trimmed text names
      exactly (case matters), or nothing. */
  lemma ParsePlatformsPiece(a: string)
    requires ',' !in a
    ensures ParsePlatforms(a) == match PlatformOfName(Trim(a)) case Some(p) => [p] case None => []
  {
    SplitWithoutSeparator(a, ',');
    TrimAllCons(a, []);
    assert [a] + [] == [a];
  }

  /** Each comma-separated piece contributes on its own, in order: the
      result is neither reordered nor deduplicated. */
  lemma ParsePlatformsAppend(a: string, b: string)
    requires ',' !in a
    ensures ParsePlatforms(a + "," + b) == ParsePlatforms(a) + ParsePlatforms(b)
  {
    assert a + "," + b == a + [','] + b;
    SplitAtSeparator(a, ',', b);
    var rest := Split(b, ',');
    TrimAllCons(a, rest);
    KnownPlatformsAppend([Trim(a)], TrimAll(rest));
    ParsePlatformsPiece(a);
    assert KnownPlatforms([Trim(a)]) == match PlatformOfName(Trim(a)) case Some(p) => [p] case None => [];
  }

  /** An empty field yields no platforms. */
  lemma ParsePlatformsEmpty()
    ensures ParsePlatforms("") == []
  {
    assert Split("", ',') == [[]];
    assert TrimAll([[]]) == [Trim([])];
    assert Trim([]) == [];
  }

  /** Names are matched case-sensitively: a field holding one lower-case
      word, such as "google", yields no platform. */
  lemma ParsePlatformsCaseSensitive(w: string)
    requires w != [] && forall i :: 0 <= i < |w| ==> 'a' <= w[i] <= 'z'
    ensures ParsePlatforms(w) == []
  {
    LowerWordFacts(w);
    assert Trim(w) == w by {
      TrimSolid(w);
    }
    assert PlatformOfName(w).None? by {
      forall p: Platform
        ensures PlatformName(p) != w
      {
        PlatformNameCapitalised(p);
      }
    }
    ParsePlatformsPiece(w);
  }

  lemma PlatformNameCapitalised(p: Platform)
    ensures PlatformName(p) != [] && 'A' <= PlatformName(p)[0] <= 'Z'
  {
    var n := PlatformName(p);
    assert n[0] == match p
      case Google => 'G' case Trustpilot => 'T' case Facebook => 'F' case Yelp => 'Y' case TripAdvisor => 'T';
  }

  /** A word of lower-case letters holds no comma and has no surrounding
      white space. */
  lemma LowerWordFacts(w: string)
    requires w != [] && forall i :: 0 <= i < |w| ==> 'a' <= w[i] <= 'z'
    ensures ',' !in w
    ensures !IsSpace(w[0]) && !IsSpace(w[|w| - 1])
  {
    forall i | 0 <= i < |w|
      ensures w[i] != ','
    {
      assert 'a' <= w[i] <= 'z';
    }
  }

  lemma TrimPlatformName(p: Platform)
    ensures Trim(PlatformName(p)) == PlatformName(p)
    ensures Trim(" " + PlatformName(p)) == PlatformName(p)
  {
    var n := PlatformName(p);
    assert !IsSpace(n[0]) && !IsSpace(n[|n| - 1]);
    TrimSolid(n);
  }

  lemma PlatformNameNoComma(p: Platform)
    ensures ',' !in PlatformName(p)
  {
    var n := PlatformName(p);
    forall i | 0 <= i < |n|
      ensures n[i] != ','
    {
      assert 'A' <= n[i] <= 'z';
    }
  }

  lemma {:induction false} KnownPlatformsOfNames(ps: seq<Platform>)
    ensures KnownPlatforms(PlatformNames(ps)) == ps
  {
    if ps != [] {
      KnownPlatformsOfNames(ps[1..]);
      PlatformNameRoundTrip(ps[0]);
      assert PlatformNames(ps)[1..] == PlatformNames(ps[1..]);
    }
  }

  /** What the edit dialog shows (`platforms.join(', ')`) parses back to the
      location's platform list. */
  lemma ParseJoinedPlatforms(ps: seq<Platform>)
    ensures ParsePlatforms(Join(PlatformNames(ps), ", ")) == ps
  {
    if ps == [] {
      assert Join(PlatformNames(ps), ", ") == [];
      ParsePlatformsEmpty();
    } else {
      TrimJoinedNames(ps);
      KnownPlatformsOfNames(ps);
    }
  }

  /** Splitting the joined names at the commas and trimming the pieces
      gives the names back. */
  lemma TrimJoinedNames(ps: seq<Platform>)
    requires ps != []
    ensures TrimAll(Split(Join(PlatformNames(ps), ", "), ',')) == PlatformNames(ps)
  {
    var names := PlatformNames(ps);
    forall i | 0 <= i < |names|
      ensures ',' !in names[i] && Trim(names[i]) == names[i] && Trim(" " + names[i]) == names[i]
    {
      PlatformNameNoComma(ps[i]);
      TrimPlatformName(ps[i]);
    }
    assert [','] + " " == ", ";
    SplitJoin(names, ',', " ");
    TrimNamePieces(names, Split(Join(names, ", "), ','));
  }

  /** Pieces that are the names, all but the first after a space, trim
      back to the names. */
  lemma TrimNamePieces(names: seq<string>, pieces: seq<string>)
    requires forall i :: 0 <= i < |names| ==> Trim(names[i]) == names[i] && Trim(" " + names[i]) == names[i]
    requires |pieces| == |names| > 0 && pieces[0] == names[0]
    requires forall i :: 1 <= i < |names| ==> pieces[i] == " " + names[i]
    ensures TrimAll(pieces) == names
  {
  }

  /* ---------------------------------------------------------------- */
  /*  The SLA field                                                   */
  /* ---------------------------------------------------------------- */

  /** `Number(form.slaHours) || 48`: both `0` and `NaN` are falsy. */
  function SlaHours(field: string): (r: int)
    ensures r != 0
  {
    match ParseNumber(field)
    case Some(n) => if n != 0 then n else 48
    case None => 48
  }

  /** The SLA shown by the edit dialog (`String(slaHours)`) saves back
      unchanged, except that 0 becomes 48; an empty or blank field saves 48. */
  lemma SlaHoursRoundTrip(n: int, blank: string)
    requires IsBlank(blank)
    ensures SlaHours(IntToString(n)) == if n == 0 then 48 else n
    ensures SlaHours(blank) == 48
  {
    ParseNumberOfInt(n);
    TrimShape(blank);
  }

  /* ---------------------------------------------------------------- */
  /*  pendingByLocation                                               */
  /* ---------------------------------------------------------------- */

  function TaskLocation(t: Task): string
  {
    t.locationId
  }

  /** The loop that fills `pendingByLocation`. */
  method PendingByLocation(tasks: seq<Task>) returns (m: Tally<string>)
    ensures m == TallyOf(tasks, IsPending, TaskLocation)
  {
    m := CountBy(tasks, IsPending, TaskLocation);
  }

  /** `pendingByLocation.get(id) || 0` */
  function PendingAt(m: Tally<string>, id: string): nat
  {
    if id in m.counts then m.counts[id] else 0
  }

  /** The count shown for a location is the number of its tasks in New,
      Writing or Written. */
  lemma PendingAtCounts(tasks: seq<Task>, id: string)
    ensures PendingAt(TallyOf(tasks, IsPending, TaskLocation), id) ==
      Count(tasks, (t: Task) => IsPending(t) && t.locationId == id)
  {
    TallyCounts(tasks, IsPending, TaskLocation);
    CountKeyIsCount(tasks, IsPending, TaskLocation, id, (t: Task) => IsPending(t) && t.locationId == id);
  }

  /** A delivered task changes no count. */
  lemma DeliveredNotCounted(tasks: seq<Task>, t: Task)
    requires t.internalStatus == InternalStatus.Delivered
    ensures TallyOf(tasks + [t], IsPending, TaskLocation) == TallyOf(tasks, IsPending, TaskLocation)
  {
    assert (tasks + [t])[..|tasks|] == tasks;
  }

  /* ---------------------------------------------------------------- */
  /*  filtered                                                        */
  /* ---------------------------------------------------------------- */

  /** The search text matches one of the four fields, ignoring case; the
      client's name comes from the id-to-name map. */
  predicate SearchHit(l: Location, clients: seq<Client>, search: string)
  {
    ContainsIgnoringCase(l.name, search) || ContainsIgnoringCase(l.city, search) ||
    ContainsIgnoringCase(OrElse(ClientMapGet(clients, l.clientId), ""), search) ||
    ContainsIgnoringCase(l.airtableLocationId, search)
  }

  /** A location passes every filter that is switched on. */
  predicate LocationShown(l: Location, clients: seq<Client>, clientFilter: string, activeFilter: string, search: string)
  {
    (clientFilter == "" || l.clientId == clientFilter) &&
    (activeFilter == "active" ==> l.active) &&
    (activeFilter == "inactive" ==> !l.active) &&
    (Trim(search) == [] || SearchHit(l, clients, search))
  }

  function ByClient(ls: seq<Location>, clientFilter: string): (r: seq<Location>)
    ensures IsSubseq(r, ls)
    ensures forall i :: 0 <= i < |r| ==> r[i] in ls && (clientFilter == "" || r[i].clientId == clientFilter)
    ensures forall i :: 0 <= i < |ls| && (clientFilter == "" || ls[i].clientId == clientFilter) ==> ls[i] in r
  {
    if clientFilter == "" then
      IsSubseqRefl(ls);
      ls
    else
      var p := (l: Location) => l.clientId == clientFilter;
      FilterIsSubseq(ls, p);
      Filter(ls, p)
  }

  function ByActive(ls: seq<Location>, activeFilter: string): (r: seq<Location>)
    ensures IsSubseq(r, ls)
    ensures forall i :: 0 <= i < |r| ==> (r[i] in ls &&
      (activeFilter == "active" ==> r[i].active) && (activeFilter == "inactive" ==> !r[i].active))
    ensures forall i :: (0 <= i < |ls| &&
      (activeFilter == "active" ==> ls[i].active) && (activeFilter == "inactive" ==> !ls[i].active)) ==> ls[i] in r
  {
    if activeFilter == "active" then
      var p := (l: Location) => l.active;
      FilterIsSubseq(ls, p);
      Filter(ls, p)
    else if activeFilter == "inactive" then
      var p := (l: Location) => !l.active;
      FilterIsSubseq(ls, p);
      Filter(ls, p)
    else
      IsSubseqRefl(ls);
      ls
  }

  function BySearch(ls: seq<Location>, clients: seq<Client>, search: string): (r: seq<Location>)
    ensures IsSubseq(r, ls)
    ensures forall i :: 0 <= i < |r| ==> r[i] in ls && (Trim(search) == [] || SearchHit(r[i], clients, search))
    ensures forall i :: 0 <= i < |ls| && (Trim(search) == [] || SearchHit(ls[i], clients, search)) ==> ls[i] in r
  {
    if Trim(search) == [] then
      IsSubseqRefl(ls);
      ls
    else
      var p := (l: Location) => SearchHit(l, clients, search);
      FilterIsSubseq(ls, p);
      Filter(ls, p)
  }

  /** `filtered`: the client filter, then the active filter, then the
      search, each applied only when set. */
  function FilteredLocations(ls: seq<Location>, clients: seq<Client>, clientFilter: string, activeFilter: string,
                             search: string): seq<Location>
  {
    BySearch(ByActive(ByClient(ls, clientFilter), activeFilter), clients, search)
  }

  /** The shown locations are, in their original order, exactly those that
      pass every filter that is switched on. */
  lemma FilteredLocationsExactly(ls: seq<Location>, clients: seq<Client>, clientFilter: string, activeFilter: string,
                                 search: string)
    ensures var r := FilteredLocations(ls, clients, clientFilter, activeFilter, search);
      IsSubseq(r, ls) &&
      (forall i :: 0 <= i < |r| ==> r[i] in ls && LocationShown(r[i], clients, clientFilter, activeFilter, search)) &&
      (forall i :: 0 <= i < |ls| && LocationShown(ls[i], clients, clientFilter, activeFilter, search) ==> ls[i] in r)
  {
    var r1 := ByClient(ls, clientFilter);
    var r2 := ByActive(r1, activeFilter);
    var r := BySearch(r2, clients, search);
    FilterChain(ls, r1, r2, r,
      (l: Location) => clientFilter == "" || l.clientId == clientFilter,
      (l: Location) => (activeFilter == "active" ==> l.active) && (activeFilter == "inactive" ==> !l.active),
      (l: Location) => Trim(search) == [] || SearchHit(l, clients, search));
  }

  /* ---------------------------------------------------------------- */
  /*  The add/edit dialog                                             */
  /* ---------------------------------------------------------------- */

  datatype LocationForm = LocationForm(
    clientId: string,
    name: string,
    city: string,
    active: bool,
    platforms: string,
    slaHours: string,
    airtableLocationId: string)

  const EmptyForm := LocationForm("", "", "", true, "", "48", "")

  /** The form `openEdit` fills from a location. */
  function FormOf(l: Location): LocationForm
  {
    LocationForm(l.clientId, l.name, l.city, l.active, Join(PlatformNames(l.platforms), ", "),
      IntToString(l.slaHours), l.airtableLocationId)
  }

  /** The fields `handleSave` sends, for both add and update. */
  function PatchOf(f: LocationForm): LocationPatch
  {
    LocationPatch(None, Some(f.clientId), Some(Trim(f.name)), Some(Trim(f.city)), Some(f.active),
      Some(ParsePlatforms(f.platforms)), Some(SlaHours(f.slaHours)), Some(Trim(f.airtableLocationId)))
  }

  function NewLocation(f: LocationForm, id: string): Location
  {
    Location(id, f.clientId, Trim(f.name), Trim(f.city), f.active, ParsePlatforms(f.platforms),
      SlaHours(f.slaHours), Trim(f.airtableLocationId))
  }

  /** The store action a valid form saves as. */
  function SaveAction(f: LocationForm, editing: Option<Location>, newId: string): Action
  {
    if editing.Some? then UpdateLocation(editing.value.id, PatchOf(f)) else AddLocation(NewLocation(f, newId))
  }

  /** Saving an opened location without touching the form keeps its
      platforms and, unless it was 0, its SLA. */
  lemma EditThenSaveKeepsFields(l: Location)
    ensures PatchOf(FormOf(l)).platforms == Some(l.platforms)
    ensures PatchOf(FormOf(l)).slaHours == Some(if l.slaHours == 0 then 48 else l.slaHours)
  {
    ParseJoinedPlatforms(l.platforms);
    SlaHoursRoundTrip(l.slaHours, "");
  }

  /** Which message the save handler ends with. */
  datatype SaveOutcome = NameRequired | ClientRequired | Saved

  /** The checks `handleSave` runs before any store call, in order. */
  function CheckForm(f: LocationForm): (r: SaveOutcome)
    ensures r == NameRequired <==> Trim(f.name) == []
    ensures r == ClientRequired <==> Trim(f.name) != [] && f.clientId == ""
    ensures r == Saved <==> Trim(f.name) != [] && f.clientId != ""
  {
    if Trim(f.name) == [] then NameRequired
    else if f.clientId == "" then ClientRequired
    else Saved
  }

  class LocationsPage {
    const store: AppStore
    var form: LocationForm
    var editing: Option<Location>
    var dialogOpen: bool

    constructor (store: AppStore)
      ensures this.store == store && form == EmptyForm && editing.None? && !dialogOpen
    {
      this.store := store;
      form := EmptyForm;
      editing := None;
      dialogOpen := false;
    }

    method OpenAdd()
      modifies this
      ensures form == EmptyForm && editing.None? && dialogOpen
    {
      editing := None;
      form := EmptyForm;
      dialogOpen := true;
    }

    method OpenEdit(l: Location)
      modifies this
      ensures form == FormOf(l) && editing == Some(l) && dialogOpen
    {
      editing := Some(l);
      form := FormOf(l);
      dialogOpen := true;
    }

    /** `handleSave`: a blank name or a missing client stops it before any
        store call; otherwise it updates the edited location or adds a new
        one with the generated id, and closes the dialog. */
    method HandleSave(newId: string, st: Stamp) returns (outcome: SaveOutcome)
      modifies this, store
      ensures outcome == CheckForm(form)
      ensures outcome != Saved ==> store.State() == old(store.State()) && dialogOpen == old(dialogOpen)
      ensures outcome == Saved ==>
        store.State() == Apply(old(store.State()), SaveAction(form, editing, newId), st) && !dialogOpen
      ensures form == old(form) && editing == old(editing)
    {
      var f, e := form, editing;
      outcome := CheckForm(f);
      if outcome != Saved {
        return;
      }
      ghost var before := store.State();
      SaveLocation(store, f, e, newId, st);
      assert store.State() == Apply(before, SaveAction(f, e, newId), st);
      CloseDialog();
      return Saved;
    }

    method CloseDialog()
      modifies this
      ensures !dialogOpen && form == old(form) && editing == old(editing)
    {
      dialogOpen := false;
    }

    /** `handleDelete`: deletes the location only when the confirmation
        (`window.confirm`) is accepted. */
    method HandleDelete(l: Location, confirmed: bool, st: Stamp)
      modifies store
      ensures confirmed ==> store.State() == Apply(old(store.State()), DeleteLocation(l.id), st)
      ensures !confirmed ==> store.State() == old(store.State())
    {
      if confirmed {
        store.DeleteLocation(l.id, st);
      }
    }
  }

  /** The store call `handleSave` makes once the checks pass: an update of
      the edited location, or an add of a new one with the generated id. */
  method SaveLocation(store: AppStore, f: LocationForm, editing: Option<Location>, newId: string, st: Stamp)
    modifies store
    ensures store.State() == Apply(old(store.State()), SaveAction(f, editing, newId), st)
  {
    if editing.Some? {
      store.UpdateLocation(editing.value.id, PatchOf(f), st);
    } else {
      store.AddLocation(NewLocation(f, newId), st);
    }
  }
}
