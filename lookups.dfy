/**
 * The two ways the pages resolve an id to a name.  A `Map` built with
 * `new Map(xs.map(x => [x.id, x.name]))` answers with the LAST record that
 * has the id; `xs.find(x => x.id === id)` answers with the FIRST.
 */
module Lookups {
  import opened Seqs
  import opened Types

  /** `clientMap.get(id)` */
  function ClientMapGet(clients: seq<Client>, id: string): (r: Option<string>)
    ensures r.None? <==> forall i :: 0 <= i < |clients| ==> clients[i].id != id
    ensures r.Some? ==> exists i :: (0 <= i < |clients| && clients[i].id == id && clients[i].name == r.value &&
      forall j :: i < j < |clients| ==> clients[j].id != id)
  {
    var k := FindLastIndex(clients, (c: Client) => c.id == id);
    if k.Some? then Some(clients[k.value].name) else None
  }

  /** `locationMap.get(id)` */
  function LocationMapGet(locations: seq<Location>, id: string): (r: Option<string>)
    ensures r.None? <==> forall i :: 0 <= i < |locations| ==> locations[i].id != id
    ensures r.Some? ==> exists i :: (0 <= i < |locations| && locations[i].id == id && locations[i].name == r.value &&
      forall j :: i < j < |locations| ==> locations[j].id != id)
  {
    var k := FindLastIndex(locations, (l: Location) => l.id == id);
    if k.Some? then Some(locations[k.value].name) else None
  }

  /** `clients.find(c => c.id === id)?.name` */
  function ClientFindName(clients: seq<Client>, id: string): (r: Option<string>)
    ensures r.None? <==> forall i :: 0 <= i < |clients| ==> clients[i].id != id
    ensures r.Some? ==> exists i :: (0 <= i < |clients| && clients[i].id == id && clients[i].name == r.value &&
      forall j :: 0 <= j < i ==> clients[j].id != id)
  {
    var k := FindIndex(clients, (c: Client) => c.id == id);
    if k.Some? then Some(clients[k.value].name) else None
  }

  /** `locations.find(l => l.id === id)?.name` */
  function LocationFindName(locations: seq<Location>, id: string): (r: Option<string>)
    ensures r.None? <==> forall i :: 0 <= i < |locations| ==> locations[i].id != id
    ensures r.Some? ==> exists i :: (0 <= i < |locations| && locations[i].id == id && locations[i].name == r.value &&
      forall j :: 0 <= j < i ==> locations[j].id != id)
  {
    var k := FindIndex(locations, (l: Location) => l.id == id);
    if k.Some? then Some(locations[k.value].name) else None
  }

  /** `users.find(u => u.id === id)?.name` */
  function UserFindName(users: seq<User>, id: string): (r: Option<string>)
    ensures r.None? <==> forall i :: 0 <= i < |users| ==> users[i].id != id
    ensures r.Some? ==> exists i :: (0 <= i < |users| && users[i].id == id && users[i].name == r.value &&
      forall j :: 0 <= j < i ==> users[j].id != id)
  {
    var k := FindIndex(users, (u: User) => u.id == id);
    if k.Some? then Some(users[k.value].name) else None
  }

  /** `name ?? fallback` */
  function OrElse(name: Option<string>, fallback: string): string
  {
    if name.Some? then name.value else fallback
  }

  /** When two clients share an id the map and `find` disagree: the map
      names the later one, `find` the earlier one. */
  lemma MapAndFindDisagreeOnDuplicates(a: Client, b: Client)
    requires a.id == b.id && a.name != b.name
    ensures ClientMapGet([a, b], a.id) == Some(b.name)
    ensures ClientFindName([a, b], a.id) == Some(a.name)
  {
    var cs := [a, b];
    var r := ClientMapGet(cs, a.id);
    var i :| 0 <= i < |cs| && cs[i].id == a.id && cs[i].name == r.value && forall j :: i < j < |cs| ==> cs[j].id != a.id;
    assert i == 1;
    var r' := ClientFindName(cs, a.id);
    var i' :| 0 <= i' < |cs| && cs[i'].id == a.id && cs[i'].name == r'.value && forall j :: 0 <= j < i' ==> cs[j].id != a.id;
    assert i' == 0;
  }
}
