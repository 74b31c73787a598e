/**
 * The users admin page: the per-writer task counts, the per-provider client
 * counts, the role and search filters, and the add/edit dialog with its
 * client-id checkboxes and the rule that only providers keep client ids.
 */
module AdminUsers {
  import opened Seqs
  import opened Text
  import opened Types
  import opened Store

  /* ---------------------------------------------------------------- */
  /*  writerTaskCounts                                                */
  /* ---------------------------------------------------------------- */

  /** `if (t.writerId)`: an empty id is falsy. */
  predicate HasWriter(t: Task)
  {
    t.writerId != ""
  }

  function TaskWriter(t: Task): string
  {
    t.writerId
  }

  /** The loop that fills `writerTaskCounts`. */
  method WriterTaskCounts(tasks: seq<Task>) returns (m: Tally<string>)
    ensures m == TallyOf(tasks, HasWriter, TaskWriter)
  {
    m := CountBy(tasks, HasWriter, TaskWriter);
  }

  /** Each writer's count is the number of tasks assigned to them, and the
      counts add up to the number of tasks with a writer. */
  lemma WriterTaskCountsTotal(tasks: seq<Task>, w: string)
    requires w != ""
    ensures var m := TallyOf(tasks, HasWriter, TaskWriter);
      SumCounts(m.keys, m.counts) == Count(tasks, HasWriter) &&
      (w in m.counts <==> Count(tasks, (t: Task) => t.writerId == w) > 0) &&
      (w in m.counts ==> m.counts[w] == Count(tasks, (t: Task) => t.writerId == w))
  {
    TallyTotal(tasks, HasWriter, TaskWriter);
    TallyCounts(tasks, HasWriter, TaskWriter);
    CountKeyIsCount(tasks, HasWriter, TaskWriter, w, (t: Task) => t.writerId == w);
  }

  /* ---------------------------------------------------------------- */
  /*  providerClientCounts                                            */
  /* ---------------------------------------------------------------- */

  /** `u.role === 'provider' && u.clientIds`: an empty array is truthy, so
      a provider with no clients still gets an entry, of 0. */
  predicate HasClientList(u: User)
  {
    u.role == Provider && u.clientIds.Some?
  }

  /** The map after the loop has visited `users`: a later user with the
      same id overwrites an earlier one. */
  function ProviderCountsOf(users: seq<User>): map<string, nat>
    decreases |users|
  {
    if users == [] then map[]
    else
      var m := ProviderCountsOf(users[..|users| - 1]);
      var u := users[|users| - 1];
      if HasClientList(u) then m[u.id := |u.clientIds.value|] else m
  }

  /** The loop that fills `providerClientCounts`. */
  method ProviderClientCounts(users: seq<User>) returns (m: map<string, nat>)
    ensures m == ProviderCountsOf(users)
  {
    m := map[];
    for i := 0 to |users|
      invariant m == ProviderCountsOf(users[..i])
    {
      assert users[..i + 1][..i] == users[..i];
      var u := users[i];
      if u.role == Provider && u.clientIds.Some? {
        m := m[u.id := |u.clientIds.value|];
      }
    }
    assert users[..|users|] == users;
  }

  /** `u` is a provider with a client list and the id `id`. */
  predicate Provides(u: User, id: string)
  {
    u.id == id && HasClientList(u)
  }

  /** The map has an entry exactly for the ids of providers with a client
      list. */
  lemma {:induction false} ProviderCountsKeys(users: seq<User>, id: string)
    ensures id in ProviderCountsOf(users) <==> exists i :: 0 <= i < |users| && Provides(users[i], id)
    decreases |users|
  {
    if users != [] {
      var pre, u := users[..|users| - 1], users[|users| - 1];
      ProviderCountsKeys(pre, id);
      if Provides(u, id) {
        assert Provides(users[|users| - 1], id);
      } else if exists i :: 0 <= i < |users| && Provides(users[i], id) {
        var i :| 0 <= i < |users| && Provides(users[i], id);
        assert i < |pre| && pre[i] == users[i];
      } else {
        forall i | 0 <= i < |pre|
          ensures !Provides(pre[i], id)
        {
          assert pre[i] == users[i];
        }
      }
    }
  }

  /** An entry holds the length of the client list of the last provider
      with that id: a later duplicate overwrites an earlier one. */
  lemma {:induction false} ProviderCountsLast(users: seq<User>, id: string, i: nat)
    requires i < |users| && Provides(users[i], id)
    requires forall j :: i < j < |users| ==> !Provides(users[j], id)
    ensures id in ProviderCountsOf(users)
    ensures ProviderCountsOf(users)[id] == |users[i].clientIds.value|
    decreases |users|
  {
    var pre := users[..|users| - 1];
    if i < |users| - 1 {
      assert !Provides(users[|users| - 1], id);
      assert pre[i] == users[i];
      ProviderCountsLast(pre, id, i);
    }
  }

  /* ---------------------------------------------------------------- */
  /*  filtered                                                        */
  /* ---------------------------------------------------------------- */

  /** The lower-cased search text occurs in the name or the email. */
  predicate UserSearchHit(u: User, search: string)
  {
    ContainsIgnoringCase(u.name, search) || ContainsIgnoringCase(u.email, search)
  }

  /** A user passes the role filter (when one is chosen) and the search
      (when it is not blank). */
  predicate UserShown(u: User, roleFilter: Option<Role>, search: string)
  {
    (roleFilter.None? || u.role == roleFilter.value) &&
    (Trim(search) == [] || UserSearchHit(u, search))
  }

  function ByRole(us: seq<User>, roleFilter: Option<Role>): (r: seq<User>)
    ensures IsSubseq(r, us)
    ensures forall i :: 0 <= i < |r| ==> r[i] in us && (roleFilter.None? || r[i].role == roleFilter.value)
    ensures forall i :: 0 <= i < |us| && (roleFilter.None? || us[i].role == roleFilter.value) ==> us[i] in r
  {
    if roleFilter.None? then
      IsSubseqRefl(us);
      us
    else
      var p := (u: User) => u.role == roleFilter.value;
      FilterIsSubseq(us, p);
      Filter(us, p)
  }

  function BySearch(us: seq<User>, search: string): (r: seq<User>)
    ensures IsSubseq(r, us)
    ensures forall i :: 0 <= i < |r| ==> r[i] in us && (Trim(search) == [] || UserSearchHit(r[i], search))
    ensures forall i :: 0 <= i < |us| && (Trim(search) == [] || UserSearchHit(us[i], search)) ==> us[i] in r
  {
    if Trim(search) == [] then
      IsSubseqRefl(us);
      us
    else
      var p := (u: User) => UserSearchHit(u, search);
      FilterIsSubseq(us, p);
      Filter(us, p)
  }

  /** `filtered`: the role filter, then the search. */
  function FilteredUsers(us: seq<User>, roleFilter: Option<Role>, search: string): seq<User>
  {
    BySearch(ByRole(us, roleFilter), search)
  }

  /** The shown users are, in their original order, exactly those that
      pass both filters. */
  lemma FilteredUsersExactly(us: seq<User>, roleFilter: Option<Role>, search: string)
    ensures var r := FilteredUsers(us, roleFilter, search);
      IsSubseq(r, us) &&
      (forall i :: 0 <= i < |r| ==> r[i] in us && UserShown(r[i], roleFilter, search)) &&
      (forall i :: 0 <= i < |us| && UserShown(us[i], roleFilter, search) ==> us[i] in r)
  {
    var r1 := ByRole(us, roleFilter);
    var r := BySearch(r1, search);
    IsSubseqTrans(r, r1, us);
    forall i | 0 <= i < |r|
      ensures r[i] in us && UserShown(r[i], roleFilter, search)
    {
      assert r[i] in r1;
    }
    forall i | 0 <= i < |us| && UserShown(us[i], roleFilter, search)
      ensures us[i] in r
    {
      assert us[i] in r1;
      var j :| 0 <= j < |r1| && r1[j] == us[i];
      assert r1[j] in r;
    }
  }

  /* ---------------------------------------------------------------- */
  /*  toggleClientId                                                  */
  /* ---------------------------------------------------------------- */

  /** A present id is removed, every occurrence of it; an absent one is
      appended. */
  function ToggleClientId(ids: seq<string>, x: string): seq<string>
  {
    if x in ids then Filter(ids, (id: string) => id != x) else ids + [x]
  }

  lemma ToggleAbsentAppends(ids: seq<string>, x: string)
    requires x !in ids
    ensures ToggleClientId(ids, x) == ids + [x]
  {
  }

  /** Toggling a present id removes all of its occurrences, keeps every
      other id in order, and changes nothing else. */
  lemma TogglePresentRemovesAll(ids: seq<string>, x: string)
    requires x in ids
    ensures var r := ToggleClientId(ids, x);
      x !in r && IsSubseq(r, ids) && |r| < |ids| &&
      forall y :: y != x ==> (y in r <==> y in ids)
  {
    var p := (id: string) => id != x;
    var r := Filter(ids, p);
    FilterIsSubseq(ids, p);
    forall y | y != x && y in ids
      ensures y in r
    {
      var i :| 0 <= i < |ids| && ids[i] == y;
    }
    var k :| 0 <= k < |ids| && ids[k] == x;
    FilterShorter(ids, p, k);
  }

  /** Dropping an element the predicate rejects makes the result shorter. */
  lemma {:induction false} FilterShorter<T>(xs: seq<T>, p: T -> bool, k: nat)
    requires k < |xs| && !p(xs[k])
    ensures |Filter(xs, p)| < |xs|
  {
    if k > 0 {
      FilterShorter(xs[1..], p, k - 1);
    } else {
      assert |Filter(xs[1..], p)| <= |xs[1..]|;
    }
  }

  /** Toggling the same id twice restores whether it is selected, and
      whether every other id is. */
  lemma ToggleTwice(ids: seq<string>, x: string, y: string)
    ensures var r := ToggleClientId(ToggleClientId(ids, x), x);
      (x in r <==> x in ids) && (y in r <==> y in ids)
  {
    var once := ToggleClientId(ids, x);
    if x in ids {
      TogglePresentRemovesAll(ids, x);
      ToggleAbsentAppends(once, x);
    } else {
      assert x in once;
      TogglePresentRemovesAll(once, x);
    }
  }

  /* ---------------------------------------------------------------- */
  /*  The add/edit dialog                                             */
  /* ---------------------------------------------------------------- */

  datatype UserForm = UserForm(name: string, email: string, role: Role, clientIds: seq<string>)

  const EmptyUserForm := UserForm("", "", Writer, [])

  /** The form `openEdit` fills from a user (`user.clientIds ?? []`). */
  function FormOf(u: User): UserForm
  {
    UserForm(u.name, u.email, u.role, if u.clientIds.Some? then u.clientIds.value else [])
  }

  /** `form.role === 'provider' ? form.clientIds : undefined` */
  function SavedClientIds(f: UserForm): Option<seq<string>>
  {
    if f.role == Provider then Some(f.clientIds) else None
  }

  /** The fields an update sends; `clientIds` is always a key of it, so a
      user who stops being a provider loses their client list. */
  function PatchOf(f: UserForm): UserPatch
  {
    UserPatch(None, Some(Trim(f.name)), Some(Trim(f.email)), Some(f.role), None, Some(SavedClientIds(f)), None)
  }

  function NewUser(f: UserForm, id: string): User
  {
    User(id, Trim(f.name), Trim(f.email), f.role, None, SavedClientIds(f), None)
  }

  /** The store action a valid form saves as. */
  function SaveAction(f: UserForm, editing: Option<User>, newId: string): Action
  {
    if editing.Some? then UpdateUser(editing.value.id, PatchOf(f)) else AddUser(NewUser(f, newId))
  }

  /** Both on add and on update, the saved user has the form's client ids
      when the role is provider and none otherwise; name and email are
      trimmed, and an update keeps the avatar and assigned locations. */
  lemma SavedUserFields(f: UserForm, u: User, id: string)
    ensures var n := NewUser(f, id);
      n.clientIds == (if f.role == Provider then Some(f.clientIds) else None) &&
      n.name == Trim(f.name) && n.email == Trim(f.email) && n.role == f.role && n.id == id
    ensures var m := MergeUser(u, PatchOf(f));
      m.clientIds == (if f.role == Provider then Some(f.clientIds) else None) &&
      m.name == Trim(f.name) && m.email == Trim(f.email) && m.role == f.role &&
      m.id == u.id && m.avatar == u.avatar && m.assignedLocationIds == u.assignedLocationIds
  {
  }

  /** Opening a provider for editing and saving without changes keeps its
      client list, and the empty list when it had none. */
  lemma EditThenSaveKeepsClients(u: User)
    requires u.role == Provider
    ensures MergeUser(u, PatchOf(FormOf(u))).clientIds ==
      Some(if u.clientIds.Some? then u.clientIds.value else [])
  {
  }

  datatype SaveOutcome = NameRequired | EmailRequired | Saved

  /** The checks `handleSave` runs before any store call, in order. */
  function CheckForm(f: UserForm): (r: SaveOutcome)
    ensures r == NameRequired <==> Trim(f.name) == []
    ensures r == EmailRequired <==> Trim(f.name) != [] && Trim(f.email) == []
    ensures r == Saved <==> Trim(f.name) != [] && Trim(f.email) != []
  {
    if Trim(f.name) == [] then NameRequired
    else if Trim(f.email) == [] then EmailRequired
    else Saved
  }

  class UsersPage {
    const store: AppStore
    var form: UserForm
    var editing: Option<User>
    var dialogOpen: bool

    constructor (store: AppStore)
      ensures this.store == store && form == EmptyUserForm && editing.None? && !dialogOpen
    {
      this.store := store;
      form := EmptyUserForm;
      editing := None;
      dialogOpen := false;
    }

    method OpenAdd()
      modifies this
      ensures form == EmptyUserForm && editing.None? && dialogOpen
    {
      editing := None;
      form := EmptyUserForm;
      dialogOpen := true;
    }

    method OpenEdit(u: User)
      modifies this
      ensures form == FormOf(u) && editing == Some(u) && dialogOpen
    {
      editing := Some(u);
      form := FormOf(u);
      dialogOpen := true;
    }

    /** `toggleClientId`: flips one checkbox of the form. */
    method ToggleClient(clientId: string)
      modifies this
      ensures form == old(form).(clientIds := ToggleClientId(old(form).clientIds, clientId))
      ensures editing == old(editing) && dialogOpen == old(dialogOpen)
    {
      form := form.(clientIds := ToggleClientId(form.clientIds, clientId));
    }

    /** `handleSave`: a blank name or a blank email stops it before any
        store call; otherwise it updates the edited user or adds a new one
        with the generated id, and closes the dialog. */
    method HandleSave(newId: string, st: Stamp) returns (outcome: SaveOutcome)
      modifies this, store
      ensures outcome == CheckForm(form)
      ensures outcome != Saved ==> store.State() == old(store.State()) && dialogOpen == old(dialogOpen)
      ensures outcome == Saved ==>
        store.State() == Apply(old(store.State()), SaveAction(form, editing, newId), st) && !dialogOpen
      ensures form == old(form) && editing == old(editing)
    {
      var f, e := form, editing;
      outcome := CheckForm(f);
      if outcome != Saved {
        return;
      }
      ghost var before := store.State();
      SaveUser(store, f, e, newId, st);
      assert store.State() == Apply(before, SaveAction(f, e, newId), st);
      CloseDialog();
      return Saved;
    }

    method CloseDialog()
      modifies this
      ensures !dialogOpen && form == old(form) && editing == old(editing)
    {
      dialogOpen := false;
    }

    /** `handleDelete`: deletes the user only when the confirmation
        (`window.confirm`) is accepted. */
    method HandleDelete(u: User, confirmed: bool, st: Stamp)
      modifies store
      ensures confirmed ==> store.State() == Apply(old(store.State()), DeleteUser(u.id), st)
      ensures !confirmed ==> store.State() == old(store.State())
    {
      if confirmed {
        store.DeleteUser(u.id, st);
      }
    }
  }

  /** The store call `handleSave` makes once the checks pass. */
  method SaveUser(store: AppStore, f: UserForm, editing: Option<User>, newId: string, st: Stamp)
    modifies store
    ensures store.State() == Apply(old(store.State()), SaveAction(f, editing, newId), st)
  {
    if editing.Some? {
      store.UpdateUser(editing.value.id, PatchOf(f), st);
    } else {
      store.AddUser(NewUser(f, newId), st);
    }
  }
}
