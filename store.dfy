/**
 * The application store: one record holding the signed-in user, the
 * clients, locations, users and tasks, and the global activity feed, with
 * one action per mutation.  Every action except `login` and `logout` logs
 * exactly one activity entry: it is prepended to the global feed and, for
 * the task actions, appended to the matching task's own log.
 *
 * `StoreState`, `Action` and `Apply` say what each action does to the whole
 * record; the class `AppStore` holds the record in mutable fields and has
 * one method per action, each proved to leave the fields as `Apply` says.
 * The entry id (`crypto.randomUUID()`) and the clock (`new Date()`) are the
 * `Stamp` parameter; the seed collections are constructor parameters.
 */
module Store {
  import opened Seqs
  import opened Types

  /** The fresh entry id and the current time an action runs with. */
  datatype Stamp = Stamp(entryId: string, now: Instant)

  /** An activity entry by the given user, or by nobody when no one is
      signed in. */
  function CreateActivity(action: string, user: Option<User>, st: Stamp): ActivityEntry
  {
    ActivityEntry(st.entryId, st.now, action,
      if user.Some? then Some(user.value.id) else None,
      if user.Some? then Some(user.value.name) else None)
  }

  /* ---------------------------------------------------------------- */
  /*  Partial records for the update actions                          */
  /* ---------------------------------------------------------------- */

  /** The value a spread `{ ...x, ...patch }` keeps for one field. */
  function Pick<T>(patch: Option<T>, current: T): T
  {
    if patch.Some? then patch.value else current
  }

  /** `Partial<Client>`: `None` for a key the patch does not have. */
  datatype ClientPatch = ClientPatch(
    id: Option<string>,
    name: Option<string>,
    status: Option<ClientStatus>,
    packageName: Option<string>,
    mrr: Option<int>,
    notes: Option<string>,
    createdAt: Option<string>)

  /** `Partial<Location>` */
  datatype LocationPatch = LocationPatch(
    id: Option<string>,
    clientId: Option<string>,
    name: Option<string>,
    city: Option<string>,
    active: Option<bool>,
    platforms: Option<seq<Platform>>,
    slaHours: Option<int>,
    airtableLocationId: Option<string>)

  /** `Partial<User>`.  For an optional field, `Some(None)` is a key that is
      present with the value `undefined`: spreading it clears the field. */
  datatype UserPatch = UserPatch(
    id: Option<string>,
    name: Option<string>,
    email: Option<string>,
    role: Option<Role>,
    avatar: Option<Option<string>>,
    clientIds: Option<Option<seq<string>>>,
    assignedLocationIds: Option<Option<seq<string>>>)

  const NoClientChange := ClientPatch(None, None, None, None, None, None, None)
  const NoLocationChange := LocationPatch(None, None, None, None, None, None, None, None)
  const NoUserChange := UserPatch(None, None, None, None, None, None, None)

  function MergeClient(c: Client, p: ClientPatch): Client
  {
    Client(Pick(p.id, c.id), Pick(p.name, c.name), Pick(p.status, c.status),
      Pick(p.packageName, c.packageName), Pick(p.mrr, c.mrr), Pick(p.notes, c.notes),
      Pick(p.createdAt, c.createdAt))
  }

  function MergeLocation(l: Location, p: LocationPatch): Location
  {
    Location(Pick(p.id, l.id), Pick(p.clientId, l.clientId), Pick(p.name, l.name),
      Pick(p.city, l.city), Pick(p.active, l.active), Pick(p.platforms, l.platforms),
      Pick(p.slaHours, l.slaHours), Pick(p.airtableLocationId, l.airtableLocationId))
  }

  function MergeUser(u: User, p: UserPatch): User
  {
    User(Pick(p.id, u.id), Pick(p.name, u.name), Pick(p.email, u.email), Pick(p.role, u.role),
      Pick(p.avatar, u.avatar), Pick(p.clientIds, u.clientIds),
      Pick(p.assignedLocationIds, u.assignedLocationIds))
  }

  /** Merging an empty patch changes nothing, and merging the same patch a
      second time changes nothing more. */
  lemma MergeLaws(c: Client, l: Location, u: User, cp: ClientPatch, lp: LocationPatch, up: UserPatch)
    ensures MergeClient(c, NoClientChange) == c
    ensures MergeClient(MergeClient(c, cp), cp) == MergeClient(c, cp)
    ensures MergeLocation(l, NoLocationChange) == l
    ensures MergeLocation(MergeLocation(l, lp), lp) == MergeLocation(l, lp)
    ensures MergeUser(u, NoUserChange) == u
    ensures MergeUser(MergeUser(u, up), up) == MergeUser(u, up)
  {
  }

  /* ---------------------------------------------------------------- */
  /*  State and actions                                               */
  /* ---------------------------------------------------------------- */

  datatype StoreState = StoreState(
    seedUsers: seq<User>,
    currentUser: Option<User>,
    clients: seq<Client>,
    locations: seq<Location>,
    users: seq<User>,
    tasks: seq<Task>,
    globalActivity: seq<ActivityEntry>)

  datatype Action =
    | Login(role: Role)
    | Logout
    | StartWriting(taskId: string)
    | SaveDraft(taskId: string, content: string)
    | MarkWritten(taskId: string)
    | MarkDelivered(taskId: string)
    | ReassignTask(taskId: string, writerId: string)
    | AddClient(client: Client)
    | UpdateClient(clientId: string, clientPatch: ClientPatch)
    | DeleteClient(clientId: string)
    | AddLocation(location: Location)
    | UpdateLocation(locationId: string, locationPatch: LocationPatch)
    | DeleteLocation(locationId: string)
    | AddUser(user: User)
    | UpdateUser(userId: string, userPatch: UserPatch)
    | DeleteUser(userId: string)
  {
    /** Whether the action writes an activity entry. */
    predicate Logs()
    {
      !Login? && !Logout?
    }

    predicate IsTaskAction()
    {
      StartWriting? || SaveDraft? || MarkWritten? || MarkDelivered? || ReassignTask?
    }
  }

  /** `seedUsers.find(u => u.role === role) ?? null` */
  function FirstWithRole(seed: seq<User>, role: Role): Option<User>
  {
    Find(seed, (u: User) => u.role == role)
  }

  function UserById(users: seq<User>, id: string): Option<User>
  {
    Find(users, (u: User) => u.id == id)
  }

  function ClientById(clients: seq<Client>, id: string): Option<Client>
  {
    Find(clients, (c: Client) => c.id == id)
  }

  function LocationById(locations: seq<Location>, id: string): Option<Location>
  {
    Find(locations, (l: Location) => l.id == id)
  }

  /** `found?.name ?? fallback` */
  function NameOr(name: Option<string>, fallback: string): string
  {
    if name.Some? then name.value else fallback
  }

  /** The text of the entry an action logs; it mentions names as they are
      before the action. */
  function ActionText(s: StoreState, a: Action): string
  {
    match a
    case Login(_) => ""
    case Logout => ""
    case StartWriting(id) => "Started writing task " + id
    case SaveDraft(id, _) => "Saved draft for task " + id
    case MarkWritten(id) => "Marked task " + id + " as written"
    case MarkDelivered(id) => "Marked task " + id + " as delivered"
    case ReassignTask(id, w) =>
      var writer := UserById(s.users, w);
      "Reassigned task " + id + " to " + NameOr(if writer.Some? then Some(writer.value.name) else None, w)
    case AddClient(c) => "Added client \"" + c.name + "\""
    case UpdateClient(id, _) => "Updated client " + id
    case DeleteClient(id) =>
      var c := ClientById(s.clients, id);
      "Deleted client \"" + NameOr(if c.Some? then Some(c.value.name) else None, id) + "\""
    case AddLocation(l) => "Added location \"" + l.name + "\""
    case UpdateLocation(id, _) => "Updated location " + id
    case DeleteLocation(id) =>
      var l := LocationById(s.locations, id);
      "Deleted location \"" + NameOr(if l.Some? then Some(l.value.name) else None, id) + "\""
    case AddUser(u) => "Added user \"" + u.name + "\""
    case UpdateUser(id, _) => "Updated user " + id
    case DeleteUser(id) =>
      var u := UserById(s.users, id);
      "Deleted user \"" + NameOr(if u.Some? then Some(u.value.name) else None, id) + "\""
  }

  /** What a task action does to a task it selects; `e` is the entry it logs. */
  function TaskAfter(t: Task, a: Action, e: ActivityEntry): Task
  {
    match a
    case StartWriting(_) =>
      t.(internalStatus := InternalStatus.Writing, airtableStatus := InProgress, activity := t.activity + [e])
    case SaveDraft(_, content) =>
      t.(contentDraft := content, activity := t.activity + [e])
    case MarkWritten(_) =>
      t.(internalStatus := InternalStatus.Written, airtableStatus := AirtableStatus.Written,
         writtenAt := Some(e.timestamp), activity := t.activity + [e])
    case MarkDelivered(_) =>
      t.(internalStatus := InternalStatus.Delivered, airtableStatus := AirtableStatus.Delivered,
         deliveredAt := Some(e.timestamp), activity := t.activity + [e])
    case ReassignTask(_, w) =>
      t.(writerId := w, activity := t.activity + [e])
    case _ => t
  }

  /** `tasks.map(t => t.id === id ? after(t) : t)` */
  function UpdateTasks(ts: seq<Task>, id: string, a: Action, e: ActivityEntry): seq<Task>
  {
    MapWhere(ts, (t: Task) => t.id == id, (t: Task) => TaskAfter(t, a, e))
  }

  function UpdateClients(cs: seq<Client>, id: string, p: ClientPatch): seq<Client>
  {
    MapWhere(cs, (c: Client) => c.id == id, (c: Client) => MergeClient(c, p))
  }

  function UpdateLocations(ls: seq<Location>, id: string, p: LocationPatch): seq<Location>
  {
    MapWhere(ls, (l: Location) => l.id == id, (l: Location) => MergeLocation(l, p))
  }

  function UpdateUsers(us: seq<User>, id: string, p: UserPatch): seq<User>
  {
    MapWhere(us, (u: User) => u.id == id, (u: User) => MergeUser(u, p))
  }

  /** `clients.filter(c => c.id !== id)`: every record with that id goes,
      the others stay in order. */
  function RemoveClient(cs: seq<Client>, id: string): (r: seq<Client>)
    ensures IsSubseq(r, cs)
    ensures forall i :: 0 <= i < |r| ==> r[i].id != id
    ensures forall i :: 0 <= i < |cs| && cs[i].id != id ==> cs[i] in r
  {
    var keep := (c: Client) => c.id != id;
    FilterIsSubseq(cs, keep);
    Filter(cs, keep)
  }

  function RemoveLocation(ls: seq<Location>, id: string): (r: seq<Location>)
    ensures IsSubseq(r, ls)
    ensures forall i :: 0 <= i < |r| ==> r[i].id != id
    ensures forall i :: 0 <= i < |ls| && ls[i].id != id ==> ls[i] in r
  {
    var keep := (l: Location) => l.id != id;
    FilterIsSubseq(ls, keep);
    Filter(ls, keep)
  }

  function RemoveUser(us: seq<User>, id: string): (r: seq<User>)
    ensures IsSubseq(r, us)
    ensures forall i :: 0 <= i < |r| ==> r[i].id != id
    ensures forall i :: 0 <= i < |us| && us[i].id != id ==> us[i] in r
  {
    var keep := (u: User) => u.id != id;
    FilterIsSubseq(us, keep);
    Filter(us, keep)
  }

  /** The collection change an action makes, apart from the global feed. */
  function Effect(s: StoreState, a: Action, e: ActivityEntry): StoreState
  {
    match a
    case Login(_) => s
    case Logout => s
    case StartWriting(id) => s.(tasks := UpdateTasks(s.tasks, id, a, e))
    case SaveDraft(id, _) => s.(tasks := UpdateTasks(s.tasks, id, a, e))
    case MarkWritten(id) => s.(tasks := UpdateTasks(s.tasks, id, a, e))
    case MarkDelivered(id) => s.(tasks := UpdateTasks(s.tasks, id, a, e))
    case ReassignTask(id, _) => s.(tasks := UpdateTasks(s.tasks, id, a, e))
    case AddClient(c) => s.(clients := s.clients + [c])
    case UpdateClient(id, p) => s.(clients := UpdateClients(s.clients, id, p))
    case DeleteClient(id) => s.(clients := RemoveClient(s.clients, id))
    case AddLocation(l) => s.(locations := s.locations + [l])
    case UpdateLocation(id, p) => s.(locations := UpdateLocations(s.locations, id, p))
    case DeleteLocation(id) => s.(locations := RemoveLocation(s.locations, id))
    case AddUser(u) => s.(users := s.users + [u])
    case UpdateUser(id, p) => s.(users := UpdateUsers(s.users, id, p))
    case DeleteUser(id) => s.(users := RemoveUser(s.users, id))
  }

  /** The store after one action. */
  function Apply(s: StoreState, a: Action, st: Stamp): StoreState
  {
    match a
    case Login(role) => s.(currentUser := FirstWithRole(s.seedUsers, role))
    case Logout => s.(currentUser := None)
    case _ =>
      var e := CreateActivity(ActionText(s, a), s.currentUser, st);
      Effect(s, a, e).(globalActivity := [e] + s.globalActivity)
  }

  /* ---------------------------------------------------------------- */
  /*  Initial state                                                   */
  /* ---------------------------------------------------------------- */

  /** `tasks.flatMap(t => t.activity)` */
  function AllActivity(tasks: seq<Task>): seq<ActivityEntry>
  {
    if tasks == [] then [] else tasks[0].activity + AllActivity(tasks[1..])
  }

  function Timestamp(e: ActivityEntry): int
  {
    e.timestamp
  }

  /** The seed tasks' entries, newest first. */
  function InitialGlobalActivity(seedTasks: seq<Task>): (r: seq<ActivityEntry>)
    ensures multiset(r) == multiset(AllActivity(seedTasks))
    ensures forall i, j :: 0 <= i < j < |r| ==> r[i].timestamp >= r[j].timestamp
  {
    var r := SortDesc(AllActivity(seedTasks), Timestamp);
    assert SortedDesc(r, Timestamp);
    r
  }

  /** Selects the entries stamped at `t`. */
  function StampedAt(t: int): ActivityEntry -> bool
  {
    (e: ActivityEntry) => e.timestamp == t
  }

  /** The sort is stable: entries with the same timestamp keep the order of
      the seed tasks and of each task's log. */
  lemma InitialFeedTiesInSeedOrder(seedTasks: seq<Task>, t: int)
    ensures Filter(InitialGlobalActivity(seedTasks), StampedAt(t)) == Filter(AllActivity(seedTasks), StampedAt(t))
  {
    SortDescStable(AllActivity(seedTasks), Timestamp, StampedAt(t), t);
  }

  function Initial(seedClients: seq<Client>, seedLocations: seq<Location>, seedUsers: seq<User>,
                   seedTasks: seq<Task>): StoreState
  {
    StoreState(seedUsers, None, seedClients, seedLocations, seedUsers, seedTasks,
      InitialGlobalActivity(seedTasks))
  }

  /* ---------------------------------------------------------------- */
  /*  Sequences of actions                                            */
  /* ---------------------------------------------------------------- */

  datatype Step = Step(action: Action, stamp: Stamp)

  predicate StepLogs(x: Step)
  {
    x.action.Logs()
  }

  function Run(s: StoreState, steps: seq<Step>): StoreState
    decreases |steps|
  {
    if steps == [] then s else Run(Apply(s, steps[0].action, steps[0].stamp), steps[1..])
  }

  /* ---------------------------------------------------------------- */
  /*  Properties                                                      */
  /* ---------------------------------------------------------------- */

  /** Every action but `login`/`logout` puts exactly one new entry, made from
      the stamp and the signed-in user, in front of the unchanged feed;
      `login`/`logout` leave the feed alone and change only `currentUser`. */
  lemma ApplyLogsOneEntry(s: StoreState, a: Action, st: Stamp)
    ensures a.Logs() ==> |Apply(s, a, st).globalActivity| == |s.globalActivity| + 1
    ensures a.Logs() ==> Apply(s, a, st).globalActivity[1..] == s.globalActivity
    ensures a.Logs() ==> Apply(s, a, st).globalActivity[0].id == st.entryId
    ensures a.Logs() ==> Apply(s, a, st).globalActivity[0].timestamp == st.now
    ensures a.Logs() ==> Apply(s, a, st).globalActivity[0].action == ActionText(s, a)
    ensures a.Logs() ==> Apply(s, a, st).currentUser == s.currentUser
    ensures !a.Logs() ==> Apply(s, a, st) == s.(currentUser := Apply(s, a, st).currentUser)
    ensures Apply(s, a, st).seedUsers == s.seedUsers
  {
  }

  /** An entry names the user signed in when the action ran, and no one
      when nobody is signed in. */
  lemma EntryActorIsCurrentUser(s: StoreState, a: Action, st: Stamp)
    requires a.Logs()
    ensures s.currentUser.None? ==>
      Apply(s, a, st).globalActivity[0].userId.None? && Apply(s, a, st).globalActivity[0].userName.None?
    ensures s.currentUser.Some? ==>
      Apply(s, a, st).globalActivity[0].userId == Some(s.currentUser.value.id) &&
      Apply(s, a, st).globalActivity[0].userName == Some(s.currentUser.value.name)
  {
  }

  /** The feed grows by one entry per logging action and keeps every older
      entry, in order, at its end. */
  lemma {:induction false} RunFeed(s: StoreState, steps: seq<Step>)
    ensures |Run(s, steps).globalActivity| == |s.globalActivity| + Count(steps, StepLogs)
    ensures Run(s, steps).globalActivity[|Run(s, steps).globalActivity| - |s.globalActivity|..] == s.globalActivity
    decreases |steps|
  {
    if steps != [] {
      var x := steps[0];
      var s1 := Apply(s, x.action, x.stamp);
      ApplyLogsOneEntry(s, x.action, x.stamp);
      RunFeed(s1, steps[1..]);
      var f, f1 := Run(s, steps).globalActivity, s1.globalActivity;
      assert Run(s, steps) == Run(s1, steps[1..]);
      assert Count(steps, StepLogs) == (if StepLogs(x) then 1 else 0) + Count(steps[1..], StepLogs);
      assert f[|f| - |f1|..] == f1;
      if x.action.Logs() {
        assert f1 == [f1[0]] + s.globalActivity;
        assert f[|f| - |s.globalActivity|..] == f1[1..];
      }
    }
  }

  /** `login(role)` signs in the first seed user with that role, or nobody
      if there is none; `logout` signs out. */
  lemma LoginPicksFirstSeedUser(s: StoreState, role: Role, st: Stamp)
    ensures Apply(s, Logout, st).currentUser.None?
    ensures Apply(s, Login(role), st).currentUser.None? <==>
      forall i :: 0 <= i < |s.seedUsers| ==> s.seedUsers[i].role != role
    ensures Apply(s, Login(role), st).currentUser.Some? ==>
      exists k :: 0 <= k < |s.seedUsers| && Apply(s, Login(role), st).currentUser.value == s.seedUsers[k] &&
        s.seedUsers[k].role == role && forall j :: 0 <= j < k ==> s.seedUsers[j].role != role
  {
    var r := FindIndex(s.seedUsers, (u: User) => u.role == role);
    if r.Some? {
      assert s.seedUsers[r.value].role == role;
    }
  }

  /** `startWriting(id)` moves each task with that id to Writing / "In
      Progress" and appends the logged entry to its activity, changing no
      other field; every other task, and every other collection, stays. */
  lemma StartWritingEffect(s: StoreState, id: string, st: Stamp)
    ensures var r := Apply(s, StartWriting(id), st);
      |r.tasks| == |s.tasks| &&
      (forall i :: 0 <= i < |s.tasks| && s.tasks[i].id == id ==>
        r.tasks[i] == s.tasks[i].(internalStatus := InternalStatus.Writing, airtableStatus := InProgress,
                                  activity := s.tasks[i].activity + [r.globalActivity[0]])) &&
      (forall i :: 0 <= i < |s.tasks| && s.tasks[i].id != id ==> r.tasks[i] == s.tasks[i]) &&
      r.clients == s.clients && r.locations == s.locations && r.users == s.users &&
      r.currentUser == s.currentUser
  {
  }

  /** A task action naming an id no task has leaves the tasks as they are
      and is still logged. */
  lemma UnknownTaskStillLogged(s: StoreState, a: Action, st: Stamp)
    requires a.IsTaskAction()
    requires forall i :: 0 <= i < |s.tasks| ==> s.tasks[i].id != a.taskId
    ensures Apply(s, a, st).tasks == s.tasks
    ensures |Apply(s, a, st).globalActivity| == |s.globalActivity| + 1
  {
    var r := Apply(s, a, st);
    assert |r.tasks| == |s.tasks|;
    assert forall i :: 0 <= i < |s.tasks| ==> r.tasks[i] == s.tasks[i];
  }

  /** `markWritten` and `markDelivered` accept a task in any status, and each
      call stamps `writtenAt`/`deliveredAt` anew. */
  lemma MarkAnyStatus(s: StoreState, id: string, st: Stamp, i: nat)
    requires i < |s.tasks| && s.tasks[i].id == id
    ensures Apply(s, MarkWritten(id), st).tasks[i].internalStatus == InternalStatus.Written
    ensures Apply(s, MarkWritten(id), st).tasks[i].airtableStatus == AirtableStatus.Written
    ensures Apply(s, MarkWritten(id), st).tasks[i].writtenAt == Some(st.now)
    ensures Apply(s, MarkDelivered(id), st).tasks[i].internalStatus == InternalStatus.Delivered
    ensures Apply(s, MarkDelivered(id), st).tasks[i].airtableStatus == AirtableStatus.Delivered
    ensures Apply(s, MarkDelivered(id), st).tasks[i].deliveredAt == Some(st.now)
  {
  }

  /** A task action changes the tasks with its id by `TaskAfter` with the
      new entry, keeps every other task, and adds that one entry to the feed. */
  lemma TaskStep(s: StoreState, a: Action, st: Stamp, i: nat)
    requires a.IsTaskAction() && i < |s.tasks|
    ensures var r := Apply(s, a, st);
      |r.tasks| == |s.tasks| && |r.globalActivity| == |s.globalActivity| + 1 &&
      r.globalActivity[0].timestamp == st.now &&
      r.tasks[i] == (if s.tasks[i].id == a.taskId then TaskAfter(s.tasks[i], a, r.globalActivity[0]) else s.tasks[i])
  {
  }

  /** Marking a task written twice keeps the second time. */
  lemma MarkWrittenTwiceKeepsLatest(s: StoreState, id: string, st1: Stamp, st2: Stamp, i: nat)
    requires i < |s.tasks| && s.tasks[i].id == id
    ensures var r := Apply(Apply(s, MarkWritten(id), st1), MarkWritten(id), st2);
      r.tasks[i].writtenAt == Some(st2.now) &&
      |r.tasks[i].activity| == |s.tasks[i].activity| + 2
  {
    var s1 := Apply(s, MarkWritten(id), st1);
    TaskStep(s, MarkWritten(id), st1, i);
    TaskStep(s1, MarkWritten(id), st2, i);
  }

  /** New -> Writing -> Written -> Delivered: after the three actions the
      task is delivered, carries both timestamps and three more entries. */
  lemma Lifecycle(s: StoreState, id: string, st1: Stamp, st2: Stamp, st3: Stamp, i: nat)
    requires i < |s.tasks| && s.tasks[i].id == id
    ensures var r := Apply(Apply(Apply(s, StartWriting(id), st1), MarkWritten(id), st2), MarkDelivered(id), st3);
      |r.tasks| == |s.tasks| &&
      r.tasks[i].internalStatus == InternalStatus.Delivered &&
      r.tasks[i].airtableStatus == AirtableStatus.Delivered &&
      r.tasks[i].writtenAt == Some(st2.now) && r.tasks[i].deliveredAt == Some(st3.now) &&
      |r.tasks[i].activity| == |s.tasks[i].activity| + 3 &&
      |r.globalActivity| == |s.globalActivity| + 3
  {
    var s1 := Apply(s, StartWriting(id), st1);
    var s2 := Apply(s1, MarkWritten(id), st2);
    TaskStep(s, StartWriting(id), st1, i);
    TaskStep(s1, MarkWritten(id), st2, i);
    TaskStep(s2, MarkDelivered(id), st3, i);
  }

  /** `saveDraft` is last-write-wins and changes only the draft and the log
      of the task it names. */
  lemma SaveDraftLastWriteWins(s: StoreState, id: string, c1: string, c2: string, st1: Stamp, st2: Stamp, i: nat)
    requires i < |s.tasks|
    ensures var r := Apply(s, SaveDraft(id, c1), st1);
      s.tasks[i].id == id ==>
        r.tasks[i] == s.tasks[i].(contentDraft := c1, activity := s.tasks[i].activity + [r.globalActivity[0]])
    ensures s.tasks[i].id == id ==>
      Apply(Apply(s, SaveDraft(id, c1), st1), SaveDraft(id, c2), st2).tasks[i].contentDraft == c2
    ensures s.tasks[i].id != id ==> Apply(s, SaveDraft(id, c1), st1).tasks[i] == s.tasks[i]
  {
    var s1 := Apply(s, SaveDraft(id, c1), st1);
    assert s1.tasks[i].id == s.tasks[i].id;
  }

  /** `reassignTask` changes only the writer (and the log) of the task it
      names; its entry names the first user with that id, or repeats the
      raw id when there is none. */
  lemma ReassignEffect(s: StoreState, id: string, w: string, st: Stamp, i: nat)
    requires i < |s.tasks|
    ensures var r := Apply(s, ReassignTask(id, w), st);
      (s.tasks[i].id == id ==>
        r.tasks[i] == s.tasks[i].(writerId := w, activity := s.tasks[i].activity + [r.globalActivity[0]])) &&
      (s.tasks[i].id != id ==> r.tasks[i] == s.tasks[i])
    ensures (forall j :: 0 <= j < |s.users| ==> s.users[j].id != w) ==>
      ActionText(s, ReassignTask(id, w)) == "Reassigned task " + id + " to " + w
    ensures forall k :: 0 <= k < |s.users| && s.users[k].id == w && (forall j :: 0 <= j < k ==> s.users[j].id != w) ==>
      ActionText(s, ReassignTask(id, w)) == "Reassigned task " + id + " to " + s.users[k].name
  {
    forall k | 0 <= k < |s.users| && s.users[k].id == w && (forall j :: 0 <= j < k ==> s.users[j].id != w)
      ensures ActionText(s, ReassignTask(id, w)) == "Reassigned task " + id + " to " + s.users[k].name
    {
      FindIndexFirst(s.users, (u: User) => u.id == w, k);
    }
  }

  /** The first match is the one `FindIndex` reports. */
  lemma FindIndexFirst<T>(xs: seq<T>, p: T -> bool, k: nat)
    requires k < |xs| && p(xs[k]) && forall j :: 0 <= j < k ==> !p(xs[j])
    ensures FindIndex(xs, p) == Some(k)
  {
    var r := FindIndex(xs, p);
    assert r.Some?;
    assert !(r.value < k) && !(k < r.value);
  }

  /** `addClient` appends the record at the end of the clients. */
  lemma AddClientEffect(s: StoreState, c: Client, st: Stamp)
    ensures var r := Apply(s, AddClient(c), st);
      r.clients == s.clients + [c] &&
      r.tasks == s.tasks && r.locations == s.locations && r.users == s.users && r.currentUser == s.currentUser
  {
  }

  /** `updateClient` merges the patch into each record with that id and
      leaves every other record as it was. */
  lemma UpdateClientEffect(s: StoreState, id: string, p: ClientPatch, st: Stamp)
    ensures var r := Apply(s, UpdateClient(id, p), st);
      |r.clients| == |s.clients| &&
      (forall i :: 0 <= i < |s.clients| ==>
        r.clients[i] == if s.clients[i].id == id then MergeClient(s.clients[i], p) else s.clients[i]) &&
      r.tasks == s.tasks && r.locations == s.locations && r.users == s.users && r.currentUser == s.currentUser
  {
  }

  /** `deleteClient` removes every record with that id and keeps the others,
      in order, and touches no other collection. */
  lemma DeleteClientEffect(s: StoreState, id: string, st: Stamp)
    ensures var r := Apply(s, DeleteClient(id), st);
      (forall i :: 0 <= i < |r.clients| ==> r.clients[i].id != id) &&
      (forall i :: 0 <= i < |s.clients| && s.clients[i].id != id ==> s.clients[i] in r.clients) &&
      IsSubseq(r.clients, s.clients) &&
      r.tasks == s.tasks && r.locations == s.locations && r.users == s.users && r.currentUser == s.currentUser
  {
    var r := Apply(s, DeleteClient(id), st);
    assert r.clients == RemoveClient(s.clients, id);
  }

  /** The entry `deleteClient` logs names the first record with the id, or
      repeats the id when there is none. */
  lemma DeleteClientText(s: StoreState, id: string)
    ensures (forall j :: 0 <= j < |s.clients| ==> s.clients[j].id != id) ==>
      ActionText(s, DeleteClient(id)) == "Deleted client \"" + id + "\""
    ensures forall k :: 0 <= k < |s.clients| && s.clients[k].id == id && (forall j :: 0 <= j < k ==> s.clients[j].id != id) ==>
      ActionText(s, DeleteClient(id)) == "Deleted client \"" + s.clients[k].name + "\""
  {
    forall k | 0 <= k < |s.clients| && s.clients[k].id == id && (forall j :: 0 <= j < k ==> s.clients[j].id != id)
      ensures ActionText(s, DeleteClient(id)) == "Deleted client \"" + s.clients[k].name + "\""
    {
      FindIndexFirst(s.clients, (x: Client) => x.id == id, k);
    }
  }


  /** `addLocation` appends the record at the end of the locations. */
  lemma AddLocationEffect(s: StoreState, l: Location, st: Stamp)
    ensures var r := Apply(s, AddLocation(l), st);
      r.locations == s.locations + [l] &&
      r.tasks == s.tasks && r.clients == s.clients && r.users == s.users && r.currentUser == s.currentUser
  {
  }

  /** `updateLocation` merges the patch into each record with that id and
      leaves every other record as it was. */
  lemma UpdateLocationEffect(s: StoreState, id: string, p: LocationPatch, st: Stamp)
    ensures var r := Apply(s, UpdateLocation(id, p), st);
      |r.locations| == |s.locations| &&
      (forall i :: 0 <= i < |s.locations| ==>
        r.locations[i] == if s.locations[i].id == id then MergeLocation(s.locations[i], p) else s.locations[i]) &&
      r.tasks == s.tasks && r.clients == s.clients && r.users == s.users && r.currentUser == s.currentUser
  {
  }

  /** `deleteLocation` removes every record with that id and keeps the others,
      in order, and touches no other collection. */
  lemma DeleteLocationEffect(s: StoreState, id: string, st: Stamp)
    ensures var r := Apply(s, DeleteLocation(id), st);
      (forall i :: 0 <= i < |r.locations| ==> r.locations[i].id != id) &&
      (forall i :: 0 <= i < |s.locations| && s.locations[i].id != id ==> s.locations[i] in r.locations) &&
      IsSubseq(r.locations, s.locations) &&
      r.tasks == s.tasks && r.clients == s.clients && r.users == s.users && r.currentUser == s.currentUser
  {
    var r := Apply(s, DeleteLocation(id), st);
    assert r.locations == RemoveLocation(s.locations, id);
  }

  /** The entry `deleteLocation` logs names the first record with the id, or
      repeats the id when there is none. */
  lemma DeleteLocationText(s: StoreState, id: string)
    ensures (forall j :: 0 <= j < |s.locations| ==> s.locations[j].id != id) ==>
      ActionText(s, DeleteLocation(id)) == "Deleted location \"" + id + "\""
    ensures forall k :: 0 <= k < |s.locations| && s.locations[k].id == id && (forall j :: 0 <= j < k ==> s.locations[j].id != id) ==>
      ActionText(s, DeleteLocation(id)) == "Deleted location \"" + s.locations[k].name + "\""
  {
    forall k | 0 <= k < |s.locations| && s.locations[k].id == id && (forall j :: 0 <= j < k ==> s.locations[j].id != id)
      ensures ActionText(s, DeleteLocation(id)) == "Deleted location \"" + s.locations[k].name + "\""
    {
      FindIndexFirst(s.locations, (x: Location) => x.id == id, k);
    }
  }


  /** `addUser` appends the record at the end of the users. */
  lemma AddUserEffect(s: StoreState, u: User, st: Stamp)
    ensures var r := Apply(s, AddUser(u), st);
      r.users == s.users + [u] &&
      r.tasks == s.tasks && r.clients == s.clients && r.locations == s.locations && r.currentUser == s.currentUser
  {
  }

  /** `updateUser` merges the patch into each record with that id and
      leaves every other record as it was. */
  lemma UpdateUserEffect(s: StoreState, id: string, p: UserPatch, st: Stamp)
    ensures var r := Apply(s, UpdateUser(id, p), st);
      |r.users| == |s.users| &&
      (forall i :: 0 <= i < |s.users| ==>
        r.users[i] == if s.users[i].id == id then MergeUser(s.users[i], p) else s.users[i]) &&
      r.tasks == s.tasks && r.clients == s.clients && r.locations == s.locations && r.currentUser == s.currentUser
  {
  }

  /** `deleteUser` removes every record with that id and keeps the others,
      in order, and touches no other collection. */
  lemma DeleteUserEffect(s: StoreState, id: string, st: Stamp)
    ensures var r := Apply(s, DeleteUser(id), st);
      (forall i :: 0 <= i < |r.users| ==> r.users[i].id != id) &&
      (forall i :: 0 <= i < |s.users| && s.users[i].id != id ==> s.users[i] in r.users) &&
      IsSubseq(r.users, s.users) &&
      r.tasks == s.tasks && r.clients == s.clients && r.locations == s.locations && r.currentUser == s.currentUser
  {
    var r := Apply(s, DeleteUser(id), st);
    assert r.users == RemoveUser(s.users, id);
  }

  /** The entry `deleteUser` logs names the first record with the id, or
      repeats the id when there is none. */
  lemma DeleteUserText(s: StoreState, id: string)
    ensures (forall j :: 0 <= j < |s.users| ==> s.users[j].id != id) ==>
      ActionText(s, DeleteUser(id)) == "Deleted user \"" + id + "\""
    ensures forall k :: 0 <= k < |s.users| && s.users[k].id == id && (forall j :: 0 <= j < k ==> s.users[j].id != id) ==>
      ActionText(s, DeleteUser(id)) == "Deleted user \"" + s.users[k].name + "\""
  {
    forall k | 0 <= k < |s.users| && s.users[k].id == id && (forall j :: 0 <= j < k ==> s.users[j].id != id)
      ensures ActionText(s, DeleteUser(id)) == "Deleted user \"" + s.users[k].name + "\""
    {
      FindIndexFirst(s.users, (x: User) => x.id == id, k);
    }
  }


  /* ---------------------------------------------------------------- */
  /*  The store object                                                */
  /* ---------------------------------------------------------------- */

  class AppStore {
    const seedUsers: seq<User>
    var currentUser: Option<User>
    var clients: seq<Client>
    var locations: seq<Location>
    var users: seq<User>
    var tasks: seq<Task>
    var globalActivity: seq<ActivityEntry>

    function State(): StoreState
      reads this
    {
      StoreState(seedUsers, currentUser, clients, locations, users, tasks, globalActivity)
    }

    constructor (seedClients: seq<Client>, seedLocations: seq<Location>, seedUsers: seq<User>, seedTasks: seq<Task>)
      ensures State() == Initial(seedClients, seedLocations, seedUsers, seedTasks)
    {
      this.seedUsers := seedUsers;
      currentUser := None;
      clients := seedClients;
      locations := seedLocations;
      users := seedUsers;
      tasks := seedTasks;
      globalActivity := InitialGlobalActivity(seedTasks);
    }

    method Login(role: Role)
      modifies this
      ensures State() == old(State()).(currentUser := FirstWithRole(seedUsers, role))
    {
      currentUser := FirstWithRole(seedUsers, role);
    }

    method Logout()
      modifies this
      ensures State() == old(State()).(currentUser := None)
    {
      currentUser := None;
    }

    /** The shared tail of every task action. */
    method RunTaskAction(a: Action, text: string, st: Stamp)
      requires a.IsTaskAction() && text == ActionText(State(), a)
      modifies this
      ensures State() == Apply(old(State()), a, st)
    {
      var entry := CreateActivity(text, currentUser, st);
      tasks := UpdateTasks(tasks, a.taskId, a, entry);
      globalActivity := [entry] + globalActivity;
    }

    method StartWriting(taskId: string, st: Stamp)
      modifies this
      ensures State() == Apply(old(State()), Action.StartWriting(taskId), st)
    {
      RunTaskAction(Action.StartWriting(taskId), "Started writing task " + taskId, st);
    }

    method SaveDraft(taskId: string, content: string, st: Stamp)
      modifies this
      ensures State() == Apply(old(State()), Action.SaveDraft(taskId, content), st)
    {
      RunTaskAction(Action.SaveDraft(taskId, content), "Saved draft for task " + taskId, st);
    }

    method MarkWritten(taskId: string, st: Stamp)
      modifies this
      ensures State() == Apply(old(State()), Action.MarkWritten(taskId), st)
    {
      RunTaskAction(Action.MarkWritten(taskId), "Marked task " + taskId + " as written", st);
    }

    method MarkDelivered(taskId: string, st: Stamp)
      modifies this
      ensures State() == Apply(old(State()), Action.MarkDelivered(taskId), st)
    {
      RunTaskAction(Action.MarkDelivered(taskId), "Marked task " + taskId + " as delivered", st);
    }

    method ReassignTask(taskId: string, writerId: string, st: Stamp)
      modifies this
      ensures State() == Apply(old(State()), Action.ReassignTask(taskId, writerId), st)
    {
      var writer := UserById(users, writerId);
      var name := if writer.Some? then writer.value.name else writerId;
      RunTaskAction(Action.ReassignTask(taskId, writerId), "Reassigned task " + taskId + " to " + name, st);
    }

    method AddClient(client: Client, st: Stamp)
      modifies this
      ensures State() == Apply(old(State()), Action.AddClient(client), st)
    {
      var entry := CreateActivity("Added client \"" + client.name + "\"", currentUser, st);
      clients := clients + [client];
      globalActivity := [entry] + globalActivity;
    }

    method UpdateClient(id: string, updates: ClientPatch, st: Stamp)
      modifies this
      ensures State() == Apply(old(State()), Action.UpdateClient(id, updates), st)
    {
      var entry := CreateActivity("Updated client " + id, currentUser, st);
      clients := UpdateClients(clients, id, updates);
      globalActivity := [entry] + globalActivity;
    }

    method DeleteClient(id: string, st: Stamp)
      modifies this
      ensures State() == Apply(old(State()), Action.DeleteClient(id), st)
    {
      var client := ClientById(clients, id);
      var name := if client.Some? then client.value.name else id;
      var text := "Deleted client \"" + name + "\"";
      assert text == ActionText(State(), Action.DeleteClient(id));
      var entry := CreateActivity(text, currentUser, st);
      clients := RemoveClient(clients, id);
      globalActivity := [entry] + globalActivity;
    }

    method AddLocation(location: Location, st: Stamp)
      modifies this
      ensures State() == Apply(old(State()), Action.AddLocation(location), st)
    {
      var entry := CreateActivity("Added location \"" + location.name + "\"", currentUser, st);
      locations := locations + [location];
      globalActivity := [entry] + globalActivity;
    }

    method UpdateLocation(id: string, updates: LocationPatch, st: Stamp)
      modifies this
      ensures State() == Apply(old(State()), Action.UpdateLocation(id, updates), st)
    {
      var entry := CreateActivity("Updated location " + id, currentUser, st);
      locations := UpdateLocations(locations, id, updates);
      globalActivity := [entry] + globalActivity;
    }

    method DeleteLocation(id: string, st: Stamp)
      modifies this
      ensures State() == Apply(old(State()), Action.DeleteLocation(id), st)
    {
      var location := LocationById(locations, id);
      var name := if location.Some? then location.value.name else id;
      var text := "Deleted location \"" + name + "\"";
      assert text == ActionText(State(), Action.DeleteLocation(id));
      var entry := CreateActivity(text, currentUser, st);
      locations := RemoveLocation(locations, id);
      globalActivity := [entry] + globalActivity;
    }

    method AddUser(user: User, st: Stamp)
      modifies this
      ensures State() == Apply(old(State()), Action.AddUser(user), st)
    {
      var entry := CreateActivity("Added user \"" + user.name + "\"", currentUser, st);
      users := users + [user];
      globalActivity := [entry] + globalActivity;
    }

    method UpdateUser(id: string, updates: UserPatch, st: Stamp)
      modifies this
      ensures State() == Apply(old(State()), Action.UpdateUser(id, updates), st)
    {
      var entry := CreateActivity("Updated user " + id, currentUser, st);
      users := UpdateUsers(users, id, updates);
      globalActivity := [entry] + globalActivity;
    }

    method DeleteUser(id: string, st: Stamp)
      modifies this
      ensures State() == Apply(old(State()), Action.DeleteUser(id), st)
    {
      var user := UserById(users, id);
      var name := if user.Some? then user.value.name else id;
      var text := "Deleted user \"" + name + "\"";
      assert text == ActionText(State(), Action.DeleteUser(id));
      var entry := CreateActivity(text, currentUser, st);
      users := RemoveUser(users, id);
      globalActivity := [entry] + globalActivity;
    }
  }
}
