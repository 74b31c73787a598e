/**
 * The entities of the review-writing workflow: users with a role, clients,
 * their locations, the review tasks written for a location on one platform,
 * and the activity entries that record who did what and when.
 */
module Types {
  import opened Seqs

  /** A point in time, in milliseconds since the epoch; the ISO strings the
      application stores are renderings of it. */
  type Instant = int

  datatype Role = Admin | Writer | Provider

  datatype InternalStatus = New | Writing | Written | Delivered

  datatype AirtableStatus = Scheduled | InProgress | Written | Delivered | Published

  datatype ClientStatus = Active | Paused | Cancelled

  datatype Priority = Low | Medium | High

  datatype Platform = Google | Trustpilot | Facebook | Yelp | TripAdvisor

  /** Optional fields (`avatar?`, `clientIds?`, ...) are `Option`s. */
  datatype User = User(
    id: string,
    name: string,
    email: string,
    role: Role,
    avatar: Option<string>,
    clientIds: Option<seq<string>>,
    assignedLocationIds: Option<seq<string>>)

  /** `mrr` is a whole number of currency units. */
  datatype Client = Client(
    id: string,
    name: string,
    status: ClientStatus,
    packageName: string,
    mrr: int,
    notes: string,
    createdAt: string)

  datatype Location = Location(
    id: string,
    clientId: string,
    name: string,
    city: string,
    active: bool,
    platforms: seq<Platform>,
    slaHours: int,
    airtableLocationId: string)

  datatype ActivityEntry = ActivityEntry(
    id: string,
    timestamp: Instant,
    action: string,
    userId: Option<string>,
    userName: Option<string>)

  datatype Task = Task(
    id: string,
    clientId: string,
    locationId: string,
    platform: Platform,
    dueAt: Instant,
    priority: Priority,
    airtableStatus: AirtableStatus,
    internalStatus: InternalStatus,
    writerId: string,
    providerId: Option<string>,
    contentBrief: string,
    contentDraft: string,
    tone: Option<string>,
    wordCount: Option<int>,
    writtenAt: Option<Instant>,
    deliveredAt: Option<Instant>,
    activity: seq<ActivityEntry>)

  /** A task still to be written or delivered: New, Writing or Written. */
  predicate IsPending(t: Task)
  {
    t.internalStatus == New || t.internalStatus == Writing || t.internalStatus == InternalStatus.Written
  }

  /** The platform's name as it is stored and shown. */
  function PlatformName(p: Platform): string
  {
    match p
    case Google => "Google"
    case Trustpilot => "Trustpilot"
    case Facebook => "Facebook"
    case Yelp => "Yelp"
    case TripAdvisor => "TripAdvisor"
  }

  /** The platform a stored name denotes, matched exactly. */
  function PlatformOfName(s: string): (r: Option<Platform>)
    ensures r.Some? ==> PlatformName(r.value) == s
    ensures r.None? ==> forall p: Platform :: PlatformName(p) != s
  {
    if s == "Google" then Some(Google)
    else if s == "Trustpilot" then Some(Trustpilot)
    else if s == "Facebook" then Some(Facebook)
    else if s == "Yelp" then Some(Yelp)
    else if s == "TripAdvisor" then Some(TripAdvisor)
    else None
  }

  /** Every platform's stored name reads back as that platform. */
  lemma PlatformNameRoundTrip(p: Platform)
    ensures PlatformOfName(PlatformName(p)) == Some(p)
  {
    var r := PlatformOfName(PlatformName(p));
    assert r.Some?;
    PlatformNameInjective(r.value, p);
  }

  /** No two platforms share a stored name. */
  lemma PlatformNameInjective(p: Platform, q: Platform)
    ensures PlatformName(p) == PlatformName(q) ==> p == q
  {
    var a, b := PlatformName(p), PlatformName(q);
    assert p == q || a[0] != b[0] || a[2] != b[2];
  }
}
