/** The authenticated routes of the user router (dist/routes/user.js) that go beyond
    signup and login: profiles, swap requests and their answers, and reports. The caller
    is the `userId` the user guard attached; `createdAt` and `timestamp` are clock
    readings passed in. */
module SwapRoutes {
  import opened Wrappers
  import opened Store
  import Notification
  import Connections
  import Decimal

  /** A present optional string field, or None. */
  function Optional(f: Field<string>): Option<string> {
    if f.Given? then Some(f.value) else None
  }

  // ---------------------------------------------------------------- profiles

  datatype ProfileBody = ProfileBody(bio: Field<string>, skills: Field<seq<string>>, location: Field<string>)

  datatype ProfileResult = ProfileInvalid | ProfileExists | ProfileCreated(profile: Profile) {
    function Code(): int {
      match this
      case ProfileInvalid => 400
      case ProfileExists => 409
      case ProfileCreated(_) => 201
    }
  }

  /** The profile schema: optional strings `bio` and `location`, at least one skill. */
  predicate ValidProfile(b: ProfileBody) {
    && !b.bio.Malformed?
    && !b.location.Malformed?
    && b.skills.Given? && |b.skills.value| >= 1
  }

  /** What `POST /profile` answers. */
  function ProfileOutcome(profiles: map<int, Profile>, caller: int, b: ProfileBody): (r: ProfileResult)
    ensures !ValidProfile(b) ==> r == ProfileInvalid
    ensures ValidProfile(b) && caller in profiles ==> r == ProfileExists
    ensures r.ProfileCreated? <==> ValidProfile(b) && caller !in profiles
    ensures r.ProfileCreated? ==>
              && r.profile.userId == caller
              && r.profile.skills != {}
              && (forall s :: s in r.profile.skills <==> s in b.skills.value)
              && r.profile.bio == Optional(b.bio) && r.profile.location == Optional(b.location)
  {
    if !ValidProfile(b) then ProfileInvalid
    else if caller in profiles then ProfileExists
    else
      var names := set s | s in b.skills.value;
      assert b.skills.value[0] in names;
      ProfileCreated(Profile(caller, Optional(b.bio), Optional(b.location), names))
  }

  /** `POST /profile`: validate, refuse a second profile, create it and connect (or create)
      its skill rows. */
  method CreateProfile(db: Database, caller: int, b: ProfileBody) returns (r: ProfileResult)
    requires db.Valid()
    modifies db
    ensures db.Valid()
    ensures r == ProfileOutcome(old(db.profiles), caller, b)
    ensures db.profiles == if r.ProfileCreated? then old(db.profiles)[caller := r.profile] else old(db.profiles)
    ensures db.skills == if r.ProfileCreated? then old(db.skills) + r.profile.skills else old(db.skills)
    ensures db.users == old(db.users) && db.requests == old(db.requests) && db.reports == old(db.reports)
  {
    if !ValidProfile(b) {
      return ProfileInvalid;
    }
    if caller in db.profiles {
      return ProfileExists;
    }
    var names := set s | s in b.skills.value;
    assert b.skills.value[0] in names;
    var profile := Profile(caller, Optional(b.bio), Optional(b.location), names);
    db.profiles := db.profiles[caller := profile];
    db.skills := db.skills + names;
    r := ProfileCreated(profile);
  }

  /** `GET /profile/me`: None is the 404 answer. */
  function MyProfile(profiles: map<int, Profile>, caller: int): (r: Option<Profile>)
    requires ProfilesValid(profiles)
    ensures r.Some? <==> caller in profiles
    ensures r.Some? ==> r.value == profiles[caller] && r.value.userId == caller && r.value.skills != {}
  {
    if caller in profiles then Some(profiles[caller]) else None
  }

  /** A created profile is the one `GET /profile/me` returns, and no later body creates
      another for the same user. */
  lemma OneProfilePerUser(profiles: map<int, Profile>, caller: int, b: ProfileBody, later: ProfileBody)
    requires ProfilesValid(profiles)
    requires ProfileOutcome(profiles, caller, b).ProfileCreated?
    ensures var p := ProfileOutcome(profiles, caller, b).profile;
            && ProfilesValid(profiles[caller := p])
            && MyProfile(profiles[caller := p], caller) == Some(p)
            && ProfileOutcome(profiles[caller := p], caller, later) in {ProfileInvalid, ProfileExists}
  {
  }

  // ---------------------------------------------------------------- swap requests

  datatype RequestBody = RequestBody(toUserId: Field<int>, skillNeeded: Field<string>, skillOffered: Field<string>, schedule: Field<string>)

  datatype CreateResult = RequestInvalid | SelfRequest | TargetNotFound | RequestCreated(request: SwapRequest) {
    function Code(): int {
      match this
      case RequestInvalid => 400
      case SelfRequest => 400
      case TargetNotFound => 404
      case RequestCreated(_) => 201
    }
  }

  /** The request schema: a numeric target, two non-empty skills, an optional schedule. */
  predicate ValidRequest(b: RequestBody) {
    && b.toUserId.Given?
    && b.skillNeeded.Given? && |b.skillNeeded.value| >= 1
    && b.skillOffered.Given? && |b.skillOffered.value| >= 1
    && !b.schedule.Malformed?
  }

  /** What `POST /request` answers. The self-request test comes before the target lookup. */
  function CreateOutcome(users: seq<Account>, requests: seq<SwapRequest>, caller: int, b: RequestBody, createdAt: int)
    : (r: CreateResult)
    ensures !ValidRequest(b) ==> r == RequestInvalid
    ensures ValidRequest(b) && b.toUserId.value == caller ==> r == SelfRequest
    ensures ValidRequest(b) && b.toUserId.value != caller && !UserExists(users, b.toUserId.value) ==> r == TargetNotFound
    ensures r.RequestCreated? <==> ValidRequest(b) && b.toUserId.value != caller && UserExists(users, b.toUserId.value)
    ensures r.RequestCreated? ==>
              r.request == SwapRequest(|requests| + 1, caller, b.toUserId.value, b.skillNeeded.value,
                                       b.skillOffered.value, Optional(b.schedule), Pending, createdAt)
  {
    if !ValidRequest(b) then RequestInvalid
    else if b.toUserId.value == caller then SelfRequest
    else if !UserExists(users, b.toUserId.value) then TargetNotFound
    else RequestCreated(SwapRequest(|requests| + 1, caller, b.toUserId.value, b.skillNeeded.value,
                                    b.skillOffered.value, Optional(b.schedule), Pending, createdAt))
  }

  function RequestMessage(sender: int): string {
    "You have a new swap request from " + Decimal.Show(sender)
  }

  /** `POST /request`: validate, refuse oneself and unknown targets, store the request,
      then push a `swap-request` notice to the target. The answer does not depend on the
      push. */
  method CreateRequest(db: Database, registry: Connections.Registry, caller: int, b: RequestBody,
                       createdAt: int, timestamp: string)
    returns (r: CreateResult)
    requires db.Valid() && registry.Valid()
    modifies db, registry
    ensures db.Valid() && registry.Valid()
    ensures r == CreateOutcome(old(db.users), old(db.requests), caller, b, createdAt)
    ensures db.requests == if r.RequestCreated? then old(db.requests) + [r.request] else old(db.requests)
    ensures Evolves(old(db.requests), db.requests)
    ensures db.users == old(db.users) && db.profiles == old(db.profiles)
    ensures db.skills == old(db.skills) && db.reports == old(db.reports)
    ensures registry.clients == old(registry.clients)
    ensures !r.RequestCreated? ==> registry.outbox == old(registry.outbox)
    ensures r.RequestCreated? ==>
              var d := Notification.NotifyUser(
                         Notification.Notice(r.request.toUserId, RequestMessage(caller), Notification.SwapRequest), timestamp);
              registry.outbox == old(registry.outbox) + old(registry.Deliveries(d.key, d.payload))
  {
    if !ValidRequest(b) {
      return RequestInvalid;
    }
    var toUserId := b.toUserId.value;
    if toUserId == caller {
      return SelfRequest;
    }
    if !UserExists(db.users, toUserId) {
      return TargetNotFound;
    }
    var request := SwapRequest(|db.requests| + 1, caller, toUserId, b.skillNeeded.value,
                               b.skillOffered.value, Optional(b.schedule), Pending, createdAt);
    db.requests := db.requests + [request];
    var d := Notification.NotifyUser(Notification.Notice(toUserId, RequestMessage(caller), Notification.SwapRequest), timestamp);
    registry.SendNotification(d.key, d.payload);
    r := RequestCreated(request);
  }

  // ---------------------------------------------------------------- answers

  datatype RespondResult = InvalidStatus | RequestNotFound | NotRecipient | AlreadyResponded | Responded(request: SwapRequest) {
    function Code(): int {
      match this
      case InvalidStatus => 400
      case RequestNotFound => 404
      case NotRecipient => 403
      case AlreadyResponded => 400
      case Responded(_) => 200
    }
  }

  function StatusName(s: Status): string {
    match s
    case Pending => "pending"
    case Accepted => "accepted"
    case Declined => "declined"
  }

  /** The answer schema: the status must be "accepted" or "declined". */
  function ParseDecision(status: Field<string>): (d: Option<Status>)
    ensures d.Some? <==> status == Given("accepted") || status == Given("declined")
    ensures d.Some? ==> d.value != Pending && status == Given(StatusName(d.value))
  {
    if status == Given("accepted") then Some(Accepted)
    else if status == Given("declined") then Some(Declined)
    else None
  }

  /** What `PATCH /request/:id` answers. Guards run in the route's order: the status
      value, then existence, then the recipient, then whether the request is still pending. */
  function RespondOutcome(requests: seq<SwapRequest>, caller: int, requestId: int, status: Field<string>): (r: RespondResult)
    requires RequestIds(requests)
    ensures ParseDecision(status).None? ==> r == InvalidStatus
    ensures ParseDecision(status).Some? && FindRequest(requests, requestId).None? ==> r == RequestNotFound
    ensures ParseDecision(status).Some? && FindRequest(requests, requestId).Some? ==>
              var q := FindRequest(requests, requestId).value;
              && (q.toUserId != caller ==> r == NotRecipient)
              && (q.toUserId == caller && q.status != Pending ==> r == AlreadyResponded)
    ensures ParseDecision(status).Some? && FindRequest(requests, requestId).Some? ==>
              var q := FindRequest(requests, requestId).value;
              q.toUserId == caller && q.status == Pending ==> r.Responded?
    ensures r.Responded? ==>
              && 1 <= requestId <= |requests|
              && requests[requestId - 1].toUserId == caller
              && requests[requestId - 1].status == Pending
              && r.request == requests[requestId - 1].(status := ParseDecision(status).value)
              && r.request.status != Pending
  {
    match ParseDecision(status)
    case None => InvalidStatus
    case Some(decision) =>
      match FindRequest(requests, requestId)
      case None => RequestNotFound
      case Some(request) =>
        if request.toUserId != caller then NotRecipient
        else if request.status != Pending then AlreadyResponded
        else Responded(request.(status := decision))
  }

  function ResponseMessage(decision: Status, responder: int): string {
    "Your swap request has been " + StatusName(decision) + " by user " + Decimal.Show(responder)
  }

  /** `PATCH /request/:id`: on success only that request's status changes, then a
      `swap-response` notice goes to its sender. An id that is not a number is modelled
      as an id that names no row. */
  method Respond(db: Database, registry: Connections.Registry, caller: int, requestId: int, status: Field<string>,
                 timestamp: string)
    returns (r: RespondResult)
    requires db.Valid() && registry.Valid()
    modifies db, registry
    ensures db.Valid() && registry.Valid()
    ensures r == RespondOutcome(old(db.requests), caller, requestId, status)
    ensures db.requests == if r.Responded? then old(db.requests)[requestId - 1 := r.request] else old(db.requests)
    ensures Evolves(old(db.requests), db.requests)
    ensures db.users == old(db.users) && db.profiles == old(db.profiles)
    ensures db.skills == old(db.skills) && db.reports == old(db.reports)
    ensures registry.clients == old(registry.clients)
    ensures !r.Responded? ==> registry.outbox == old(registry.outbox)
    ensures r.Responded? ==>
              var d := Notification.NotifyUser(
                         Notification.Notice(r.request.fromUserId, ResponseMessage(r.request.status, caller),
                                             Notification.SwapResponse), timestamp);
              registry.outbox == old(registry.outbox) + old(registry.Deliveries(d.key, d.payload))
  {
    var decision := ParseDecision(status);
    if decision.None? {
      return InvalidStatus;
    }
    var found := FindRequest(db.requests, requestId);
    if found.None? {
      return RequestNotFound;
    }
    var request := found.value;
    if request.toUserId != caller {
      return NotRecipient;
    }
    if request.status != Pending {
      return AlreadyResponded;
    }
    var updated := request.(status := decision.value);
    db.requests := db.requests[requestId - 1 := updated];
    var d := Notification.NotifyUser(
               Notification.Notice(request.fromUserId, ResponseMessage(decision.value, caller), Notification.SwapResponse),
               timestamp);
    registry.SendNotification(d.key, d.payload);
    r := Responded(updated);
  }

  /** A request is answered at most once: after a successful answer, no caller and no
      body gets another one through. */
  lemma AnsweredAtMostOnce(requests: seq<SwapRequest>, caller: int, requestId: int, status: Field<string>,
                           nextCaller: int, nextStatus: Field<string>)
    requires RequestIds(requests)
    requires RespondOutcome(requests, caller, requestId, status).Responded?
    ensures var after := requests[requestId - 1 := RespondOutcome(requests, caller, requestId, status).request];
            && RequestIds(after)
            && RespondOutcome(after, nextCaller, requestId, nextStatus) in {InvalidStatus, NotRecipient, AlreadyResponded}
  {
  }

  // ---------------------------------------------------------------- reports

  /** The report body is read without a schema; only missing (or null) values and the
      falsy `0` and `""` are told apart here. */
  datatype ReportBody = ReportBody(reportedUserId: Option<int>, reason: Option<string>)

  datatype ReportResult = ReportInvalid | ReportSubmitted(report: Report) {
    function Code(): int {
      match this
      case ReportInvalid => 400
      case ReportSubmitted(_) => 201
    }
  }

  /** What `POST /report` answers: any truthy id and reason are accepted, with no check
      that the reported user exists or differs from the reporter. */
  function ReportOutcome(reports: seq<Report>, caller: int, b: ReportBody): (r: ReportResult)
    ensures r.ReportSubmitted? <==> b.reportedUserId.Some? && b.reportedUserId.value != 0 && b.reason.Some? && b.reason.value != ""
    ensures r.ReportSubmitted? ==>
              r.report == Report(|reports| + 1, caller, b.reportedUserId.value, b.reason.value)
  {
    match (b.reportedUserId, b.reason)
    case (Some(reported), Some(reason)) =>
      if reported == 0 || reason == "" then ReportInvalid
      else ReportSubmitted(Report(|reports| + 1, caller, reported, reason))
    case _ => ReportInvalid
  }

  /** `POST /report`: check the input, then store the report. */
  method SubmitReport(db: Database, caller: int, b: ReportBody) returns (r: ReportResult)
    requires db.Valid()
    modifies db
    ensures db.Valid()
    ensures r == ReportOutcome(old(db.reports), caller, b)
    ensures db.reports == if r.ReportSubmitted? then old(db.reports) + [r.report] else old(db.reports)
    ensures db.users == old(db.users) && db.requests == old(db.requests)
    ensures db.profiles == old(db.profiles) && db.skills == old(db.skills)
  {
    if b.reportedUserId.None? || b.reportedUserId.value == 0 || b.reason.None? || b.reason.value == "" {
      return ReportInvalid;
    }
    var report := Report(|db.reports| + 1, caller, b.reportedUserId.value, b.reason.value);
    db.reports := db.reports + [report];
    r := ReportSubmitted(report);
  }
}
