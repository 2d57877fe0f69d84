/** The tables the routes read and write through the ORM, held in memory. Rows are
    numbered from 1 in insertion order, so the row with id `i` sits at index `i - 1`
    (the model's choice of id assignment). */
module Store {
  import opened Wrappers

  /** One row of the user table, shared by users and admins. `password` holds the hash. */
  datatype Account = Account(id: int, name: string, email: string, password: string, isAdmin: bool)

  datatype Status = Pending | Accepted | Declined

  datatype SwapRequest = SwapRequest(
    id: int,
    fromUserId: int,
    toUserId: int,
    skillNeeded: string,
    skillOffered: string,
    schedule: Option<string>,
    status: Status,
    createdAt: int)

  /** A profile; `skills` are the names of the skill rows it is connected to. */
  datatype Profile = Profile(userId: int, bio: Option<string>, location: Option<string>, skills: set<string>)

  datatype Report = Report(id: int, reporterId: int, reportedUserId: int, reason: string)

  /** `findUnique({where: {id}})` on the user table. */
  predicate UserExists(users: seq<Account>, id: int) {
    1 <= id <= |users|
  }

  /** `findUnique({where: {email}})` on the user table. */
  function FindByEmail(users: seq<Account>, email: string): (r: Option<Account>)
    ensures r.Some? ==> r.value in users && r.value.email == email
    ensures r.None? <==> forall i :: 0 <= i < |users| ==> users[i].email != email
  {
    if users == [] then None
    else if users[0].email == email then Some(users[0])
    else FindByEmail(users[1..], email)
  }

  ghost predicate AccountsValid(users: seq<Account>) {
    && (forall i :: 0 <= i < |users| ==> users[i].id == i + 1)
    && (forall i, j :: 0 <= i < j < |users| ==> users[i].email != users[j].email)
  }

  /** The request with id `i` is row `i - 1`. */
  ghost predicate RequestIds(requests: seq<SwapRequest>) {
    forall i :: 0 <= i < |requests| ==> requests[i].id == i + 1
  }

  /** Every stored request has its id and targets an existing user other than its sender. */
  ghost predicate RequestsValid(userCount: nat, requests: seq<SwapRequest>) {
    && RequestIds(requests)
    && forall i :: 0 <= i < |requests| ==>
         && requests[i].fromUserId != requests[i].toUserId
         && 1 <= requests[i].toUserId <= userCount
  }

  /** `findUnique({where: {id}})` on the request table. */
  function FindRequest(requests: seq<SwapRequest>, id: int): (r: Option<SwapRequest>)
    requires RequestIds(requests)
    ensures r.Some? ==> 1 <= id <= |requests| && r.value == requests[id - 1] && r.value.id == id
    ensures r.None? <==> forall i :: 0 <= i < |requests| ==> requests[i].id != id
  {
    if 1 <= id <= |requests| then Some(requests[id - 1]) else None
  }

  /** At most one profile per user (the map is keyed by user), never without a skill. */
  ghost predicate ProfilesValid(profiles: map<int, Profile>) {
    forall u :: u in profiles ==> profiles[u].userId == u && profiles[u].skills != {}
  }

  ghost predicate ReportsValid(reports: seq<Report>) {
    forall i :: 0 <= i < |reports| ==> reports[i].id == i + 1
  }

  /** How the request table may change between two states: rows are only appended,
      a row keeps everything but its status, and a status, once it has left `Pending`,
      stays where it is. */
  ghost predicate Evolves(before: seq<SwapRequest>, after: seq<SwapRequest>) {
    && |before| <= |after|
    && forall i :: 0 <= i < |before| ==>
         && after[i] == before[i].(status := after[i].status)
         && (before[i].status != Pending ==> after[i].status == before[i].status)
  }

  lemma EvolvesTransitive(a: seq<SwapRequest>, b: seq<SwapRequest>, c: seq<SwapRequest>)
    requires Evolves(a, b) && Evolves(b, c)
    ensures Evolves(a, c)
  {
  }

  class Database {
    var users: seq<Account>
    var requests: seq<SwapRequest>
    var profiles: map<int, Profile>
    /** Names in the skill table (grown by `connectOrCreate`). */
    var skills: set<string>
    var reports: seq<Report>

    ghost predicate Valid()
      reads this
    {
      && AccountsValid(users)
      && RequestsValid(|users|, requests)
      && ProfilesValid(profiles)
      && ReportsValid(reports)
    }

    constructor ()
      ensures Valid()
      ensures users == [] && requests == [] && profiles == map[] && skills == {} && reports == []
    {
      users, requests, profiles, skills, reports := [], [], map[], {}, [];
    }
  }
}
