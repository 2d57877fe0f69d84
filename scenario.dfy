/** The request lifecycle run end to end on an empty store: user 1 asks user 2 for a
    swap, user 3 tries to answer it, user 2 accepts it, then tries to decline it. */
module Scenario {
  import opened Wrappers
  import opened Store
  import Accounts
  import Connections
  import Notification
  import SwapRoutes
  import Decimal

  function NewUser(name: string, email: string): Accounts.SignupBody {
    Accounts.SignupBody(Given(name), Given(email), Given("secret-pass"), Absent)
  }

  /** One user signs up through the user router with a fresh e-mail and gets the next id. */
  method Join(db: Database, name: string, email: string)
    requires db.Valid() && |name| >= 1 && |email| >= 1
    requires forall i :: 0 <= i < |db.users| ==> db.users[i].email != email
    modifies db
    ensures db.Valid()
    ensures db.users == old(db.users) + [Account(|old(db.users)| + 1, name, email, "h", false)]
    ensures db.requests == old(db.requests) && db.profiles == old(db.profiles) && db.reports == old(db.reports)
  {
    var isEmail := (s: string) => |s| > 0;
    assert Accounts.Utf16Length("secret-pass") >= |"secret-pass"| == 11;
    assert Accounts.ValidSignup(NewUser(name, email), isEmail);
    var r := Accounts.Signup(db, NewUser(name, email), isEmail, "h", false);
    assert r.SignedUp?;
  }

  /** Three users sign up through the user router; they get ids 1, 2 and 3. */
  method ThreeUsers() returns (db: Database)
    ensures fresh(db) && db.Valid()
    ensures |db.users| == 3 && db.requests == [] && db.profiles == map[] && db.reports == []
  {
    db := new Database();
    Join(db, "A", "a@x");
    assert "a@x" != "b@x";
    Join(db, "B", "b@x");
    assert "a@x" != "c@x" && "b@x" != "c@x";
    Join(db, "C", "c@x");
  }

  /** Users 1 and 2 each hold an open connection. */
  method BothOnline() returns (registry: Connections.Registry)
    ensures fresh(registry) && registry.Valid() && registry.outbox == []
    ensures "1" in registry.clients && registry.clients["1"].open
    ensures "2" in registry.clients && registry.clients["2"].open
  {
    registry := new Connections.Registry();
    var socketA := new Connections.Socket(true);
    var socketB := new Connections.Socket(true);
    var connA := registry.OnConnection(Some("1"), socketA);
    var connB := registry.OnConnection(Some("2"), socketB);
  }

  method GuitarForSpanish() returns (db: Database, registry: Connections.Registry,
                                     created: SwapRoutes.CreateResult, intruder: SwapRoutes.RespondResult,
                                     accepted: SwapRoutes.RespondResult, again: SwapRoutes.RespondResult)
    ensures created.RequestCreated? && created.request.status == Pending && created.request.id == 1
    ensures intruder == SwapRoutes.NotRecipient
    ensures accepted.Responded? && accepted.request.status == Accepted
    ensures again == SwapRoutes.AlreadyResponded
    ensures |db.requests| == 1 && db.requests[0].status == Accepted
    ensures |registry.outbox| == 2
    ensures registry.outbox[0].message.data.kind == Notification.SwapRequest
    ensures registry.outbox[1].message.data.kind == Notification.SwapResponse
    ensures "1" in registry.clients && "2" in registry.clients
    ensures registry.outbox[0].socket == registry.clients["2"]
    ensures registry.outbox[1].socket == registry.clients["1"]
  {
    db := ThreeUsers();
    registry := BothOnline();
    assert Decimal.Show(1) == "1" && Decimal.Show(2) == "2";

    var body := SwapRoutes.RequestBody(Given(2), Given("Guitar"), Given("Spanish"), Absent);
    assert SwapRoutes.ValidRequest(body);
    assert UserExists(db.users, 2);
    created := SwapRoutes.CreateRequest(db, registry, 1, body, 100, "t0");
    assert created.RequestCreated?;
    assert |registry.outbox| == 1;
    intruder := SwapRoutes.Respond(db, registry, 3, 1, Given("accepted"), "t1");
    assert intruder == SwapRoutes.NotRecipient;
    accepted := SwapRoutes.Respond(db, registry, 2, 1, Given("accepted"), "t2");
    assert accepted.Responded?;
    assert |registry.outbox| == 2;
    again := SwapRoutes.Respond(db, registry, 2, 1, Given("declined"), "t3");
  }
}
