/**
  AuthService of lib/auth.ts: the signed-in user and the browser storage
  slot "civic_user" that keeps it across reloads. Storage is a map from key
  to the stored user (the JSON round trip is left out); the clock is the
  `now` parameter of registration.
 */
module Auth {

  import opened JsValues
  import opened Types
  import opened Text
  import Gamification

  const StorageKey: string := "civic_user"

  /** `Omit<User, "id" | "createdAt">`: what a registration form supplies. */
  datatype Registration = Registration(
    email: string,
    name: string,
    role: Role,
    zone: Option<string>,
    ministry: Option<string>,
    points: Option<int>,
    level: Option<int>,
    badges: Option<seq<string>>)

  /** The three demo accounts, keyed by e-mail; `createdAt` is midnight UTC of the source's date. */
  const DemoAccounts: map<string, User> := map[
    "citizen@jharkhand.gov.in" :=
      User("1", "citizen@jharkhand.gov.in", "Rahul Kumar", Citizen, None, None,
        Some(450), Some(3), Some(["first_report", "weekly_streak"]), 1705276800000),
    "admin.ranchi@jharkhand.gov.in" :=
      User("2", "admin.ranchi@jharkhand.gov.in", "Priya Singh", ZonalAdmin, Some("ranchi"), None,
        None, None, None, 1685577600000),
    "ministry.urban@jharkhand.gov.in" :=
      User("3", "ministry.urban@jharkhand.gov.in", "Dr. Amit Sharma", MinistryAdmin, None, Some("urban_dev"),
        None, None, None, 1672531200000)
  ]

  /** The outcome of `login(email, _, role)`: the demo account when its role matches, "Invalid credentials" otherwise. */
  function LoginResult(email: string, role: Role): (r: Result<User>)
    ensures r.Ok? <==> email in DemoAccounts && DemoAccounts[email].role == role
    ensures r.Err? ==> r.message == "Invalid credentials"
  {
    if email in DemoAccounts && DemoAccounts[email].role == role then Ok(DemoAccounts[email])
    else Err("Invalid credentials")
  }

  /** Exactly three (e-mail, role) pairs sign in, each to the account with that e-mail and role. */
  lemma DemoLogins(email: string, role: Role)
    ensures LoginResult(email, role).Ok? ==> LoginResult(email, role).value.email == email
    ensures LoginResult(email, role).Ok? ==> LoginResult(email, role).value.role == role
    ensures LoginResult(email, role).Ok? <==>
      || (email == "citizen@jharkhand.gov.in" && role == Citizen)
      || (email == "admin.ranchi@jharkhand.gov.in" && role == ZonalAdmin)
      || (email == "ministry.urban@jharkhand.gov.in" && role == MinistryAdmin)
  {
  }

  /** The demo accounts have distinct ids. */
  lemma DemoIdsDistinct()
    ensures forall e, f :: e in DemoAccounts && f in DemoAccounts && e != f ==> DemoAccounts[e].id != DemoAccounts[f].id
  {
    var keys := DemoAccounts.Keys;
    assert keys == {"citizen@jharkhand.gov.in", "admin.ranchi@jharkhand.gov.in", "ministry.urban@jharkhand.gov.in"};
  }

  /** The demo citizen's stored level agrees with its points. */
  lemma DemoCitizenLevel()
    ensures Gamification.CalculateLevel(450).level == DemoAccounts["citizen@jharkhand.gov.in"].level.value
  {
    Gamification.LevelNumber(450);
  }

  /** The user `register(data)` creates at time now. */
  function NewUser(data: Registration, now: nat): User {
    User(
      NatToString(now), data.email, data.name, data.role, data.zone, data.ministry,
      if data.role == Citizen then Some(0) else None,
      if data.role == Citizen then Some(1) else None,
      if data.role == Citizen then Some([]) else None,
      now)
  }

  /**
    A new user keeps the form's e-mail, name, role, zone and ministry; a citizen starts at 0 points,
    level 1 (the level CalculateLevel gives 0 points) and no badges, any other role has none of
    these; the id is the registration time in decimal, so registrations at distinct times get
    distinct ids.
   */
  lemma NewUserSpec(data: Registration, now: nat, later: nat)
    ensures var u := NewUser(data, now);
      && u.email == data.email && u.name == data.name && u.role == data.role
      && u.zone == data.zone && u.ministry == data.ministry
      && u.createdAt == now
      && (u.role == Citizen <==> u.points.Some?)
      && (u.role == Citizen <==> u.level.Some?)
      && (u.role == Citizen <==> u.badges.Some?)
      && (u.role == Citizen ==>
            u.points == Some(0) && u.badges == Some([])
            && u.level == Some(Gamification.CalculateLevel(u.points.value).level))
      && (forall i :: 0 <= i < |u.id| ==> IsDigit(u.id[i]))
      && ParseDecimal(u.id) == now
    ensures now != later ==> NewUser(data, now).id != NewUser(data, later).id
  {
    Gamification.CalculateLevelSpec(0);
    ParseNatToString(now);
    if NewUser(data, now).id == NewUser(data, later).id {
      NatToStringInjective(now, later);
    }
  }

  class AuthService {
    var currentUser: Option<User>
    /** The browser's storage, of which only the "civic_user" slot is used. */
    var storage: map<string, User>

    /** The signed-in user is exactly the one in the storage slot. */
    predicate InSync()
      reads this
    {
      currentUser == (if StorageKey in storage then Some(storage[StorageKey]) else None)
    }

    /** A new service: nobody signed in yet, storage as the browser holds it. */
    constructor (browserStorage: map<string, User>)
      ensures currentUser == None && storage == browserStorage
    {
      currentUser := None;
      storage := browserStorage;
    }

    /** `login(email, password, role)`: the password is never looked at. */
    method Login(email: string, password: string, role: Role) returns (r: Result<User>)
      modifies this
      ensures r == LoginResult(email, role)
      ensures r.Ok? ==> currentUser == Some(r.value) && storage == old(storage)[StorageKey := r.value]
      ensures r.Err? ==> currentUser == old(currentUser) && storage == old(storage)
      ensures r.Ok? ==> InSync()
    {
      r := LoginResult(email, role);
      if r.Ok? {
        currentUser := Some(r.value);
        storage := storage[StorageKey := r.value];
      }
    }

    /** `register(userData)`: signs the new user in. */
    method Register(data: Registration, now: nat) returns (u: User)
      modifies this
      ensures u == NewUser(data, now)
      ensures currentUser == Some(u) && storage == old(storage)[StorageKey := u]
      ensures InSync()
    {
      u := NewUser(data, now);
      currentUser := Some(u);
      storage := storage[StorageKey := u];
    }

    /** `getCurrentUser()`: the cached user, else the stored one (which becomes the cached one), else null. */
    method GetCurrentUser() returns (u: Option<User>)
      modifies this
      ensures old(currentUser).Some? ==> u == old(currentUser)
      ensures old(currentUser).None? ==> u == (if StorageKey in storage then Some(storage[StorageKey]) else None)
      ensures currentUser == u && storage == old(storage)
      ensures old(InSync()) ==> InSync()
    {
      if currentUser.None? && StorageKey in storage {
        currentUser := Some(storage[StorageKey]);
      }
      u := currentUser;
    }

    /** `logout()`. */
    method Logout()
      modifies this
      ensures currentUser == None && storage == old(storage) - {StorageKey}
      ensures InSync()
    {
      currentUser := None;
      storage := storage - {StorageKey};
    }
  }
}
