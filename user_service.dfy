/**
 * The in-memory meaning of the hobby backend's user service (`UserServiceImpl`).
 *
 * The user, client and business-owner repositories all look at one table of
 * users (clients and business owners are the two kinds of user), modelled as a
 * map from id to entity; `save` of a new entity gives it the next free id. The
 * role repository is the sequence of roles saved so far. The password encoder
 * is an uninterpreted function fixed when the service is built.
 */
module UserService {
  import opened Wrappers
  import opened ListRemoval

  type UserId = nat

  datatype Role = USER | BUSINESS_USER | ADMIN

  datatype Gender = MALE | FEMALE | OTHER

  /** A hobby, compared by identity as the persistence context does. */
  datatype Hobby = Hobby(id: nat)

  /** What an `AppClient` or a `BusinessOwner` adds to the common user fields. */
  datatype Profile =
    | Client(fullName: string, gender: Gender, savedHobbies: seq<Hobby>, hobbyMatches: seq<Hobby>)
    | Business(businessName: string, address: string, hobbyOffers: seq<Hobby>)

  datatype UserEntity = UserEntity(id: UserId, username: string, email: string, password: string,
                                   roles: seq<Role>, profile: Profile)

  /** The client sign-up form (`AppClientSignUpDto`). */
  datatype ClientSignUp = ClientSignUp(username: string, email: string, password: string,
                                       fullName: string, gender: Gender)

  /** The business sign-up form (`BusinessRegisterDto`). */
  datatype BusinessSignUp = BusinessSignUp(username: string, email: string, password: string,
                                           businessName: string, address: string)

  /** A returned value, or the `NotFoundException` the service throws. */
  datatype Result<+T> = Ok(value: T) | NotFound(message: string)

  /** A user after each of `hobbies` was removed once from its saved and matched lists (clients only). */
  function Purged(u: UserEntity, hobbies: seq<Hobby>): UserEntity
  {
    match u.profile
    case Client(fullName, gender, saved, matches) =>
      u.(profile := Client(fullName, gender, RemoveEach(saved, hobbies), RemoveEach(matches, hobbies)))
    case Business(_, _, _) => u
  }

  /** The user table after every client's lists were purged of `hobbies`. */
  function PurgeClients(users: map<UserId, UserEntity>, hobbies: seq<Hobby>): map<UserId, UserEntity>
  {
    map id | id in users :: Purged(users[id], hobbies)
  }

  /** Two users that agree on everything except a client's two hobby lists. */
  ghost predicate SameExceptHobbyLists(u: UserEntity, v: UserEntity)
  {
    && u.id == v.id && u.username == v.username && u.email == v.email
    && u.password == v.password && u.roles == v.roles
    && (u.profile.Business? ==> v == u)
    && (u.profile.Client? ==> v.profile.Client? && v.profile.fullName == u.profile.fullName
                                                && v.profile.gender == u.profile.gender)
  }

  class UserServiceImpl {
    /** `passwordEncoder.encode`. */
    const encode: string -> string
    /** The user table, shared by the user, client and business-owner repositories. */
    var users: map<UserId, UserEntity>
    /** The role repository, in the order the roles were saved. */
    var roles: seq<Role>
    /** The id the next newly saved user receives. */
    var nextId: UserId

    /** Every stored user carries its own key as id, and every key is below the next id. */
    ghost predicate Valid()
      reads this
    {
      forall id :: id in users ==> users[id].id == id && id < nextId
    }

    constructor (encode: string -> string)
      ensures Valid()
      ensures this.encode == encode && users == map[] && roles == [] && nextId == 0
    {
      this.encode := encode;
      users := map[];
      roles := [];
      nextId := 0;
    }

    /** `repository.save` of a new entity: it receives a fresh id and is stored under it. */
    method SaveNew(u: UserEntity) returns (saved: UserEntity)
      requires Valid()
      modifies this
      ensures Valid()
      ensures saved == u.(id := old(nextId)) && saved.id !in old(users)
      ensures users == old(users)[saved.id := saved]
      ensures nextId == old(nextId) + 1 && roles == old(roles)
    {
      saved := u.(id := nextId);
      users := users[nextId := saved];
      nextId := nextId + 1;
    }

    /**
     * Seeds the three roles and three users, but only into an empty user table;
     * otherwise returns no users and changes nothing.
     */
    method SeedUsersAndUserRoles() returns (seeded: seq<UserEntity>)
      requires Valid()
      modifies this
      ensures Valid()
      ensures old(|users|) == 0 ==>
        && roles == old(roles) + [USER, BUSINESS_USER, ADMIN]
        && |seeded| == 3
        && seeded[0] == UserEntity(seeded[0].id, "admin", "admin@example.com", encode("admin123"),
                                   [ADMIN], Client("Admin User", OTHER, [], []))
        && seeded[1] == UserEntity(seeded[1].id, "user", "user@example.com", encode("user123"),
                                   [USER], Client("Regular User", MALE, [], []))
        && seeded[2] == UserEntity(seeded[2].id, "business", "business@example.com", encode("business123"),
                                   [BUSINESS_USER], Business("Test Business", "123 Business St", []))
        && seeded[0].id < seeded[1].id < seeded[2].id
        && users == map[seeded[0].id := seeded[0], seeded[1].id := seeded[1], seeded[2].id := seeded[2]]
      ensures old(|users|) != 0 ==>
        seeded == [] && users == old(users) && roles == old(roles) && nextId == old(nextId)
    {
      seeded := [];
      if |users| == 0 {
        roles := roles + [USER];
        roles := roles + [BUSINESS_USER];
        roles := roles + [ADMIN];

        var admin := UserEntity(0, "admin", "admin@example.com", encode("admin123"),
                                [ADMIN], Client("Admin User", OTHER, [], []));
        admin := SaveNew(admin);
        seeded := seeded + [admin];

        var user := UserEntity(0, "user", "user@example.com", encode("user123"),
                               [USER], Client("Regular User", MALE, [], []));
        user := SaveNew(user);
        seeded := seeded + [user];

        var business := UserEntity(0, "business", "business@example.com", encode("business123"),
                                   [BUSINESS_USER], Business("Test Business", "123 Business St", []));
        business := SaveNew(business);
        seeded := seeded + [business];
      }
    }

    /** Stores a new client with exactly the USER role and the encoded password. */
    method Register(form: ClientSignUp) returns (client: UserEntity)
      requires Valid()
      modifies this
      ensures Valid()
      ensures client.id !in old(users) && users == old(users)[client.id := client]
      ensures client.roles == [USER] && client.password == encode(form.password)
      ensures client.username == form.username && client.email == form.email
      ensures client.profile == Client(form.fullName, form.gender, [], [])
      ensures roles == old(roles)
    {
      var mapped := UserEntity(0, form.username, form.email, form.password, [],
                               Client(form.fullName, form.gender, [], []));
      mapped := mapped.(roles := [USER]);
      mapped := mapped.(password := encode(form.password));
      client := SaveNew(mapped);
    }

    /** Stores a new business owner with exactly the BUSINESS_USER role and the encoded password. */
    method RegisterBusiness(form: BusinessSignUp) returns (owner: UserEntity)
      requires Valid()
      modifies this
      ensures Valid()
      ensures owner.id !in old(users) && users == old(users)[owner.id := owner]
      ensures owner.roles == [BUSINESS_USER] && owner.password == encode(form.password)
      ensures owner.username == form.username && owner.email == form.email
      ensures owner.profile == Business(form.businessName, form.address, [])
      ensures roles == old(roles)
    {
      var mapped := UserEntity(0, form.username, form.email, form.password, [],
                               Business(form.businessName, form.address, []));
      mapped := mapped.(roles := [BUSINESS_USER]);
      mapped := mapped.(password := encode(form.password));
      owner := SaveNew(mapped);
    }

    /** The user with the given id, or NotFound when there is none. */
    function FindUserById(id: UserId): (r: Result<UserEntity>)
      reads this
      requires Valid()
      ensures r.Ok? <==> id in users
      ensures r.Ok? ==> r.value in users.Values && r.value.id == id
      ensures r.NotFound? ==> r.message == "User not found"
    {
      if id in users then Ok(users[id]) else NotFound("User not found")
    }

    /**
     * A derived repository query (`findByEmail`, `findByUsername`, ...): some
     * stored user satisfying `matches`, or None when no user does.
     */
    method FindOne(matches: UserEntity -> bool) returns (r: Option<UserEntity>)
      ensures r.Some? <==> exists id :: id in users && matches(users[id])
      ensures r.Some? ==> r.value in users.Values && matches(r.value)
    {
      if id :| id in users && matches(users[id]) {
        r := Some(users[id]);
      } else {
        r := None;
      }
    }

    /** A user with the given email, or None (the service's null) when there is none. */
    method FindUserByEmail(email: string) returns (r: Option<UserEntity>)
      ensures r.Some? <==> exists id :: id in users && users[id].email == email
      ensures r.Some? ==> r.value in users.Values && r.value.email == email
    {
      r := FindOne((u: UserEntity) => u.email == email);
    }

    /** Whether the username or the email is already taken. */
    method UserExists(username: string, email: string) returns (taken: bool)
      ensures taken <==> ((exists id :: id in users && users[id].username == username)
                          || (exists id :: id in users && users[id].email == email))
    {
      var byUsername := FindOne((u: UserEntity) => u.username == username);
      var byEmail := FindOne((u: UserEntity) => u.email == email);
      taken := byUsername.Some? || byEmail.Some?;
    }

    /** Whether some business owner has the given business name. */
    method BusinessExists(businessName: string) returns (taken: bool)
      ensures taken <==> exists id :: id in users && users[id].profile.Business?
                                      && users[id].profile.businessName == businessName
    {
      var byBusinessName := FindOne((u: UserEntity) => u.profile.Business? && u.profile.businessName == businessName);
      taken := byBusinessName.Some?;
    }

    /**
     * The inner loop over the hobbies for one client: each hobby is removed once
     * from the matched list and once from the saved list.
     */
    method RemoveHobbiesFromLists(matches: seq<Hobby>, saved: seq<Hobby>, hobbies: seq<Hobby>)
      returns (matches': seq<Hobby>, saved': seq<Hobby>)
      ensures matches' == RemoveEach(matches, hobbies) && saved' == RemoveEach(saved, hobbies)
    {
      matches', saved' := matches, saved;
      for i := 0 to |hobbies|
        invariant matches' == RemoveEach(matches, hobbies[..i])
        invariant saved' == RemoveEach(saved, hobbies[..i])
      {
        RemoveEachStep(matches, hobbies[..i], hobbies[i]);
        RemoveEachStep(saved, hobbies[..i], hobbies[i]);
        assert hobbies[..i + 1] == hobbies[..i] + [hobbies[i]];
        matches' := RemoveFirst(matches', hobbies[i]);
        saved' := RemoveFirst(saved', hobbies[i]);
      }
      assert hobbies[..|hobbies|] == hobbies;
    }

    /**
     * Removes each of `hobbies` once from every client's matched and saved
     * lists, client by client, updating the entities in place.
     */
    method RemoveFromClientRecords(hobbies: seq<Hobby>)
      requires Valid()
      modifies this
      ensures Valid()
      ensures users == PurgeClients(old(users), hobbies)
      ensures roles == old(roles) && nextId == old(nextId)
    {
      ghost var before := users;
      var pending := set id | id in users && users[id].profile.Client?;
      while pending != {}
        invariant Valid()
        invariant users.Keys == before.Keys
        invariant forall id :: id in pending ==> id in users && users[id] == before[id] && users[id].profile.Client?
        invariant forall id :: id in users && id !in pending ==> users[id] == Purged(before[id], hobbies)
        invariant roles == old(roles) && nextId == old(nextId)
        decreases pending
      {
        var id :| id in pending;
        var client := users[id];
        var matches, saved := RemoveHobbiesFromLists(client.profile.hobbyMatches, client.profile.savedHobbies, hobbies);
        client := client.(profile := client.profile.(savedHobbies := saved, hobbyMatches := matches));
        assert client == Purged(before[id], hobbies);
        users := users[id := client];
        pending := pending - {id};
      }
      assert users == PurgeClients(before, hobbies);
    }

    /** Removes the first occurrence of `hobby` from every client's saved and matched lists. */
    method FindAndRemoveHobbyFromClientsRecords(hobby: Hobby)
      requires Valid()
      modifies this
      ensures Valid()
      ensures users == PurgeClients(old(users), [hobby])
      ensures roles == old(roles) && nextId == old(nextId)
    {
      RemoveFromClientRecords([hobby]);
    }

    /**
     * Deletes a user. An absent id raises NotFound (so false is never returned);
     * deleting a business owner first takes its offered hobbies out of every
     * client's lists; deleting anyone else touches no other user.
     */
    method DeleteUser(id: UserId) returns (r: Result<bool>)
      requires Valid()
      modifies this
      ensures Valid()
      ensures r.NotFound? <==> id !in old(users)
      ensures r.NotFound? ==> r.message == "User not found" && users == old(users)
      ensures r.Ok? ==> r.value
      ensures r.Ok? && old(users)[id].profile.Business? ==>
        users == PurgeClients(old(users), old(users)[id].profile.hobbyOffers) - {id}
      ensures r.Ok? && !old(users)[id].profile.Business? ==> users == old(users) - {id}
      ensures roles == old(roles) && nextId == old(nextId)
    {
      var found := FindUserById(id);
      if found.NotFound? {
        return NotFound(found.message);
      }
      var user := found.value;
      if user.profile.Business? {
        RemoveFromClientRecords(user.profile.hobbyOffers);
      }
      users := users - {user.id};
      r := Ok(true);
    }
  }

  /** Purging changes only clients' two hobby lists: every user keeps its id, names, password, roles and kind. */
  lemma PurgeClientsChangesOnlyHobbyLists(users: map<UserId, UserEntity>, hobbies: seq<Hobby>)
    ensures PurgeClients(users, hobbies).Keys == users.Keys
    ensures forall id :: id in users ==> SameExceptHobbyLists(users[id], PurgeClients(users, hobbies)[id])
  {
  }

  /**
   * Each client's lists lose, per hobby in `hobbies`, at most one matching
   * element: the multiset of what remains is the old one minus `hobbies`.
   */
  lemma PurgedListsLoseOneOccurrencePerHobby(u: UserEntity, hobbies: seq<Hobby>)
    requires u.profile.Client?
    ensures multiset(Purged(u, hobbies).profile.savedHobbies) == multiset(u.profile.savedHobbies) - multiset(hobbies)
    ensures multiset(Purged(u, hobbies).profile.hobbyMatches) == multiset(u.profile.hobbyMatches) - multiset(hobbies)
    ensures |u.profile.savedHobbies| - |hobbies| <= |Purged(u, hobbies).profile.savedHobbies| <= |u.profile.savedHobbies|
    ensures |u.profile.hobbyMatches| - |hobbies| <= |Purged(u, hobbies).profile.hobbyMatches| <= |u.profile.hobbyMatches|
  {
    RemoveEachMultiset(u.profile.savedHobbies, hobbies);
    RemoveEachMultiset(u.profile.hobbyMatches, hobbies);
  }

  /**
   * Removing one hobby removes its first occurrence from each of a client's
   * lists: each list shrinks by one exactly when the hobby was in it.
   */
  lemma RemovingOneHobbyRemovesFirstOccurrence(users: map<UserId, UserEntity>, hobby: Hobby, id: UserId)
    requires id in users && users[id].profile.Client?
    ensures PurgeClients(users, [hobby])[id].profile.savedHobbies == RemoveFirst(users[id].profile.savedHobbies, hobby)
    ensures PurgeClients(users, [hobby])[id].profile.hobbyMatches == RemoveFirst(users[id].profile.hobbyMatches, hobby)
    ensures |PurgeClients(users, [hobby])[id].profile.savedHobbies|
         == |users[id].profile.savedHobbies| - (if hobby in users[id].profile.savedHobbies then 1 else 0)
    ensures |PurgeClients(users, [hobby])[id].profile.hobbyMatches|
         == |users[id].profile.hobbyMatches| - (if hobby in users[id].profile.hobbyMatches then 1 else 0)
  {
    RemoveEachSingle(users[id].profile.savedHobbies, hobby);
    RemoveEachSingle(users[id].profile.hobbyMatches, hobby);
  }

  /** A client who holds none of the offered hobbies keeps both lists exactly as they were. */
  lemma ClientWithoutOfferedHobbiesIsUntouched(users: map<UserId, UserEntity>, hobbies: seq<Hobby>, id: UserId)
    requires id in users && users[id].profile.Client?
    requires forall j :: 0 <= j < |hobbies| ==> hobbies[j] !in users[id].profile.savedHobbies
    requires forall j :: 0 <= j < |hobbies| ==> hobbies[j] !in users[id].profile.hobbyMatches
    ensures PurgeClients(users, hobbies)[id] == users[id]
  {
    RemoveEachDisjoint(users[id].profile.savedHobbies, hobbies);
    RemoveEachDisjoint(users[id].profile.hobbyMatches, hobbies);
  }
}
