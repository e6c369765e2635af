/** `UserService`: registering a user under a username nobody has yet, and
    looking a user up by username. The password encoder is a parameter. */
module UserService {
  import opened Wrappers
  import opened Store

  /** The registration form. */
  datatype RegisterUserRequest = RegisterUserRequest(username: string, password: string)

  /** What registration answers: the new id and the username, never the hash. */
  datatype UserResponse = UserResponse(id: Uuid, username: string)

  /** `UserAlreadyExistsException` and `UsernameNotFoundException`. */
  datatype UserError = UserAlreadyExists | UsernameNotFound(username: string)

  /** Some stored user has this username. */
  ghost predicate Taken(users: map<Uuid, User>, username: string)
  {
    exists id :: id in users && users[id].username == username
  }

  /** Adding a user under a fresh id and an untaken name keeps usernames
      unique and adds exactly one user, so the new user is the only one of
      that name. */
  lemma RegisterKeepsUnique(users: map<Uuid, User>, user: User)
    requires UniqueUsernames(users) && !Taken(users, user.username) && user.id !in users
    ensures UniqueUsernames(users[user.id := user])
    ensures |users[user.id := user]| == |users| + 1
    ensures Taken(users[user.id := user], user.username)
    ensures users[user.id := user][user.id] == user
  {
    var after := users[user.id := user];
    assert after[user.id] == user;
    forall a, b | a in after && b in after && after[a].username == after[b].username
      ensures a == b
    {
      if a != user.id && b != user.id {
        assert after[a] == users[a] && after[b] == users[b];
      }
    }
  }

  class UserService {
    const users: UserRepository
    /** `passwordEncoder.encode`. */
    const encode: string -> string

    /** The repository is well formed and no two users share a username. */
    ghost predicate Valid()
      reads this, users
    {
      users.Valid() && UniqueUsernames(users.users)
    }

    constructor (users: UserRepository, encode: string -> string)
      requires users.Valid() && UniqueUsernames(users.users)
      ensures Valid() && this.users == users && this.encode == encode
    {
      this.users := users;
      this.encode := encode;
    }

    /** `registerUser`: a taken username fails and nothing is saved; otherwise
        a user with that name and the encoded password is saved under the id
        the store generates (`newId`, one no user has yet), and its id and
        name are answered. */
    method RegisterUser(request: RegisterUserRequest, newId: Uuid) returns (r: Result<UserResponse, UserError>)
      requires Valid() && newId !in users.users
      modifies users
      ensures Valid()
      ensures Taken(old(users.users), request.username) ==>
        r == Failure(UserAlreadyExists) && users.users == old(users.users)
      ensures !Taken(old(users.users), request.username) ==>
        && r == Success(UserResponse(newId, request.username))
        && users.users == old(users.users)[newId := User(newId, request.username, encode(request.password))]
    {
      var found := users.FindByUsername(request.username);
      if found.Some? {
        return Failure(UserAlreadyExists);
      }
      var user := User(newId, request.username, encode(request.password));
      RegisterKeepsUnique(users.users, user);
      users.Save(user);
      return Success(UserResponse(user.id, user.username));
    }

    /** `findByUsername`: the one stored user of that name, or
        `UsernameNotFound` when there is none. */
    method FindByUsername(username: string) returns (r: Result<User, UserError>)
      requires Valid()
      ensures r.Success? ==> r.value.id in users.users && users.users[r.value.id] == r.value && r.value.username == username
      ensures r.Success? ==> forall id :: id in users.users && users.users[id].username == username ==> id == r.value.id
      ensures r.Failure? <==> !Taken(users.users, username)
      ensures r.Failure? ==> r.error == UsernameNotFound(username)
    {
      var found := users.FindByUsername(username);
      if found.None? {
        return Failure(UsernameNotFound(username));
      }
      return Success(found.value);
    }
  }

  /** The registration tests: "testuser123" registers and is then found with
      the encoded password; registering the same name again is refused with
      `UserAlreadyExists` and leaves the one user in place. */
  method RegistrationScenario(encode: string -> string)
    returns (first: Result<UserResponse, UserError>, found: Result<User, UserError>,
             second: Result<UserResponse, UserError>, stored: map<Uuid, User>)
    ensures first == Success(UserResponse(1, "testuser123"))
    ensures found == Success(User(1, "testuser123", encode("password123")))
    ensures second == Failure(UserAlreadyExists)
    ensures stored == map[1 := User(1, "testuser123", encode("password123"))]
  {
    var repository := new UserRepository();
    var service := new UserService(repository, encode);
    first := service.RegisterUser(RegisterUserRequest("testuser123", "password123"), 1);
    found := service.FindByUsername("testuser123");
    assert Taken(repository.users, "testuser123");
    second := service.RegisterUser(RegisterUserRequest("testuser123", "newpassword"), 2);
    stored := repository.users;
  }
}
