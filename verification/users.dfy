/** The user service: the seven ordered checks of user creation, the stored
    record with its forced role and hashed password, partial update of full
    name and email, and deletion. */
module Users {
  import opened Common
  import opened Entities
  import opened Storage

  /** The three independent answers of the password-policy check. */
  datatype PasswordVerdict = PasswordVerdict(minLength: bool, hasLetter: bool, hasDigit: bool)

  datatype HashOutcome = Hashed(digest: string) | HashError(reason: string)

  /** The format validators and the password hasher the service calls. Their
      code is not part of this model: any total functions will do. */
  datatype Helpers = Helpers(
    usernameValid: string -> bool,
    emailValid: string -> bool,
    passwordPolicy: string -> PasswordVerdict,
    hash: string -> HashOutcome)

  /** The hasher never returns its input as the digest. */
  ghost predicate OneWay(h: Helpers)
  {
    forall p :: h.hash(p) != Hashed(p)
  }

  /** `s` is the digest of some password. */
  ghost predicate IsDigest(h: Helpers, s: string)
  {
    exists p :: h.hash(p) == Hashed(s)
  }

  /** No two stored users share a username. */
  ghost predicate UniqueUsernames(users: map<int, User>)
  {
    forall a, b :: a in users && b in users && users[a].username == users[b].username ==> a == b
  }

  predicate AnyBlank(req: UserRequest)
  {
    req.username == "" || req.fullname == "" || req.email == "" || req.password == ""
  }

  // ---------------------------------------------------------------------
  // User creation

  /** What creating a user decides, given whether the username is already
      taken: the error, or the user to persist (id still unset). */
  function NewUser(req: UserRequest, h: Helpers, taken: bool): (r: Result<User>)
    ensures r.Success? <==>
              && !AnyBlank(req)
              && h.usernameValid(req.username)
              && h.emailValid(req.email)
              && !taken
              && h.passwordPolicy(req.password) == PasswordVerdict(true, true, true)
              && h.hash(req.password).Hashed?
    ensures r.Success? ==>
              && r.value.username == req.username
              && r.value.fullname == req.fullname
              && r.value.email == req.email
              && r.value.role == DefaultRole
              && h.hash(req.password) == Hashed(r.value.password)
    ensures r == Failure(UserFieldsBlank) <==> AnyBlank(req)
  {
    var verdict := h.passwordPolicy(req.password);
    if AnyBlank(req) then Failure(UserFieldsBlank)
    else if !h.usernameValid(req.username) then Failure(InvalidUsername)
    else if !h.emailValid(req.email) then Failure(InvalidEmail)
    else if taken then Failure(UsernameExists)
    else if !verdict.minLength then Failure(PasswordTooShort)
    else if !verdict.hasLetter then Failure(PasswordNoLetter)
    else if !verdict.hasDigit then Failure(PasswordNoDigit)
    else match h.hash(req.password)
      case HashError(reason) => Failure(HashFailed(reason))
      case Hashed(digest) => Success(User(0, req.username, req.fullname, req.email, digest, DefaultRole))
  }

  /** The checks of user creation, in the order they run. */
  function CreateUserRules(req: UserRequest, h: Helpers, taken: bool): seq<Rule>
  {
    var verdict := h.passwordPolicy(req.password);
    [Rule(!AnyBlank(req), UserFieldsBlank),
     Rule(h.usernameValid(req.username), InvalidUsername),
     Rule(h.emailValid(req.email), InvalidEmail),
     Rule(!taken, UsernameExists),
     Rule(verdict.minLength, PasswordTooShort),
     Rule(verdict.hasLetter, PasswordNoLetter),
     Rule(verdict.hasDigit, PasswordNoDigit)]
  }

  /** User creation reports exactly the first of its seven checks that fails;
      once all pass, only the hasher can still fail it. */
  lemma {:induction false} NewUserIsFailFast(req: UserRequest, h: Helpers, taken: bool)
    ensures FirstFailure(CreateUserRules(req, h, taken)).Some? ==>
              NewUser(req, h, taken) == Failure(FirstFailure(CreateUserRules(req, h, taken)).value)
    ensures FirstFailure(CreateUserRules(req, h, taken)).None? ==>
              match h.hash(req.password)
              case HashError(reason) => NewUser(req, h, taken) == Failure(HashFailed(reason))
              case Hashed(_) => NewUser(req, h, taken).Success?
  {
    var rules := CreateUserRules(req, h, taken);
    var verdict := h.passwordPolicy(req.password);
    if AnyBlank(req) {
      FirstFailureAt(rules, 0);
    } else if !h.usernameValid(req.username) {
      FirstFailureAt(rules, 1);
    } else if !h.emailValid(req.email) {
      FirstFailureAt(rules, 2);
    } else if taken {
      FirstFailureAt(rules, 3);
    } else if !verdict.minLength {
      FirstFailureAt(rules, 4);
    } else if !verdict.hasLetter {
      FirstFailureAt(rules, 5);
    } else if !verdict.hasDigit {
      FirstFailureAt(rules, 6);
    } else {
      assert FirstFailure(rules) == None;
    }
  }

  /** With a one-way hasher, a created user never holds the plaintext. */
  lemma PasswordNeverPlaintext(req: UserRequest, h: Helpers, taken: bool)
    requires OneWay(h)
    ensures NewUser(req, h, taken).Success? ==> NewUser(req, h, taken).value.password != req.password
  {
  }

  /** Each password condition, failing alone, has its own message. */
  lemma PasswordMessagesDistinct(req: UserRequest, h: Helpers, taken: bool)
    requires !AnyBlank(req) && h.usernameValid(req.username) && h.emailValid(req.email) && !taken
    ensures !h.passwordPolicy(req.password).minLength ==> NewUser(req, h, taken) == Failure(PasswordTooShort)
    ensures h.passwordPolicy(req.password) == PasswordVerdict(true, false, true) ==>
              NewUser(req, h, taken) == Failure(PasswordNoLetter)
    ensures h.passwordPolicy(req.password) == PasswordVerdict(true, true, false) ==>
              NewUser(req, h, taken) == Failure(PasswordNoDigit)
  {
  }

  /** The three password errors reach the caller as three different texts. */
  lemma PasswordMessageTextsDistinct()
    ensures PasswordTooShort.Message() != PasswordNoLetter.Message()
    ensures PasswordNoLetter.Message() != PasswordNoDigit.Message()
    ensures PasswordTooShort.Message() != PasswordNoDigit.Message()
  {
  }

  // ---------------------------------------------------------------------
  // User update

  /** What updating `current` with `req` decides: the error, or the user to
      write back. Only the full name and the email can change. */
  function UpdatedUser(current: User, req: UserRequest, h: Helpers): (r: Result<User>)
    ensures r.Failure? <==> (req.fullname == "" && req.email == "") || (req.email != "" && !h.emailValid(req.email))
    ensures r.Failure? ==> r.error == if req.fullname == "" && req.email == "" then UpdateFieldsBlank else InvalidEmail
    ensures r.Success? ==>
              && r.value.id == current.id
              && r.value.username == current.username
              && r.value.password == current.password
              && r.value.role == current.role
              && r.value.fullname == (if req.fullname == "" then current.fullname else req.fullname)
              && r.value.email == (if req.email == "" then current.email else req.email)
  {
    if req.fullname == "" && req.email == "" then Failure(UpdateFieldsBlank)
    else
      var renamed := if req.fullname != "" then current.(fullname := req.fullname) else current;
      if req.email == "" then Success(renamed)
      else if !h.emailValid(req.email) then Failure(InvalidEmail)
      else Success(renamed.(email := req.email))
  }

  function UpdateUserRules(req: UserRequest, h: Helpers): seq<Rule>
  {
    [Rule(!(req.fullname == "" && req.email == ""), UpdateFieldsBlank),
     Rule(req.email == "" || h.emailValid(req.email), InvalidEmail)]
  }

  /** User update reports exactly the first of its checks that fails. */
  lemma {:induction false} UpdatedUserIsFailFast(current: User, req: UserRequest, h: Helpers)
    ensures UpdatedUser(current, req, h).Failure? ==>
              FirstFailure(UpdateUserRules(req, h)) == Some(UpdatedUser(current, req, h).error)
    ensures UpdatedUser(current, req, h).Success? ==> FirstFailure(UpdateUserRules(req, h)) == None
  {
    var rules := UpdateUserRules(req, h);
    if req.fullname == "" && req.email == "" {
      FirstFailureAt(rules, 0);
    } else if req.email != "" && !h.emailValid(req.email) {
      FirstFailureAt(rules, 1);
    } else {
      assert FirstFailure(rules) == None;
    }
  }

  // ---------------------------------------------------------------------
  // The service

  class UserService {
    const store: UserStore
    const helpers: Helpers

    /** Storage is consistent, usernames are unique and every stored
        password is a digest. */
    ghost predicate Valid()
      reads this, store
    {
      && store.Valid()
      && UniqueUsernames(store.users)
      && forall id :: id in store.users ==> IsDigest(helpers, store.users[id].password)
    }

    constructor (store: UserStore, helpers: Helpers)
      requires store.Valid() && UniqueUsernames(store.users)
      requires forall id :: id in store.users ==> IsDigest(helpers, store.users[id].password)
      ensures Valid()
      ensures this.store == store && this.helpers == helpers
    {
      this.store := store;
      this.helpers := helpers;
    }

    /** Runs the checks in order, looking the username up only once the
        formats pass, and persists the new user on success. */
    method CreateUser(req: UserRequest) returns (r: Result<User>)
      requires Valid()
      modifies store
      ensures Valid()
      ensures var decided := NewUser(req, helpers, Taken(old(store.users), req.username));
              && (decided.Failure? ==>
                    r == Failure(decided.error) && store.users == old(store.users) && store.nextId == old(store.nextId))
              && (decided.Success? ==>
                    && r == Success(decided.value.(id := old(store.nextId)))
                    && old(store.nextId) !in old(store.users)
                    && store.users == old(store.users)[old(store.nextId) := r.value])
    {
      if AnyBlank(req) {
        return Failure(UserFieldsBlank);
      }
      if !helpers.usernameValid(req.username) {
        return Failure(InvalidUsername);
      }
      if !helpers.emailValid(req.email) {
        return Failure(InvalidEmail);
      }
      var existing := store.GetUserByUsername(req.username);
      if existing.Success? {
        return Failure(UsernameExists);
      }
      var verdict := helpers.passwordPolicy(req.password);
      if !verdict.minLength {
        return Failure(PasswordTooShort);
      }
      if !verdict.hasLetter {
        return Failure(PasswordNoLetter);
      }
      if !verdict.hasDigit {
        return Failure(PasswordNoDigit);
      }
      var hashed := helpers.hash(req.password);
      if hashed.HashError? {
        return Failure(HashFailed(hashed.reason));
      }
      var user := User(0, req.username, req.fullname, req.email, hashed.digest, DefaultRole);
      var stored := store.CreateUser(user);
      r := Success(stored);
    }

    /** Fetches the user, overwrites full name and email as requested and
        writes it back; on any failure nothing is written. */
    method UpdateUser(id: int, req: UserRequest) returns (r: Result<User>)
      requires Valid()
      modifies store
      ensures Valid()
      ensures id !in old(store.users) ==> r == Failure(RecordNotFound) && store.users == old(store.users)
      ensures id in old(store.users) ==>
                var decided := UpdatedUser(old(store.users)[id], req, helpers);
                r == decided &&
                store.users == if decided.Success? then old(store.users)[id := decided.value]
                               else old(store.users)
      ensures store.nextId == old(store.nextId)
    {
      var fetched := store.GetUserByID(id);
      if fetched.Failure? {
        return Failure(fetched.error);
      }
      var user := fetched.value;
      if req.fullname == "" && req.email == "" {
        return Failure(UpdateFieldsBlank);
      }
      if req.fullname != "" {
        user := user.(fullname := req.fullname);
      }
      if req.email != "" {
        if !helpers.emailValid(req.email) {
          return Failure(InvalidEmail);
        }
        user := user.(email := req.email);
      }
      r := store.UpdateUser(user);
    }

    /** Fetches the user and deletes exactly it. */
    method DeleteUser(id: int) returns (r: Result<User>)
      requires Valid()
      modifies store
      ensures Valid()
      ensures id !in old(store.users) ==> r == Failure(RecordNotFound) && store.users == old(store.users)
      ensures id in old(store.users) ==>
                r == Success(old(store.users)[id]) && store.users == old(store.users) - {id}
      ensures store.nextId == old(store.nextId)
    {
      var fetched := store.GetUserByID(id);
      if fetched.Failure? {
        return Failure(fetched.error);
      }
      r := store.DeleteUser(fetched.value);
    }
  }

  /** Registering the same username twice: once the first call has succeeded,
      the second is refused as taken and stores nothing. */
  method CreateSameUsernameTwice(service: UserService, first: UserRequest, second: UserRequest)
    returns (r1: Result<User>, r2: Result<User>)
    requires service.Valid()
    requires first.username == second.username
    requires !AnyBlank(second)
    requires service.helpers.usernameValid(second.username) && service.helpers.emailValid(second.email)
    modifies service.store
    ensures r1.Success? ==> r2 == Failure(UsernameExists)
    ensures r1.Success? ==>
              && r1.value.role == DefaultRole
              && r1.value.id in service.store.users
              && service.store.users[r1.value.id] == r1.value
    ensures r1.Success? ==> service.store.users == old(service.store.users)[r1.value.id := r1.value]
  {
    r1 := service.CreateUser(first);
    if r1.Success? {
      assert service.store.users[r1.value.id].username == second.username;
    }
    r2 := service.CreateUser(second);
  }
}
