/** The signup, login and profile-update handlers over the User collection. Each handler
    answers with a status code and a JSON body; any store failure is answered with 500 and
    leaves the collection as it was. */
module UserController {
  import opened Lookup
  import opened UserSchema

  datatype Body =
    | Message(message: string)
    | Error(error: string)
    | PublicProfile(username: Option<string>, email: Option<string>, phone: Option<string>)

  datatype Response = Response(status: int, body: Body)

  const ServerError := Response(500, Error("Server error"))
  const InvalidCredentials := Response(401, Error("Invalid credentials"))
  const EmailExists := Response(400, Error("Email already exists"))

  /** Which store call of a request fails, if any (lost connection, timeout, ...). */
  datatype StoreFault = NoFault | FindFails | SaveFails

  function CredentialsOf(u: User): (Option<string>, Option<string>) { (u.email, u.password) }

  /** `findOne({ email, password })` finds a record. */
  function LoginMatches(users: seq<User>, email: string, password: string): (found: bool)
    ensures found <==> exists i :: 0 <= i < |users| && users[i].email == Some(email)
                                                       && users[i].password == Some(password)
  {
    var r := FindFirst(users, CredentialsOf, (Some(email), Some(password)));
    assert r.None? ==> forall i :: 0 <= i < |users| ==> CredentialsOf(users[i]) != (Some(email), Some(password));
    r.Some?
  }

  /** `findOne({ email })` finds a record and its password equals `password`. */
  predicate Authenticates(users: seq<User>, email: string, password: string)
  {
    match FindFirst(users, EmailOf, Some(email))
    case None => false
    case Some(i) => users[i].password == Some(password)
  }

  /** With unique emails, the profile update's two-step check (find by email, then compare
      passwords) accepts exactly the pairs that login accepts. */
  lemma AuthenticatesIffLoginMatches(users: seq<User>, email: string, password: string)
    requires UniqueEmails(users)
    ensures Authenticates(users, email, password) <==> LoginMatches(users, email, password)
  {
  }

  /** The field assignments of the profile update: a non-empty new email or new password
      replaces the stored one; the username and phone are kept. */
  function ApplyProfileChanges(u: User, newEmail: string, newPassword: string): (r: User)
    ensures r.username == u.username && r.phone == u.phone
    ensures r.email == (if newEmail != "" then Some(newEmail) else u.email)
    ensures r.password == (if newPassword != "" then Some(newPassword) else u.password)
  {
    var withEmail := if newEmail != "" then u.(email := Some(newEmail)) else u;
    if newPassword != "" then withEmail.(password := Some(newPassword)) else withEmail
  }

  /** After a successful profile update that changes the password to a different, non-empty
      one, login with the (possibly new) email accepts the new password and rejects the old. */
  lemma PasswordChangeRoundTrip(users: seq<User>, email: string, newEmail: string,
                                password: string, newPassword: string)
    requires UniqueEmails(users)
    requires Authenticates(users, email, password)
    requires newPassword != "" && newPassword != password
    requires var i := FindFirst(users, EmailOf, Some(email)).value;
             !EmailTaken(users, i, ApplyProfileChanges(users[i], newEmail, newPassword).email)
    ensures var i := FindFirst(users, EmailOf, Some(email)).value;
            var after := users[i := ApplyProfileChanges(users[i], newEmail, newPassword)];
            var loginEmail := if newEmail != "" then newEmail else email;
            && UniqueEmails(after)
            && LoginMatches(after, loginEmail, newPassword)
            && !LoginMatches(after, loginEmail, password)
  {
    var i := FindFirst(users, EmailOf, Some(email)).value;
    var u := ApplyProfileChanges(users[i], newEmail, newPassword);
    var after := users[i := u];
    var loginEmail := if newEmail != "" then newEmail else email;
    SaveCheck(users, i, u);
    assert u.email == Some(loginEmail);
    assert after[i].email == Some(loginEmail) && after[i].password == Some(newPassword);
    forall j | 0 <= j < |after| && j != i
      ensures after[j].email != Some(loginEmail)
    {
      assert after[j] == users[j];
    }
  }

  /** The User collection as the handlers see it, kept free of duplicate emails by the
      store's unique index. */
  class UserCollection {
    var users: seq<User>

    ghost predicate Valid()
      reads this
    {
      UniqueEmails(users)
    }

    constructor (initial: seq<User>)
      requires UniqueEmails(initial)
      ensures Valid() && users == initial
    {
      users := initial;
    }

    /** `POST /signup`: check that the email is free, then insert the record as given. */
    method Signup(username: string, email: string, password: string, phone: string, fault: StoreFault)
      returns (resp: Response)
      requires Valid()
      modifies this
      ensures Valid()
      ensures fault == FindFails ==> resp == ServerError && users == old(users)
      ensures fault != FindFails && EmailTaken(old(users), |old(users)|, Some(email)) ==>
        resp == EmailExists && users == old(users)
      ensures fault == SaveFails && !EmailTaken(old(users), |old(users)|, Some(email)) ==>
        resp == ServerError && users == old(users)
      ensures fault == NoFault && !EmailTaken(old(users), |old(users)|, Some(email)) ==>
        && resp == Response(201, Message("User created successfully"))
        && users == old(users) + [User(Some(username), Some(email), Some(password), Some(phone))]
    {
      if fault == FindFails {
        return ServerError;
      }
      var existingUser := FindFirst(users, EmailOf, Some(email));
      if existingUser.Some? {
        return EmailExists;
      }
      if fault == SaveFails {
        return ServerError;
      }
      var newUser := User(Some(username), Some(email), Some(password), Some(phone));
      InsertCheck(users, newUser);
      users := users + [newUser];
      resp := Response(201, Message("User created successfully"));
    }

    /** `POST /login`: exact match on email and password; the answer carries the public
        fields only. */
    method Login(email: string, password: string, fault: StoreFault) returns (resp: Response)
      ensures fault == FindFails ==> resp == ServerError
      ensures fault != FindFails ==> (resp.status == 200 <==> LoginMatches(users, email, password))
      ensures fault != FindFails && resp.status != 200 ==> resp == InvalidCredentials
      ensures resp.status == 200 ==>
        exists i :: && 0 <= i < |users|
                    && users[i].email == Some(email) && users[i].password == Some(password)
                    && resp.body == PublicProfile(users[i].username, users[i].email, users[i].phone)
    {
      if fault == FindFails {
        return ServerError;
      }
      var user := FindFirst(users, CredentialsOf, (Some(email), Some(password)));
      if user.None? {
        return InvalidCredentials;
      }
      var u := users[user.value];
      resp := Response(200, PublicProfile(u.username, u.email, u.phone));
    }

    /** `PUT /profile`: find the record by email, compare passwords, overwrite the fields the
        request supplies and save. */
    method UpdateProfile(email: string, newEmail: string, password: string, newPassword: string,
                         fault: StoreFault)
      returns (resp: Response)
      requires Valid()
      modifies this
      ensures Valid()
      ensures fault == FindFails ==> resp == ServerError && users == old(users)
      ensures fault != FindFails && !Authenticates(old(users), email, password) ==>
        resp == InvalidCredentials && users == old(users)
      ensures fault != FindFails && Authenticates(old(users), email, password) ==>
        var i := FindFirst(old(users), EmailOf, Some(email)).value;
        var u := ApplyProfileChanges(old(users)[i], newEmail, newPassword);
        if fault == SaveFails || EmailTaken(old(users), i, u.email) then
          resp == ServerError && users == old(users)
        else
          resp == Response(200, Message("Profile updated successfully")) && users == old(users)[i := u]
    {
      if fault == FindFails {
        return ServerError;
      }
      var user := FindFirst(users, EmailOf, Some(email));
      if user.None? || users[user.value].password != Some(password) {
        return InvalidCredentials;
      }
      var i := user.value;
      var u := ApplyProfileChanges(users[i], newEmail, newPassword);
      if fault == SaveFails || EmailTaken(users, i, u.email) {
        return ServerError;
      }
      SaveCheck(users, i, u);
      users := users[i := u];
      resp := Response(200, Message("Profile updated successfully"));
    }
  }

  /** Two signups with the same free email: the first creates the record, the second is
      refused, and the collection ends with exactly one record holding that email. */
  method SignupTwice(initial: seq<User>, email: string) returns (first: Response, second: Response, stored: seq<User>)
    requires UniqueEmails(initial) && !EmailTaken(initial, |initial|, Some(email))
    ensures first.status == 201 && second == EmailExists
    ensures |stored| == |initial| + 1 && stored[|initial|].email == Some(email)
    ensures forall j :: 0 <= j < |stored| && stored[j].email == Some(email) ==> j == |initial|
  {
    var collection := new UserCollection(initial);
    first := collection.Signup("ann", email, "secret", "555", NoFault);
    assert collection.users[|initial|].email == Some(email);
    second := collection.Signup("bob", email, "other", "556", NoFault);
    stored := collection.users;
  }
}
