/** The User model: a record of four optional strings and a unique index on the email. */
module UserSchema {
  import opened Lookup

  /** A stored user. None is a field the record lacks: no field is required. The password is
      an ordinary field holding the string as given. */
  datatype User = User(username: Option<string>, email: Option<string>,
                       password: Option<string>, phone: Option<string>)

  function EmailOf(u: User): Option<string> { u.email }

  /** The unique index: no two records share an email. A missing email is indexed like any
      other value, so at most one record may lack an email. */
  predicate UniqueEmails(users: seq<User>)
  {
    forall i, j :: 0 <= i < j < |users| ==> users[i].email != users[j].email
  }

  /** Some record other than the one at position `at` has `email`; `at == |users|` stands for
      a record not yet in the collection. This is the index's check on insert and on save. */
  predicate EmailTaken(users: seq<User>, at: nat, email: Option<string>)
  {
    exists j :: 0 <= j < |users| && j != at && users[j].email == email
  }

  /** The index accepts an insert exactly when the collection stays free of duplicates. */
  lemma InsertCheck(users: seq<User>, u: User)
    requires UniqueEmails(users)
    ensures UniqueEmails(users + [u]) <==> !EmailTaken(users, |users|, u.email)
  {
    var after := users + [u];
    if EmailTaken(users, |users|, u.email) {
      var j :| 0 <= j < |users| && users[j].email == u.email;
      assert after[j].email == after[|users|].email;
    }
  }

  /** The index accepts a save of the record at `at` exactly when the collection stays free
      of duplicates. */
  lemma SaveCheck(users: seq<User>, at: nat, u: User)
    requires UniqueEmails(users) && at < |users|
    ensures UniqueEmails(users[at := u]) <==> !EmailTaken(users, at, u.email)
  {
    var after := users[at := u];
    if EmailTaken(users, at, u.email) {
      var j :| 0 <= j < |users| && j != at && users[j].email == u.email;
      assert after[j].email == after[at].email;
    }
  }

  /** Email is the only unique field: two records may share a username and a phone. */
  lemma UsernameAndPhoneMayRepeat()
    ensures UniqueEmails([User(Some("ann"), Some("ann@a.com"), Some("p1"), Some("555")),
                          User(Some("ann"), Some("ann@b.com"), Some("p2"), Some("555"))])
  {
  }
}
