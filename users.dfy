/**
 * User registration (controllers/UsersController.js, `postNew`).
 *
 * The user collection is the sequence of stored user documents in
 * insertion order; `findOne({ email })` returns the first document whose
 * stored email equals the probe. The i-th inserted user receives the i-th
 * ObjectId. The password is stored only as its SHA-1 digest, modelled as
 * an injective constructor whose type differs from that of the plaintext.
 */
module Users {
  import opened Common
  import opened Strings

  /** `sha1(text)`, idealised as collision-free. */
  datatype Digest = Sha1(text: string)

  /** A stored user document. */
  datatype User = User(id: string, email: string, password: Digest)

  /** The body of a successful registration reply. */
  datatype NewUser = NewUser(id: string, email: string)

  /** `userCollection.findOne({ email })`: the position of the first stored
      user with exactly this email, if any. */
  function FindByEmail(users: seq<User>, email: string): (r: Option<nat>)
    ensures r.Some? ==> r.value < |users| && users[r.value].email == email
    ensures r.Some? ==> forall k :: 0 <= k < r.value ==> users[k].email != email
    ensures r.None? ==> forall k :: 0 <= k < |users| ==> users[k].email != email
  {
    if |users| == 0 then None
    else if users[0].email == email then Some(0)
    else
      match FindByEmail(users[1..], email)
      case None => None
      case Some(i) => Some(i + 1)
  }

  /** A user appended under an email nobody else has is the one found. */
  lemma FindByEmailAppended(users: seq<User>, u: User)
    requires forall k :: 0 <= k < |users| ==> users[k].email != u.email
    ensures FindByEmail(users + [u], u.email) == Some(|users|)
  {
    var more := users + [u];
    assert more[|users|].email == u.email;
    forall k | 0 <= k < |users| ensures more[k].email != u.email {
      assert more[k] == users[k];
    }
  }

  /** No two stored users share an email. */
  ghost predicate EmailsUnique(users: seq<User>) {
    forall i, j :: 0 <= i < j < |users| ==> users[i].email != users[j].email
  }

  /** The duplicate check as the source writes it: the submitted email,
      untrimmed, is looked up, although the trimmed email is what is stored. */
  function DuplicateAsWritten(users: seq<User>, email: string): (dup: bool)
    ensures dup <==> exists k :: 0 <= k < |users| && users[k].email == email
  {
    FindByEmail(users, email).Some?
  }

  /** The duplicate check on the email that will actually be stored. */
  function Duplicate(users: seq<User>, email: string): (dup: bool)
    ensures dup <==> exists k :: 0 <= k < |users| && users[k].email == Trim(email)
  {
    FindByEmail(users, Trim(email)).Some?
  }

  /** The ordered validation of `postNew`: a missing email is reported
      before a missing password, and both before a duplicate; `None` when
      the user may be inserted. */
  function RegistrationError(email: Option<string>, password: Option<string>, users: seq<User>): (err: Option<string>)
    ensures err == Some("Missing email") <==> !Truthy(email)
    ensures err == Some("Missing password") <==> Truthy(email) && !Truthy(password)
    ensures err == Some("User already exists") <==> Truthy(email) && Truthy(password) && Duplicate(users, email.value)
    ensures err.None? <==> Truthy(email) && Truthy(password) && !Duplicate(users, email.value)
  {
    if !Truthy(email) then Some("Missing email")
    else if !Truthy(password) then Some("Missing password")
    else if Duplicate(users, email.value) then Some("User already exists")
    else None
  }

  /** The ordered validation of `postNew` as the source writes it: the
      same order of errors, but the duplicate test looks up the submitted
      email untrimmed. It differs from `RegistrationError` only on an email
      whose trimmed form is taken while its submitted form is not. */
  function RegistrationErrorAsWritten(email: Option<string>, password: Option<string>, users: seq<User>): (err: Option<string>)
    ensures err == Some("Missing email") <==> !Truthy(email)
    ensures err == Some("Missing password") <==> Truthy(email) && !Truthy(password)
    ensures err == Some("User already exists") <==> Truthy(email) && Truthy(password) && DuplicateAsWritten(users, email.value)
    ensures err.None? <==> Truthy(email) && Truthy(password) && !DuplicateAsWritten(users, email.value)
    ensures Truthy(email) && Trim(email.value) == email.value ==> err == RegistrationError(email, password, users)
  {
    if !Truthy(email) then Some("Missing email")
    else if !Truthy(password) then Some("Missing password")
    else if DuplicateAsWritten(users, email.value) then Some("User already exists")
    else None
  }

  /** Trimming `" a@b.com"` gives `"a@b.com"`. */
  lemma TrimLeadingBlank()
    ensures Trim(" a@b.com") == "a@b.com"
  {
    var tail := "a@b.com";
    assert " a@b.com" == [' '] + tail;
    assert !IsSpace(tail[0]) && !IsSpace(tail[|tail| - 1]);
    assert TrimStart(tail) == tail;
    assert TrimStart(" a@b.com") == tail;
    assert TrimEnd(tail) == tail;
  }

  /** With the check as written, an email submitted with surrounding white
      space passes the duplicate check although its trimmed form, which is
      what gets stored, is already taken: the collection then holds two
      users with the same email. */
  lemma TrimGapAdmitsDuplicate()
    ensures var users := [User(ObjectIdOf(0), "a@b.com", Sha1("pw1"))];
      && RegistrationErrorAsWritten(Some(" a@b.com"), Some("pw2"), users).None?
      && RegistrationError(Some(" a@b.com"), Some("pw2"), users) == Some("User already exists")
      && !DuplicateAsWritten(users, " a@b.com")
      && !EmailsUnique(users + [User(ObjectIdOf(1), Trim(" a@b.com"), Sha1("pw2"))])
  {
    var users := [User(ObjectIdOf(0), "a@b.com", Sha1("pw1"))];
    assert users[0].email != " a@b.com" by {
      assert |users[0].email| != |" a@b.com"|;
    }
    TrimLeadingBlank();
    var more := users + [User(ObjectIdOf(1), Trim(" a@b.com"), Sha1("pw2"))];
    assert more[0].email == more[1].email;
    assert FindByEmail(users, " a@b.com").None?;
    assert FindByEmail(users, Trim(" a@b.com")) == Some(0);
    assert Truthy(Some(" a@b.com")) && Truthy(Some("pw2"));
  }

  /** The corrected check keeps stored emails unique. */
  lemma DuplicateKeepsEmailsUnique(users: seq<User>, email: string, id: string, hash: Digest)
    requires EmailsUnique(users)
    requires !Duplicate(users, email)
    ensures EmailsUnique(users + [User(id, Trim(email), hash)])
  {
    var more := users + [User(id, Trim(email), hash)];
    forall i, j | 0 <= i < j < |more| ensures more[i].email != more[j].email {
      if j == |users| {
        assert more[i] == users[i];
      } else {
        assert more[i] == users[i] && more[j] == users[j];
      }
    }
  }

  /** Every stored id is a non-empty string, as `_id.toString()` of an
      ObjectId always is. */
  predicate IdsTruthy(users: seq<User>) {
    forall k :: 0 <= k < |users| ==> users[k].id != ""
  }

  /** The user collection. */
  class UserCollection {
    var users: seq<User>

    /** The i-th user carries the i-th ObjectId, and emails are unique. */
    ghost predicate Valid()
      reads this
      ensures Valid() ==> IdsTruthy(users)
    {
      && (forall i :: 0 <= i < |users| ==> users[i].id == ObjectIdOf(i))
      && EmailsUnique(users)
    }

    constructor ()
      ensures Valid() && users == []
    {
      users := [];
    }

    /** `POST /users`: validate, reject a taken email, otherwise insert one
        user holding the trimmed email and the digest of the password, and
        answer 201 with the new id and the email as submitted. */
    method Register(email: Option<string>, password: Option<string>) returns (r: Reply<NewUser>)
      requires Valid()
      modifies this
      ensures Valid()
      ensures var err := RegistrationError(email, password, old(users));
        && (err.Some? ==> r == Refused(400, err.value) && users == old(users))
        && (err.None? ==>
              && r == Done(201, NewUser(ObjectIdOf(|old(users)|), email.value))
              && users == old(users) + [User(r.body.id, Trim(email.value), Sha1(password.value))])
      ensures r.Done? ==> forall i :: 0 <= i < |old(users)| ==> old(users)[i].id != r.body.id
    {
      var err := RegistrationError(email, password, users);
      if err.Some? {
        return Refused(400, err.value);
      }
      var id := ObjectIdOf(|users|);
      var user := User(id, Trim(email.value), Sha1(password.value));
      DuplicateKeepsEmailsUnique(users, email.value, id, user.password);
      forall i | 0 <= i < |users| ensures users[i].id != id {
        ObjectIdFresh(i, |users|);
      }
      var before := users;
      users := users + [user];
      forall i | 0 <= i < |users| ensures users[i].id == ObjectIdOf(i) {
        if i < |before| { assert users[i] == before[i]; }
      }
      r := Done(201, NewUser(id, email.value));
    }
  }
}
