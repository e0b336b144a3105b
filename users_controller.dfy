/**
 * `POST /users`: registration of a user with an email and a password
 * stored as its SHA-1 hex digest.
 */
module UsersController {
  import opened Values
  import opened JsText
  import opened ObjectIds
  import opened Stores
  import opened Http
  import AuthController

  const MissingEmail := "Missing email"
  const MissingPassword := "Missing password"
  const AlreadyExist := "Already exist"

  datatype Registration = Registration(response: Response, users: seq<UserDoc>)

  /** No two users share an email. */
  predicate EmailsUnique(users: seq<UserDoc>) {
    forall i, j :: 0 <= i < j < |users| ==> users[i].email != users[j].email
  }

  /**
   * `postNew`: the email and the password must be present (truthy), in that
   * order, and the email not yet registered; then one user is appended with
   * the next id and the digest `sha1(password)`.
   */
  function Register(users: seq<UserDoc>, nextId: Oid, email: Option<string>, password: Option<string>,
                    sha1: string -> string): (e: Registration)
    ensures !Truthy(email) ==> e == Registration(BadRequest(MissingEmail), users)
    ensures Truthy(email) && !Truthy(password) ==> e == Registration(BadRequest(MissingPassword), users)
    ensures Truthy(email) && Truthy(password) && (exists j :: 0 <= j < |users| && users[j].email == email.value) ==>
      e == Registration(BadRequest(AlreadyExist), users)
    ensures e.response.Answered? && e.response.status == 201 <==>
      Truthy(email) && Truthy(password) && forall j :: 0 <= j < |users| ==> users[j].email != email.value
    ensures e.response.Answered? && e.response.status == 201 ==>
      && e.users == users + [UserDoc(nextId, email.value, sha1(password.value))]
      && e.response.body == UserJson(nextId, email.value)
    ensures e.response.Answered? && e.response.status != 201 ==> e.users == users && e.response.status == 400
  {
    if !Truthy(email) then Registration(BadRequest(MissingEmail), users)
    else if !Truthy(password) then Registration(BadRequest(MissingPassword), users)
    else if FindUser(users, ByEmail(email.value)).Some? then Registration(BadRequest(AlreadyExist), users)
    else Registration(Answered(201, UserJson(nextId, email.value)), users + [UserDoc(nextId, email.value, sha1(password.value))])
  }

  /** Registration never creates a second user with an email already taken. */
  lemma RegisterKeepsEmailsUnique(users: seq<UserDoc>, nextId: Oid, email: Option<string>, password: Option<string>,
                                  sha1: string -> string)
    requires EmailsUnique(users)
    ensures EmailsUnique(Register(users, nextId, email, password, sha1).users)
  {
  }

  /** Registering the same email twice: the second attempt is refused and changes nothing. */
  lemma SecondRegistrationRefused(users: seq<UserDoc>, nextId: Oid, email: string, password: string,
                                  password2: string, sha1: string -> string)
    requires email != "" && password != "" && password2 != ""
    ensures var first := Register(users, nextId, Some(email), Some(password), sha1);
      var second := Register(first.users, nextId + 1, Some(email), Some(password2), sha1);
      second == Registration(BadRequest(AlreadyExist), first.users)
  {
    var first := Register(users, nextId, Some(email), Some(password), sha1);
    if first.response.Answered? && first.response.status == 201 {
      assert first.users[|users|].email == email;
    } else {
      var j :| 0 <= j < |users| && users[j].email == email;
      assert first.users[j].email == email;
    }
  }

  /**
   * A user who has just registered can sign in: a Basic header whose
   * credential decodes to `email:password` is granted, for that user.
   */
  lemma RegisteredUserCanConnect(users: seq<UserDoc>, nextId: Oid, email: string, password: string,
                                 sha1: string -> string, header: string, base64Text: string -> string)
    requires EmailsUnique(users)
    requires Register(users, nextId, Some(email), Some(password), sha1).response == Answered(201, UserJson(nextId, email))
    requires ':' !in email && ':' !in password
    requires |Split(header, ' ')| >= 2 && Split(header, ' ')[0] == "Basic"
    requires base64Text(Split(header, ' ')[1]) == email + ":" + password
    ensures var after := Register(users, nextId, Some(email), Some(password), sha1).users;
      AuthController.DecideLogin(after, Some(header), base64Text, sha1) == AuthController.Grant(UserDoc(nextId, email, sha1(password)))
  {
    var after := Register(users, nextId, Some(email), Some(password), sha1).users;
    AuthController.ReadsWhatWasSent(header, base64Text, email, password);
    var found := FindUser(after, ByCredentials(email, sha1(password)));
    assert UserMatches(after[|users|], ByCredentials(email, sha1(password)));
    assert found.Some?;
    assert found.value == |users| by {
      assert forall j :: 0 <= j < |users| ==> after[j] == users[j];
    }
  }

  /** The `postNew` handler. */
  method PostNew(users: UsersCollection, email: Option<string>, password: Option<string>,
                 sha1: string -> string) returns (res: Response)
    requires users.Valid()
    modifies users
    ensures users.Valid()
    ensures Register(old(users.users), old(users.nextId), email, password, sha1) == Registration(res, users.users)
  {
    if !Truthy(email) {
      return BadRequest(MissingEmail);
    }
    if !Truthy(password) {
      return BadRequest(MissingPassword);
    }
    var existing := FindUser(users.users, ByEmail(email.value));
    if existing.Some? {
      return BadRequest(AlreadyExist);
    }
    var hashed := sha1(password.value);
    var id := users.InsertOne(email.value, hashed);
    res := Answered(201, UserJson(id, email.value));
  }
}
