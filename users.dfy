/**
 * The registration entity (src/models/users.rs): the stored `User`, the
 * `InsertableUser` handed to the user repository, and the builder that
 * collects a registration's fields and validates them all at once.
 *
 * The Rust setters take the builder by value, assign one field and hand it
 * back, so the builder is a datatype here and each setter a record update.
 */
module Users {
  import opened Results
  import opened Errors

  /** A 128-bit UUID, an identifier the repositories hand out. */
  newtype Uuid = x: int | 0 <= x < 0x1_0000_0000_0000_0000_0000_0000_0000_0000

  /** Message recorded by `Build` for each required field that is missing. */
  const MISSING_FIELD: string := "Missing field"

  /** A stored user, as the user repository returns it; the timestamps are opaque instants. */
  datatype User = User(
    id: Uuid,
    username: string,
    fullName: Option<string>,
    profilePicId: Option<Uuid>,
    emailId: Uuid,
    passwdHash: string,
    active: bool,
    createdAt: int,
    updatedAt: int)

  /** A user ready to be inserted: only `Build` produces one. */
  datatype InsertableUser = InsertableUser(
    username: string,
    fullName: Option<string>,
    profilePicId: Option<Uuid>,
    emailId: Uuid,
    passwdHash: string)
  {
    function Username(): string { username }
    function FullName(): Option<string> { fullName }
    function ProfilePicId(): Option<Uuid> { profilePicId }
    function EmailId(): Uuid { emailId }
    function PasswdHash(): string { passwdHash }
  }

  datatype InsertableUserBuilder = InsertableUserBuilder(
    username: string,
    fullName: Option<string>,
    profilePicId: Option<Uuid>,
    emailId: Option<Uuid>,
    passwdHash: string)
  {
    /** `new` (and `Default`): both texts empty, the three optional fields unset. */
    static function New(): (b: InsertableUserBuilder)
      ensures b.username == [] && b.passwdHash == []
      ensures b.fullName == None && b.profilePicId == None && b.emailId == None
    {
      InsertableUserBuilder([], None, None, None, [])
    }

    function WithUsername(name: string): (b: InsertableUserBuilder)
      ensures b.username == name
      ensures b.fullName == fullName && b.profilePicId == profilePicId
      ensures b.emailId == emailId && b.passwdHash == passwdHash
    {
      this.(username := name)
    }

    function WithFullName(name: string): (b: InsertableUserBuilder)
      ensures b.fullName == Some(name)
      ensures b.username == username && b.profilePicId == profilePicId
      ensures b.emailId == emailId && b.passwdHash == passwdHash
    {
      this.(fullName := Some(name))
    }

    /** Stores the password as given: hashing is not implemented by the source. */
    function WithPassword(passwd: string): (b: InsertableUserBuilder)
      ensures b.passwdHash == passwd
      ensures b.username == username && b.fullName == fullName
      ensures b.profilePicId == profilePicId && b.emailId == emailId
    {
      this.(passwdHash := passwd)
    }

    function WithEmailId(id: Uuid): (b: InsertableUserBuilder)
      ensures b.emailId == Some(id)
      ensures b.username == username && b.fullName == fullName
      ensures b.profilePicId == profilePicId && b.passwdHash == passwdHash
    {
      this.(emailId := Some(id))
    }

    function WithProfilePicId(id: Uuid): (b: InsertableUserBuilder)
      ensures b.profilePicId == Some(id)
      ensures b.username == username && b.fullName == fullName
      ensures b.emailId == emailId && b.passwdHash == passwdHash
    {
      this.(profilePicId := Some(id))
    }

    /**
     * Checks the three required fields one after the other, recording a
     * "Missing field" error for each that fails, and yields the user only
     * when no error was recorded.
     */
    function Build(): (r: Result<InsertableUser, ErrorMap>)
      ensures r.Ok? <==> username != [] && passwdHash != [] && emailId.Some?
      ensures r.Ok? ==> && r.value.Username() == username
                        && r.value.FullName() == fullName
                        && r.value.ProfilePicId() == profilePicId
                        && Some(r.value.EmailId()) == emailId
                        && r.value.PasswdHash() == passwdHash
      ensures r.Err? ==> && ("username" in r.error <==> username == [])
                         && ("password" in r.error <==> passwdHash == [])
                         && ("email" in r.error <==> emailId == None)
                         && (forall k :: k in r.error ==> k in {"username", "password", "email"})
                         && (forall k :: k in r.error ==> r.error[k] == [MISSING_FIELD])
    {
      var errors: ErrorMap := map[];
      var errors := if username == [] then AddError(errors, "username", MISSING_FIELD) else errors;
      var errors := if passwdHash == [] then AddError(errors, "password", MISSING_FIELD) else errors;
      var errors := if emailId == None then AddError(errors, "email", MISSING_FIELD) else errors;
      if |errors| == 0 then
        assert "email" !in errors;
        Ok(InsertableUser(username, fullName, profilePicId, emailId.value, passwdHash))
      else
        Err(errors)
    }
  }

  /** Building the default builder reports exactly the three required fields. */
  lemma DefaultBuildFails()
    ensures InsertableUserBuilder.New().Build()
         == Err(map["username" := [MISSING_FIELD], "password" := [MISSING_FIELD], "email" := [MISSING_FIELD]])
  {
    var r := InsertableUserBuilder.New().Build();
    var expected := map["username" := [MISSING_FIELD], "password" := [MISSING_FIELD], "email" := [MISSING_FIELD]];
    assert r.Err?;
    assert r.error.Keys == expected.Keys;
  }

  /** A builder given a username, a password and an email id builds, whatever else was set. */
  lemma CompleteBuilderBuilds(b: InsertableUserBuilder, name: string, passwd: string, email: Uuid)
    requires name != [] && passwd != []
    ensures b.WithUsername(name).WithPassword(passwd).WithEmailId(email).Build()
         == Ok(InsertableUser(name, b.fullName, b.profilePicId, email, passwd))
  {
  }

  /** The optional fields take no part in validation: setting them changes neither the verdict nor the errors. */
  lemma OptionalFieldsNeverFail(b: InsertableUserBuilder, name: string, pic: Uuid)
    ensures b.WithFullName(name).Build().Ok? == b.Build().Ok?
    ensures b.Build().Err? ==> b.WithFullName(name).Build() == b.Build()
    ensures b.WithProfilePicId(pic).Build().Ok? == b.Build().Ok?
    ensures b.Build().Err? ==> b.WithProfilePicId(pic).Build() == b.Build()
  {
  }

  /** Setting a field twice keeps the second value only. */
  lemma LastSetterCallWins(b: InsertableUserBuilder, s1: string, s2: string, id1: Uuid, id2: Uuid)
    ensures b.WithUsername(s1).WithUsername(s2) == b.WithUsername(s2)
    ensures b.WithFullName(s1).WithFullName(s2) == b.WithFullName(s2)
    ensures b.WithPassword(s1).WithPassword(s2) == b.WithPassword(s2)
    ensures b.WithEmailId(id1).WithEmailId(id2) == b.WithEmailId(id2)
    ensures b.WithProfilePicId(id1).WithProfilePicId(id2) == b.WithProfilePicId(id2)
  {
  }
}
