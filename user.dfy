/** `internal/app/models/user.go` */
module Models {
  import opened Wrappers
  import opened GoInt
  import opened Response
  import Constants

  /** `models.User`. Timestamps are instants as integers; `Create` writes `id` in place. */
  class User {
    var id: Int64
    var userEmailId: string
    var encryptedPassword: string
    var insertedAt: int
    var updatedAt: int
    var userDisplayName: string
    var userFirstName: string
    var userLastName: string
    var userRole: string
    var storedSalt: string

    constructor (id: Int64, userEmailId: string, encryptedPassword: string, insertedAt: int, updatedAt: int,
                 userDisplayName: string, userFirstName: string, userLastName: string, userRole: string,
                 storedSalt: string)
      ensures this.id == id && this.userEmailId == userEmailId && this.encryptedPassword == encryptedPassword
      ensures this.insertedAt == insertedAt && this.updatedAt == updatedAt
      ensures this.userDisplayName == userDisplayName && this.userFirstName == userFirstName
      ensures this.userLastName == userLastName && this.userRole == userRole && this.storedSalt == storedSalt
    {
      this.id := id;
      this.userEmailId := userEmailId;
      this.encryptedPassword := encryptedPassword;
      this.insertedAt := insertedAt;
      this.updatedAt := updatedAt;
      this.userDisplayName := userDisplayName;
      this.userFirstName := userFirstName;
      this.userLastName := userLastName;
      this.userRole := userRole;
      this.storedSalt := storedSalt;
    }
  }

  /** The number of bytes of a character's UTF-8 encoding. */
  function Utf8Width(c: char): (w: nat)
    ensures 1 <= w <= 4
  {
    if c as int < 0x80 then 1 else if c as int < 0x800 then 2 else if c as int < 0x1_0000 then 3 else 4
  }

  /** Go's `len` of a string: its length in UTF-8 bytes. */
  function Utf8Length(s: string): (n: nat)
    ensures |s| <= n <= 4 * |s|
    ensures n == 0 <==> s == []
  {
    if s == [] then 0 else Utf8Width(s[0]) + Utf8Length(s[1..])
  }

  /** On ASCII text byte length and character count agree. */
  lemma {:induction false} AsciiLength(s: string)
    requires forall i :: 0 <= i < |s| ==> s[i] as int < 0x80
    ensures Utf8Length(s) == |s|
  {
    if s != [] {
      AsciiLength(s[1..]);
    }
  }

  /** A check of `Validate`: whether it fails, and the message it then returns. */
  datatype Check = Check(fails: bool, message: string)

  /** The first failing check's 400 error, or `nil` when none fails. */
  function FirstFailure(checks: seq<Check>): (r: Option<ErrorMessage>)
    ensures r == None <==> forall i :: 0 <= i < |checks| ==> !checks[i].fails
    ensures r.Some? ==> exists i :: 0 <= i < |checks| && checks[i].fails
                          && (forall j :: 0 <= j < i ==> !checks[j].fails)
                          && r.value == ErrorMessage(StatusBadRequest, checks[i].message)
  {
    if checks == [] then None
    else if checks[0].fails then
      Some(ErrorMessage(StatusBadRequest, checks[0].message))
    else
      var r := FirstFailure(checks[1..]);
      assert r.Some? ==> exists i :: 1 <= i < |checks| && checks[i].fails
                                     && (forall j :: 0 <= j < i ==> !checks[j].fails)
                                     && r.value == ErrorMessage(StatusBadRequest, checks[i].message) by {
        if r.Some? {
          var k :| 0 <= k < |checks| - 1 && checks[1..][k].fails
                   && (forall j :: 0 <= j < k ==> !checks[1..][j].fails)
                   && r.value == ErrorMessage(StatusBadRequest, checks[1..][k].message);
          assert forall j :: 1 <= j < k + 1 ==> !checks[j].fails by {
            forall j | 1 <= j < k + 1 ensures !checks[j].fails {
              assert checks[j] == checks[1..][j - 1];
            }
          }
        }
      }
      r
  }

  /** `models.UserRequestDto` */
  datatype UserRequestDto = UserRequestDto(userEmailId: string, userPassword: string, userDisplayName: string,
                                           userFirstName: string, userLastName: string, userRole: string)
  {
    /** The checks of `Validate`, in the order the source makes them. */
    function Checks(parseAddress: string -> bool): seq<Check>
    {
      [ Check(Utf8Length(userEmailId) == 0, Constants.INVALID_EMAILID),
        Check(!parseAddress(userEmailId), Constants.INVALID_EMAILID),
        Check(Utf8Length(userPassword) < 8, Constants.INVALID_PASSWORD),
        Check(Utf8Length(userDisplayName) == 0, Constants.EmptyField("UserDisplayName")),
        Check(Utf8Length(userFirstName) == 0, Constants.EmptyField("UserFirstName")),
        Check(Utf8Length(userLastName) == 0, Constants.EmptyField("UserLastName")),
        Check(Utf8Length(userRole) == 0, Constants.EmptyField("UserRole")) ]
    }

    /**
     * `Validate`, with `net/mail.ParseAddress` as the predicate `parseAddress`
     * (true when the address parses).
     */
    function Validate(parseAddress: string -> bool): (r: Option<ErrorMessage>)
      ensures r.Some? ==> r.value.statusCode == StatusBadRequest
      ensures r == None <==>
        && userEmailId != "" && parseAddress(userEmailId) && Utf8Length(userPassword) >= 8
        && userDisplayName != "" && userFirstName != "" && userLastName != "" && userRole != ""
      ensures userEmailId == "" ==> r == Some(ErrorMessage(StatusBadRequest, Constants.INVALID_EMAILID))
      ensures userEmailId != "" && !parseAddress(userEmailId) ==>
        r == Some(ErrorMessage(StatusBadRequest, Constants.INVALID_EMAILID))
      ensures userEmailId != "" && parseAddress(userEmailId) && Utf8Length(userPassword) < 8 ==>
        r == Some(ErrorMessage(StatusBadRequest, Constants.INVALID_PASSWORD))
    {
      if Utf8Length(userEmailId) == 0 then Some(ErrorMessage(StatusBadRequest, Constants.INVALID_EMAILID))
      else if !parseAddress(userEmailId) then Some(ErrorMessage(StatusBadRequest, Constants.INVALID_EMAILID))
      else if Utf8Length(userPassword) < 8 then Some(ErrorMessage(StatusBadRequest, Constants.INVALID_PASSWORD))
      else if Utf8Length(userDisplayName) == 0 then Some(ErrorMessage(StatusBadRequest, Constants.EmptyField("UserDisplayName")))
      else if Utf8Length(userFirstName) == 0 then Some(ErrorMessage(StatusBadRequest, Constants.EmptyField("UserFirstName")))
      else if Utf8Length(userLastName) == 0 then Some(ErrorMessage(StatusBadRequest, Constants.EmptyField("UserLastName")))
      else if Utf8Length(userRole) == 0 then Some(ErrorMessage(StatusBadRequest, Constants.EmptyField("UserRole")))
      else None
    }
  }

  /** `Validate` reports the first failing check in source order: the guard chain and the check list agree. */
  lemma ValidateIsFirstFailure(c: UserRequestDto, parseAddress: string -> bool)
    ensures c.Validate(parseAddress) == FirstFailure(c.Checks(parseAddress))
  {
    var cs := c.Checks(parseAddress);
    var r := FirstFailure(cs);
    if r.Some? {
      var i :| 0 <= i < |cs| && cs[i].fails && (forall j :: 0 <= j < i ==> !cs[j].fails)
               && r.value == ErrorMessage(StatusBadRequest, cs[i].message);
      if i >= 1 { assert !cs[0].fails; }
      if i >= 2 { assert !cs[1].fails; }
      if i >= 3 { assert !cs[2].fails; }
      if i >= 4 { assert !cs[3].fails; }
      if i >= 5 { assert !cs[4].fails; }
      if i >= 6 { assert !cs[5].fails; }
    } else {
      assert !cs[0].fails && !cs[1].fails && !cs[2].fails && !cs[3].fails;
      assert !cs[4].fails && !cs[5].fails && !cs[6].fails;
    }
  }

  /** An empty last name is reported only when every earlier check passes; the message names the field. */
  lemma EmptyLastNameReported(c: UserRequestDto, parseAddress: string -> bool)
    requires c.userEmailId != "" && parseAddress(c.userEmailId) && Utf8Length(c.userPassword) >= 8
    requires c.userDisplayName != "" && c.userFirstName != "" && c.userLastName == ""
    ensures c.Validate(parseAddress) == Some(ErrorMessage(StatusBadRequest, Constants.EmptyField("UserLastName")))
  {
  }
}
