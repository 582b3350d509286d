/**
 * `internal/app/repository/userRepository.go`: the user table's statements over
 * the CRUD executor. SQL texts have their line breaks and indentation collapsed
 * to single spaces; they only name the statement and are never interpreted.
 */
module UserRepository {
  import opened Wrappers
  import opened GoInt
  import opened Response
  import opened CommonUtility
  import opened CrudSpec
  import opened CrudRepository
  import opened Models

  /** `USER`, the object kind every user error names. */
  const USER: string := "users"

  const CreateUserSql: string :=
    "INSERT INTO \"public\".\"users\" (\"userEmailId\", \"encrypted_password\", \"inserted_at\", \"updated_at\", "
    + "\"userDisplayName\",\"userFirstName\",\"userLastName\",\"userRole\",\"stored_salt\") "
    + "VALUES ($1, $2, $3, $4, $5,$6 ,$7,$8,$9) RETURNING \"id\""
  const DeleteUserSql: string := "DELETE FROM \"public\".\"users\" WHERE \"userEmailId\"=$1"
  const GetUserByIdSql: string :=
    "SELECT \"id\", \"userEmailId\", \"inserted_at\", \"updated_at\", \"userDisplayName\", \"userFirstName\", "
    + "\"userLastName\", \"userRole\" FROM \"public\".\"users\" WHERE \"id\"=$1;"
  const GetUserSql: string :=
    "SELECT \"id\",\"userEmailId\",\"encrypted_password\",\"inserted_at\",\"updated_at\",\"userDisplayName\","
    + "\"userFirstName\",\"userLastName\",\"userRole\",\"stored_salt\" FROM \"public\".\"users\" WHERE \"userEmailId\"=$1;"
  const UpdatePasswordSql: string :=
    "UPDATE \"public\".\"users\" SET \"encrypted_password\"=$2, \"stored_salt\"=$3 WHERE \"userEmailId\"=$1;"
  const UpdateSelfDetailsSql: string :=
    "UPDATE \"public\".\"users\" SET \"userEmailId\"= $1, \"updated_at\"=NOW(), \"userDisplayName\"=$2, "
    + "\"userFirstName\"=$3, \"userLastName\"=$4 WHERE \"userEmailId\"=$5;"
  const ListAllUsersSql: string :=
    "SELECT \"id\", \"userEmailId\", \"inserted_at\", \"updated_at\", \"userDisplayName\", \"userFirstName\", "
    + "\"userLastName\", \"userRole\" FROM \"public\".\"users\";"

  /** The nine `Create` arguments, in the column order of the insert. */
  function InsertArgs(u: User): (args: seq<Arg>)
    reads u
    ensures |args| == 9
    ensures args[0] == Text(u.userEmailId) && args[1] == Text(u.encryptedPassword)
    ensures args[2] == Timestamp(u.insertedAt) && args[3] == Timestamp(u.updatedAt)
    ensures args[4] == Text(u.userDisplayName) && args[5] == Text(u.userFirstName)
    ensures args[6] == Text(u.userLastName) && args[7] == Text(u.userRole) && args[8] == Text(u.storedSalt)
  {
    [ Text(u.userEmailId), Text(u.encryptedPassword), Timestamp(u.insertedAt), Timestamp(u.updatedAt),
      Text(u.userDisplayName), Text(u.userFirstName), Text(u.userLastName), Text(u.userRole), Text(u.storedSalt) ]
  }

  /** `UpdateUserSelfDetails`'s arguments: the new values as `$1..$4`, the current email as `$5`. */
  function SelfDetailsArgs(currentEmail: string, u: User): (args: seq<Arg>)
    reads u
    ensures |args| == 5 && args[4] == Text(currentEmail)
    ensures args[..4] == [Text(u.userEmailId), Text(u.userDisplayName), Text(u.userFirstName), Text(u.userLastName)]
  {
    [Text(u.userEmailId), Text(u.userDisplayName), Text(u.userFirstName), Text(u.userLastName), Text(currentEmail)]
  }

  /** `v, _ := id.(int64)`: the value when the dynamic type is `int64`, and 0 otherwise. */
  function AssertInt64(id: Any): (v: Int64)
    ensures id.AnyInt64? ==> v == id.i64
    ensures !id.AnyInt64? ==> v == 0
  {
    match id
    case AnyInt64(x) => x
    case _ => 0
  }

  /**
   * Every failed `Create` leaves the user's id at 0: the executor's `-1` is an
   * untyped constant, so it is an `int` and not an `int64`.
   */
  lemma FailedCreateZeroesId(sql: string, kind: string, args: seq<Arg>, s: CreateScript)
    requires CreateOutcome(sql, kind, args, s).err.Some?
    ensures AssertInt64(CreateOutcome(sql, kind, args, s).id) == 0
  {
  }

  /** A successful create whose id column scans as `int64` stores that id. */
  lemma CreatedIdStored(sql: string, kind: string, args: seq<Arg>, s: CreateScript, v: Int64)
    requires s.beginOk && s.commitOk && s.scan == Scanned(AnyInt64(v))
    ensures CreateOutcome(sql, kind, args, s).err == None
    ensures AssertInt64(CreateOutcome(sql, kind, args, s).id) == v
  {
  }

  class UserRepoHandler {
    const crud: CrudRepository

    constructor (crud: CrudRepository)
      ensures this.crud == crud
    {
      this.crud := crud;
    }

    /** `Create`: inserts the user and writes the returned id into it in place. */
    method Create(user: User, s: CreateScript) returns (r: User, err: Option<ErrorMessage>)
      requires crud.Valid()
      modifies crud, user`id
      ensures crud.Valid() && crud.HealthChecked(s.pingOk)
      ensures var run := CreateOutcome(CreateUserSql, USER, old(InsertArgs(user)), s);
              && crud.trace == old(crud.trace) + HealthEvents(old(crud.db).Some?, s.pingOk) + run.events
              && r == user && err == run.err && user.id == AssertInt64(run.id)
      ensures err.Some? ==> user.id == 0
    {
      var id, cErr := crud.Create(CreateUserSql, USER, InsertArgs(user), s);
      user.id := AssertInt64(id);
      return user, cErr;
    }

    method Delete(emailId: string, s: TxScript) returns (err: Option<ErrorMessage>)
      requires crud.Valid()
      modifies crud
      ensures crud.Valid() && crud.HealthChecked(s.pingOk)
      ensures crud.trace == old(crud.trace) + HealthEvents(old(crud.db).Some?, s.pingOk)
                            + DeleteRun(DeleteUserSql, USER, [Text(emailId)], s).events
      ensures err == DeleteRun(DeleteUserSql, USER, [Text(emailId)], s).err
    {
      err := crud.Delete(DeleteUserSql, USER, [Text(emailId)], s);
      if err.Some? {
        return err;
      }
      return None;
    }

    method GetUserByID<R>(id: Int64, mapper: R -> MapResult<User>, pingOk: bool, row: R)
      returns (user: Option<User>, err: Option<ErrorMessage>)
      requires crud.Valid()
      modifies crud
      ensures crud.Valid() && crud.HealthChecked(pingOk)
      ensures crud.trace == old(crud.trace) + HealthEvents(old(crud.db).Some?, pingOk)
                            + GetOneRun(GetUserByIdSql, USER, [Number(id)], mapper, row).events
      ensures user == GetOneRun(GetUserByIdSql, USER, [Number(id)], mapper, row).value
      ensures err == GetOneRun(GetUserByIdSql, USER, [Number(id)], mapper, row).err
    {
      user, err := crud.GetOne(GetUserByIdSql, USER, mapper, [Number(id)], pingOk, row);
    }

    method Get<R>(emailId: string, mapper: R -> MapResult<User>, pingOk: bool, row: R)
      returns (user: Option<User>, err: Option<ErrorMessage>)
      requires crud.Valid()
      modifies crud
      ensures crud.Valid() && crud.HealthChecked(pingOk)
      ensures crud.trace == old(crud.trace) + HealthEvents(old(crud.db).Some?, pingOk)
                            + GetOneRun(GetUserSql, USER, [Text(emailId)], mapper, row).events
      ensures user == GetOneRun(GetUserSql, USER, [Text(emailId)], mapper, row).value
      ensures err == GetOneRun(GetUserSql, USER, [Text(emailId)], mapper, row).err
    {
      user, err := crud.GetOne(GetUserSql, USER, mapper, [Text(emailId)], pingOk, row);
    }

    method UpdatePassword(email: string, hashedPass: string, salt: string, s: TxScript) returns (err: Option<ErrorMessage>)
      requires crud.Valid()
      modifies crud
      ensures crud.Valid() && crud.HealthChecked(s.pingOk)
      ensures crud.trace == old(crud.trace) + HealthEvents(old(crud.db).Some?, s.pingOk)
                            + UpdateRun(UpdatePasswordSql, USER, [Text(email), Text(hashedPass), Text(salt)], s).events
      ensures err == UpdateRun(UpdatePasswordSql, USER, [Text(email), Text(hashedPass), Text(salt)], s).err
    {
      err := crud.Update(UpdatePasswordSql, USER, [Text(email), Text(hashedPass), Text(salt)], s);
    }

    method UpdateUserSelfDetails(currentEmail: string, user: User, s: TxScript) returns (err: Option<ErrorMessage>)
      requires crud.Valid()
      modifies crud
      ensures crud.Valid() && crud.HealthChecked(s.pingOk)
      ensures crud.trace == old(crud.trace) + HealthEvents(old(crud.db).Some?, s.pingOk)
                            + UpdateRun(UpdateSelfDetailsSql, USER, SelfDetailsArgs(currentEmail, user), s).events
      ensures err == UpdateRun(UpdateSelfDetailsSql, USER, SelfDetailsArgs(currentEmail, user), s).err
    {
      err := crud.Update(UpdateSelfDetailsSql, USER, SelfDetailsArgs(currentEmail, user), s);
    }

    method ListAllUsers<R>(mapper: R -> MapResult<User>, pingOk: bool, answer: RowsAnswer<R>)
      returns (users: Option<seq<User>>, err: Option<ErrorMessage>)
      requires crud.Valid()
      modifies crud
      ensures crud.Valid() && crud.HealthChecked(pingOk)
      ensures crud.trace == old(crud.trace) + HealthEvents(old(crud.db).Some?, pingOk)
                            + GetRun(ListAllUsersSql, [], mapper, answer).events
      ensures users == GetRun(ListAllUsersSql, [], mapper, answer).value
      ensures err == GetRun(ListAllUsersSql, [], mapper, answer).err
    {
      users, err := crud.Get(ListAllUsersSql, USER, mapper, [], pingOk, answer);
    }
  }
}
