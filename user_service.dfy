/** `internal/app/services/userService.go` */
module UserService {
  import opened Wrappers
  import opened Response
  import opened CommonUtility
  import opened CrudSpec
  import opened CrudRepository
  import opened Models
  import opened UserRepository

  const DefaultAesKey: string := "1234567812345678"

  /** The one error `GetUserByEmail` ever returns. */
  function FetchFailed(): ErrorMessage
  {
    ErrorMessage(StatusInternalServerError, "Failed to fetch user details, please try again.")
  }

  /** What `GetUserByEmail` makes of the repository's answer: any error becomes the fixed 500. */
  function ServiceAnswer(user: Option<User>, err: Option<ErrorMessage>): (r: (Option<User>, Option<ErrorMessage>))
    ensures err.Some? ==> r == (None, Some(FetchFailed()))
    ensures err.None? ==> r == (user, None)
  {
    if err.Some? then (None, Some(FetchFailed())) else (user, None)
  }

  /** A user that does not exist (the repository's 404) reaches the caller as the same 500 as any failure. */
  lemma NotFoundBecomesServerError<R>(emailId: string, mapper: R -> MapResult<User>, row: R)
    requires mapper(row) == ErrNoRows
    ensures GetOneRun(GetUserSql, USER, [Text(emailId)], mapper, row).err.value.statusCode == StatusNotFound
    ensures var run := GetOneRun(GetUserSql, USER, [Text(emailId)], mapper, row);
            ServiceAnswer(run.value, run.err) == (None, Some(FetchFailed()))
  {
  }

  class UserService {
    const aesKey: string
    const userRepo: UserRepoHandler

    /** `NewUserService`, with the process environment as a map. */
    constructor (userRepo: UserRepoHandler, env: map<string, string>)
      ensures this.userRepo == userRepo
      ensures aesKey == GetEnvAsString(env, "AES_KEY", DefaultAesKey)
    {
      this.userRepo := userRepo;
      aesKey := GetEnvAsString(env, "AES_KEY", DefaultAesKey);
    }

    /** `GetUserByEmail`: one repository `Get` with the email as given. */
    method GetUserByEmail<R>(emailId: string, mapper: R -> MapResult<User>, pingOk: bool, row: R)
      returns (user: Option<User>, err: Option<ErrorMessage>)
      requires userRepo.crud.Valid()
      modifies userRepo.crud
      ensures userRepo.crud.Valid() && userRepo.crud.HealthChecked(pingOk)
      ensures var run := GetOneRun(GetUserSql, USER, [Text(emailId)], mapper, row);
              && userRepo.crud.trace == old(userRepo.crud.trace) + HealthEvents(old(userRepo.crud.db).Some?, pingOk) + run.events
              && (user, err) == ServiceAnswer(run.value, run.err)
    {
      var u, e := userRepo.Get(emailId, mapper, pingOk, row);
      if e.Some? {
        return None, Some(FetchFailed());
      }
      return u, None;
    }
  }
}
