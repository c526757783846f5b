/** The records of src/types/auth.ts that the session core reads and writes. */
module AuthTypes {
  import opened Wrappers

  /** The signed-in user as the view layer sees it. */
  datatype User = User(id: string, name: string)

  /** The persisted session token. `rememberMe` and `timestamp` are optional
      fields of the record; a JavaScript number is modelled as an `int`. */
  datatype AuthToken = AuthToken(
    userId: string,
    userName: string,
    isAuthenticated: bool,
    rememberMe: Option<bool>,
    timestamp: Option<int>)

  /** The user a token names. */
  function UserOf(token: AuthToken): (user: User) {
    User(token.userId, token.userName)
  }
}
