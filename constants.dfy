/** The authentication and validation constants of src/utils/constants.ts. */
module Constants {
  /** The browser-storage key under which the session token lives. The model
      has exactly one storage slot, so the key names that slot and is not
      looked up anywhere. */
  const AuthStorageKey: string := "daebakcore_auth_token"

  /** The one fixed account. */
  const AdminId: string := "admin"
  const AdminPassword: string := "admin1234"
  const AdminName: string := "Admin"

  /** Shortest acceptable password, in JavaScript string-length units. */
  const MinPasswordLength: nat := 8
}
