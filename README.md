# Login validation and session state of the daebakcore admin front end

This project models the two parts of the admin front end that have behaviour
worth stating, and proves properties of both.

- **Login-field validation** (`src/utils/validation.ts`, module `Validation`,
  file `validation.dfy`). The validators are total functions from the raw field
  strings to an optional message, a field-to-message map, or a verdict. The
  JavaScript primitives they rely on are written out. `String.prototype.trim`
  strips the ECMAScript WhiteSpace and LineTerminator characters. `length`
  counts UTF-16 code units, so a character outside the Basic Multilingual
  Plane counts as two. The result of `trim()` is empty exactly when the field
  is blank, meaning it holds only whitespace, and the validators' contracts
  are stated in terms of that.
- **Session state machine** (`src/context/AuthContext.tsx`, module `Session`,
  file `auth_context.dfy`). The `AuthProvider` class holds three fields: the
  two React state cells `isAuthenticated` and `user`, and the browser-storage
  slot that holds the session token. Three methods update them in place: the
  mount-time token load, `login` and `logout`. Each method is proved equal to
  a transition function on a `SessionState` value. The properties are proved
  about those functions. `Mirrored` holds from construction on. `Synced` holds
  once the mount effect has run: the in-memory state is then exactly what the
  stored token determines, so a reload rebuilds it. Any sequence of `login`
  and `logout` calls keeps `Synced`.

Supporting modules: `Wrappers` (the `Option` type for `T | null`), `Constants`
(src/utils/constants.ts) and `AuthTypes` (the `User` and `AuthToken` records
of src/types/auth.ts).

The storage slot is abstract: `None` when the key is absent, otherwise a
`Stored` value. `Blank` is the empty string. The mount effect's
`if (storedToken)` treats it as falsy, so it is skipped and *not* removed.
`Malformed` is any value on which `JSON.parse` or the following field read
throws. `Parsed(token)` is a value that decodes without throwing. `login`
stores `Parsed` of the token it built, which is what reading back its
`JSON.stringify` gives.

Two behaviours of the code worth knowing:
- `validatePassword` tests `!password.trim()`, so a whitespace-only password
  gets "required" whatever its length. A password of 8 or more characters is
  therefore not always free of errors.
- No email check exists. `EMAIL_REGEX` is unused, and the `validateEmail` that
  the unit tests import is not defined.

## Model

| member | source | states |
|---|---|---|
| Validation.IsWhitespace | src/utils/validation.ts:16 | the ECMAScript WhiteSpace and LineTerminator characters that `trim()` strips; every one is a single UTF-16 unit, so trimming never splits a surrogate pair |
| Validation.Trim | src/utils/validation.ts:16 | `trim()` returns the contiguous piece of the input that starts after its leading whitespace; everything before and after the piece is whitespace; the piece is empty exactly when every character is JavaScript whitespace, and otherwise neither starts nor ends with whitespace |
| Validation.LeadingWhitespace | src/utils/validation.ts:16 | the number of characters `trim()` drops at the front: all of them are whitespace, and the next character, if any, is not |
| Validation.TrailingWhitespace | src/utils/validation.ts:16 | the number of characters `trim()` drops at the back: all of them are whitespace, and the character before them, if any, is not |
| Validation.Utf16Length | src/utils/validation.ts:29 | `password.length` lies between the character count and twice it, and equals the character count exactly when every character is in the Basic Multilingual Plane |
| Validation.DecimalString | src/utils/validation.ts:30 | `${MIN_PASSWORD_LENGTH}` renders a number as decimal digits with no leading zero that read back as the same number |
| Validation.Truthy | src/utils/validation.ts:45-51 | the `if (idError)` and `if (passwordError)` tests: every message a validator returns passes, and `null` does not |
| Validation.ValidateId | src/utils/validation.ts:15-20 | returns the "required" message exactly when the id is blank, and `null` exactly when it is not |
| Validation.ValidatePassword | src/utils/validation.ts:25-33 | "required" exactly when the password is blank, so this check comes before the length check; the minimum-length message exactly when the password is not blank and has fewer than 8 UTF-16 units; `null` exactly when it is not blank and has at least 8 |
| Validation.ValidateLoginForm | src/utils/validation.ts:38-55 | has key `id` exactly when `validateId` fails, with its message as the value; the same for key `password` and `validatePassword`; has no other keys |
| Validation.FormCleanIff | src/utils/validation.ts:42-54 | the error map is empty exactly when the id is not blank and the password is neither blank nor shorter than 8 |
| Validation.FieldsIndependent | src/utils/validation.ts:44-52 | the `id` entry does not depend on the password, and the `password` entry does not depend on the id |
| Validation.ValidateCredentials | src/utils/validation.ts:60-64 | true exactly for the pair `admin` / `admin1234` |
| Validation.CredentialsExact | src/__tests__/validation.test.ts:68-82 | the fixed pair is accepted; a change of case, a trailing space or any of the tested wrong pairs is rejected |
| Validation.AdminPassesForm | src/components/Auth/LoginForm.tsx:43-51 | whatever pair `validateCredentials` accepts also passes `validateLoginForm`, so the submit gate never blocks the fixed account |
| Validation.MinLengthMessageText | src/utils/validation.ts:30 | the template-literal message renders the minimum as "8" and matches the tested text |
| Validation.AstralPasswordLength | src/utils/validation.ts:29 | four characters outside the Basic Multilingual Plane count as 8 units and pass the length check |
| Validation.PasswordRequiredExamples | src/utils/validation.ts:26-28 | the empty password, and a password of eight spaces, both get "required" |
| Validation.PasswordTooShortExamples | src/__tests__/validation.test.ts:31-34 | `1234567` and `short` get the minimum-length message |
| Validation.PasswordAcceptedExamples | src/__tests__/validation.test.ts:36-39 | `12345678` and `longerpassword` pass |
| Session.LoadTokenStep | src/context/AuthContext.tsx:11-28 | the mount effect removes the slot only when it is undecodable; when storage holds a decodable token marked authenticated it signs in that token's user, otherwise both state cells are left as they were |
| Session.LoginStep | src/context/AuthContext.tsx:30-48 | `login` succeeds exactly when `validateCredentials` accepts; a success leaves the admin signed in and the stored token naming the admin, in agreement with storage; a failure changes nothing |
| Session.LogoutStep | src/context/AuthContext.tsx:50-54 | `logout` from any state gives the state of a fresh provider over empty storage, which agrees with storage |
| Session.LoadAuthenticatedToken | src/context/AuthContext.tsx:12-22 | mounting over a decodable token marked authenticated signs in `{id: userId, name: userName}` and leaves storage unchanged |
| Session.LoadMalformedToken | src/context/AuthContext.tsx:23-26 | mounting over an undecodable value removes the key and stays signed out |
| Session.LoadIgnoredToken | src/context/AuthContext.tsx:12-16 | mounting with no key, an empty string, or a token not marked authenticated changes neither state nor storage |
| Session.LoginOutcome | src/context/AuthContext.tsx:30-48 | `login` succeeds exactly when `validateCredentials` accepts the pair; on success it stores the admin token with the given `rememberMe` and timestamp, and signs in `{id: "admin", name: "Admin"}`; on failure nothing changes |
| Session.LogoutIdempotent | src/context/AuthContext.tsx:50-54 | `logout` from any state leaves it signed out with no user and no stored token; a second `logout` changes nothing |
| Session.StepsKeepMirrored | src/context/AuthContext.tsx:11-54 | the mount effect, `login` and `logout` each keep `Mirrored`: the flag is set exactly when a user is set, and that user is the one the stored token names |
| Session.LoadSyncs | src/context/AuthContext.tsx:11-28 | after the mount effect, no undecodable value is stored and the in-memory state is exactly what the stored token determines |
| Session.LoginKeepsSynced | src/context/AuthContext.tsx:30-48 | `login`, successful or not, keeps the in-memory state equal to what storage determines |
| Session.LogoutKeepsSynced | src/context/AuthContext.tsx:50-54 | `logout` keeps the in-memory state equal to what storage determines |
| Session.ReloadRestores | src/context/AuthContext.tsx:11-28 | in such a state, remounting over the same storage rebuilds the same state, so the stored token is the only durable state |
| Session.RunKeepsSynced | src/context/AuthContext.tsx:30-54 | any sequence of `login` and `logout` calls keeps that agreement |
| Session.Lifetime | src/context/AuthContext.tsx:7-55 | a provider mounted over any storage, then driven by any calls, is signed in exactly when its user is set; that user is the one the stored token names, and a reload yields the same state |
| Session.AuthProvider.constructor | src/context/AuthContext.tsx:8-9 | a new provider starts with `isAuthenticated = false` and `user = null`, and storage as it was |
| Session.AuthProvider.LoadStoredToken | src/context/AuthContext.tsx:11-28 | the mount effect updates the fields as the transition function says and leaves the provider synced with storage |
| Session.AuthProvider.Login | src/context/AuthContext.tsx:30-48 | returns true exactly for the credentials `validateCredentials` accepts; then it writes the admin token and signs in the admin user; otherwise no field changes |
| Session.AuthProvider.Logout | src/context/AuthContext.tsx:50-54 | removes the token and clears both state cells |

## Left out

- React rendering, hook scheduling and batching, and context lookup are left out. The model applies each `setState` at once, in program order. `useAuth` throwing outside the provider is not modelled. Routing, the route guard, pages and layout are view glue and are not modelled.
- JSON encoding and decoding is abstract, and so is the `localStorage` API. The one storage key is a single slot holding `Blank`, `Malformed` or `Parsed(token)`. The model does not check which JSON texts decode to which token. A decodable value whose `isAuthenticated` field is truthy without being `true` is folded into `Parsed`.
- Decoded values that are not a token record are folded into `Stored`. A value that decodes to a number, a string, a boolean or an array (`5`, `"x"`, `true`, `[]`) does not throw; its `isAuthenticated` is undefined, so the model treats it as a `Parsed` token with `isAuthenticated = false`. The text `null` decodes to `null`, on which the field read throws, so it is `Malformed` and its key is removed. A record with a truthy flag but no string `userId` or `userName` (for example `{"isAuthenticated":true}`) would sign in a user with undefined fields. That case is not represented: the model assumes a token with a truthy flag carries string fields.
- `Date.now()` is wall-clock input. `login` takes it as the parameter `now`. A JavaScript number is modelled as an unbounded `int`, not a float.
- `login` returns a promise that resolves immediately. It is modelled as a synchronous method returning `bool`.
- `console.error` on a bad token is not modelled, because it is logging only.
- Lone UTF-16 surrogates in a field are not modelled. A Dafny `char` is a Unicode scalar value, so lone surrogates cannot be represented.
- Email validation is not modelled. `EMAIL_REGEX` is unused, and `validateEmail` is not defined by the code.
- The `LoginCredentials` and `AuthContextType` interfaces in src/types/auth.ts are type declarations only. They are not modelled.
- The post-login redirect timer and `LOGIN_REDIRECT_DELAY` are not modelled, because they are timers and navigation.
- `rememberMe` is stored in the token but never consulted. The model keeps that behaviour: `ReloadRestores` shows that a session survives a reload whatever `rememberMe` was.
