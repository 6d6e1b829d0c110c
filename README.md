# JWT authorisation pipeline and entity validation, in Dafny

This project models two parts of a small Go backend for organisations and users:

- **`api/jwtauth.go`**, the JWT middleware (module `Jwt`, file `jwtauth.dfy`).
  - The Verifier locates a candidate token in the request. The sources, in priority order, are the `jwt` query parameter, the parameter aliases in list order, an `Authorization` header of the Bearer shape, and the `jwt` cookie.
  - It decodes the candidate with the JWT library. It maps a decode error, or checks the token's valid flag, its signing method and its `exp` claim.
  - It stores the (token, error) pair in the request context and always calls the next handler exactly once.
  - Two gates, `Authenticator` and `allowUserCreationFromToken`, turn the stored pair into a 401 response or forward the request. They are one parameterised `Gate`.
  - The `Claims` map helpers are a class whose setters update the shared map in place.
- **`models/user.go` and `models/organisation.go`**, the entity validators (modules `Users` and `Organisations`).
  - They cover the username and organisation-name patterns, `IsValid`, which reports the first failing check, and `PreSave`, which normalises a record in place.

Supporting modules:

- `Wrappers` provides `Option`.
- `GoTypes` provides `int64`, `uint64`, `byte` and int64 wrap-around.
- `Strings` provides ASCII case mapping, Go's byte length `len` as the UTF-8 length of a code-point string, and `strconv.FormatUint`.
- `Validation` provides `AppError` and `FirstFailure`, a reference semantics for "checks in order, first failure wins".

Parameters of the model:

- the JWT library's parser (`Parse`);
- the clock (`now`);
- `json.Number.Int64` (`numberInt64`);
- `net/mail.ParseAddress` and `utils.IsLower` (`MailOracles`).

Behaviour that follows the code rather than the comments around it:

- An empty candidate does not store `ErrUnauthorized`. The assignment is overwritten by `token, err := ja.Decode(tokenStr)`, so what is stored is whatever decoding `""` yields (`EmptyCandidateStoresDecoderError`).
- The header check looks only at the first six characters and the length. The character at index 6 is never checked, so `"Bearer:abc"` yields the candidate `"abc"` (`BearerIgnoresSeparator`, `BearerExamples`).
- `Verifier` is `Verify("")`. It therefore also consults the query parameter whose name is empty (`?=token`) (`VerifierReadsEmptyNamedParameter`).

## Model

| member | source | states |
|---|---|---|
| `Jwt.DecodeDependsOnParserAndKey` | api/jwtauth.go:168-181 | Two configurations with the same parser decode alike when they share a non-empty verify key, or have no verify key and share the sign key; the signer never matters |
| `Jwt.KeyFunc` | api/jwtauth.go:175-181 | The verify key is used when it is non-empty, else the sign key; the key is empty only when both are |
| `Jwt.StoredDecodeError` | api/jwtauth.go:117-122 | A decoder error becomes `ErrExpired` exactly when its message is "token is expired", otherwise it is kept unchanged; it is never `ErrUnauthorized` |
| `Jwt.IsExpired` | api/jwtauth.go:184-203 | Expired only when an `exp` claim exists, and then exactly when its int64 reading is strictly less than `now` |
| `Jwt.ExpiryIsMonotone` | api/jwtauth.go:184-203 | A token expired at `now` is expired at every later time |
| `Jwt.ExpEncodingsAgree` | api/jwtauth.go:186-195 | An int64 `exp` of `x`, a float64 with whole part `x` and a json.Number reading as `x` all expire exactly when `x < now` |
| `Jwt.ExpiryIsStrict` | api/jwtauth.go:197-199 | An `exp` equal to `now` is not expired; one second before `now` it is |
| `Jwt.NonNumericExpReadsAsZero` | api/jwtauth.go:186-195 | An `exp` of a type other than float64/int64/json.Number reads as 0, so the token is expired exactly when `now > 0` |
| `Jwt.WholeSeconds` | api/jwtauth.go:339 | `int64(d.Seconds())` is the whole number of seconds in `d`, truncated toward zero (bounds for both signs) |
| `Jwt.ExpireIn` | api/jwtauth.go:338-340 | The result is `now` plus the whole seconds of `d`; it is exactly that sum when it fits in int64 and congruent to it modulo 2^64 otherwise |
| `Jwt.Claims.Set` | api/jwtauth.go:296-299 | Stores `v` under `k`, leaves every other key unchanged and returns the same claims object |
| `Jwt.Claims.Get` | api/jwtauth.go:302-305 | Returns `(entries[k], true)` when `k` is present and `(nil, false)` otherwise |
| `Jwt.Claims.SetIssuedAt` | api/jwtauth.go:308-311 | Writes only `iat`, with the given Unix time |
| `Jwt.Claims.SetIssuedNow` | api/jwtauth.go:314-317 | Writes only `iat`, with the current Unix time |
| `Jwt.Claims.SetExpiry` | api/jwtauth.go:320-323 | Writes only `exp`, with the given Unix time |
| `Jwt.Claims.SetExpiryIn` | api/jwtauth.go:327-330 | Writes only `exp`, with `ExpireIn(now, d)` |
| `Jwt.CookieNamed` | api/jwtauth.go:104-107 | A value is found exactly when some cookie has the name, and it is the value of the first such cookie |
| `Jwt.CookieToken` | api/jwtauth.go:102-108 | The cookie candidate is the value of the first cookie named `jwt`, and empty when no cookie has that name |
| `Jwt.BearerToken` | api/jwtauth.go:94-100 | The header candidate is either empty or everything from index 7 on of a header longer than 7 |
| `Jwt.BearerIgnoresSeparator` | api/jwtauth.go:96-99 | For a header longer than 7, the candidate is non-empty exactly when the first six characters upper-case to "BEARER", and changing the character at index 6 never changes the candidate |
| `Jwt.BearerExamples` | api/jwtauth.go:96-99 | "bearer abc.def.ghi" yields "abc.def.ghi"; "Bearer:abc" yields "abc"; "Bearer " and "Basic abc.def" yield nothing |
| `Jwt.FirstNonEmpty` | api/jwtauth.go:82-108 | The result is empty exactly when every source is empty; otherwise it is the first non-empty source |
| `Jwt.FirstNonEmptyAppend` | api/jwtauth.go:94-108 | A later group of sources is consulted only when every earlier one is empty |
| `Jwt.Candidate` | api/jwtauth.go:82-108 | The candidate is empty, so the empty string is decoded, exactly when the `jwt` parameter, every alias, the Bearer header and the `jwt` cookie are all empty |
| `Jwt.SourcesAllEmpty` | api/jwtauth.go:82-108 | The list of sources is all empty exactly when each of the four kinds of source is |
| `Jwt.QueryParameterWins` | api/jwtauth.go:82 | A non-empty `jwt` query parameter is the candidate, whatever the aliases, header or cookie hold |
| `Jwt.FirstNonEmptyAliasWins` | api/jwtauth.go:84-92 | With no `jwt` parameter, the first alias in list order with a non-empty value is the candidate |
| `Jwt.HeaderBeforeCookie` | api/jwtauth.go:94-108 | With no query candidate, a Bearer header wins over the cookie, and the cookie is used only when the header yields nothing |
| `Jwt.SetContext` | api/jwtauth.go:152-156 | Afterwards the context yields exactly the given token and error, whatever it held before |
| `Jwt.VerifyOutcome` | api/jwtauth.go:116-145 | The stored token is always the decoder's token; no error is stored exactly when the decode succeeded with a token that is valid, signed with the configured method and not expired |
| `Jwt.DecodeFailureStored` | api/jwtauth.go:116-126 | When the decode fails, the stored error is the mapped decoder error and no later check runs |
| `Jwt.SuccessfulDecodeChecks` | api/jwtauth.go:128-145 | After a successful decode: a nil, invalid or wrongly signed token stores `ErrUnauthorized`; otherwise an expired one stores `ErrExpired`; otherwise no error is stored |
| `Jwt.EmptyCandidateStoresDecoderError` | api/jwtauth.go:110-116 | For an empty candidate whose decode fails, the stored error is the mapped decoder error, never `ErrUnauthorized` |
| `Jwt.Verify` | api/jwtauth.go:74-149 | Reassigns the candidate source by source (alias loop with break) to the first non-empty source; the next handler is called exactly once, with the context `VerifyOutcome` gives |
| `Jwt.Verifier` | api/jwtauth.go:69-71 | `Verify` with the single alias "" |
| `Jwt.VerifierReadsEmptyNamedParameter` | api/jwtauth.go:69-71 | With no `jwt` parameter, the default Verifier takes the value of the query parameter named "" |
| `Jwt.Gate` | api/jwtauth.go:206-238 | Forwards exactly when no error is stored and the token is present, valid and of the expected type; otherwise responds 401, with the message of the first failing condition: stored error, missing/invalid token, missing `type`, wrong `type` |
| `Jwt.Authenticator` | api/jwtauth.go:206-238 | Forwards exactly the outcomes with a valid, error-free `userauth` token; otherwise responds 401 |
| `Jwt.AllowUserCreationFromToken` | api/jwtauth.go:241-285 | Forwards exactly the outcomes with a valid, error-free `invitation` token; otherwise responds 401 |
| `Jwt.NoTokenPassesBothGates` | api/jwtauth.go:230-268 | No stored outcome is forwarded by both gates |
| `Jwt.GateAfterVerify` | api/jwtauth.go:116-145 | A gate behind the Verifier forwards exactly when the candidate decodes without error to a valid token with the configured method, not expired at `now`, with the gate's `type` |
| `Jwt.StoredErrorsAreRefused` | api/jwtauth.go:210-215 | A failed decode or an expired token makes both gates answer 401 "Token not found…" |
| `Users.IsValidUsername` | models/user.go:148-164 | Holds iff the name has 1 to 64 characters, all in `[a-z0-9._-]`, and is not all/channel/popcubebot/here (byte and character lengths agree on such names) |
| `Users.UpperOrNonAsciiUsernameRejected` | models/user.go:35 | A username holding an upper-case letter or a non-ASCII character is rejected |
| `Users.ValidUsernameIsLowerCase` | models/user.go:35 | Lower-casing a valid username leaves it unchanged |
| `Users.User.IsValid` | models/user.go:89-118 | Equals `FirstFailure` of the six checks in source order: empty e-mail (create only), username, e-mail length/syntax, nickname, first name, last name |
| `Users.User.PreSave` | models/user.go:121-125 | Lower-cases username and e-mail, leaves every other field unchanged; afterwards both are lower case, so a second call changes nothing |
| `Users.AcceptedUserWithinLimits` | models/user.go:97-115 | An accepted user has a valid username and e-mail, an e-mail of at most 128 bytes (so at most 128 characters), and names of at most 64 runes |
| `Users.UpdateSkipsOnlyEmptyEmailCheck` | models/user.go:90-95 | For a non-empty e-mail both modes give the same verdict; an empty e-mail is rejected in create mode |
| `Users.EmailMustParseAndBeLowerCase` | models/user.go:166-170 | An accepted user's e-mail parses as an address and is lower case; past the username check, failing either half gives the e-mail error |
| `Users.UserChecksAreOrdered` | models/user.go:97-103 | Past the empty-e-mail check, a bad username is reported before a bad e-mail |
| `Validation.FirstFailure` | models/user.go:89-118 | The result is none exactly when no check fails, and otherwise the error of the first failing check |
| `Organisations.IsValidAlphaNum` | models/organisation.go:110-123 | Holds exactly when `s` matches the pattern: a non-empty `[a-z0-9]` run, then the middle group, then a non-empty `[a-z0-9]` run |
| `Organisations.AlphaNumWithUnderscores` | models/organisation.go:110 | With underscores allowed: at least two characters, `[a-z0-9]` at both ends, `[a-z0-9_-]` in between |
| `Organisations.StrictUnderscoresArePaired` | models/organisation.go:111 | Without underscores, every accepted underscore belongs to one `__` pair between two non-empty `[a-z0-9]` runs |
| `Organisations.AlphaNumExamples` | models/organisation.go:110-111 | "ab__cd" is accepted and "ab_cd" rejected without underscores; "ab_cd" is accepted with them; one character never matches |
| `Organisations.StrictImpliesUnderscores` | models/organisation.go:110-111 | Whatever the strict pattern accepts, the underscore pattern accepts too |
| `Organisations.IsValidOrganisationIdentifier` | models/organisation.go:105-108 | Holds exactly when the underscore pattern matches; an accepted name has at least two characters and no upper-case letter |
| `Organisations.ValidIdentifierIsLowerCase` | models/organisation.go:105-110 | Lower-casing a valid organisation name leaves it unchanged |
| `Organisations.Organisation.IsValid` | models/organisation.go:78-93 | Equals `FirstFailure` of name length, name pattern and description length, in that order; every error carries "id=" and the decimal id |
| `Organisations.Organisation.PreSave` | models/organisation.go:96-102 | Lower-cases the name and sets an empty avatar to the default one, keeping any other avatar and every other field; afterwards nothing changes on a second call; a valid name is kept as is |
| `Organisations.AcceptedOrganisationWithinLimits` | models/organisation.go:78-93 | An accepted organisation has a valid name of 2 to 64 runes and a description of at most 1024 runes |
| `Organisations.NameLengthCheckedFirst` | models/organisation.go:80-82 | An empty or over-long name gives the organisation_name error before any other check |
| `Organisations.OneCharacterNameNotAlphaNum` | models/organisation.go:84-86 | A one-character name passes the length check and gets the not_alphanum error |
| `Organisations.DescriptionCheckedLast` | models/organisation.go:88-90 | With a valid name, a description longer than 1024 runes gets the description error |
| `Strings.FormatUint` | models/organisation.go:81 | The decimal form of the id: non-empty digits, no leading zero, denoting the number |
| `Strings.ByteLenBounds` | models/user.go:101 | Go's byte length is at least the rune count, and equal to it exactly for ASCII strings |

## Left out

- `Encode`, `jwt.New`, `SignedString`, `jwt.Parse`, `parser.Parse` and `Claims.Valid` are not modelled, because they sign and check signatures in the JWT library. Decoding is the `Parse` parameter. There is no encode/decode round trip.
- `Jwt.Method`: the check `token.Method != ja.signer` compares Go interface values, that is, identity of the registered method object. The model compares algorithm names. The two agree because the JWT library keeps one registered method per name. They differ only if a method is registered again under the same name after `New`.
- `New` / `NewWithParser` are not modelled. The configuration record `JwtAuth` is given directly, with the signing method already looked up (`jwt.GetSigningMethod` is not part of this model).
- The wall clock (`time.Now`, `EpochNow`) is the parameter `now`.
- `Jwt.Claims`: the model's claims always hold a map. Go's zero `Claims` is a nil map: `Get` on it returns `(nil, false)`, while `Set`, `SetIssuedAt`, `SetIssuedNow`, `SetExpiry` and `SetExpiryIn` panic with "assignment to entry in nil map". That nil state and the panic are not modelled.
- `Jwt.ExpSeconds`: a float64 `exp` is modelled as an int64 that is already truncated. The float-to-int conversion and its out-of-range behaviour are not modelled.
- `Jwt.WholeSeconds`: `Duration.Seconds()` is a float64. From 2^24 seconds (about 194 days) on, its rounding can carry a duration that falls short of the next whole second across it. At 2^24 seconds the shortfall must be within a few nanoseconds; near the int64 limit it can be about a microsecond. The model truncates exactly.
- `json.Number.Int64` is the opaque parameter `numberInt64`.
- `Jwt.BearerToken` works on characters, while the source slices the header by bytes. The two agree unless the character at index 6 is non-ASCII. In that case the source's candidate starts in the middle of a UTF-8 sequence, which a string of code points cannot represent.
- `Jwt.Request`: query strings, headers and cookies are taken as already parsed. Header names are assumed canonical. URL and cookie parsing are not modelled.
- HTTP responses are values (`Response`), not `render.JSON` writes. The request context is the `Context` datatype, not `context.WithValue`.
- `Strings.ToLower` and `Strings.ToUpper` map ASCII letters only. Go's Unicode case mapping of other letters is not modelled. Go lower-cases some non-ASCII letters into `[a-z]`, for example U+212A (Kelvin sign) to `k`. The stores call `PreSave` before `IsValid`, so Go accepts a name holding such a letter (stored as "kate" for "\u212Aate"), while the model's `User.PreSave` and `Organisation.PreSave` keep the letter and `IsValid` then rejects the name.
- `net/mail.ParseAddress` (address syntax of RFC 5322, section 3.4) and `utils.IsLower` are the `MailOracles` parameters, because their source is not part of this model.
- `User.Organisation`, the ORM association slice, is not a field of the modelled `User`. `PreSave` and `IsValid` never touch it.
- `Bind`, `ToJSON`, `UserFromJSON` and `OganisationFromJSON` are not modelled: they are JSON and HTTP plumbing.
- The datastores, the route handlers and `main.go` are not modelled: they are database and router plumbing. The Verifier and gates are not mounted on any route there, so the model treats them as a standalone library.
- Concurrency is not modelled: each request runs once, through pure functions and one method.
