/**
 * The JWT verification and authorisation pipeline of api/jwtauth.go.
 *
 * A request's candidate token is located (query parameter `jwt`, the parameter
 * aliases, an `Authorization: Bearer` header, the `jwt` cookie), decoded by the
 * JWT library, checked (valid flag, signing method, `exp`), and the resulting
 * (token, error) pair is stored in the request context before the next handler
 * runs. Two gates later turn that stored outcome into a 401 response or let the
 * request through.
 *
 * The JWT library's parser, the clock and `json.Number.Int64` are parameters.
 */
module Jwt {
  import opened Wrappers
  import opened GoTypes
  import opened Strings

  /** `time.Second`, in nanoseconds. */
  const Second: int := 1_000_000_000

  /** The message of the error the JWT library reports for an expired token. */
  const ExpiredMessage: string := "token is expired"

  /** Messages of the 401 responses written by the gates. */
  const TokenNotFoundMessage: string := "Token not found. You Are not allowed to proceed without token."
  const InvalidTokenMessage: string := "token is not valid or does not exist"
  const TypeUndefinedMessage: string := "Token is not valid. Type is undifined"
  const NotUserAuthMessage: string := "Token is not an user auth one"
  const NotInvitationMessage: string := "Token is not an invitation one"

  /**
   * A claim value (`interface{}` in a `jwt.MapClaims`). `Float64` holds a float64
   * already truncated to int64; `Number` is a `json.Number` holding its text.
   */
  datatype Value =
    | Nil
    | Str(s: string)
    | Int64(i: int64)
    | Float64(whole: int64)
    | Number(text: string)
    | Bool(b: bool)
    | Composite

  type ClaimMap = map<string, Value>

  /** A `jwt.SigningMethod`; `NoMethod` is the nil method `jwt.GetSigningMethod` gives for an unknown name. */
  datatype Method = NoMethod | SigningMethod(alg: string)

  /** A decoded `*jwt.Token`: its claims, its signing method and its `Valid` flag. */
  datatype Token = Token(claims: ClaimMap, signingMethod: Method, valid: bool)

  /** The errors stored in the context: the two sentinels of this package, or a decoder error. */
  datatype JwtError = ErrUnauthorized | ErrExpired | DecodeError(message: string)

  /** What the JWT library's parser returns: a token or nil, and an error message or nil. */
  datatype Decoded = Decoded(token: Option<Token>, errMessage: Option<string>)

  /** The settings of a custom `*jwt.Parser`. */
  datatype ParserOptions = ParserOptions(validMethods: seq<string>, useJsonNumber: bool, skipClaimsValidation: bool)

  /** The JWT library's `Parse`: parser settings (None for the default parser), token string, key. */
  type Parse = (Option<ParserOptions>, string, seq<byte>) -> Decoded

  /** The `JwtAuth` configuration; it is built once and never changed. */
  datatype JwtAuth = JwtAuth(signKey: seq<byte>, verifyKey: seq<byte>, signer: Method, parser: Option<ParserOptions>)

  /** The request context as seen through the two private keys `jwt` and `jwt.err`. */
  datatype Context = Unverified | Verified(token: Option<Token>, err: Option<JwtError>)

  datatype Cookie = Cookie(name: string, value: string)

  /** An incoming request: query parameters, headers (keyed by canonical name), cookies, context. */
  datatype Request = Request(
    query: map<string, seq<string>>,
    header: map<string, seq<string>>,
    cookies: seq<Cookie>,
    ctx: Context)

  /** What a gate does with a request: write a response, or call the next handler. */
  datatype Response = Respond(status: int, message: string) | Forward

  // ---------------------------------------------------------------------------
  // Keys and decoding

  /** `keyFunc`: the verification key when one is configured, the signing key otherwise. */
  function KeyFunc(ja: JwtAuth): (key: seq<byte>)
    ensures |ja.verifyKey| > 0 ==> key == ja.verifyKey
    ensures |ja.verifyKey| == 0 ==> key == ja.signKey
    ensures |key| == 0 <==> |ja.verifyKey| == 0 && |ja.signKey| == 0
  {
    if |ja.verifyKey| > 0 then ja.verifyKey else ja.signKey
  }

  /** `Decode`: the custom parser when one is configured, else the default one, always with `keyFunc`'s key. */
  function Decode(ja: JwtAuth, parse: Parse, tokenString: string): Decoded {
    parse(ja.parser, tokenString, KeyFunc(ja))
  }

  /**
   * Decoding depends only on the parser settings and the key `keyFunc` picks: once a
   * verification key is set the signing key no longer matters, and the signer never does.
   */
  lemma DecodeDependsOnParserAndKey(ja: JwtAuth, other: JwtAuth, parse: Parse, tokenString: string)
    requires ja.parser == other.parser
    ensures |ja.verifyKey| > 0 && other.verifyKey == ja.verifyKey ==>
              Decode(ja, parse, tokenString) == Decode(other, parse, tokenString)
    ensures |ja.verifyKey| == 0 && |other.verifyKey| == 0 && other.signKey == ja.signKey ==>
              Decode(ja, parse, tokenString) == Decode(other, parse, tokenString)
  {
  }

  /** The error stored for a failed decode: `ErrExpired` for the library's expiry message, else the decoder's error. */
  function StoredDecodeError(message: string): (e: JwtError)
    ensures e == ErrExpired <==> message == ExpiredMessage
    ensures e != ErrExpired ==> e == DecodeError(message)
    ensures e != ErrUnauthorized
  {
    if message == ExpiredMessage then ErrExpired else DecodeError(message)
  }

  // ---------------------------------------------------------------------------
  // Expiry

  /** The int64 that `IsExpired` reads from an `exp` claim value; any other type reads as 0. */
  function ExpSeconds(v: Value, numberInt64: string -> int64): int64 {
    match v
    case Float64(whole) => whole
    case Int64(i) => i
    case Number(text) => numberInt64(text)
    case _ => 0
  }

  predicate IsNumeric(v: Value) {
    v.Float64? || v.Int64? || v.Number?
  }

  /** `IsExpired`: the token has an `exp` claim and it is strictly before `now`. */
  function IsExpired(t: Token, now: int64, numberInt64: string -> int64): (r: bool)
    ensures r ==> "exp" in t.claims
    ensures "exp" in t.claims ==> (r <==> ExpSeconds(t.claims["exp"], numberInt64) < now)
  {
    if "exp" in t.claims then ExpSeconds(t.claims["exp"], numberInt64) < now else false
  }

  /** A token whose `exp` equals `now` is not expired; one second earlier it is. */
  lemma ExpiryIsStrict(t: Token, now: int64, numberInt64: string -> int64)
    requires "exp" in t.claims && t.claims["exp"].Int64?
    ensures t.claims["exp"].i == now ==> !IsExpired(t, now, numberInt64)
    ensures t.claims["exp"].i as int == now as int - 1 ==> IsExpired(t, now, numberInt64)
  {
  }

  /** An `exp` of a non-numeric type is read as 0: the token is expired exactly when `now` is positive. */
  lemma NonNumericExpReadsAsZero(t: Token, now: int64, numberInt64: string -> int64)
    requires "exp" in t.claims && !IsNumeric(t.claims["exp"])
    ensures IsExpired(t, now, numberInt64) <==> now > 0
  {
  }

  /** Once a token is expired it stays expired at every later time. */
  lemma ExpiryIsMonotone(t: Token, now: int64, later: int64, numberInt64: string -> int64)
    requires now <= later
    ensures IsExpired(t, now, numberInt64) ==> IsExpired(t, later, numberInt64)
  {
  }

  /**
   * The three numeric encodings of one `exp` agree: an int64 `x`, a float64 whose whole
   * part is `x`, and a `json.Number` whose `Int64()` is `x` all expire exactly when `x < now`.
   */
  lemma ExpEncodingsAgree(claims: ClaimMap, m: Method, valid: bool, x: int64, text: string,
                          now: int64, numberInt64: string -> int64)
    requires numberInt64(text) == x
    ensures IsExpired(Token(claims["exp" := Int64(x)], m, valid), now, numberInt64) <==> x < now
    ensures IsExpired(Token(claims["exp" := Float64(x)], m, valid), now, numberInt64) <==> x < now
    ensures IsExpired(Token(claims["exp" := Number(text)], m, valid), now, numberInt64) <==> x < now
  {
  }

  // ---------------------------------------------------------------------------
  // Claims construction

  /** `int64(d.Seconds())` for a duration `d` in nanoseconds: whole seconds, truncated toward zero. */
  function WholeSeconds(d: int64): (s: int)
    ensures 0 <= d ==> 0 <= s * Second <= d as int < (s + 1) * Second
    ensures d < 0 ==> (s - 1) * Second < d as int <= s * Second <= 0
  {
    if d >= 0 then d as int / Second else -((-(d as int)) / Second)
  }

  /** `ExpireIn`: `now` plus the whole seconds of `d`, with Go's int64 wrap-around. */
  function ExpireIn(now: int64, d: int64): (exp: int64)
    ensures InInt64Range(now as int + WholeSeconds(d)) ==> exp as int == now as int + WholeSeconds(d)
    ensures (exp as int - (now as int + WholeSeconds(d))) % TwoTo64 == 0
  {
    Wrap64(now as int + WholeSeconds(d))
  }

  /** `Claims`: a claims map shared by reference and updated in place by its setters. */
  class Claims {
    var entries: ClaimMap

    constructor ()
      ensures entries == map[]
    {
      entries := map[];
    }

    /** `Set`: stores `v` under `k`; every other key keeps its value. Returns the same claims. */
    method Set(k: string, v: Value) returns (c: Claims)
      modifies this
      ensures c == this
      ensures entries == old(entries)[k := v]
    {
      entries := entries[k := v];
      c := this;
    }

    /** `Get`: the value under `k` and true, or nil and false when `k` is absent. */
    method Get(k: string) returns (v: Value, ok: bool)
      ensures ok <==> k in entries
      ensures ok ==> v == entries[k]
      ensures !ok ==> v == Nil
    {
      ok := k in entries;
      v := if ok then entries[k] else Nil;
    }

    /** `SetIssuedAt`: writes the Unix time `unixSeconds` to `iat` and nothing else. */
    method SetIssuedAt(unixSeconds: int64) returns (c: Claims)
      modifies this
      ensures c == this
      ensures entries == old(entries)["iat" := Int64(unixSeconds)]
    {
      entries := entries["iat" := Int64(unixSeconds)];
      c := this;
    }

    /** `SetIssuedNow`: writes the current Unix time to `iat` and nothing else. */
    method SetIssuedNow(now: int64) returns (c: Claims)
      modifies this
      ensures c == this
      ensures entries == old(entries)["iat" := Int64(now)]
    {
      entries := entries["iat" := Int64(now)];
      c := this;
    }

    /** `SetExpiry`: writes the Unix time `unixSeconds` to `exp` and nothing else. */
    method SetExpiry(unixSeconds: int64) returns (c: Claims)
      modifies this
      ensures c == this
      ensures entries == old(entries)["exp" := Int64(unixSeconds)]
    {
      entries := entries["exp" := Int64(unixSeconds)];
      c := this;
    }

    /** `SetExpiryIn`: writes `ExpireIn(now, d)` to `exp` and nothing else. */
    method SetExpiryIn(d: int64, now: int64) returns (c: Claims)
      modifies this
      ensures c == this
      ensures entries == old(entries)["exp" := Int64(ExpireIn(now, d))]
    {
      entries := entries["exp" := Int64(ExpireIn(now, d))];
      c := this;
    }
  }

  // ---------------------------------------------------------------------------
  // Token location

  /** `url.Values.Get` / `http.Header.Get`: the first value under `key`, or "". */
  function FirstValue(values: map<string, seq<string>>, key: string): string {
    if key in values && |values[key]| > 0 then values[key][0] else ""
  }

  /** Cookie `i` is the first one named `name`. */
  predicate FirstCookieAt(cookies: seq<Cookie>, name: string, i: int) {
    0 <= i < |cookies| && cookies[i].name == name && forall j :: 0 <= j < i ==> cookies[j].name != name
  }

  /** `r.Cookie(name)`: the value of the first cookie with that name. */
  function CookieNamed(cookies: seq<Cookie>, name: string): (v: Option<string>)
    ensures v.Some? <==> exists i :: 0 <= i < |cookies| && cookies[i].name == name
    ensures v.Some? ==> exists i :: FirstCookieAt(cookies, name, i) && v.value == cookies[i].value
    ensures forall i :: FirstCookieAt(cookies, name, i) ==> v == Some(cookies[i].value)
  {
    if cookies == [] then None
    else if cookies[0].name == name then
      assert FirstCookieAt(cookies, name, 0);
      Some(cookies[0].value)
    else
      assert forall i :: 1 <= i < |cookies| ==> cookies[i] == cookies[1..][i - 1];
      assert forall i :: FirstCookieAt(cookies[1..], name, i) ==> FirstCookieAt(cookies, name, i + 1);
      assert forall i :: FirstCookieAt(cookies, name, i) ==> FirstCookieAt(cookies[1..], name, i - 1);
      CookieNamed(cookies[1..], name)
  }

  /**
   * The candidate an `Authorization` header value yields: everything from index 7 on,
   * when the value is longer than 7 and its first six characters upper-case to "BEARER".
   */
  function BearerToken(authorization: string): (t: string)
    ensures t == "" || (|authorization| > 7 && t == authorization[7..])
  {
    if |authorization| > 7 && ToUpper(authorization[..6]) == "BEARER" then authorization[7..] else ""
  }

  /** A header candidate is never empty when the scheme matches, and the character at index 6 is never looked at. */
  lemma BearerIgnoresSeparator(authorization: string, c: char)
    requires |authorization| > 7
    ensures BearerToken(authorization[6 := c]) == BearerToken(authorization)
    ensures BearerToken(authorization) != "" <==> ToUpper(authorization[..6]) == "BEARER"
  {
    assert authorization[6 := c][..6] == authorization[..6];
    assert authorization[6 := c][7..] == authorization[7..];
  }

  lemma BearerExamples()
    ensures BearerToken("bearer abc.def.ghi") == "abc.def.ghi"
    ensures BearerToken("Bearer:abc") == "abc"
    ensures BearerToken("Bearer ") == ""
    ensures BearerToken("Basic abc.def") == ""
  {
    assert ToUpper("bearer") == "BEARER";
    assert ToUpper("Bearer") == "BEARER";
    assert "bearer abc.def.ghi"[..6] == "bearer";
    assert "Bearer:abc"[..6] == "Bearer";
    assert "Bearer:abc"[7..] == "abc";
    assert "bearer abc.def.ghi"[7..] == "abc.def.ghi";
    assert "Basic abc.def"[..6] == "Basic ";
    assert ToUpper("Basic ")[2] == 'S' != "BEARER"[2];
  }

  /** The `jwt` cookie's candidate: the value of the first cookie named `jwt`, or "" when there is none. */
  function CookieToken(cookies: seq<Cookie>): (t: string)
    ensures (forall i :: 0 <= i < |cookies| ==> cookies[i].name != "jwt") ==> t == ""
    ensures forall i :: FirstCookieAt(cookies, "jwt", i) ==> t == cookies[i].value
    ensures t != "" ==> exists i :: FirstCookieAt(cookies, "jwt", i) && t == cookies[i].value
  {
    match CookieNamed(cookies, "jwt")
    case Some(v) => v
    case None => ""
  }

  /** The values of the alias query parameters, in list order. */
  function AliasValues(query: map<string, seq<string>>, aliases: seq<string>): (vs: seq<string>)
    ensures |vs| == |aliases|
    ensures forall i :: 0 <= i < |aliases| ==> vs[i] == FirstValue(query, aliases[i])
  {
    seq(|aliases|, i requires 0 <= i < |aliases| => FirstValue(query, aliases[i]))
  }

  /** Every token source of a request, highest priority first. */
  function Sources(r: Request, aliases: seq<string>): seq<string> {
    [FirstValue(r.query, "jwt")]
    + AliasValues(r.query, aliases)
    + [BearerToken(FirstValue(r.header, "Authorization")), CookieToken(r.cookies)]
  }

  predicate FirstNonEmptyAt(ss: seq<string>, i: int) {
    0 <= i < |ss| && ss[i] != "" && forall j :: 0 <= j < i ==> ss[j] == ""
  }

  /** The first non-empty string of `ss`, or "" when they are all empty. */
  function FirstNonEmpty(ss: seq<string>): (r: string)
    ensures r == "" <==> forall i :: 0 <= i < |ss| ==> ss[i] == ""
    ensures forall i :: FirstNonEmptyAt(ss, i) ==> r == ss[i]
  {
    if ss == [] then ""
    else if ss[0] != "" then ss[0]
    else
      assert forall i :: 1 <= i < |ss| ==> ss[i] == ss[1..][i - 1];
      assert forall i :: FirstNonEmptyAt(ss, i) ==> FirstNonEmptyAt(ss[1..], i - 1);
      FirstNonEmpty(ss[1..])
  }

  lemma {:induction false} FirstNonEmptyAppend(a: seq<string>, b: seq<string>)
    ensures FirstNonEmpty(a + b) == if FirstNonEmpty(a) != "" then FirstNonEmpty(a) else FirstNonEmpty(b)
  {
    if a == [] {
      assert a + b == b;
    } else {
      assert (a + b)[0] == a[0];
      assert (a + b)[1..] == a[1..] + b;
      FirstNonEmptyAppend(a[1..], b);
    }
  }

  /**
   * The candidate token of a request: the first non-empty source. It is empty, and the
   * empty string is what gets decoded, exactly when every source is empty.
   */
  function Candidate(r: Request, aliases: seq<string>): (c: string)
    ensures c == "" <==>
      && FirstValue(r.query, "jwt") == ""
      && (forall i :: 0 <= i < |aliases| ==> FirstValue(r.query, aliases[i]) == "")
      && BearerToken(FirstValue(r.header, "Authorization")) == ""
      && CookieToken(r.cookies) == ""
  {
    SourcesAllEmpty(r, aliases);
    FirstNonEmpty(Sources(r, aliases))
  }

  /** The sources are all empty exactly when each of the four kinds of source is. */
  lemma SourcesAllEmpty(r: Request, aliases: seq<string>)
    ensures (forall i :: 0 <= i < |Sources(r, aliases)| ==> Sources(r, aliases)[i] == "") <==>
      && FirstValue(r.query, "jwt") == ""
      && (forall i :: 0 <= i < |aliases| ==> FirstValue(r.query, aliases[i]) == "")
      && BearerToken(FirstValue(r.header, "Authorization")) == ""
      && CookieToken(r.cookies) == ""
  {
    var ss := Sources(r, aliases);
    var vs := AliasValues(r.query, aliases);
    assert |ss| == |aliases| + 3;
    assert ss[0] == FirstValue(r.query, "jwt");
    assert forall i :: 0 <= i < |aliases| ==> ss[i + 1] == vs[i];
    assert ss[|aliases| + 1] == BearerToken(FirstValue(r.header, "Authorization"));
    assert ss[|aliases| + 2] == CookieToken(r.cookies);
    if forall i :: 0 <= i < |aliases| ==> FirstValue(r.query, aliases[i]) == "" {
      forall i | 1 <= i < |aliases| + 1
        ensures ss[i] == ""
      {
        assert ss[i] == vs[i - 1];
      }
    }
  }

  /** A non-empty `jwt` query parameter is the candidate, whatever the other sources hold. */
  lemma QueryParameterWins(r: Request, aliases: seq<string>)
    requires FirstValue(r.query, "jwt") != ""
    ensures Candidate(r, aliases) == FirstValue(r.query, "jwt")
  {
    assert FirstNonEmptyAt(Sources(r, aliases), 0);
  }

  /** With no `jwt` parameter, the first alias with a non-empty value is the candidate. */
  lemma {:induction false} FirstNonEmptyAliasWins(r: Request, aliases: seq<string>, k: nat)
    requires FirstValue(r.query, "jwt") == ""
    requires k < |aliases| && FirstValue(r.query, aliases[k]) != ""
    requires forall j :: 0 <= j < k ==> FirstValue(r.query, aliases[j]) == ""
    ensures Candidate(r, aliases) == FirstValue(r.query, aliases[k])
  {
    var ss := Sources(r, aliases);
    assert forall j :: 1 <= j <= |aliases| ==> ss[j] == FirstValue(r.query, aliases[j - 1]);
    assert FirstNonEmptyAt(ss, k + 1);
  }

  /** With no query candidate, the header is preferred to the cookie. */
  lemma HeaderBeforeCookie(r: Request, aliases: seq<string>)
    requires FirstValue(r.query, "jwt") == ""
    requires forall j :: 0 <= j < |aliases| ==> FirstValue(r.query, aliases[j]) == ""
    ensures Candidate(r, aliases) ==
      if BearerToken(FirstValue(r.header, "Authorization")) != ""
      then BearerToken(FirstValue(r.header, "Authorization"))
      else CookieToken(r.cookies)
  {
    var ss := Sources(r, aliases);
    var n := |aliases|;
    assert ss[n + 1] == BearerToken(FirstValue(r.header, "Authorization"));
    assert ss[n + 2] == CookieToken(r.cookies);
    assert forall j :: 0 <= j <= n ==> ss[j] == "";
    if ss[n + 1] != "" {
      assert FirstNonEmptyAt(ss, n + 1);
    } else if ss[n + 2] != "" {
      assert FirstNonEmptyAt(ss, n + 2);
    }
  }

  // ---------------------------------------------------------------------------
  // The Verifier

  /** `SetContext`: the context now answers `t` for key `jwt` and `err` for key `jwt.err`, whatever it held before. */
  function SetContext(ctx: Context, t: Option<Token>, err: Option<JwtError>): (r: Context)
    ensures r.Verified? && r.token == t && r.err == err
  {
    Verified(t, err)
  }

  /** The context the Verifier hands to the next handler for the candidate `tokenStr`. */
  function VerifyOutcome(ja: JwtAuth, parse: Parse, numberInt64: string -> int64, now: int64,
                         ctx: Context, tokenStr: string): (out: Context)
    ensures out.Verified? && out.token == Decode(ja, parse, tokenStr).token
    ensures out.err.None? <==>
      var d := Decode(ja, parse, tokenStr);
      d.errMessage.None? && d.token.Some? && d.token.value.valid && d.token.value.signingMethod == ja.signer
      && !IsExpired(d.token.value, now, numberInt64)
  {
    var d := Decode(ja, parse, tokenStr);
    if d.errMessage.Some? then SetContext(ctx, d.token, Some(StoredDecodeError(d.errMessage.value)))
    else if d.token.None? || !d.token.value.valid || d.token.value.signingMethod != ja.signer then
      SetContext(ctx, d.token, Some(ErrUnauthorized))
    else if IsExpired(d.token.value, now, numberInt64) then SetContext(ctx, d.token, Some(ErrExpired))
    else SetContext(ctx, d.token, None)
  }

  /** A failed decode is stored as is (expiry message mapped to `ErrExpired`); no further check runs. */
  lemma DecodeFailureStored(ja: JwtAuth, parse: Parse, numberInt64: string -> int64, now: int64,
                            ctx: Context, tokenStr: string)
    requires Decode(ja, parse, tokenStr).errMessage.Some?
    ensures var m := Decode(ja, parse, tokenStr).errMessage.value;
            VerifyOutcome(ja, parse, numberInt64, now, ctx, tokenStr).err
              == Some(if m == ExpiredMessage then ErrExpired else DecodeError(m))
  {
  }

  /** After a successful decode the checks run in order: token/valid/method, then expiry. */
  lemma SuccessfulDecodeChecks(ja: JwtAuth, parse: Parse, numberInt64: string -> int64, now: int64,
                               ctx: Context, tokenStr: string)
    requires Decode(ja, parse, tokenStr).errMessage.None?
    ensures var d := Decode(ja, parse, tokenStr);
            var out := VerifyOutcome(ja, parse, numberInt64, now, ctx, tokenStr);
            if d.token.None? || !d.token.value.valid || d.token.value.signingMethod != ja.signer
            then out.err == Some(ErrUnauthorized)
            else if IsExpired(d.token.value, now, numberInt64) then out.err == Some(ErrExpired)
            else out.err.None?
  {
  }

  /**
   * The `ErrUnauthorized` assigned for an empty candidate is overwritten by the decode:
   * what is stored is whatever decoding "" gives.
   */
  lemma EmptyCandidateStoresDecoderError(ja: JwtAuth, parse: Parse, numberInt64: string -> int64, now: int64,
                                         ctx: Context)
    requires Decode(ja, parse, "").errMessage.Some?
    ensures VerifyOutcome(ja, parse, numberInt64, now, ctx, "").err
              == Some(StoredDecodeError(Decode(ja, parse, "").errMessage.value))
    ensures VerifyOutcome(ja, parse, numberInt64, now, ctx, "").err != Some(ErrUnauthorized)
  {
  }

  /**
   * The Verifier middleware built by `Verify(paramAliases...)`, run on request `r`.
   * Returns the requests it passed to the next handler: always exactly one, carrying
   * the outcome for the located candidate. It never writes a response.
   */
  method Verify(ja: JwtAuth, parse: Parse, numberInt64: string -> int64, now: int64,
                paramAliases: seq<string>, r: Request)
    returns (forwarded: seq<Request>)
    ensures forwarded == [r.(ctx := VerifyOutcome(ja, parse, numberInt64, now, r.ctx, Candidate(r, paramAliases)))]
  {
    var ctx := r.ctx;
    var tokenStr: string;
    var err: Option<JwtError> := None;
    forwarded := [];

    // query parameter
    tokenStr := FirstValue(r.query, "jwt");

    // query parameter aliases
    if tokenStr == "" && |paramAliases| > 0 {
      var i := 0;
      while i < |paramAliases|
        invariant 0 <= i <= |paramAliases|
        invariant tokenStr == ""
        invariant forall j :: 0 <= j < i ==> FirstValue(r.query, paramAliases[j]) == ""
      {
        tokenStr := FirstValue(r.query, paramAliases[i]);
        if tokenStr != "" {
          assert FirstNonEmptyAt(AliasValues(r.query, paramAliases), i);
          break;
        }
        i := i + 1;
      }
    }
    assert FirstValue(r.query, "jwt") == "" ==> tokenStr == FirstNonEmpty(AliasValues(r.query, paramAliases));

    // authorization header
    if tokenStr == "" {
      var bearer := FirstValue(r.header, "Authorization");
      if |bearer| > 7 && ToUpper(bearer[..6]) == "BEARER" {
        tokenStr := bearer[7..];
      }
    }

    // cookie
    if tokenStr == "" {
      var cookie := CookieNamed(r.cookies, "jwt");
      if cookie.Some? {
        tokenStr := cookie.value;
      }
    }

    FirstNonEmptyAppend([FirstValue(r.query, "jwt")] + AliasValues(r.query, paramAliases),
                        [BearerToken(FirstValue(r.header, "Authorization")), CookieToken(r.cookies)]);
    FirstNonEmptyAppend([FirstValue(r.query, "jwt")], AliasValues(r.query, paramAliases));
    assert tokenStr == Candidate(r, paramAliases);

    if tokenStr == "" {
      err := Some(ErrUnauthorized);
    }

    // decode: both the token and the error are reassigned
    var decoded := Decode(ja, parse, tokenStr);
    var token := decoded.token;
    err := if decoded.errMessage.Some? then Some(DecodeError(decoded.errMessage.value)) else None;
    if err.Some? {
      if err.value.message == ExpiredMessage {
        err := Some(ErrExpired);
      }
      ctx := SetContext(ctx, token, err);
      forwarded := forwarded + [r.(ctx := ctx)];
      return;
    }

    if token.None? || !token.value.valid || token.value.signingMethod != ja.signer {
      err := Some(ErrUnauthorized);
      ctx := SetContext(ctx, token, err);
      forwarded := forwarded + [r.(ctx := ctx)];
      return;
    }

    // expiry via the "exp" claim
    if IsExpired(token.value, now, numberInt64) {
      err := Some(ErrExpired);
      ctx := SetContext(ctx, token, err);
      forwarded := forwarded + [r.(ctx := ctx)];
      return;
    }

    ctx := SetContext(ctx, token, err);
    forwarded := forwarded + [r.(ctx := ctx)];
  }

  /** `Verifier`: `Verify("")`, so the only alias consulted is the query parameter with the empty name. */
  method Verifier(ja: JwtAuth, parse: Parse, numberInt64: string -> int64, now: int64, r: Request)
    returns (forwarded: seq<Request>)
    ensures forwarded == [r.(ctx := VerifyOutcome(ja, parse, numberInt64, now, r.ctx, Candidate(r, [""])))]
  {
    forwarded := Verify(ja, parse, numberInt64, now, [""], r);
  }

  /** The default Verifier takes a token from a query parameter with an empty name (`?=token`). */
  lemma VerifierReadsEmptyNamedParameter(r: Request)
    requires FirstValue(r.query, "jwt") == "" && FirstValue(r.query, "") != ""
    ensures Candidate(r, [""]) == FirstValue(r.query, "")
  {
    FirstNonEmptyAliasWins(r, [""], 0);
  }

  // ---------------------------------------------------------------------------
  // The gates

  /** The stored outcome lets a request through a gate expecting the token type `expectedType`. */
  predicate Admits(ctx: Context, expectedType: string) {
    && ctx.Verified?
    && ctx.err.None?
    && ctx.token.Some?
    && ctx.token.value.valid
    && "type" in ctx.token.value.claims
    && ctx.token.value.claims["type"] == Str(expectedType)
  }

  /**
   * The logic shared by `Authenticator` and `allowUserCreationFromToken`: a stored error,
   * then a missing or invalid token, then a missing `type` claim, then a wrong type, each
   * give a 401 with its own message; only otherwise is the request forwarded.
   */
  function Gate(ctx: Context, expectedType: string, wrongTypeMessage: string): (r: Response)
    ensures r.Forward? <==> Admits(ctx, expectedType)
    ensures r.Respond? ==> r.status == 401
    ensures ctx.Verified? && ctx.err.Some? ==> r == Respond(401, TokenNotFoundMessage)
    ensures (ctx.Unverified? || ctx.err.None?) && (ctx.Unverified? || ctx.token.None? || !ctx.token.value.valid)
            ==> r == Respond(401, InvalidTokenMessage)
    ensures (ctx.Verified? && ctx.err.None? && ctx.token.Some? && ctx.token.value.valid
             && "type" !in ctx.token.value.claims) ==> r == Respond(401, TypeUndefinedMessage)
    ensures (ctx.Verified? && ctx.err.None? && ctx.token.Some? && ctx.token.value.valid
             && "type" in ctx.token.value.claims && ctx.token.value.claims["type"] != Str(expectedType))
            ==> r == Respond(401, wrongTypeMessage)
  {
    if ctx.Verified? && ctx.err.Some? then Respond(401, TokenNotFoundMessage)
    else if ctx.Unverified? || ctx.token.None? || !ctx.token.value.valid then Respond(401, InvalidTokenMessage)
    else if "type" !in ctx.token.value.claims then Respond(401, TypeUndefinedMessage)
    else if ctx.token.value.claims["type"] != Str(expectedType) then Respond(401, wrongTypeMessage)
    else Forward
  }

  /** `Authenticator`: forwards only requests holding a valid, error-free `userauth` token. */
  function Authenticator(ctx: Context): (r: Response)
    ensures r.Forward? <==> Admits(ctx, "userauth")
    ensures r.Respond? ==> r.status == 401
  {
    Gate(ctx, "userauth", NotUserAuthMessage)
  }

  /** `allowUserCreationFromToken`: forwards only requests holding a valid, error-free `invitation` token. */
  function AllowUserCreationFromToken(ctx: Context): (r: Response)
    ensures r.Forward? <==> Admits(ctx, "invitation")
    ensures r.Respond? ==> r.status == 401
  {
    Gate(ctx, "invitation", NotInvitationMessage)
  }

  /** No stored outcome is let through by both gates. */
  lemma NoTokenPassesBothGates(ctx: Context)
    ensures !(Authenticator(ctx).Forward? && AllowUserCreationFromToken(ctx).Forward?)
  {
    assert "userauth" != "invitation" by {
      assert "userauth"[0] != "invitation"[0];
    }
  }

  /**
   * End to end: a gate placed after the Verifier forwards a request exactly when the
   * candidate decodes without error to a valid token signed with the configured method,
   * not expired at `now`, whose `type` claim is the gate's literal.
   */
  lemma GateAfterVerify(ja: JwtAuth, parse: Parse, numberInt64: string -> int64, now: int64,
                        r: Request, aliases: seq<string>, expectedType: string, wrongTypeMessage: string)
    ensures var d := Decode(ja, parse, Candidate(r, aliases));
            var out := VerifyOutcome(ja, parse, numberInt64, now, r.ctx, Candidate(r, aliases));
            Gate(out, expectedType, wrongTypeMessage).Forward? <==>
              && d.errMessage.None?
              && d.token.Some?
              && d.token.value.valid
              && d.token.value.signingMethod == ja.signer
              && !IsExpired(d.token.value, now, numberInt64)
              && "type" in d.token.value.claims
              && d.token.value.claims["type"] == Str(expectedType)
  {
  }

  /** A request whose decode fails, or whose token is expired, is refused by the gates with the "not found" message. */
  lemma StoredErrorsAreRefused(ja: JwtAuth, parse: Parse, numberInt64: string -> int64, now: int64,
                               r: Request, aliases: seq<string>)
    requires var d := Decode(ja, parse, Candidate(r, aliases));
             d.errMessage.Some? || (d.token.Some? && IsExpired(d.token.value, now, numberInt64))
    ensures var out := VerifyOutcome(ja, parse, numberInt64, now, r.ctx, Candidate(r, aliases));
            Authenticator(out) == Respond(401, TokenNotFoundMessage)
            && AllowUserCreationFromToken(out) == Respond(401, TokenNotFoundMessage)
  {
  }
}
