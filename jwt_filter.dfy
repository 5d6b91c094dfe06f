/**
 * The bearer-token authentication filter of the hobby backend
 * (`JwtFilter.doFilterInternal`).
 *
 * One object of class `JwtFilter` stands for the state one request sees: the
 * security context's authentication slot, the number of times the request was
 * handed on to the rest of the filter chain, and the warning/error lines the
 * filter logged. The JWT codec, the user-details service and the token
 * re-validation are collaborators whose code is not part of this model: they are
 * passed in as functions whose answer is either a value or a thrown exception.
 */
module Filter {
  import opened Wrappers

  /** The header scheme the filter accepts, matched case-sensitively with one space. */
  const Prefix: string := "Bearer "

  /** The longest token fragment a signature failure writes to the log. */
  const FragmentLength: nat := 20

  /** The exception classes the filter distinguishes in its catch clauses. */
  datatype ExceptionKind = SignatureError | ExpiredJwt | MalformedJwt | OtherError

  datatype JavaException = JavaException(kind: ExceptionKind, message: string)

  /** The answer of a collaborator call: a returned value or a thrown exception. */
  datatype Call<+T> = Returns(value: T) | Throws(exception: JavaException)

  /** The `UserDetails` the user-details service loads. */
  datatype UserDetails = UserDetails(username: string, password: string, authorities: seq<string>)

  /**
   * The `UsernamePasswordAuthenticationToken` put into the security context: the
   * principal and that principal's authorities (the credentials are null).
   */
  datatype Authentication = Authentication(principal: UserDetails, authorities: seq<string>)

  /** The warning and error lines of the filter (its debug lines are not modelled). */
  datatype Diagnostic =
    | InvalidSignature(fragment: string)
    | TokenExpired
    | TokenMalformed
    | TokenParseError(message: string)
    | ValidationFailed(userName: string)
    | AuthenticationError(message: string)

  /** `getUsernameFromToken`: a username (None for a null one) or an exception. */
  type Decoder = string -> Call<Option<string>>
  /** `loadUserByUsername`: the user's details or an exception. */
  type UserLoader = string -> Call<UserDetails>
  /** `validateToken(token, userDetails)`. */
  type Validator = (string, UserDetails) -> Call<bool>

  function Min(a: nat, b: nat): nat { if a < b then a else b }

  /**
   * The token carried by an `Authorization` header: present exactly when the
   * header is present and starts with "Bearer ", and then the header is that
   * prefix followed by the token.
   */
  function ExtractToken(authorization: Option<string>): (token: Option<string>)
    ensures token.Some? <==> authorization.Some? && Prefix <= authorization.value
    ensures token.Some? ==> authorization.value == Prefix + token.value
  {
    if authorization.Some? && |authorization.value| >= 7 && authorization.value[..7] == Prefix
    then Some(authorization.value[7..])
    else None
  }

  /**
   * What a signature failure logs of the token: its first characters, at most
   * twenty of them, followed by "...".
   */
  function TokenFragment(token: string): (fragment: string)
    ensures |fragment| == Min(FragmentLength, |token|) + 3
    ensures fragment[..|fragment| - 3] <= token
    ensures fragment[|fragment| - 3..] == "..."
    ensures |token| <= FragmentLength ==> fragment == token + "..."
  {
    token[..Min(FragmentLength, |token|)] + "..."
  }

  /** The line logged when decoding the token threw `e`, following the order of the catch clauses. */
  function DecodeDiagnostic(e: JavaException, token: string): Diagnostic
  {
    match e.kind
    case SignatureError => InvalidSignature(TokenFragment(token))
    case ExpiredJwt => TokenExpired
    case MalformedJwt => TokenMalformed
    case OtherError => TokenParseError(e.message)
  }

  /** The authentication slot and the lines logged after one run of the filter. */
  datatype Outcome = Outcome(auth: Option<Authentication>, logged: seq<Diagnostic>)

  /**
   * The decision the filter takes for one request, given the slot's value
   * before it runs, the header, and the collaborators' answers.
   */
  function FilterOutcome(auth: Option<Authentication>, authorization: Option<string>,
                         decode: Decoder, loadUser: UserLoader, validate: Validator): Outcome
  {
    match ExtractToken(authorization)
    case None => Outcome(auth, [])
    case Some(token) =>
      match decode(token)
      case Throws(e) => Outcome(auth, [DecodeDiagnostic(e, token)])
      case Returns(None) => Outcome(auth, [])
      case Returns(Some(userName)) =>
        if auth.Some? then Outcome(auth, [])
        else
          match loadUser(userName)
          case Throws(e) => Outcome(auth, [AuthenticationError(e.message)])
          case Returns(user) =>
            match validate(token, user)
            case Throws(e) => Outcome(auth, [AuthenticationError(e.message)])
            case Returns(true) => Outcome(Some(Authentication(user, user.authorities)), [])
            case Returns(false) => Outcome(auth, [ValidationFailed(userName)])
  }

  /** All four conditions under which the filter authenticates: a bearer token, a decoded username, a loaded user, a valid token. */
  ghost predicate Authenticates(authorization: Option<string>, decode: Decoder,
                                loadUser: UserLoader, validate: Validator)
  {
    exists token, userName, user ::
      && ExtractToken(authorization) == Some(token)
      && decode(token) == Returns(Some(userName))
      && loadUser(userName) == Returns(user)
      && validate(token, user) == Returns(true)
  }

  class JwtFilter {
    /** `SecurityContextHolder.getContext().getAuthentication()`; None is null. */
    var auth: Option<Authentication>
    /** How many times `filterChain.doFilter` was called for this request. */
    var forwarded: nat
    /** The warning and error lines logged so far. */
    var log: seq<Diagnostic>
    /** The slot as each downstream stage found it when the request was handed on. */
    var seenBy: seq<Option<Authentication>>

    constructor (initial: Option<Authentication>)
      ensures auth == initial && forwarded == 0 && log == [] && seenBy == []
    {
      auth := initial;
      forwarded := 0;
      log := [];
      seenBy := [];
    }

    /** `filterChain.doFilter(request, response)`: the rest of the chain sees the slot as it is now. */
    method Forward()
      modifies this
      ensures forwarded == old(forwarded) + 1
      ensures seenBy == old(seenBy) + [old(auth)]
      ensures auth == old(auth) && log == old(log)
    {
      forwarded := forwarded + 1;
      seenBy := seenBy + [auth];
    }

    /**
     * One run of the filter. Whatever the header and the collaborators' answers,
     * the request is forwarded exactly once, nothing is raised to the caller, the
     * slot and the log change as `FilterOutcome` says, and the slot is already in
     * its final state when the rest of the chain sees it.
     */
    method DoFilterInternal(authorization: Option<string>, decode: Decoder,
                            loadUser: UserLoader, validate: Validator)
      modifies this
      ensures forwarded == old(forwarded) + 1
      ensures seenBy == old(seenBy) + [FilterOutcome(old(auth), authorization, decode, loadUser, validate).auth]
      ensures auth == FilterOutcome(old(auth), authorization, decode, loadUser, validate).auth
      ensures log == old(log) + FilterOutcome(old(auth), authorization, decode, loadUser, validate).logged
    {
      var token: Option<string> := None;
      var userName: Option<string> := None;

      if authorization.Some? && |authorization.value| >= 7 && authorization.value[..7] == Prefix {
        token := Some(authorization.value[7..]);
        match decode(token.value)
        case Returns(name) =>
          userName := name;
        case Throws(e) =>
          log := log + [DecodeDiagnostic(e, token.value)];
          Forward();
          return;
      }

      if userName.Some? && auth.None? {
        match loadUser(userName.value)
        case Throws(e) =>
          log := log + [AuthenticationError(e.message)];
        case Returns(user) =>
          match validate(token.value, user)
          case Returns(true) =>
            auth := Some(Authentication(user, user.authorities));
          case Returns(false) =>
            log := log + [ValidationFailed(userName.value)];
          case Throws(e) =>
            log := log + [AuthenticationError(e.message)];
      }

      Forward();
    }
  }

  /** A header prefixed with "Bearer " yields back exactly the token that follows the prefix. */
  lemma ExtractTokenOfBearer(token: string)
    ensures ExtractToken(Some(Prefix + token)) == Some(token)
  {
    assert (Prefix + token)[..7] == Prefix;
    assert (Prefix + token)[7..] == token;
  }

  /** The prefix match is case-sensitive and takes exactly one space. */
  lemma PrefixIsStrict()
    ensures ExtractToken(Some("bearer abc")) == None
    ensures ExtractToken(Some("Bearer")) == None
    ensures ExtractToken(Some("Bearer  abc")) == Some(" abc")
  {
    assert "bearer abc"[..7] != Prefix by { assert "bearer abc"[0] != Prefix[0]; }
    assert "Bearer  abc"[..7] == Prefix;
  }

  /**
   * Without a bearer header nothing is decoded: the outcome does not depend on
   * any collaborator, the slot is unchanged and nothing is logged.
   */
  lemma NoBearerHeaderIgnoresCollaborators(auth: Option<Authentication>, authorization: Option<string>,
                                          decode: Decoder, loadUser: UserLoader, validate: Validator,
                                          decode': Decoder, loadUser': UserLoader, validate': Validator)
    requires authorization.None? || !(Prefix <= authorization.value)
    ensures FilterOutcome(auth, authorization, decode, loadUser, validate)
         == FilterOutcome(auth, authorization, decode', loadUser', validate')
         == Outcome(auth, [])
  {
  }

  /**
   * A failure to decode the token leaves the slot unchanged, logs one line for
   * the exception, and consults neither the user-details service nor the validator.
   */
  lemma DecodeFailureKeepsSlot(auth: Option<Authentication>, authorization: Option<string>,
                               decode: Decoder, loadUser: UserLoader, validate: Validator,
                               loadUser': UserLoader, validate': Validator, token: string)
    requires ExtractToken(authorization) == Some(token) && decode(token).Throws?
    ensures FilterOutcome(auth, authorization, decode, loadUser, validate)
         == FilterOutcome(auth, authorization, decode, loadUser', validate')
         == Outcome(auth, [DecodeDiagnostic(decode(token).exception, token)])
  {
  }

  /** A signature failure logs the token's fragment of at most twenty characters. */
  lemma SignatureFailureLogsFragment(auth: Option<Authentication>, authorization: Option<string>,
                                     decode: Decoder, loadUser: UserLoader, validate: Validator, token: string)
    requires ExtractToken(authorization) == Some(token)
    requires decode(token).Throws? && decode(token).exception.kind == SignatureError
    ensures FilterOutcome(auth, authorization, decode, loadUser, validate).logged
         == [InvalidSignature(token[..Min(FragmentLength, |token|)] + "...")]
  {
  }

  /** An authentication already in the slot is never overwritten. */
  lemma PresetSlotIsKept(auth: Option<Authentication>, authorization: Option<string>,
                         decode: Decoder, loadUser: UserLoader, validate: Validator)
    requires auth.Some?
    ensures FilterOutcome(auth, authorization, decode, loadUser, validate).auth == auth
  {
  }

  /**
   * When the user cannot be loaded, or the token does not validate against the
   * loaded user (false or an exception), the slot stays empty.
   */
  lemma LookupOrValidationFailureKeepsSlotEmpty(authorization: Option<string>, decode: Decoder,
                                                loadUser: UserLoader, validate: Validator,
                                                token: string, userName: string)
    requires ExtractToken(authorization) == Some(token)
    requires decode(token) == Returns(Some(userName))
    requires loadUser(userName).Throws? || validate(token, loadUser(userName).value) != Returns(true)
    ensures FilterOutcome(None, authorization, decode, loadUser, validate).auth == None
  {
  }

  /**
   * The slot changes exactly when it was empty and all four checks pass; it is
   * then set to the loaded user with that user's authorities.
   */
  lemma SlotChangesExactlyWhenAuthenticated(auth: Option<Authentication>, authorization: Option<string>,
                                                               decode: Decoder, loadUser: UserLoader, validate: Validator)
    ensures FilterOutcome(auth, authorization, decode, loadUser, validate).auth != auth
        <==> auth.None? && Authenticates(authorization, decode, loadUser, validate)
  {
    var outcome := FilterOutcome(auth, authorization, decode, loadUser, validate);
    if outcome.auth != auth {
      var token := ExtractToken(authorization).value;
      var userName := decode(token).value.value;
      var user := loadUser(userName).value;
      assert validate(token, user) == Returns(true);
    }
  }

  lemma SlotIsSetToLoadedUser(authorization: Option<string>, decode: Decoder, loadUser: UserLoader,
                              validate: Validator, token: string, userName: string, user: UserDetails)
    requires ExtractToken(authorization) == Some(token)
    requires decode(token) == Returns(Some(userName))
    requires loadUser(userName) == Returns(user)
    requires validate(token, user) == Returns(true)
    ensures FilterOutcome(None, authorization, decode, loadUser, validate)
         == Outcome(Some(Authentication(user, user.authorities)), [])
  {
  }

  /**
   * The end-to-end case: "Bearer aaa.bbb.ccc" naming alice, who exists with the
   * USER authority and whose token validates, authenticates alice with ["USER"].
   */
  lemma AliceIsAuthenticated(decode: Decoder, loadUser: UserLoader, validate: Validator)
    requires decode("aaa.bbb.ccc") == Returns(Some("alice"))
    requires loadUser("alice") == Returns(UserDetails("alice", "hash", ["USER"]))
    requires validate("aaa.bbb.ccc", UserDetails("alice", "hash", ["USER"])) == Returns(true)
    ensures FilterOutcome(None, Some("Bearer aaa.bbb.ccc"), decode, loadUser, validate).auth
         == Some(Authentication(UserDetails("alice", "hash", ["USER"]), ["USER"]))
  {
    ExtractTokenOfBearer("aaa.bbb.ccc");
  }
}
