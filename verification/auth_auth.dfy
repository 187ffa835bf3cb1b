/** internal/platform/auth/auth.go: building an Authenticator, the single-key
    lookup function and the token header. RSA keys are opaque handles, and
    signing (jwt's SignedString) is a parameter whose result drives the branch. */
module Auth {
  import opened Wrappers
  import opened WebErrors
  import opened AuthRoles

  /** Opaque stand-ins for *rsa.PrivateKey and *rsa.PublicKey. */
  datatype PrivateKey = PrivateKey(handle: string)
  datatype PublicKey = PublicKey(handle: string)

  /** KeyLookupFunc maps a JWT key id to the corresponding public key. */
  type KeyLookupFunc = string -> Result<PublicKey, Err>

  /** jwt.Parser restricted to a list of accepted signing algorithms. */
  datatype Parser = Parser(validMethods: seq<string>)

  datatype Authenticator = Authenticator(
    privateKey: PrivateKey,
    activeKID: string,
    algorithm: string,
    publicKeyLookup: KeyLookupFunc,
    parser: Parser)

  /** The names jwt.GetSigningMethod knows (golang-jwt v4 registers these). */
  const SigningMethods: set<string> :=
    {"ES256", "ES384", "ES512", "EdDSA", "HS256", "HS384", "HS512",
     "PS256", "PS384", "PS512", "RS256", "RS384", "RS512", "none"}

  /** `%q` formatting of a key id (escape sequences are not modelled). */
  function Quote(s: string): string { "\"" + s + "\"" }

  /** NewSimpleKeyLookupFunc: a lookup that knows exactly one key. */
  function NewSimpleKeyLookupFunc(activeKID: string, publicKey: PublicKey): (f: KeyLookupFunc)
    ensures forall kid :: f(kid).Success? <==> kid == activeKID
    ensures forall kid :: f(kid).Success? ==> f(kid).value == publicKey
    ensures forall kid :: f(kid).Failure? ==> f(kid).error == Plain("unrecognized key id " + Quote(kid))
  {
    kid => if activeKID != kid then Failure(Plain("unrecognized key id " + Quote(kid))) else Success(publicKey)
  }

  const ErrNilPrivateKey: Err := Plain("private key cannot be nil")
  const ErrBlankKID: Err := Plain("acitiveKID cannot be blank")
  const ErrNilLookup: Err := Plain("publickKeyLookUpFunc key cannot be nil")

  function ErrUnknownAlgorithm(algorithm: string): Err
  {
    Plain("unknown algorithm " + algorithm)
  }

  /** The authenticators NewAuthenticator can return: a key id that is not
      blank, an algorithm jwt knows, and a parser that accepts only it. */
  predicate Built(a: Authenticator)
  {
    a.activeKID != "" && a.algorithm in SigningMethods && a.parser.validMethods == [a.algorithm]
  }

  /** NewAuthenticator: a nil private key, a blank key id, an algorithm jwt does
      not know and a nil lookup function are rejected, checked in that order so
      that the first one that fails is reported. `None` stands for nil. */
  function NewAuthenticator(
    privateKey: Option<PrivateKey>,
    activeKID: string,
    algorithm: string,
    lookup: Option<KeyLookupFunc>): (r: Result<Authenticator, Err>)
    ensures r.Success? <==>
      privateKey.Some? && activeKID != "" && algorithm in SigningMethods && lookup.Some?
    ensures privateKey.None? ==> r == Failure(ErrNilPrivateKey)
    ensures privateKey.Some? && activeKID == "" ==> r == Failure(ErrBlankKID)
    ensures privateKey.Some? && activeKID != "" && algorithm !in SigningMethods ==>
      r == Failure(ErrUnknownAlgorithm(algorithm))
    ensures privateKey.Some? && activeKID != "" && algorithm in SigningMethods && lookup.None? ==>
      r == Failure(ErrNilLookup)
    ensures r.Success? ==>
      r.value.privateKey == privateKey.value && r.value.activeKID == activeKID &&
      r.value.algorithm == algorithm && r.value.publicKeyLookup == lookup.value &&
      r.value.parser.validMethods == [algorithm]
    ensures r.Success? ==> Built(r.value)
  {
    if privateKey.None? then Failure(ErrNilPrivateKey)
    else if activeKID == "" then Failure(ErrBlankKID)
    else if algorithm !in SigningMethods then Failure(ErrUnknownAlgorithm(algorithm))
    else if lookup.None? then Failure(ErrNilLookup)
    else Success(Authenticator(privateKey.value, activeKID, algorithm, lookup.value, Parser([algorithm])))
  }

  /** A jwt.Token before signing: its signing method, header and claims. */
  datatype UnsignedToken = UnsignedToken(signingMethod: string, header: map<string, string>, claims: Claims)

  /** jwt's SignedString: outside this model, it is given as a function. */
  type Signer = (UnsignedToken, PrivateKey) -> Result<string, Err>

  /** jwt.NewWithClaims followed by setting the `kid` header: the token names
      the active key id (section 4.1.4 of RFC 7515) and the configured algorithm. */
  function NewToken(a: Authenticator, claims: Claims): (t: UnsignedToken)
    ensures t.signingMethod == a.algorithm && t.claims == claims
    ensures t.header.Keys == {"typ", "alg", "kid"}
    ensures t.header["kid"] == a.activeKID && t.header["alg"] == a.algorithm && t.header["typ"] == "JWT"
  {
    UnsignedToken(a.algorithm, map["typ" := "JWT", "alg" := a.algorithm]["kid" := a.activeKID], claims)
  }

  /** GenerateToken: signs the token with the private key; a signing failure is
      wrapped with "signing token". */
  function GenerateToken(a: Authenticator, claims: Claims, sign: Signer): (r: Result<string, Err>)
    ensures sign(NewToken(a, claims), a.privateKey).Success? <==> r.Success?
    ensures r.Success? ==> r.value == sign(NewToken(a, claims), a.privateKey).value
    ensures r.Failure? ==> r.error == Wrapped("signing token", sign(NewToken(a, claims), a.privateKey).error)
  {
    match sign(NewToken(a, claims), a.privateKey)
    case Success(s) => Success(s)
    case Failure(e) => Failure(Wrapped("signing token", e))
  }

  /** The simple lookup of a successfully built authenticator finds exactly the
      active key. */
  lemma SimpleLookupRoundTrip(key: PrivateKey, kid: string, algorithm: string, pub: PublicKey, probe: string)
    requires kid != "" && algorithm in SigningMethods
    ensures var r := NewAuthenticator(Some(key), kid, algorithm, Some(NewSimpleKeyLookupFunc(kid, pub)));
      r.Success? && (r.value.publicKeyLookup(probe) == Success(pub) <==> probe == kid)
  {
  }
}
