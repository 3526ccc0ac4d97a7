/** Values the relying-party demo handles: the stored credential record and
    the user and session shapes it keeps, and the options and results it
    exchanges with the WebAuthn server library. Everything the library does
    inside its calls (challenge generation, CBOR/COSE decoding, signature and
    counter checks) is outside this model: its results enter as values. */
module WebAuthnTypes {

  datatype Option<+T> = None | Some(value: T)

  newtype byte = x: int | 0 <= x < 256

  /** A credential as the demo stores it: base64url id, COSE-encoded public
      key, the signature counter last accepted, and the transport hints the
      browser reported at registration (absent when it reported none). */
  datatype Credential = Credential(
    id: string,
    publicKey: seq<byte>,
    counter: nat,
    transports: Option<seq<string>>)

  /** An entry of `excludeCredentials`: `{id, type, transports}`. */
  datatype CredentialDescriptor = CredentialDescriptor(
    id: string,
    credentialType: string,
    transports: Option<seq<string>>)

  /** An entry of `allowCredentials`: `{id, transports}`. */
  datatype AllowedCredential = AllowedCredential(id: string, transports: seq<string>)

  datatype AuthenticatorSelection = AuthenticatorSelection(residentKey: string, userVerification: string)

  /** What the registration-options handler hands to the library. */
  datatype RegistrationOptionsOpts = RegistrationOptionsOpts(
    rpName: string,
    rpID: string,
    userName: string,
    timeout: nat,
    attestationType: string,
    userDisplayName: string,
    excludeCredentials: seq<CredentialDescriptor>,
    authenticatorSelection: AuthenticatorSelection)

  /** What the authentication-options handler hands to the library. */
  datatype AuthenticationOptionsOpts = AuthenticationOptionsOpts(
    timeout: nat,
    allowCredentials: seq<AllowedCredential>,
    userVerification: string,
    rpID: string)

  /** The options JSON the library generates; the handlers only read its
      freshly generated challenge, the rest is sent back unread. */
  datatype GeneratedOptions = GeneratedOptions(challenge: string, rest: seq<byte>)

  /** A registration response from the browser. The handler reads only the
      transport hints; the attestation itself is opaque to it. */
  datatype RegistrationResponse = RegistrationResponse(
    transports: Option<seq<string>>,
    attestation: seq<byte>)

  /** An authentication response from the browser. The handler reads only
      `id` and `rawId`, either of which an untyped request body may lack
      (`None`); the assertion itself is opaque to it. */
  datatype AuthenticationResponse = AuthenticationResponse(
    id: Option<string>,
    rawId: Option<string>,
    assertion: seq<byte>)

  /** What the registration handler hands to the library's verifier.
      `expectedChallenge` is `None` when the session holds no challenge. */
  datatype VerifyRegistrationOpts = VerifyRegistrationOpts(
    response: RegistrationResponse,
    expectedChallenge: Option<string>,
    expectedOrigin: string,
    expectedRPID: string,
    requireUserVerification: bool)

  /** What the authentication handler hands to the library's verifier. */
  datatype VerifyAuthenticationOpts = VerifyAuthenticationOpts(
    response: AuthenticationResponse,
    expectedChallenge: Option<string>,
    expectedOrigin: string,
    expectedRPID: string,
    credential: Credential,
    requireUserVerification: bool)

  /** The credential the registration verifier extracted. */
  datatype RegisteredCredential = RegisteredCredential(id: string, publicKey: seq<byte>, counter: nat)

  datatype RegistrationInfo = RegistrationInfo(credential: RegisteredCredential)

  datatype VerifiedRegistrationResponse = VerifiedRegistrationResponse(
    verified: bool,
    registrationInfo: Option<RegistrationInfo>)

  datatype AuthenticationInfo = AuthenticationInfo(newCounter: nat)

  datatype VerifiedAuthenticationResponse = VerifiedAuthenticationResponse(
    verified: bool,
    authenticationInfo: AuthenticationInfo)

  /** The outcome of a library call: it threw an error with a message, or it
      returned a value. */
  datatype Call<+T> = Threw(message: string) | Returned(value: T)

  /** A handler's reply: a JSON body, or a 400 status with an error message. */
  datatype Reply<+T> = Ok(body: T) | Error(message: string)
}
