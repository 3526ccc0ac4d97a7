/** Properties of sequences of requests against a freshly started server:
    how the session's challenge slot moves between the handlers, and how a
    registered credential becomes the one offered and found at sign-in. */
module Scenarios {
  import opened WebAuthnTypes
  import opened CredentialList
  import opened RelyingParty

  /** Once a registration verification has returned (verified or not), a
      replay of the response is checked against no challenge at all: the
      issued challenge is single-use. */
  method ReplayedRegistrationHasNoChallenge(
    rpName: string, rpID: string, origin: string,
    generated: GeneratedOptions, response: RegistrationResponse,
    first: VerifiedRegistrationResponse, second: Call<VerifiedRegistrationResponse>)
    returns (firstCall: VerifyRegistrationOpts, replayCall: VerifyRegistrationOpts)
    ensures firstCall.expectedChallenge == Some(generated.challenge)
    ensures replayCall.expectedChallenge == None
  {
    var server := new Server(rpName, rpID, origin);
    var session := new Session();
    var issued, sent := server.GenerateRegistrationOptions(session, generated);
    var firstReply, replayReply;
    firstCall, firstReply := server.VerifyRegistration(session, response, Returned(first));
    replayCall, replayReply := server.VerifyRegistration(session, response, second);
  }

  /** A registration verification that throws leaves the challenge in the
      session, so a retry is checked against the same challenge. */
  method ThrownVerificationKeepsChallenge(
    rpName: string, rpID: string, origin: string,
    generated: GeneratedOptions, response: RegistrationResponse,
    message: string, retry: Call<VerifiedRegistrationResponse>)
    returns (firstReply: Reply<bool>, retryCall: VerifyRegistrationOpts)
    ensures firstReply == Error(message)
    ensures retryCall.expectedChallenge == Some(generated.challenge)
  {
    var server := new Server(rpName, rpID, origin);
    var session := new Session();
    var issued, sent := server.GenerateRegistrationOptions(session, generated);
    var firstCall, retryReply;
    firstCall, firstReply := server.VerifyRegistration(session, response, Threw(message));
    retryCall, retryReply := server.VerifyRegistration(session, response, retry);
  }

  /** After a verified registration on a fresh server, sign-in options offer
      exactly the new credential, and an assertion presenting its id reaches
      the verifier with the stored record and the sign-in challenge. */
  method RegisteredCredentialIsOffered(
    rpName: string, rpID: string, origin: string,
    registrationOptions: GeneratedOptions, response: RegistrationResponse,
    info: RegistrationInfo, signInOptions: GeneratedOptions,
    assertion: AuthenticationResponse, result: Call<VerifiedAuthenticationResponse>)
    returns (opts: Option<AuthenticationOptionsOpts>, call: Option<VerifyAuthenticationOpts>)
    requires PresentedId(assertion) == Some(info.credential.id)
    ensures opts.Some? && |opts.value.allowCredentials| == 1
    ensures opts.value.allowCredentials[0].id == info.credential.id
    ensures call.Some?
    ensures call.value.credential == NewRecord(info.credential, response.transports)
    ensures call.value.expectedChallenge == Some(signInOptions.challenge)
  {
    var server := new Server(rpName, rpID, origin);
    var session := new Session();
    var issued, sent := server.GenerateRegistrationOptions(session, registrationOptions);
    var registrationCall, registrationReply := server.VerifyRegistration(
      session, response, Returned(VerifiedRegistrationResponse(true, Some(info))));
    var optionsReply, verifyReply;
    opts, optionsReply := server.GenerateAuthenticationOptions(session, signInOptions);
    call, verifyReply := server.VerifyAuthentication(session, assertion, result);
  }
}
