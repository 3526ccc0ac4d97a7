/** The four route handlers of the demo relying party, as methods that change
    the one user record and the caller's session. The library calls they make
    are oracles: each handler takes the library's result as a parameter and
    returns the options it hands to the library, or `None` when it does not
    call it. */
module RelyingParty {
  import opened WebAuthnTypes
  import opened CredentialList

  const LoggedInUserId := "internalUserId"
  const RegistrationTimeout := 60000
  const AuthenticationTimeout := 60000
  const NoCredentialsMessage := "No credentials found for user"
  const NotRegisteredMessage := "Authenticator is not registered with this site"

  /** The id the browser presents, `rawId || id`: `rawId` when it is present
      and not empty, otherwise `id`, which may itself be missing. */
  function PresentedId(response: AuthenticationResponse): (r: Option<string>)
    ensures response.rawId.Some? && response.rawId.value != "" ==> r == response.rawId
    ensures response.rawId.None? || response.rawId.value == "" ==> r == response.id
    ensures r.None? ==> response.id.None?
  {
    if response.rawId.Some? && response.rawId.value != "" then response.rawId else response.id
  }

  /** The user record; its credential list grows on registration and its
      counters change on authentication. */
  class LoggedInUser {
    const id: string
    const username: string
    var credentials: seq<Credential>

    constructor (id: string, username: string)
      ensures this.id == id && this.username == username && credentials == []
    {
      this.id := id;
      this.username := username;
      credentials := [];
    }
  }

  /** A browser session; it holds the challenge last issued to it. */
  class Session {
    var currentChallenge: Option<string>

    constructor ()
      ensures currentChallenge == None
    {
      currentChallenge := None;
    }
  }

  /** The relying party: its fixed configuration and the in-memory user
      database, which holds the single logged-in user. */
  class Server {
    const rpName: string
    const rpID: string
    const origin: string
    const user: LoggedInUser

    /** The user's credential ids are unique. */
    ghost predicate Valid()
      reads this, user
    {
      UniqueIds(user.credentials)
    }

    constructor (rpName: string, rpID: string, origin: string)
      ensures Valid() && fresh(user)
      ensures this.rpName == rpName && this.rpID == rpID && this.origin == origin
      ensures user.id == LoggedInUserId && user.username == "user@" + rpID
      ensures user.credentials == []
    {
      this.rpName := rpName;
      this.rpID := rpID;
      this.origin := origin;
      user := new LoggedInUser(LoggedInUserId, "user@" + rpID);
    }

    /** The search loop of the authentication handler: the position of the
        first stored credential with the presented id. */
    method FindCredential(credentialID: Option<string>) returns (found: Option<nat>)
      ensures found == MatchPresented(user.credentials, credentialID)
    {
      var creds := user.credentials;
      found := None;
      var i := 0;
      while i < |creds|
        invariant 0 <= i <= |creds|
        invariant forall j :: 0 <= j < i ==> Some(creds[j].id) != credentialID
      {
        if Some(creds[i].id) == credentialID {
          found := Some(i);
          break;
        }
        i := i + 1;
      }
    }

    /** GET /generate-registration-options: builds the options from the
        stored credentials, and the challenge the library generated becomes
        the session's challenge, replacing any earlier one. */
    method GenerateRegistrationOptions(session: Session, generated: GeneratedOptions)
      returns (opts: RegistrationOptionsOpts, reply: GeneratedOptions)
      requires Valid()
      modifies session
      ensures Valid()
      ensures opts == RegistrationOptionsOpts(
        rpName, rpID, user.username, RegistrationTimeout, "none", user.username,
        ExcludeCredentials(user.credentials), AuthenticatorSelection("preferred", "required"))
      ensures session.currentChallenge == Some(generated.challenge)
      ensures reply == generated
      ensures user.credentials == old(user.credentials)
    {
      var username := user.username;
      opts := RegistrationOptionsOpts(
        rpName, rpID, username, RegistrationTimeout, "none", username,
        ExcludeCredentials(user.credentials), AuthenticatorSelection("preferred", "required"));
      session.currentChallenge := Some(generated.challenge);
      reply := generated;
    }

    /** POST /verify-registration. The verifier is called with the session's
        challenge. When it throws, the reply is the error and nothing changes.
        Otherwise the challenge is cleared, the reply is `{verified: true}`
        whatever the verifier said, and a verified credential with
        registration info is stored unless its id already is. */
    method VerifyRegistration(
      session: Session,
      response: RegistrationResponse,
      result: Call<VerifiedRegistrationResponse>)
      returns (call: VerifyRegistrationOpts, reply: Reply<bool>)
      requires Valid()
      modifies user, session
      ensures Valid()
      ensures call == VerifyRegistrationOpts(response, old(session.currentChallenge), origin, rpID, true)
      ensures result.Threw? ==>
        && reply == Error(result.message)
        && user.credentials == old(user.credentials)
        && session.currentChallenge == old(session.currentChallenge)
      ensures result.Returned? ==>
        && reply == Ok(true)
        && session.currentChallenge == None
        && user.credentials ==
             if result.value.verified && result.value.registrationInfo.Some? then
               Registered(old(user.credentials),
                          NewRecord(result.value.registrationInfo.value.credential, response.transports))
             else old(user.credentials)
    {
      call := VerifyRegistrationOpts(response, session.currentChallenge, origin, rpID, true);
      match result
      case Threw(message) =>
        reply := Error(message);
        return;
      case Returned(verification) =>
        if verification.verified && verification.registrationInfo.Some? {
          var credential := verification.registrationInfo.value.credential;
          if FirstWithId(user.credentials, credential.id).None? {
            var record := NewRecord(credential, response.transports);
            RegisteredKeepsIdsUnique(user.credentials, record);
            user.credentials := user.credentials + [record];
          }
        }
        session.currentChallenge := None;
        reply := Ok(true);
    }

    /** GET /generate-authentication-options. With no stored credential the
        reply is an error and the session is untouched; otherwise the first
        credential is offered and the generated challenge becomes the
        session's challenge. */
    method GenerateAuthenticationOptions(session: Session, generated: GeneratedOptions)
      returns (opts: Option<AuthenticationOptionsOpts>, reply: Reply<GeneratedOptions>)
      requires Valid()
      modifies session
      ensures Valid()
      ensures user.credentials == old(user.credentials)
      ensures |user.credentials| == 0 ==>
        && opts == None
        && reply == Error(NoCredentialsMessage)
        && session.currentChallenge == old(session.currentChallenge)
      ensures |user.credentials| > 0 ==>
        && opts == Some(AuthenticationOptionsOpts(
             AuthenticationTimeout, AllowCredentials(user.credentials), "preferred", rpID))
        && reply == Ok(generated)
        && session.currentChallenge == Some(generated.challenge)
    {
      if |user.credentials| == 0 {
        opts := None;
        reply := Error(NoCredentialsMessage);
        return;
      }
      opts := Some(AuthenticationOptionsOpts(
        AuthenticationTimeout, AllowCredentials(user.credentials), "preferred", rpID));
      session.currentChallenge := Some(generated.challenge);
      reply := Ok(generated);
    }

    /** POST /verify-authentication. An unknown presented id is an error
        before the verifier is called, and nothing changes. The verifier is
        called with the session's challenge and the matched credential; when
        it throws, the reply is the error and nothing changes. Otherwise the
        challenge is cleared, the reply carries `verified`, and a verified
        assertion sets the matched credential's counter and nothing else. */
    method VerifyAuthentication(
      session: Session,
      response: AuthenticationResponse,
      result: Call<VerifiedAuthenticationResponse>)
      returns (call: Option<VerifyAuthenticationOpts>, reply: Reply<bool>)
      requires Valid()
      modifies user, session
      ensures Valid()
      ensures MatchPresented(old(user.credentials), PresentedId(response)).None? ==>
        && call == None
        && reply == Error(NotRegisteredMessage)
        && user.credentials == old(user.credentials)
        && session.currentChallenge == old(session.currentChallenge)
      ensures MatchPresented(old(user.credentials), PresentedId(response)).Some? ==>
        var k := MatchPresented(old(user.credentials), PresentedId(response)).value;
        && (forall j :: 0 <= j < |old(user.credentials)| && Some(old(user.credentials)[j].id) == PresentedId(response) ==> j == k)
        && call == Some(VerifyAuthenticationOpts(
             response, old(session.currentChallenge), origin, rpID, old(user.credentials)[k], false))
        && (result.Threw? ==>
              && reply == Error(result.message)
              && user.credentials == old(user.credentials)
              && session.currentChallenge == old(session.currentChallenge))
        && (result.Returned? ==>
              && reply == Ok(result.value.verified)
              && session.currentChallenge == None
              && user.credentials ==
                   if result.value.verified
                   then WithCounter(old(user.credentials), k, result.value.authenticationInfo.newCounter)
                   else old(user.credentials))
    {
      var credentialID := PresentedId(response);
      var expectedChallenge := session.currentChallenge;
      var found := FindCredential(credentialID);
      if found.None? {
        call := None;
        reply := Error(NotRegisteredMessage);
        return;
      }
      var k := found.value;
      UniqueIdsLookupIsOnlyMatch(user.credentials, k);
      call := Some(VerifyAuthenticationOpts(
        response, expectedChallenge, origin, rpID, user.credentials[k], false));
      match result
      case Threw(message) =>
        reply := Error(message);
        return;
      case Returned(verification) =>
        if verification.verified {
          WithCounterKeepsIdsUnique(user.credentials, k, verification.authenticationInfo.newCounter);
          user.credentials := user.credentials[k := user.credentials[k].(counter := verification.authenticationInfo.newCounter)];
        }
        session.currentChallenge := None;
        reply := Ok(verification.verified);
    }
  }
}
