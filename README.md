# Passkey demo relying party: credential table and challenge slot

This project models the state logic of a small WebAuthn relying-party demo
server. The server has four route handlers:

- `/generate-registration-options`
- `/verify-registration`
- `/generate-authentication-options`
- `/verify-authentication`

Between them they keep two pieces of state. One is the credential list of the
single logged-in user in the in-memory database. The other is the
`currentChallenge` slot of each browser session.

All cryptography and binary decoding live in the WebAuthn server library. This
includes challenge generation, attestation and assertion verification, and
counter checks. The model treats every library call as an oracle. A handler
takes the library's result as a parameter: for the verifiers, a thrown error or
a returned value. Each handler also returns the options it would hand to the
library, or `None` when it does not call it. That way the contracts can say
what the library is asked, and when it is not asked at all.

Files:

- `types.dfy` (module `WebAuthnTypes`): the stored credential, the options and
  responses, the library's results, and the handler replies.
- `credentials.dfy` (module `CredentialList`): pure functions over the
  credential list. They cover lookup by id (the `.find`), the registration
  append, the counter update, and `excludeCredentials`/`allowCredentials`. It
  also holds the lemmas that keep credential ids unique.
- `server.dfy` (module `RelyingParty`): classes `LoggedInUser` (the user
  record, whose credential list is updated in place) and `Session` (the
  challenge slot). Class `Server` holds the configuration constants and the
  user, with one method per handler and the search loop.
- `scenarios.dfy` (module `Scenarios`): properties of request sequences on a
  freshly started server.

Invariant: `Server.Valid()` says the user's credential ids are unique. Every
handler preserves it.

Challenge slot, as the code behaves:

- Issuing options overwrites the slot.
- A verifier that throws leaves the slot as it was.
- A verifier that returns clears the slot, whether or not it verified.
- An unknown credential id at authentication leaves the slot as it was.

A general design for such a challenge manager would clear the slot on every
outcome. This model follows the code, where a thrown verification keeps the
challenge, so the browser can retry.

The registration handler always replies `{verified: true}` once the verifier
has returned, even when it returned `verified: false`. In that case nothing is
stored. The model keeps this behaviour as written.

## Model

| member | source | states |
|---|---|---|
| CredentialList.FirstWithId | server.ts:116-118 | the result is `None` exactly when no stored credential has the id; otherwise it is an index holding that id, and no earlier credential has it |
| CredentialList.MatchPresented | server.ts:163-169 | a presented id that is missing matches nothing; otherwise the result is the first position holding that id, and `None` exactly when no credential has it |
| CredentialList.NewRecord | server.ts:120-125 | the stored record takes id, public key and counter from the verifier's credential and transports from the browser's request |
| RelyingParty.PresentedId | server.ts:158 | `rawId || id`: `rawId` when it is present and not empty, otherwise `id`; the result is missing only when `id` is |
| CredentialList.Registered | server.ts:113-127 | afterwards the id is stored; if it was already stored, the list is unchanged; otherwise the record is appended after the untouched old list |
| CredentialList.RegisteredKeepsIdsUnique | server.ts:116-126 | registration never creates a duplicate id, so unique ids stay unique |
| CredentialList.RegisteredIdempotent | server.ts:116-119 | registering an already stored id a second time leaves the list unchanged, whatever the rest of the second record is |
| CredentialList.WithCounter | server.ts:191-193 | a counter update sets the matched credential's counter to the new value; its id, public key and transports are kept, and every other credential is unchanged |
| CredentialList.WithCounterKeepsIdsUnique | server.ts:191-193 | a counter update keeps credential ids unique |
| CredentialList.UniqueIdsLookupIsOnlyMatch | server.ts:163-168 | with unique ids, the lookup of a stored credential's id finds exactly that credential |
| CredentialList.ExcludeCredentials | server.ts:73-77 | `excludeCredentials` has one entry per credential, in order, with the same id and transports and type "public-key" |
| CredentialList.ExcludedIdsAreStored | server.ts:73-77 | an id appears in `excludeCredentials` exactly when it is stored |
| CredentialList.AllowCredentials | server.ts:141-146 | `allowCredentials` has exactly one entry: the first credential's id, with transports ["internal"] |
| CredentialList.AllowedCredentialIsFound | server.ts:141-146 | the offered id is found at position 0 by the authentication lookup |
| RelyingParty.Server.constructor | server.ts:49-61 | the server starts with the fixed user id, username "user@" + rpID, and no credentials |
| RelyingParty.Server.FindCredential | server.ts:162-168 | the search loop with `break` returns the position of the first credential whose id equals the presented one, or `None`; a missing presented id matches nothing |
| RelyingParty.Server.GenerateRegistrationOptions | server.ts:63-87 | it asks the library for options built from the stored credentials (`excludeCredentials`, timeout 60000, attestation "none", user verification "required"); the generated challenge overwrites the session's slot; credentials are unchanged |
| RelyingParty.Server.VerifyRegistration | server.ts:90-131 | the verifier is asked with the session's challenge and user verification required; if it throws, the reply is the error and neither credentials nor challenge change; otherwise the challenge is cleared, the reply is `verified: true`, and a verified result with registration info is stored unless its id already is; the stored record takes id, key and counter from the result and transports from the request |
| RelyingParty.Server.GenerateAuthenticationOptions | server.ts:132-153 | with no credentials, the reply is an error, the library is not called and the challenge is untouched; otherwise it offers the first credential and the generated challenge goes into the session |
| RelyingParty.Server.VerifyAuthentication | server.ts:154-196 | it looks up `rawId || id`; if there is no match (including when both are missing), the reply is an error, the verifier is not called and nothing changes; otherwise the matched credential is the only one with that id, and the verifier gets it and the session's challenge; a throw changes nothing; after a return the challenge is cleared, and if verified only the matched credential's counter becomes `newCounter` |
| Scenarios.ReplayedRegistrationHasNoChallenge | server.ts:85-129 | once a registration verification returns, a replayed response is checked against no challenge |
| Scenarios.ThrownVerificationKeepsChallenge | server.ts:94-110 | after a verifier throws, a retry is checked against the same issued challenge |
| Scenarios.RegisteredCredentialIsOffered | server.ts:113-184 | after a verified registration on a fresh server, sign-in options offer exactly the new credential's id; an assertion presenting that id reaches the verifier with the stored record and the sign-in challenge |

## Left out

- HTTP plumbing is not modelled (server.ts:1-48, 198-200). This covers Express, CORS, JSON parsing, the session middleware and its memory store, and `app.listen`. The model takes a `Session` object per request instead.
- The library's internals are not modelled: option generation, random challenges, registration and authentication verification. Their results enter as parameters, so the model claims nothing about signatures, origin or RP ID checks, challenge matching or counter monotonicity. The demo assigns whatever `newCounter` the library returns.
- A library call that rejects during options generation is not modelled. The handler does not catch it, so no handler outcome is defined for it.
- Logging, HTTP status codes and the exact JSON bodies are not modelled. A reply is either `Ok` with its body or `Error` with its message.
- The request's `username` is ignored by the source, and so it is not modelled.
- The in-memory database maps the fixed user id to one user record. The model keeps that record as a constant field of the server. The `!user` test at server.ts:134 can never succeed, so it is not modelled.
- Concurrency between requests is not modelled. Each handler runs to completion on the shared user record and its own session.
- Credential records are objects in the source, and the counter is assigned through a reference to the list element. The model replaces the element at the matched position instead. This gives the same list, because the handler holds no other reference after it returns.
- The request body is untyped, so `id` and `rawId` may be missing. The model writes a missing field as `None`. A missing or empty `rawId` falls back to `id`. When both are missing, the presented id is missing and matches no stored credential, as `undefined` does in the source. Other non-string values of these fields are not modelled.
- Counters are unbounded naturals. JavaScript numbers lose precision above 2^53, which the model does not reproduce.
