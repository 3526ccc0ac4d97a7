/** The pure operations on a user's credential list: lookup by id, the
    registration update, the counter update, and the two descriptor lists
    sent to the browser, with the facts that keep credential ids unique. */
module CredentialList {
  import opened WebAuthnTypes

  /** No two stored credentials share an id. */
  ghost predicate UniqueIds(creds: seq<Credential>)
  {
    forall i, j :: 0 <= i < j < |creds| ==> creds[i].id != creds[j].id
  }

  /** Some stored credential has id `id`. */
  ghost predicate HasId(creds: seq<Credential>, id: string)
  {
    exists i :: 0 <= i < |creds| && creds[i].id == id
  }

  /** The position of the first credential whose id is `id`, if any. */
  function FirstWithId(creds: seq<Credential>, id: string): (r: Option<nat>)
    ensures r.None? <==> !HasId(creds, id)
    ensures r.Some? ==> r.value < |creds| && creds[r.value].id == id
    ensures r.Some? ==> forall j :: 0 <= j < r.value ==> creds[j].id != id
  {
    if |creds| == 0 then None
    else if creds[0].id == id then Some(0)
    else
      match FirstWithId(creds[1..], id)
      case None => None
      case Some(k) => Some(k + 1)
  }

  /** The lookup of a presented id that may be missing: a missing id
      (`undefined`) equals no stored id, so it matches nothing. */
  function MatchPresented(creds: seq<Credential>, id: Option<string>): (r: Option<nat>)
    ensures r.None? <==> id.None? || !HasId(creds, id.value)
    ensures r.Some? ==> r.value < |creds| && Some(creds[r.value].id) == id
    ensures r.Some? ==> forall j :: 0 <= j < r.value ==> Some(creds[j].id) != id
  {
    match id
    case None => None
    case Some(s) => FirstWithId(creds, s)
  }

  /** The record stored for a newly registered credential: id, public key
      and counter from the verifier, transports from the browser's request. */
  function NewRecord(c: RegisteredCredential, transports: Option<seq<string>>): (r: Credential)
    ensures r.id == c.id && r.publicKey == c.publicKey && r.counter == c.counter
    ensures r.transports == transports
  {
    Credential(c.id, c.publicKey, c.counter, transports)
  }

  /** The list after registering `record`: it is appended when no stored
      credential has its id, and the list is left alone otherwise. */
  function Registered(creds: seq<Credential>, record: Credential): (r: seq<Credential>)
    ensures HasId(r, record.id)
    ensures HasId(creds, record.id) ==> r == creds
    ensures !HasId(creds, record.id) ==> |r| == |creds| + 1 && r[..|creds|] == creds && r[|creds|] == record
  {
    if FirstWithId(creds, record.id).None? then
      var r := creds + [record];
      assert r[|creds|].id == record.id;
      r
    else creds
  }

  /** The list after a verified assertion on credential `k`. */
  function WithCounter(creds: seq<Credential>, k: nat, counter: nat): (r: seq<Credential>)
    requires k < |creds|
    ensures |r| == |creds|
    ensures forall j :: 0 <= j < |creds| && j != k ==> r[j] == creds[j]
    ensures r[k].counter == counter
    ensures r[k].id == creds[k].id && r[k].publicKey == creds[k].publicKey
    ensures r[k].transports == creds[k].transports
  {
    creds[k := creds[k].(counter := counter)]
  }

  /** `excludeCredentials`: one descriptor per stored credential. */
  function ExcludeCredentials(creds: seq<Credential>): (r: seq<CredentialDescriptor>)
    ensures |r| == |creds|
    ensures forall i :: 0 <= i < |creds| ==>
      r[i] == CredentialDescriptor(creds[i].id, "public-key", creds[i].transports)
  {
    if |creds| == 0 then []
    else [CredentialDescriptor(creds[0].id, "public-key", creds[0].transports)] + ExcludeCredentials(creds[1..])
  }

  /** `allowCredentials`: the first stored credential only, offered with the
      transport hint "internal" whatever its stored transports are. */
  function AllowCredentials(creds: seq<Credential>): (r: seq<AllowedCredential>)
    requires |creds| > 0
    ensures |r| == 1 && r[0].id == creds[0].id && r[0].transports == ["internal"]
  {
    [AllowedCredential(creds[0].id, ["internal"])]
  }

  /** Registering never creates a second credential with an id already
      stored, so ids stay unique. */
  lemma RegisteredKeepsIdsUnique(creds: seq<Credential>, record: Credential)
    requires UniqueIds(creds)
    ensures UniqueIds(Registered(creds, record))
  {
  }

  /** Registering an id a second time changes nothing, whatever the rest of
      the second record holds. */
  lemma RegisteredIdempotent(creds: seq<Credential>, record: Credential, again: Credential)
    requires again.id == record.id
    ensures Registered(Registered(creds, record), again) == Registered(creds, record)
  {
  }

  /** Updating a counter keeps the ids, so it keeps them unique. */
  lemma WithCounterKeepsIdsUnique(creds: seq<Credential>, k: nat, counter: nat)
    requires k < |creds| && UniqueIds(creds)
    ensures UniqueIds(WithCounter(creds, k, counter))
  {
  }

  /** With unique ids, the lookup by id finds the one credential with that
      id: the first match is the only match. */
  lemma UniqueIdsLookupIsOnlyMatch(creds: seq<Credential>, k: nat)
    requires UniqueIds(creds) && k < |creds|
    ensures FirstWithId(creds, creds[k].id) == Some(k)
  {
  }

  /** The ids in `excludeCredentials` are exactly the stored ids. */
  lemma ExcludedIdsAreStored(creds: seq<Credential>, id: string)
    ensures (exists i :: 0 <= i < |ExcludeCredentials(creds)| && ExcludeCredentials(creds)[i].id == id)
            <==> HasId(creds, id)
  {
    var r := ExcludeCredentials(creds);
    if HasId(creds, id) {
      var i :| 0 <= i < |creds| && creds[i].id == id;
      assert r[i].id == id;
    }
  }

  /** The credential offered in `allowCredentials` is the one the
      authentication lookup finds when the browser presents its id. */
  lemma AllowedCredentialIsFound(creds: seq<Credential>)
    requires |creds| > 0
    ensures FirstWithId(creds, AllowCredentials(creds)[0].id) == Some(0)
  {
  }
}
