/** Signed party envelopes as values, the identity that countersigns them, and
    the mutable envelope object the countersigning code works on
    (internal/domain/identity.go, internal/domain/models/identity.go). */
module Envelopes {

  datatype Option<+T> = None | Some(value: T)

  /** Nanoseconds since Go's zero time, so 0 is the zero time itself. */
  type Time = nat

  const SECOND: Time := 1_000_000_000
  const HOUR: Time := 3600 * SECOND
  const CONFIRM_TOKEN_TTL: Time := 72 * HOUR
  const ENDORSEMENT_TTL: Time := 365 * 24 * HOUR

  /** A canonical GOBL Net address, what ParseAddress returns. */
  type Address = string

  datatype Digest = Digest(algorithm: string, value: string)

  datatype Head = Head(uuid: string, digest: Option<Digest>)

  /** The part of the org.Party that the service reads: its email entries, nil ones included. */
  datatype Party = Party(emails: seq<Option<string>>)

  /** What reading a signature's issuer yields: the payload may not parse, and its
      issuer may not be an address. */
  datatype Issuer = Unreadable | NotAnAddress | Claims(address: Address)

  /** `key` is the key material that made the signature, `head` the head it covers. */
  datatype Signature = Signature(issuer: Issuer, aud: string, exp: Time, verifier: string,
                                 kid: string, key: int, head: Head, issuedAt: Time)

  datatype Env = Env(head: Option<Head>, party: Party, signatures: seq<Signature>)

  datatype PublicKey = PublicKey(kid: string, key: int, validFrom: Option<Time>)

  datatype PrivateKey = PrivateKey(kid: string, key: int)

  /** The loaded identity; none of its fields changes after loading. */
  datatype Identity = Identity(address: Address, privateKey: PrivateKey, publicKeys: seq<PublicKey>)

  /** What Envelope.Sign does to the envelope it is given. */
  datatype SignAnswer = Signed | SignFailed(cleared: bool)

  /** The signature names this verifier as its issuer. */
  predicate Own(sig: Signature, me: Address) {
    sig.issuer == Claims(me)
  }

  /** The signatures of other parties, in order. */
  function Foreign(sigs: seq<Signature>, me: Address): seq<Signature> {
    if sigs == [] then []
    else if Own(sigs[|sigs| - 1], me) then Foreign(sigs[..|sigs| - 1], me)
    else Foreign(sigs[..|sigs| - 1], me) + [sigs[|sigs| - 1]]
  }

  function OwnCount(sigs: seq<Signature>, me: Address): nat {
    if sigs == [] then 0
    else OwnCount(sigs[..|sigs| - 1], me) + (if Own(sigs[|sigs| - 1], me) then 1 else 0)
  }

  /** The signature Sign appends: issuer, audience, a year-long expiry, no verifier claim,
      and an issue time in whole seconds. */
  function OwnSignature(id: Identity, head: Head, subject: Address, now: Time): Signature {
    Signature(Claims(id.address), subject, now + ENDORSEMENT_TTL, "",
              id.privateKey.kid, id.privateKey.key, head, now - now % SECOND)
  }

  function CounterSigned(id: Identity, env: Env, subject: Address, now: Time): Env
    requires env.head.Some?
  {
    env.(signatures := Foreign(env.signatures, id.address) + [OwnSignature(id, env.head.value, subject, now)])
  }

  /** Head.Verify as an oracle: the key made the signature, over this head, and was valid
      when it was issued. */
  predicate Verifies(head: Head, sig: Signature, pub: PublicKey) {
    && sig.key == pub.key
    && sig.head == head
    && (pub.validFrom.None? || pub.validFrom.value <= sig.issuedAt)
  }

  /** The first published key with the given kid. */
  function FirstKey(keys: seq<PublicKey>, kid: string): Option<PublicKey> {
    if keys == [] then None
    else if keys[0].kid == kid then Some(keys[0])
    else FirstKey(keys[1..], kid)
  }

  /** A signature that claims this verifier is one of its own. */
  predicate Genuine(id: Identity, env: Env, sig: Signature) {
    && env.head.Some?
    && var pub := FirstKey(id.publicKeys, sig.kid);
       pub.Some? && Verifies(env.head.value, sig, pub.value)
  }

  predicate OwnSignaturesVerify(id: Identity, env: Env) {
    forall sig | sig in env.signatures && Own(sig, id.address) :: Genuine(id, env, sig)
  }

  /** LoadIdentity's guarantee that the active kid is published, with the assumption that a
      kid determines its key, for a key already valid at the second of `now`. */
  predicate Serves(id: Identity, now: Time) {
    var pub := FirstKey(id.publicKeys, id.privateKey.kid);
    && pub.Some?
    && pub.value.key == id.privateKey.key
    && (pub.value.validFrom.None? || pub.value.validFrom.value <= now - now % SECOND)
  }

  /** The first non-empty address among the party's emails, or the empty string. */
  function PartyEmail(party: Party): string {
    FirstEmail(party.emails)
  }

  function FirstEmail(emails: seq<Option<string>>): string {
    if emails == [] then ""
    else if emails[0].Some? && emails[0].value != "" then emails[0].value
    else FirstEmail(emails[1..])
  }

  /** The envelope object: CounterSign replaces its signature list in place. */
  class Envelope {
    const head: Option<Head>
    const party: Party
    var signatures: seq<Signature>

    constructor (value: Env)
      ensures Value() == value
    {
      head, party, signatures := value.head, value.party, value.signatures;
    }

    function Value(): Env
      reads this
    {
      Env(head, party, signatures)
    }
  }

  lemma {:induction false} FirstKeyAt(keys: seq<PublicKey>, kid: string, i: nat)
    requires i < |keys| && keys[i].kid == kid && forall j :: 0 <= j < i ==> keys[j].kid != kid
    ensures FirstKey(keys, kid) == Some(keys[i])
  {
    if i > 0 {
      FirstKeyAt(keys[1..], kid, i - 1);
    }
  }

  lemma {:induction false} FirstKeyIndex(keys: seq<PublicKey>, kid: string) returns (i: nat)
    requires FirstKey(keys, kid).Some?
    ensures i < |keys| && keys[i].kid == kid && FirstKey(keys, kid) == Some(keys[i])
    ensures forall j :: 0 <= j < i ==> keys[j].kid != kid
  {
    if keys[0].kid == kid {
      return 0;
    }
    i := FirstKeyIndex(keys[1..], kid);
    i := i + 1;
  }

  /** A signature is genuine exactly when the first published key with its kid verifies it. */
  lemma GenuineExactly(id: Identity, env: Env, sig: Signature)
    requires env.head.Some?
    ensures Genuine(id, env, sig) <==>
            exists i :: && 0 <= i < |id.publicKeys| && id.publicKeys[i].kid == sig.kid
                        && (forall j :: 0 <= j < i ==> id.publicKeys[j].kid != sig.kid)
                        && Verifies(env.head.value, sig, id.publicKeys[i])
  {
    if FirstKey(id.publicKeys, sig.kid).Some? {
      var i := FirstKeyIndex(id.publicKeys, sig.kid);
    }
    forall i | && 0 <= i < |id.publicKeys| && id.publicKeys[i].kid == sig.kid
               && forall j :: 0 <= j < i ==> id.publicKeys[j].kid != sig.kid
      ensures FirstKey(id.publicKeys, sig.kid) == Some(id.publicKeys[i])
    {
      FirstKeyAt(id.publicKeys, sig.kid, i);
    }
  }

  /** The check accepts exactly when every signature that claims this verifier is verified by
      the first published key with its kid. */
  lemma OwnSignaturesExactly(id: Identity, env: Env)
    requires env.head.Some?
    ensures OwnSignaturesVerify(id, env) <==>
            forall k :: 0 <= k < |env.signatures| && env.signatures[k].issuer == Claims(id.address) ==>
              exists i :: && 0 <= i < |id.publicKeys| && id.publicKeys[i].kid == env.signatures[k].kid
                          && (forall j :: 0 <= j < i ==> id.publicKeys[j].kid != env.signatures[k].kid)
                          && Verifies(env.head.value, env.signatures[k], id.publicKeys[i])
  {
    forall sig ensures Genuine(id, env, sig) <==>
                       exists i :: && 0 <= i < |id.publicKeys| && id.publicKeys[i].kid == sig.kid
                                   && (forall j :: 0 <= j < i ==> id.publicKeys[j].kid != sig.kid)
                                   && Verifies(env.head.value, sig, id.publicKeys[i])
    {
      GenuineExactly(id, env, sig);
    }
  }

  /** Published key search (models/identity.go). */
  method FindKey(id: Identity, kid: string) returns (key: Option<PublicKey>)
    ensures key == FirstKey(id.publicKeys, kid)
    ensures key.Some? ==> exists i :: && 0 <= i < |id.publicKeys|
                                      && id.publicKeys[i] == key.value && key.value.kid == kid
                                      && forall j :: 0 <= j < i ==> id.publicKeys[j].kid != kid
    ensures key.None? ==> forall i :: 0 <= i < |id.publicKeys| ==> id.publicKeys[i].kid != kid
  {
    for i := 0 to |id.publicKeys|
      invariant forall j :: 0 <= j < i ==> id.publicKeys[j].kid != kid
      invariant FirstKey(id.publicKeys[i..], kid) == FirstKey(id.publicKeys, kid)
    {
      if id.publicKeys[i].kid == kid {
        return Some(id.publicKeys[i]);
      }
      assert id.publicKeys[i..][1..] == id.publicKeys[i + 1..];
    }
    return None;
  }

  /** Countersign in place: drop this verifier's earlier signatures, then sign. */
  method CounterSign(id: Identity, env: Envelope?, subject: Address, now: Time, answer: SignAnswer)
    returns (ok: bool)
    modifies env
    ensures ok == (env != null && env.head.Some? && answer.Signed?)
    ensures ok ==> env.Value() == CounterSigned(id, old(env.Value()), subject, now)
    ensures ok ==> && env.signatures != []
                   && var o := env.signatures[|env.signatures| - 1];
                      && o.issuer == Claims(id.address) && o.aud == subject && o.verifier == ""
                      && o.exp == now + 365 * 24 * HOUR && o.head == env.head.value
                      && o.kid == id.privateKey.kid && o.key == id.privateKey.key
                      && o.issuedAt <= now < o.issuedAt + SECOND && o.issuedAt % SECOND == 0
    ensures env != null && env.head.None? ==> env.Value() == old(env.Value())
    ensures env != null && env.head.Some? && answer.SignFailed? ==>
              env.signatures == if answer.cleared then [] else Foreign(old(env.signatures), id.address)
  {
    if env == null || env.head.None? {
      return false;
    }
    var sigs: seq<Signature> := [];
    for i := 0 to |env.signatures|
      invariant sigs == Foreign(env.signatures[..i], id.address)
      invariant unchanged(env)
    {
      var sig := env.signatures[i];
      assert env.signatures[..i + 1][..i] == env.signatures[..i];
      if sig.issuer.Claims? && sig.issuer.address == id.address {
        continue;
      }
      sigs := sigs + [sig];
    }
    assert env.signatures[..|env.signatures|] == env.signatures;
    env.signatures := sigs;
    match answer
    case Signed =>
      env.signatures := env.signatures + [OwnSignature(id, env.head.value, subject, now)];
      ok := true;
    case SignFailed(cleared) =>
      if cleared {
        env.signatures := [];
      }
      ok := false;
  }

  /** Accepts exactly when every signature claiming this verifier is genuine. */
  method VerifyOwnSignatures(id: Identity, env: Envelope) returns (ok: bool)
    requires env.head.Some?
    ensures ok == OwnSignaturesVerify(id, env.Value())
    ensures ok <==>
            forall k :: 0 <= k < |env.signatures| && env.signatures[k].issuer == Claims(id.address) ==>
              exists i :: && 0 <= i < |id.publicKeys| && id.publicKeys[i].kid == env.signatures[k].kid
                          && (forall j :: 0 <= j < i ==> id.publicKeys[j].kid != env.signatures[k].kid)
                          && Verifies(env.head.value, env.signatures[k], id.publicKeys[i])
  {
    OwnSignaturesExactly(id, env.Value());
    for i := 0 to |env.signatures|
      invariant forall j :: 0 <= j < i && Own(env.signatures[j], id.address) ==>
                              Genuine(id, env.Value(), env.signatures[j])
    {
      var sig := env.signatures[i];
      if !sig.issuer.Claims? || sig.issuer.address != id.address {
        continue;
      }
      var pub := FindKey(id, sig.kid);
      if pub.None? {
        assert Own(sig, id.address) && sig in env.Value().signatures;
        return false;
      }
      if !Verifies(env.head.value, sig, pub.value) {
        assert Own(sig, id.address) && sig in env.Value().signatures;
        return false;
      }
    }
    return true;
  }

  /** The party's first published email (verifications.go, partyEmail). */
  method FindPartyEmail(party: Party) returns (email: string)
    ensures email == PartyEmail(party)
    ensures email == "" ==> forall i :: 0 <= i < |party.emails| ==> party.emails[i] in {None, Some("")}
    ensures email != "" ==> exists i :: && 0 <= i < |party.emails| && party.emails[i] == Some(email)
                                        && forall j :: 0 <= j < i ==> party.emails[j] in {None, Some("")}
  {
    for i := 0 to |party.emails|
      invariant forall j :: 0 <= j < i ==> party.emails[j] in {None, Some("")}
      invariant FirstEmail(party.emails[i..]) == FirstEmail(party.emails)
    {
      if party.emails[i].Some? && party.emails[i].value != "" {
        return party.emails[i].value;
      }
      assert party.emails[i..][1..] == party.emails[i + 1..];
    }
    return "";
  }
}
