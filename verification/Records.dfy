/** The verification record as a value and as the mutable object the service
    passes around (internal/domain/models/verification.go). */
module Records {
  import opened Envelopes

  /** Unset is the empty status string, which Validate refuses. */
  datatype Status = Unset | Pending | Confirmed | Delivered | Failed

  datatype Rec = Rec(
    id: string, rev: string,
    address: Address, email: string,
    token: string, tokenExpiresAt: Time,
    status: Status,
    envelope: Option<Env>, envelopeUUID: string, envelopeDigest: string,
    receivedAt: Time,
    emailSentAt: Option<Time>, lastEmailError: string,
    confirmedAt: Option<Time>,
    deliveryAttempts: nat, lastDeliveryAt: Option<Time>, lastDeliveryError: string)

  datatype ValidationError = NilRecord | NoAddress | NoID | MismatchedID | NoStatus | NoEmail | NoToken

  function DocID(address: Address): string {
    "verification:" + address
  }

  lemma DocIDInjective(a: Address, b: Address)
    requires DocID(a) == DocID(b)
    ensures a == b
  {
    assert DocID(a)[13..] == a && DocID(b)[13..] == b;
  }

  function EnvelopeUUID(env: Option<Env>): string {
    if env.Some? && env.value.head.Some? then env.value.head.value.uuid else ""
  }

  function EnvelopeDigest(env: Option<Env>): string {
    if env.Some? && env.value.head.Some? && env.value.head.value.digest.Some?
    then env.value.head.value.digest.value.algorithm + ":" + env.value.head.value.digest.value.value
    else ""
  }

  /** NewVerification's record; token and expiry are still to be filled in. */
  function FreshRec(address: Address, email: string, env: Option<Env>, now: Time): Rec {
    Rec(DocID(address), "", address, email, "", 0, Pending,
        env, EnvelopeUUID(env), EnvelopeDigest(env), now,
        None, "", None, 0, None, "")
  }

  /** The first rule the record breaks, in the order the rules are checked. */
  function Invalidity(r: Rec): Option<ValidationError> {
    if r.address == "" then Some(NoAddress)
    else if r.id == "" then Some(NoID)
    else if r.id != DocID(r.address) then Some(MismatchedID)
    else if r.status == Unset then Some(NoStatus)
    else if r.email == "" then Some(NoEmail)
    else if r.token == "" then Some(NoToken)
    else None
  }

  /** A record is refused for the first of six rules it breaks. */
  lemma InvalidityExactly(r: Rec)
    ensures var broken := [r.address == "", r.id == "", r.id != "verification:" + r.address, r.status == Unset,
                           r.email == "", r.token == ""];
            var errors := [NoAddress, NoID, MismatchedID, NoStatus, NoEmail, NoToken];
            && (Invalidity(r) == None <==> forall i :: 0 <= i < 6 ==> !broken[i])
            && forall i :: 0 <= i < 6 ==>
                 (Invalidity(r) == Some(errors[i]) <==> broken[i] && forall j :: 0 <= j < i ==> !broken[j])
  {
    var broken := [r.address == "", r.id == "", r.id != "verification:" + r.address, r.status == Unset,
                   r.email == "", r.token == ""];
    assert broken[0] <==> r.address == "";
    assert broken[2] <==> r.id != DocID(r.address);
    assert !broken[0] && !broken[1] && !broken[2] && !broken[3] && !broken[4] && !broken[5]
           <==> Invalidity(r) == None;
  }

  /** A zero expiry never lapses; the expiry instant itself counts as expired. */
  predicate TokenExpired(r: Rec, now: Time) {
    r.tokenExpiresAt != 0 && now >= r.tokenExpiresAt
  }

  function EnvValue(env: Envelope?): Option<Env>
    reads env
  {
    if env == null then None else Some(env.Value())
  }

  /** The record object. Clones share the envelope object they point to. */
  class Verification {
    var id: string
    var rev: string
    var address: Address
    var email: string
    var token: string
    var tokenExpiresAt: Time
    var status: Status
    var envelope: Envelope?
    var envelopeUUID: string
    var envelopeDigest: string
    var receivedAt: Time
    var emailSentAt: Option<Time>
    var lastEmailError: string
    var confirmedAt: Option<Time>
    var deliveryAttempts: nat
    var lastDeliveryAt: Option<Time>
    var lastDeliveryError: string

    function Value(): Rec
      reads this, envelope
    {
      Rec(id, rev, address, email, token, tokenExpiresAt, status,
          EnvValue(envelope), envelopeUUID, envelopeDigest, receivedAt,
          emailSentAt, lastEmailError, confirmedAt,
          deliveryAttempts, lastDeliveryAt, lastDeliveryError)
    }

    constructor New(addr: Address, mail: string, env: Envelope?, now: Time)
      ensures Value() == FreshRec(addr, mail, EnvValue(env), now)
      ensures id == "verification:" + addr && address == addr && email == mail && envelope == env
      ensures status == Pending && receivedAt == now && rev == "" && token == "" && tokenExpiresAt == 0
      ensures emailSentAt.None? && lastEmailError == "" && confirmedAt.None?
      ensures deliveryAttempts == 0 && lastDeliveryAt.None? && lastDeliveryError == ""
      ensures env == null || env.head.None? ==> envelopeUUID == "" && envelopeDigest == ""
      ensures env != null && env.head.Some? ==> envelopeUUID == env.head.value.uuid
      ensures env != null && env.head.Some? && env.head.value.digest.Some? ==>
                envelopeDigest == env.head.value.digest.value.algorithm + ":" + env.head.value.digest.value.value
      ensures env != null && env.head.Some? && env.head.value.digest.None? ==> envelopeDigest == ""
    {
      address, email, status, envelope, receivedAt := addr, mail, Pending, env, now;
      rev, token, tokenExpiresAt := "", "", 0;
      emailSentAt, lastEmailError, confirmedAt := None, "", None;
      deliveryAttempts, lastDeliveryAt, lastDeliveryError := 0, None, "";
      envelopeUUID, envelopeDigest := "", "";
      if env != null && env.head.Some? {
        envelopeUUID := env.head.value.uuid;
        if env.head.value.digest.Some? {
          envelopeDigest := env.head.value.digest.value.algorithm + ":" + env.head.value.digest.value.value;
        }
      }
      id := DocID(addr);
    }

    /** A shallow copy: `clone := *v`. */
    constructor CloneOf(v: Verification)
      ensures Value() == v.Value()
      ensures envelope == v.envelope
    {
      id, rev, address, email := v.id, v.rev, v.address, v.email;
      token, tokenExpiresAt, status := v.token, v.tokenExpiresAt, v.status;
      envelope, envelopeUUID, envelopeDigest := v.envelope, v.envelopeUUID, v.envelopeDigest;
      receivedAt, emailSentAt, lastEmailError := v.receivedAt, v.emailSentAt, v.lastEmailError;
      confirmedAt, deliveryAttempts := v.confirmedAt, v.deliveryAttempts;
      lastDeliveryAt, lastDeliveryError := v.lastDeliveryAt, v.lastDeliveryError;
    }
  }
}
