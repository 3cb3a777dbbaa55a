/** The renewal loop: what countersigning keeps, drops and adds, and why an envelope that
    comes back with this verifier's earlier signatures is accepted again
    (internal/domain/identity.go, internal/domain/verifications.go). */
module Renewal {
  import opened Envelopes
  import opened Protocol
  import opened Invariant
  import opened Steps
  import opened Runs
  import opened Safety
  import opened Provenance

  predicate Increasing(at: seq<nat>) {
    forall i, j :: 0 <= i < j < |at| ==> at[i] < at[j]
  }

  /** `kept` is the signatures of others in `sigs`, all of them, in their order. */
  predicate KeptAt(sigs: seq<Signature>, me: Address, kept: seq<Signature>, at: seq<nat>) {
    && |at| == |kept| && Increasing(at)
    && (forall k :: 0 <= k < |at| ==> at[k] < |sigs| && kept[k] == sigs[at[k]])
    && (forall i :: 0 <= i < |sigs| ==> (i in at <==> sigs[i].issuer != Claims(me)))
  }

  /** Every signature of another party survives, once per occurrence and in order. */
  lemma {:induction false} ForeignKeepsOrder(sigs: seq<Signature>, me: Address) returns (at: seq<nat>)
    ensures KeptAt(sigs, me, Foreign(sigs, me), at)
  {
    if sigs == [] {
      return [];
    }
    var n := |sigs| - 1;
    at := ForeignKeepsOrder(sigs[..n], me);
    assert forall i :: i in at ==> i < n;
    if !Own(sigs[n], me) {
      at := at + [n];
    }
  }

  lemma ForeignOne(a: seq<Signature>, sig: Signature, me: Address)
    ensures Foreign(a + [sig], me) == Foreign(a, me) + (if Own(sig, me) then [] else [sig])
    ensures OwnCount(a + [sig], me) == OwnCount(a, me) + (if Own(sig, me) then 1 else 0)
  {
    assert (a + [sig])[..|a|] == a;
  }

  lemma {:induction false} ForeignAppend(a: seq<Signature>, b: seq<Signature>, me: Address)
    ensures Foreign(a + b, me) == Foreign(a, me) + Foreign(b, me)
    ensures OwnCount(a + b, me) == OwnCount(a, me) + OwnCount(b, me)
    decreases |b|
  {
    if b == [] {
      assert a + b == a;
    } else {
      var n := |b| - 1;
      ForeignAppend(a, b[..n], me);
      ForeignOne(a + b[..n], b[n], me);
      ForeignOne(b[..n], b[n], me);
      assert b == b[..n] + [b[n]] && a + b == (a + b[..n]) + [b[n]];
    }
  }

  lemma {:induction false} ForeignSplits(sigs: seq<Signature>, me: Address)
    ensures |Foreign(sigs, me)| + OwnCount(sigs, me) == |sigs|
    ensures OwnCount(Foreign(sigs, me), me) == 0 && Foreign(Foreign(sigs, me), me) == Foreign(sigs, me)
  {
    if sigs != [] {
      var n := |sigs| - 1;
      ForeignSplits(sigs[..n], me);
      ForeignAppend(Foreign(sigs[..n], me), [sigs[n]], me);
      assert [sigs[n]][..0] == [];
    }
  }

  /** One countersigning: own signatures, genuine or forged, give way to exactly one, the
      last; everything else stays as it was. */
  lemma CounterSignedShape(id: Identity, env: Env, subject: Address, now: Time)
    requires env.head.Some?
    ensures var out := CounterSigned(id, env, subject, now);
            && out.head == env.head && out.party == env.party
            && |out.signatures| == |env.signatures| - OwnCount(env.signatures, id.address) + 1
            && OwnCount(out.signatures, id.address) == 1
            && Own(out.signatures[|out.signatures| - 1], id.address)
            && Foreign(out.signatures, id.address) == Foreign(env.signatures, id.address)
  {
    var f, o := Foreign(env.signatures, id.address), OwnSignature(id, env.head.value, subject, now);
    ForeignSplits(env.signatures, id.address);
    ForeignAppend(f, [o], id.address);
    assert [o][..0] == [];
  }

  /** What the one own signature claims: this verifier as issuer, the subject as audience, no
      verifier, an expiry a year of 365 days from now, here in nanoseconds, and this second as
      its issue time; made by the active key over the envelope's head. */
  lemma CounterSignatureClaims(id: Identity, env: Env, subject: Address, now: Time)
    requires env.head.Some?
    ensures var sigs := CounterSigned(id, env, subject, now).signatures;
            && sigs != []
            && (forall k :: 0 <= k < |sigs| - 1 ==> sigs[k].issuer != Claims(id.address))
            && Claiming(sigs[|sigs| - 1], id, env.head.value, subject, now)
  {
    var at := ForeignKeepsOrder(env.signatures, id.address);
  }

  predicate Claiming(o: Signature, id: Identity, head: Head, subject: Address, now: Time) {
    && o.issuer == Claims(id.address) && o.aud == subject && o.verifier == ""
    && o.exp == now + 31_536_000_000_000_000
    && o.issuedAt <= now < o.issuedAt + 1_000_000_000 && o.issuedAt % 1_000_000_000 == 0
    && o.kid == id.privateKey.kid && o.key == id.privateKey.key && o.head == head
  }

  // ----- Any number of rounds -----

  /** One renewal: the envelope comes back with `added` signatures, and is countersigned. */
  datatype Round = Round(added: seq<Signature>, subject: Address, at: Time)

  function Renewed(id: Identity, env: Env, rounds: seq<Round>): (out: Env)
    requires env.head.Some?
    ensures out.head == env.head
  {
    if rounds == [] then env
    else
      var r, last := rounds[|rounds| - 1], Renewed(id, env, rounds[..|rounds| - 1]);
      CounterSigned(id, last.(signatures := last.signatures + r.added), r.subject, r.at)
  }

  function Added(rounds: seq<Round>): seq<Signature> {
    if rounds == [] then [] else Added(rounds[..|rounds| - 1]) + rounds[|rounds| - 1].added
  }

  lemma ForeignOfSum(a: seq<Signature>, b: seq<Signature>, added: seq<Signature>, me: Address)
    requires Foreign(a, me) == Foreign(b, me)
    ensures Foreign(a + added, me) == Foreign(b + added, me)
  {
    ForeignAppend(a, added, me);
    ForeignAppend(b, added, me);
  }

  lemma Associative(a: seq<Signature>, b: seq<Signature>, c: seq<Signature>)
    ensures a + (b + c) == a + b + c
  {
  }

  lemma AddedLast(sigs: seq<Signature>, rounds: seq<Round>)
    requires rounds != []
    ensures sigs + Added(rounds) == sigs + Added(rounds[..|rounds| - 1]) + rounds[|rounds| - 1].added
  {
    Associative(sigs, Added(rounds[..|rounds| - 1]), rounds[|rounds| - 1].added);
  }

  /** What the envelope carries of others before it is countersigned in the last round. */
  lemma {:induction false} RenewedForeign(id: Identity, env: Env, rounds: seq<Round>)
    requires env.head.Some? && rounds != []
    ensures var n := |rounds| - 1;
            Foreign(Renewed(id, env, rounds[..n]).signatures + rounds[n].added, id.address)
            == Foreign(env.signatures + Added(rounds), id.address)
    ensures Renewed(id, env, rounds).party == env.party
  {
    var n := |rounds| - 1;
    AddedLast(env.signatures, rounds);
    if n == 0 {
      assert env.signatures + Added(rounds[..n]) == env.signatures;
    } else {
      var earlier := rounds[..n];
      RenewedForeign(id, env, earlier);
      var r, prev := earlier[n - 1], Renewed(id, env, earlier[..n - 1]);
      CounterSignedShape(id, prev.(signatures := prev.signatures + r.added), r.subject, r.at);
      ForeignOfSum(Renewed(id, env, earlier).signatures, env.signatures + Added(earlier), rounds[n].added, id.address);
    }
  }

  /** However many rounds, and whatever is added in between, the envelope ends with the
      foreign signatures in order of arrival and the one signature of the last round. */
  lemma RenewalsDoNotAccumulate(id: Identity, env: Env, rounds: seq<Round>)
    requires env.head.Some? && rounds != []
    ensures var last := rounds[|rounds| - 1];
            Renewed(id, env, rounds)
            == env.(signatures := Foreign(env.signatures + Added(rounds), id.address)
                                  + [OwnSignature(id, env.head.value, last.subject, last.at)])
  {
    RenewedForeign(id, env, rounds);
  }

  // ----- The round trip -----

  /** A countersigned envelope passes the check of own signatures, whatever signatures it
      carried before, exactly when the active key is served: published, first under its kid,
      and valid at the second of the signature. */
  lemma CounterSignedVerifies(id: Identity, env: Env, subject: Address, now: Time)
    requires env.head.Some?
    ensures OwnSignaturesVerify(id, CounterSigned(id, env, subject, now)) <==> Serves(id, now)
  {
    var out, o := CounterSigned(id, env, subject, now), OwnSignature(id, env.head.value, subject, now);
    var at := ForeignKeepsOrder(env.signatures, id.address);
    assert forall sig :: sig in Foreign(env.signatures, id.address) ==> !Own(sig, id.address);
    assert o in out.signatures && Own(o, id.address);
    assert Genuine(id, out, o) <==> Serves(id, now);
  }

  /** The verdict depends on the set of own signatures only: not on their order, nor on the
      signatures of others. */
  lemma VerdictIgnoresOrder(id: Identity, env: Env, env': Env)
    requires env.head == env'.head
    requires forall sig | Own(sig, id.address) :: sig in env.signatures <==> sig in env'.signatures
    ensures OwnSignaturesVerify(id, env) <==> OwnSignaturesVerify(id, env')
  {
  }

  lemma VerdictIgnoresPermutation(id: Identity, env: Env, sigs: seq<Signature>)
    requires multiset(sigs) == multiset(env.signatures)
    ensures OwnSignaturesVerify(id, env) <==> OwnSignaturesVerify(id, env.(signatures := sigs))
  {
    forall sig ensures sig in env.signatures <==> sig in sigs {
      assert sig in env.signatures <==> sig in multiset(env.signatures);
      assert sig in sigs <==> sig in multiset(sigs);
    }
    VerdictIgnoresOrder(id, env, env.(signatures := sigs));
  }

  /** The loop closes: when the active key is served, a countersigned envelope with an email
      is admitted again exactly when `v`, what the libraries say of it on its return, accepts
      it; neither its own signatures nor its email ever stand in the way. */
  lemma RenewalIsAdmitted(id: Identity, env: Env, subject: Address, now: Time, v: Verdicts, again: Address)
    requires env.head.Some? && PartyEmail(env.party) != "" && Serves(id, now)
    ensures Gates(id, CounterSigned(id, env, subject, now), v) == Admitted(again, PartyEmail(env.party))
            <==> v.valid && v.party == PartyOk(again) && v.authority == AuthorityOk
  {
    CounterSignedVerifies(id, env, subject, now);
  }

  /** Over every interleaving: what was posted to the authority would be accepted back. */
  lemma PostedVerifies(s: State, i: int)
    requires Reachable(s) && 0 <= i < |s.events| && s.events[i].Posted?
    ensures OwnSignaturesVerify(s.cfg.identity, s.events[i].env) <==> Serves(s.cfg.identity, s.events[i].signedAt)
    ensures OwnCount(s.events[i].env.signatures, s.cfg.identity.address) == 1
  {
    EndToEndBinding(s, i);
    var m := s.mints[s.events[i].token];
    CounterSignedVerifies(s.cfg.identity, m.env, m.address, s.events[i].signedAt);
    CounterSignedShape(s.cfg.identity, m.env, m.address, s.events[i].signedAt);
  }

  lemma PosterAt(s: State, acts: seq<Action>, l: nat, i: nat, e: Event)
    requires ValidRun(s, acts) && l < |acts| && LeftBy(s, acts, l, i, e) && e.Posted?
    ensures var p := StateAt(s, acts, l).procs[acts[l].pid];
            p.DSend? && p.rec.token == e.token && p.who == e.who && p.env == e.env && p.signedAt == e.signedAt
  {
  }

  /** Over every interleaving, each envelope posted carries exactly one signature of this
      verifier, the last, which claims the address its token was minted for, over the head of
      the envelope received, and was made by an earlier action of the poster, at its time. */
  lemma PostedClaims(cfg: Config, acts: seq<Action>, i: nat) returns (j: nat, l: nat)
    requires ValidRun(Init(cfg), acts)
    requires i < |Run(Init(cfg), acts).events| && Run(Init(cfg), acts).events[i].Posted?
    ensures var s, e := Run(Init(cfg), acts), Run(Init(cfg), acts).events[i];
            && j < l < |acts| && LeftBy(Init(cfg), acts, l, i, e)
            && acts[j].Move? && acts[j].pid == acts[l].pid && acts[j].pid in StateAt(Init(cfg), acts, j).procs
            && StateAt(Init(cfg), acts, j).procs[acts[j].pid].DSign?
            && e.token in s.mints && s.mints[e.token].env.head == e.env.head && e.env.head.Some?
            && e.env.signatures != []
            && var n := |e.env.signatures| - 1;
               && Claiming(e.env.signatures[n], cfg.identity, e.env.head.value, s.mints[e.token].address, acts[j].choice.at)
               && forall k :: 0 <= k < n ==> e.env.signatures[k].issuer != Claims(cfg.identity.address)
  {
    var s := Run(Init(cfg), acts);
    var e := s.events[i];
    InvInit(cfg);
    RunKeepsInv(Init(cfg), acts);
    StateAtEnd(Init(cfg), acts);
    l := EntryLeftBy(Init(cfg), acts, |acts|, i);
    PosterAt(Init(cfg), acts, l, i, e);
    var k, b;
    j, k, b := PostPrepared(cfg, acts, l, acts[l].pid);
    EndToEndBinding(s, i);
    var m := s.mints[e.token];
    CounterSignatureClaims(cfg.identity, m.env, m.address, e.signedAt);
  }
}
