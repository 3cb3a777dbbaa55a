/** Which envelopes Receive admits, told from the envelope, the published keys and the answers
    of the libraries alone (internal/domain/verifications.go). */
module Admission {
  import opened Envelopes
  import opened Protocol
  import opened Invariant
  import opened Steps
  import opened Runs

  // ----- One envelope -----

  lemma {:induction false} FirstEmailAt(emails: seq<Option<string>>, n: nat)
    requires n < |emails| && emails[n].Some? && emails[n].value != ""
    requires forall m :: 0 <= m < n ==> emails[m] in {None, Some("")}
    ensures FirstEmail(emails) == emails[n].value
  {
    if n > 0 {
      assert emails[0] in {None, Some("")};
      FirstEmailAt(emails[1..], n - 1);
    }
  }

  lemma {:induction false} FirstEmailIndex(emails: seq<Option<string>>) returns (n: nat)
    ensures n <= |emails| && forall m :: 0 <= m < n ==> emails[m] in {None, Some("")}
    ensures n < |emails| ==> emails[n].Some? && emails[n].value != "" && FirstEmail(emails) == emails[n].value
    ensures n == |emails| ==> FirstEmail(emails) == ""
  {
    n := 0;
    if emails != [] && emails[0] in {None, Some("")} {
      n := FirstEmailIndex(emails[1..]);
      n := n + 1;
      assert forall m :: 0 < m < n ==> emails[m] == emails[1..][m - 1];
    }
  }

  lemma FirstEmailExactly(emails: seq<Option<string>>, email: string)
    requires email != ""
    ensures FirstEmail(emails) == email <==>
            exists n :: && 0 <= n < |emails| && emails[n] == Some(email)
                        && forall m :: 0 <= m < n ==> emails[m] in {None, Some("")}
  {
    var first := FirstEmailIndex(emails);
    forall n: nat | && n < |emails| && emails[n] == Some(email)
                    && forall m :: 0 <= m < n ==> emails[m] in {None, Some("")}
      ensures FirstEmail(emails) == email
    {
      FirstEmailAt(emails, n);
    }
  }

  /** An envelope is admitted, for a subject and an email, exactly when it is valid, its party
      is verified to be the subject, each of its signatures that claims this verifier verifies
      under the first published key with its kid, the authority has countersigned it, and the
      email is the first non-empty one of its party. */
  lemma AdmittedExactly(id: Identity, env: Env, v: Verdicts, subject: Address, email: string)
    requires v.valid ==> env.head.Some?
    ensures Gates(id, env, v) == Admitted(subject, email) <==>
            && v.valid && v.party == PartyOk(subject) && v.authority == AuthorityOk
            && (forall k :: 0 <= k < |env.signatures| && env.signatures[k].issuer == Claims(id.address) ==>
                  exists i :: && 0 <= i < |id.publicKeys| && id.publicKeys[i].kid == env.signatures[k].kid
                              && (forall j :: 0 <= j < i ==> id.publicKeys[j].kid != env.signatures[k].kid)
                              && Verifies(env.head.value, env.signatures[k], id.publicKeys[i]))
            && email != ""
            && exists n :: && 0 <= n < |env.party.emails| && env.party.emails[n] == Some(email)
                           && forall m :: 0 <= m < n ==> env.party.emails[m] in {None, Some("")}
  {
    if v.valid {
      OwnSignaturesExactly(id, env);
    }
    if email != "" {
      FirstEmailExactly(env.party.emails, email);
    }
  }

  lemma NoEmailExactly(emails: seq<Option<string>>)
    ensures FirstEmail(emails) == "" <==> forall n :: 0 <= n < |emails| ==> emails[n] in {None, Some("")}
  {
    var n := FirstEmailIndex(emails);
  }

  /** Whether it is admitted at all. */
  lemma AdmissionExactly(id: Identity, env: Env, v: Verdicts)
    requires v.valid ==> env.head.Some?
    ensures Gates(id, env, v).Admitted? <==>
            && v.valid && v.party.PartyOk? && v.authority == AuthorityOk
            && (forall k :: 0 <= k < |env.signatures| && env.signatures[k].issuer == Claims(id.address) ==>
                  exists i :: && 0 <= i < |id.publicKeys| && id.publicKeys[i].kid == env.signatures[k].kid
                              && (forall j :: 0 <= j < i ==> id.publicKeys[j].kid != env.signatures[k].kid)
                              && Verifies(env.head.value, env.signatures[k], id.publicKeys[i]))
            && exists n :: 0 <= n < |env.party.emails| && env.party.emails[n] !in {None, Some("")}
  {
    if v.valid {
      OwnSignaturesExactly(id, env);
    }
    NoEmailExactly(env.party.emails);
  }

  /** Otherwise it is refused with the error of the first check that fails. */
  lemma RefusedExactly(id: Identity, env: Env, v: Verdicts, e: Error)
    requires v.valid ==> env.head.Some?
    ensures var ownOk := v.valid ==>
              forall k :: 0 <= k < |env.signatures| && env.signatures[k].issuer == Claims(id.address) ==>
                exists i :: && 0 <= i < |id.publicKeys| && id.publicKeys[i].kid == env.signatures[k].kid
                            && (forall j :: 0 <= j < i ==> id.publicKeys[j].kid != env.signatures[k].kid)
                            && Verifies(env.head.value, env.signatures[k], id.publicKeys[i]);
            var noEmail := forall n :: 0 <= n < |env.party.emails| ==> env.party.emails[n] in {None, Some("")};
            Gates(id, env, v) == Refused(e) <==>
            || (!v.valid && e == ErrValidation)
            || (v.valid && v.party == PartyUnavailable && e == ErrUnavailable)
            || (v.valid && v.party == PartyMissing && e == ErrValidation)
            || (v.valid && v.party == PartyInvalid && e == ErrUnauthorized)
            || (v.valid && v.party.PartyOk? && !ownOk && e == ErrUnauthorized)
            || (v.valid && v.party.PartyOk? && ownOk && v.authority == AuthorityUnavailable && e == ErrUnavailable)
            || (v.valid && v.party.PartyOk? && ownOk && v.authority == AuthorityMissing && e == ErrForbidden)
            || (v.valid && v.party.PartyOk? && ownOk && v.authority == AuthorityOk && noEmail && e == ErrValidation)
  {
    if v.valid {
      OwnSignaturesExactly(id, env);
    }
    NoEmailExactly(env.party.emails);
  }

  /** A first submission, which no signature of this verifier is on, is admitted whenever the
      libraries accept it and it publishes an email. */
  lemma FirstSubmissionIsAdmitted(id: Identity, env: Env, v: Verdicts, subject: Address)
    requires forall k :: 0 <= k < |env.signatures| ==> env.signatures[k].issuer != Claims(id.address)
    requires v.valid && env.head.Some? && v.party == PartyOk(subject) && v.authority == AuthorityOk
    requires exists n :: 0 <= n < |env.party.emails| && env.party.emails[n] !in {None, Some("")}
    ensures Gates(id, env, v).Admitted? && Gates(id, env, v).subject == subject
    ensures Some(Gates(id, env, v).email) in env.party.emails && Gates(id, env, v).email != ""
  {
    AdmissionExactly(id, env, v);
    AdmittedExactly(id, env, v, subject, FirstEmail(env.party.emails));
  }

  // ----- Whole runs -----

  /** The signature claims this verifier, but no published key stands for it: there is none
      with its kid, or the first one did not make it, over this envelope's head, while valid. */
  predicate Forged(id: Identity, env: Env, sig: Signature) {
    && sig in env.signatures && sig.issuer == Claims(id.address)
    && forall i :: && 0 <= i < |id.publicKeys| && id.publicKeys[i].kid == sig.kid
                   && (forall j :: 0 <= j < i ==> id.publicKeys[j].kid != sig.kid) ==>
         || id.publicKeys[i].key != sig.key || Some(sig.head) != env.head
         || (id.publicKeys[i].validFrom.Some? && sig.issuedAt < id.publicKeys[i].validFrom.value)
  }

  lemma ForgedIsRefused(id: Identity, env: Env, sig: Signature, v: Verdicts)
    requires Forged(id, env, sig)
    ensures Gates(id, env, v).Refused?
  {
    if env.head.Some? {
      GenuineExactly(id, env, sig);
    }
    assert !Genuine(id, env, sig);
  }

  lemma {:induction false} ForgedGetsNowhere(s: State, acts: seq<Action>, j: nat, n: nat, sig: Signature)
    requires Inv(s) && ValidRun(s, acts) && j < n <= |acts| && acts[j].Start? && acts[j].request.RGate?
    requires Forged(s.cfg.identity, acts[j].request.env, sig)
    ensures var procs, pid := StateAt(s, acts, n).procs, acts[j].pid;
            && StateAt(s, acts, n).cfg == s.cfg && pid in procs
            && (procs[pid] == acts[j].request || procs[pid].Dead? || (procs[pid].Done? && procs[pid].outcome.Errored?))
    decreases n
  {
    var pid, before, env := acts[j].pid, StateAt(s, acts, n - 1), acts[j].request.env;
    StateAtNext(s, acts, n - 1);
    SettingsStay(s, acts, n - 1);
    if j < n - 1 {
      ForgedGetsNowhere(s, acts, j, n - 1, sig);
      if acts[n - 1].Move? && acts[n - 1].pid == pid {
        ForgedIsRefused(s.cfg.identity, env, sig, acts[n - 1].choice.verdicts);
      }
    }
  }

  lemma {:induction false} SettingsStay(s: State, acts: seq<Action>, n: nat)
    requires ValidRun(s, acts) && n <= |acts|
    ensures StateAt(s, acts, n).cfg == s.cfg
    decreases n
  {
    if n > 0 {
      StateAtNext(s, acts, n - 1);
      SettingsStay(s, acts, n - 1);
    }
  }

  /** Over every interleaving: a Receive of an envelope with a forged signature of this
      verifier never gets past the checks, and no token is ever minted for such an envelope,
      so nothing is stored, mailed or posted for it. */
  lemma ForgedIsNeverAdmitted(cfg: Config, acts: seq<Action>, j: nat, sig: Signature)
    requires ValidRun(Init(cfg), acts) && j < |acts| && acts[j].Start? && acts[j].request.RGate?
    requires Forged(cfg.identity, acts[j].request.env, sig)
    ensures var s := Run(Init(cfg), acts);
            && acts[j].pid in s.procs
            && var p := s.procs[acts[j].pid];
               && (p == acts[j].request || p.Dead? || (p.Done? && p.outcome.Errored?))
               && forall t :: t in s.mints ==> s.mints[t].env != acts[j].request.env
  {
    var s := Run(Init(cfg), acts);
    InvInit(cfg);
    ForgedGetsNowhere(Init(cfg), acts, j, |acts|, sig);
    StateAtEnd(Init(cfg), acts);
    RunKeepsInv(Init(cfg), acts);
    forall t | t in s.mints ensures s.mints[t].env != acts[j].request.env {
      assert MintOk(s, t, s.mints[t]);
      ForgedIsRefused(cfg.identity, acts[j].request.env, sig, s.mints[t].verdicts);
    }
  }
}
