/** The verification service as the code runs it, on record objects and the store
    (internal/domain/verifications.go). Every method is proved to take the steps of its
    request in the protocol: `w` is the protocol state the service is in before the method
    and `w'` the one after it, both tracked from the state `start` the request began in. */
module Service {
  import opened Envelopes
  import opened Records
  import opened MemoryStore
  import opened Protocol
  import opened Invariant
  import opened SoloRuns
  import opened Tracking
  import opened Admission

  /** The request's next step is `p`. */
  ghost predicate Trails(start: State, w: State, pid: nat, x: Answers, p: Proc) {
    Tracks(start, w, pid, x) && AtStep(w, pid, p)
  }

  class Verifications {
    const store: MemoryVerifications
    const identity: Identity
    const authority: Address
    /** Mails and posts handed to the outside, ticked forms and refused signatures, in order. */
    var log: seq<Event>

    /** Store, log and settings are those of the protocol state `w`. */
    ghost predicate Mirrors(w: State)
      reads this, store, store.Repr
    {
      && store.Valid() && this !in store.Repr
      && w.store == store.Contents && w.events == log
      && w.cfg == Config(identity, authority)
    }

    constructor (store: MemoryVerifications, identity: Identity, authority: Address)
      requires store.Valid() && store.Contents == map[]
      ensures Mirrors(Init(Config(identity, authority))) && this.store == store
    {
      this.store, this.identity, this.authority := store, identity, authority;
      log := [];
    }

    // ----- Effects, and what they leave alone -----

    method Emit(e: Event, ghost w: State, ghost w': State)
      requires Mirrors(w) && w'.cfg == w.cfg && w'.store == w.store && w'.events == w.events + [e]
      modifies this`log
      ensures Mirrors(w')
    {
      log := log + [e];
    }

    method Save(rec: Verification, rev: string, ghost w: State, ghost w': State) returns (answer: PutAnswer)
      requires Mirrors(w) && rec !in store.Repr
      requires w'.cfg == w.cfg && w'.events == w.events
      requires w'.store == if PutOutcome(w.store, rec.Value()).Stored?
                           then w.store[rec.id := rec.Value().(rev := rev)] else w.store
      modifies store, rec
      ensures Mirrors(w') && rec !in store.Repr && answer == PutOutcome(w.store, old(rec.Value()))
      ensures rec.Value() == if answer.Stored? then old(rec.Value()).(rev := rev) else old(rec.Value())
    {
      answer := store.Put(rec, rev);
    }

    method Load(address: Address, ghost w: State) returns (rec: Verification?)
      requires Mirrors(w)
      ensures Mirrors(w) && (rec == null <==> DocID(address) !in w.store)
      ensures rec != null ==> fresh(rec) && rec !in store.Repr && rec.Value() == w.store[DocID(address)]
    {
      rec := store.Get(address);
    }

    method MarkConfirmed(rec: Verification, at: Time, ghost w: State)
      requires Mirrors(w) && rec !in store.Repr
      modifies rec
      ensures Mirrors(w) && rec.Value() == Attested(old(rec.Value()), at)
    {
      rec.confirmedAt := Some(at);
      rec.status := Confirmed;
    }

    method MarkAttempt(rec: Verification, at: Time, ghost w: State)
      requires Mirrors(w) && rec !in store.Repr
      modifies rec
      ensures Mirrors(w) && rec.Value() == Stamped(old(rec.Value()), at)
    {
      rec.deliveryAttempts := rec.deliveryAttempts + 1;
      rec.lastDeliveryAt := Some(at);
    }

    method MarkOutcome(rec: Verification, ok: bool, text: string, ghost w: State)
      requires Mirrors(w) && rec !in store.Repr
      modifies rec
      ensures Mirrors(w) && rec.Value() == if ok then Sent(old(rec.Value())) else Unsent(old(rec.Value()), text)
    {
      if ok {
        rec.status := Delivered;
        rec.lastDeliveryError := "";
      } else {
        rec.status := Failed;
        rec.lastDeliveryError := text;
      }
    }

    method MarkMailed(rec: Verification, sent: bool, at: Time, text: string, ghost w: State)
      requires Mirrors(w) && rec !in store.Repr
      modifies rec
      ensures Mirrors(w)
      ensures rec.Value() == if sent then MailSent(old(rec.Value()), at) else MailFailed(old(rec.Value()), text)
    {
      if sent {
        rec.emailSentAt := Some(at);
        rec.lastEmailError := "";
      } else {
        rec.lastEmailError := text;
      }
    }

    // ----- Token lookup -----

    method ByToken(token: string, now: Time, ghost w: State) returns (rec: Verification?, error: Error)
      requires Mirrors(w) && DistinctTokens(w.store)
      ensures Mirrors(w)
      ensures match Protocol.ByToken(w.store, token, now)
              case Found(r) => rec != null && fresh(rec) && rec !in store.Repr && rec.Value() == r
              case Missed(e) => rec == null && error == e
      ensures rec != null ==> && rec.token == token != "" && rec.id in w.store && rec.Value() == w.store[rec.id]
                              && (rec.tokenExpiresAt == 0 || now < rec.tokenExpiresAt)
      ensures rec == null ==> if token != "" && exists id :: id in w.store && w.store[id].token == token
                              then error == ErrGone
                                   && forall id :: id in w.store && w.store[id].token == token ==>
                                                     0 != w.store[id].tokenExpiresAt <= now
                              else error == ErrNotFound
    {
      error := ErrNotFound;
      if token == "" {
        return null, ErrNotFound;
      }
      rec := store.GetByToken(token);
      if rec == null {
        return null, ErrNotFound;
      }
      if rec.tokenExpiresAt != 0 && now >= rec.tokenExpiresAt {
        return null, ErrGone;
      }
    }

    // ----- Delivery -----

    /** Countersigns a copy; the stored envelope is not touched. */
    method CountersignedCopy(rec: Verification, c: Choice, ghost w: State) returns (env: Envelope?)
      requires Mirrors(w)
      ensures Mirrors(w)
      ensures env == null <==> !(c.ok && rec.envelope != null && rec.envelope.head.Some?)
      ensures env != null ==> env.Value() == CounterSigned(identity, rec.envelope.Value(), rec.address, c.at)
    {
      if rec.envelope == null {
        return null;
      }
      env := new Envelope(rec.envelope.Value());
      var ok := CounterSign(identity, env, rec.address, c.at, if c.ok then Signed else SignFailed(c.cleared));
      if !ok {
        env := null;
      }
    }

    /** Records a delivery's outcome; a failure to store it is only logged. */
    method BookOutcome(rec: Verification, ok: bool, text: string, who: Caller, x: Answers,
                       ghost start: State, ghost w: State, ghost pid: nat)
      returns (ghost w': State)
      requires Mirrors(w) && rec !in store.Repr
      requires Trails(start, w, pid, x, DBook(if ok then Sent(rec.Value()) else Unsent(rec.Value(), text), who, ok))
      modifies store, rec
      ensures rec !in store.Repr && Mirrors(w')
      ensures Trails(start, w', pid, x, Done(DeliveryResult(rec.Value(), who, ok)))
    {
      MarkOutcome(rec, ok, text, w);
      w' := BooksOutcome(start, w, pid, x, rec.Value(), who, ok);
      var answer := Save(rec, x[1].novel, w, w');
    }

    /** Countersigns, or notes that it failed. */
    method Sign(rec: Verification, who: Caller, x: Answers, ghost start: State, ghost w: State, ghost pid: nat)
      returns (copy: Option<Env>, ghost w': State)
      requires Mirrors(w) && rec !in store.Repr
      requires Trails(start, w, pid, x, DSign(rec.Value(), who))
      modifies this`log
      ensures rec !in store.Repr && Mirrors(w')
      ensures Trails(start, w', pid, x,
                     if copy.Some? then DStamp(rec.Value(), who, copy.value, x[4].at)
                     else DBook(Unsent(rec.Value(), x[4].text), who, false))
    {
      var env := CountersignedCopy(rec, x[4], w);
      w' := Signs(start, w, pid, x, rec.Value(), who);
      if env == null {
        Emit(SignRefused(rec.token, who), w, w');
        return None, w';
      }
      copy := Some(env.Value());
    }

    method Deliver(rec: Verification, who: Caller, x: Answers, ghost start: State, ghost w: State, ghost pid: nat)
      returns (ok: bool, ghost w': State)
      requires Mirrors(w) && rec !in store.Repr
      requires Trails(start, w, pid, x, DSign(rec.Value(), who))
      modifies this`log, store, rec
      ensures rec !in store.Repr && Mirrors(w')
      ensures Trails(start, w', pid, x, Done(DeliveryResult(rec.Value(), who, ok)))
    {
      var copy;
      copy, w' := Sign(rec, who, x, start, w, pid);
      if copy.None? {
        w' := BookOutcome(rec, false, x[4].text, who, x, start, w', pid);
        return false, w';
      }
      w' := CountAttempt(rec, copy.value, who, x, start, w', pid);
      ok, w' := Post(rec, copy.value, who, x, start, w', pid);
    }

    method CountAttempt(rec: Verification, ghost env: Env, ghost who: Caller, x: Answers,
                        ghost start: State, ghost w: State, ghost pid: nat)
      returns (ghost w': State)
      requires Mirrors(w) && rec !in store.Repr
      requires Trails(start, w, pid, x, DStamp(rec.Value(), who, env, x[4].at))
      modifies rec
      ensures Mirrors(w') && Trails(start, w', pid, x, DSend(rec.Value(), who, env, x[4].at))
    {
      w' := Stamps(start, w, pid, x, rec.Value(), who, env, x[4].at);
      MarkAttempt(rec, x[3].at, w');
    }

    /** Posts the countersigned copy to the authority. */
    method Post(rec: Verification, env: Env, who: Caller, x: Answers,
                ghost start: State, ghost w: State, ghost pid: nat)
      returns (ok: bool, ghost w': State)
      requires Mirrors(w) && rec !in store.Repr
      requires Trails(start, w, pid, x, DSend(rec.Value(), who, env, x[4].at))
      modifies this`log, store, rec
      ensures rec !in store.Repr && Mirrors(w')
      ensures Trails(start, w', pid, x, Done(DeliveryResult(rec.Value(), who, ok)))
    {
      w' := Posts(start, w, pid, x, rec.Value(), who, env, x[4].at);
      ok := x[2].ok;
      Emit(Posted(rec.token, authority, who, env, x[4].at, ok), w, w');
      w' := BookOutcome(rec, ok, x[2].text, who, x, start, w', pid);
    }

    // ----- Confirm -----

    method Confirm(token: string, x: Answers, ghost start: State, ghost w: State, ghost pid: nat)
      returns (rec: Verification?, error: Error, ghost w': State)
      requires Mirrors(w) && Trails(start, w, pid, x, CLookup(token))
      modifies this`log, store
      ensures Mirrors(w')
      ensures Trails(start, w', pid, x, Done(if rec != null then ConfirmOk(rec.Value()) else Errored(error)))
    {
      TracksDistinct(start, w, pid, x);
      rec, error := ByToken(token, x[8].at, w);
      w' := LooksUp(start, w, pid, x, token);
      if rec == null || rec.status == Delivered {
        return;
      }
      var who := ByConfirm(x[8].at, false);
      if rec.confirmedAt.None? {
        rec, who, error, w' := Attest(rec, x[8].at, x, start, w', pid);
        if rec == null || rec.status == Delivered {
          return;
        }
      }
      var ok;
      ok, w' := Deliver(rec, who, x, start, w', pid);
      if !ok {
        rec, error := null, ErrUnavailable;
      }
    }

    /** Records the confirmation; when another writer was faster, goes on with what that
        writer stored. */
    method Attest(rec0: Verification, seenAt: Time, x: Answers, ghost start: State, ghost w: State, ghost pid: nat)
      returns (rec: Verification?, who: Caller, error: Error, ghost w': State)
      requires Mirrors(w) && rec0 !in store.Repr && Trails(start, w, pid, x, CAttest(rec0.Value(), seenAt))
      modifies store, rec0
      ensures Mirrors(w') && (rec != null ==> rec !in store.Repr && (rec == rec0 || fresh(rec))) && who.ByConfirm?
      ensures Trails(start, w', pid, x,
                     if rec == null then Done(Errored(error))
                     else if rec.status == Delivered then Done(ConfirmOk(rec.Value()))
                     else DSign(rec.Value(), who))
    {
      rec, who, error := rec0, ByConfirm(seenAt, false), ErrInternal;
      w' := Attests(start, w, pid, x, rec.Value(), seenAt);
      MarkConfirmed(rec, x[7].at, w);
      var token := rec.token;
      var answer := Save(rec, x[6].novel, w, w');
      if answer.Conflict? {
        rec, error, w' := Reread(token, x, start, w', pid);
        who := ByConfirm(x[5].at, true);
      } else if answer.Invalid? {
        rec := null;
      }
    }

    /** Confirm's second lookup, after it lost the write. */
    method Reread(token: string, x: Answers, ghost start: State, ghost w: State, ghost pid: nat)
      returns (rec: Verification?, error: Error, ghost w': State)
      requires Mirrors(w) && Trails(start, w, pid, x, CReread(token))
      ensures Mirrors(w') && (rec != null ==> rec !in store.Repr && fresh(rec))
      ensures Trails(start, w', pid, x,
                     if rec == null then Done(Errored(error))
                     else if rec.status == Delivered then Done(ConfirmOk(rec.Value()))
                     else DSign(rec.Value(), ByConfirm(x[5].at, true)))
    {
      TracksDistinct(start, w, pid, x);
      rec, error := ByToken(token, x[5].at, w);
      w' := Rereads(start, w, pid, x, token);
    }

    // ----- Redeliver -----

    method Redeliver(address: Address, x: Answers, ghost w: State, ghost pid: nat)
      returns (rec: Verification?, error: Error)
      requires Mirrors(w) && Inv(w) && CanArrive(w, pid, XGet(address), x)
      modifies this`log, store
      ensures Inv(Served(w, pid, XGet(address), x)) && Mirrors(Served(w, pid, XGet(address), x))
      ensures AtStep(Served(w, pid, XGet(address), x), pid,
                     Done(if rec != null then RedeliverOk(rec.Value()) else Errored(error)))
    {
      ghost var start := Begins(w, pid, XGet(address), x);
      ghost var w';
      rec, error, w' := RedeliverStored(address, x, start, pid);
      Ends(w, pid, XGet(address), x, w', if rec != null then RedeliverOk(rec.Value()) else Errored(error));
    }

    method RedeliverStored(address: Address, x: Answers, ghost start: State, ghost pid: nat)
      returns (rec: Verification?, error: Error, ghost w': State)
      requires Mirrors(start) && Trails(start, start, pid, x, XGet(address))
      modifies this`log, store
      ensures Mirrors(w')
      ensures Trails(start, w', pid, x, Done(if rec != null then RedeliverOk(rec.Value()) else Errored(error)))
    {
      rec, error, w' := LoadConfirmed(address, x, start, pid);
      if rec == null {
        return;
      }
      var ok;
      ok, w' := Deliver(rec, ByRedeliver, x, start, w', pid);
      if !ok {
        rec, error := null, ErrInternal;
      }
    }

    method LoadConfirmed(address: Address, x: Answers, ghost start: State, ghost pid: nat)
      returns (rec: Verification?, error: Error, ghost w': State)
      requires Mirrors(start) && Trails(start, start, pid, x, XGet(address))
      ensures Mirrors(w') && (rec != null ==> fresh(rec) && rec !in store.Repr)
      ensures Trails(start, w', pid, x, if rec == null then Done(Errored(error)) else DSign(rec.Value(), ByRedeliver))
    {
      error := ErrInternal;
      rec := Load(address, start);
      w' := RedeliverReads(start, start, pid, x, address);
      if rec == null {
        return null, ErrNotFound, w';
      }
      if rec.confirmedAt.None? {
        return null, ErrValidation, w';
      }
    }

    // ----- Receive -----

    /** Receive's checks, in order, with the answers of the libraries it asks. */
    method Check(env: Envelope, v: Verdicts, ghost w: State) returns (answer: GateAnswer)
      requires Mirrors(w) && (v.valid ==> env.head.Some?)
      ensures Mirrors(w) && answer == Gates(identity, env.Value(), v)
      ensures answer.Admitted? <==>
              && v.valid && v.party.PartyOk? && v.authority == AuthorityOk
              && (forall k :: 0 <= k < |env.signatures| && env.signatures[k].issuer == Claims(identity.address) ==>
                    exists i :: && 0 <= i < |identity.publicKeys|
                                && identity.publicKeys[i].kid == env.signatures[k].kid
                                && (forall j :: 0 <= j < i ==> identity.publicKeys[j].kid != env.signatures[k].kid)
                                && Verifies(env.head.value, env.signatures[k], identity.publicKeys[i]))
              && exists n :: 0 <= n < |env.party.emails| && env.party.emails[n] !in {None, Some("")}
      ensures answer.Admitted? ==>
                && v.party == PartyOk(answer.subject) && answer.email != ""
                && exists n :: && 0 <= n < |env.party.emails| && env.party.emails[n] == Some(answer.email)
                               && forall m :: 0 <= m < n ==> env.party.emails[m] in {None, Some("")}
    {
      AdmissionExactly(identity, env.Value(), v);
      if !v.valid {
        return Refused(ErrValidation);
      }
      match v.party
      case PartyUnavailable => return Refused(ErrUnavailable);
      case PartyMissing => return Refused(ErrValidation);
      case PartyInvalid => return Refused(ErrUnauthorized);
      case PartyOk(subject) =>
        var own := VerifyOwnSignatures(identity, env);
        if !own {
          return Refused(ErrUnauthorized);
        }
        match v.authority {
          case AuthorityUnavailable => return Refused(ErrUnavailable);
          case AuthorityMissing => return Refused(ErrForbidden);
          case AuthorityOk =>
            var email := FindPartyEmail(env.party);
            if email == "" {
              return Refused(ErrValidation);
            }
            return Admitted(subject, email);
        }
    }

    method Receive(env: Envelope, x: Answers, ghost w: State, ghost pid: nat)
      returns (rec: Verification?, error: Error)
      requires Mirrors(w) && Inv(w) && CanArrive(w, pid, RGate(env.Value()), x)
      modifies this`log, store
      ensures Inv(Served(w, pid, RGate(env.Value()), x)) && Mirrors(Served(w, pid, RGate(env.Value()), x))
      ensures AtStep(Served(w, pid, RGate(env.Value()), x), pid,
                     Done(if rec != null then ReceiveOk(rec.Value()) else Errored(error)))
    {
      ghost var start := Begins(w, pid, RGate(env.Value()), x);
      ghost var w';
      rec, error, w' := ReceiveChecked(env, x, start, pid);
      Ends(w, pid, RGate(env.Value()), x, w', if rec != null then ReceiveOk(rec.Value()) else Errored(error));
    }

    method ReceiveChecked(env: Envelope, x: Answers, ghost start: State, ghost pid: nat)
      returns (rec: Verification?, error: Error, ghost w': State)
      requires Mirrors(start) && Trails(start, start, pid, x, RGate(env.Value()))
      requires x[6].verdicts.valid ==> env.head.Some?
      modifies this`log, store
      ensures Mirrors(w')
      ensures Trails(start, w', pid, x, Done(if rec != null then ReceiveOk(rec.Value()) else Errored(error)))
    {
      rec, error, w' := Accept(env, x, start, pid);
      if rec == null {
        return;
      }
      var sent;
      sent, w' := SendConfirmation(rec, x, start, w', pid);
      if !sent {
        rec, error := null, ErrInternal;
      }
    }

    /** Checks the envelope and stores the record it asks for. */
    method Accept(env: Envelope, x: Answers, ghost start: State, ghost pid: nat)
      returns (rec: Verification?, error: Error, ghost w': State)
      requires Mirrors(start) && Trails(start, start, pid, x, RGate(env.Value()))
      requires x[6].verdicts.valid ==> env.head.Some?
      modifies store
      ensures Mirrors(w') && (rec != null ==> fresh(rec) && rec !in store.Repr)
      ensures Trails(start, w', pid, x, if rec == null then Done(Errored(error)) else RClock(rec.Value()))
    {
      var answer := Check(env, x[6].verdicts, start);
      w' := Gated(start, start, pid, x, env.Value(), answer);
      if answer.Refused? {
        return null, answer.error, w';
      }
      error := ErrInternal;
      rec, w' := Upsert(env, answer.subject, answer.email, x, start, w', pid);
    }

    /** Every submission starts over: new token, new expiry, nothing confirmed or delivered. */
    method Upsert(env: Envelope, subject: Address, email: string, x: Answers,
                  ghost start: State, ghost w: State, ghost pid: nat)
      returns (rec: Verification?, ghost w': State)
      requires Mirrors(w)
      requires Trails(start, w, pid, x, if x[6].ok then RGet(Minted(subject, email, env.Value(), x[6].novel, x[6].at))
                                        else Done(Errored(ErrInternal)))
      modifies store
      ensures Mirrors(w') && (rec != null ==> fresh(rec) && rec !in store.Repr)
      ensures Trails(start, w', pid, x, if rec != null then RClock(rec.Value()) else Done(Errored(ErrInternal)))
    {
      w' := w;
      if !x[6].ok {
        return null, w';
      }
      rec := NewRecord(subject, email, env, x[6].novel, x[6].at, w);
      w' := Upserts(start, w, pid, x, rec.Value());
      Inherit(rec, w);
      var answer := Save(rec, x[4].novel, w, w');
      if !answer.Stored? {
        rec := null;
      }
    }

    /** A fresh record under a new token. */
    method NewRecord(subject: Address, email: string, env: Envelope, token: string, now: Time, ghost w: State)
      returns (rec: Verification)
      requires Mirrors(w)
      ensures Mirrors(w) && fresh(rec) && rec !in store.Repr
      ensures rec.Value() == Minted(subject, email, env.Value(), token, now)
      ensures rec.id == "verification:" + subject && rec.address == subject && rec.email == email
      ensures rec.token == token && rec.receivedAt == now && rec.tokenExpiresAt == now + 72 * HOUR
      ensures rec.status == Pending && rec.confirmedAt.None? && rec.deliveryAttempts == 0 && rec.envelope == env
    {
      rec := new Verification.New(subject, email, env, now);
      rec.token := token;
      rec.tokenExpiresAt := rec.receivedAt + CONFIRM_TOKEN_TTL;
    }

    /** Takes over the revision of the record stored for the same address. */
    method Inherit(rec: Verification, ghost w: State)
      requires Mirrors(w) && rec !in store.Repr && rec.id == DocID(rec.address)
      modifies rec
      ensures Mirrors(w)
      ensures rec.Value() == if rec.id in w.store then old(rec.Value()).(rev := w.store[rec.id].rev)
                             else old(rec.Value())
    {
      var prev := Load(rec.address, w);
      if prev != null {
        rec.rev := prev.rev;
      }
    }

    /** Sends the mail and notes the outcome; a failure to store the note is only logged. */
    method SendConfirmation(rec: Verification, x: Answers, ghost start: State, ghost w: State, ghost pid: nat)
      returns (sent: bool, ghost w': State)
      requires Mirrors(w) && rec !in store.Repr && Trails(start, w, pid, x, RClock(rec.Value()))
      modifies this`log, store, rec
      ensures rec !in store.Repr && Mirrors(w')
      ensures Trails(start, w', pid, x, Done(if sent then ReceiveOk(rec.Value()) else Errored(ErrInternal)))
    {
      w' := Mails(start, w, pid, x, rec.Value());
      sent := x[2].ok;
      Emit(Mailed(rec.token, rec.email, sent), w, w');
      MarkMailed(rec, sent, x[3].at, x[2].text, w');
      ghost var w1 := w';
      w' := BooksMail(start, w1, pid, x, rec.Value(), sent);
      var answer := Save(rec, x[1].novel, w1, w');
    }
  }
}
