/** What holds in every reachable state of the protocol, and the proof that each step
    of each process keeps it. */
module Invariant {
  import opened Envelopes
  import opened Records
  import opened Protocol

  // ----- The log -----

  /** What is counted in the log, per token. */
  datatype Kind = Post | ConfirmSuccess | RedeliverFailure

  predicate Counts(e: Event, token: string, kind: Kind) {
    && e.token == token
    && match kind
       case Post => e.Posted?
       case ConfirmSuccess => e.Posted? && e.who.ByConfirm? && e.ok
       case RedeliverFailure => (e.SignRefused? && e.who.ByRedeliver?) || (e.Posted? && e.who.ByRedeliver? && !e.ok)
  }

  function Count(events: seq<Event>, token: string, kind: Kind): nat {
    if events == [] then 0
    else Count(events[..|events| - 1], token, kind)
         + (if Counts(events[|events| - 1], token, kind) then 1 else 0)
  }

  /** Posts to the authority made for a token so far. */
  function Attempts(events: seq<Event>, token: string): nat {
    Count(events, token, Post)
  }

  lemma CountAppend(events: seq<Event>, e: Event, token: string, kind: Kind)
    ensures Count(events + [e], token, kind) == Count(events, token, kind) + (if Counts(e, token, kind) then 1 else 0)
  {
    assert (events + [e])[..|events|] == events;
  }

  /** The authority answered a post for this token with success. */
  ghost predicate Succeeded(events: seq<Event>, token: string) {
    exists e :: e in events && e.Posted? && e.token == token && e.ok
  }

  ghost predicate MailedOut(events: seq<Event>, token: string, to: string) {
    Mailed(token, to, true) in events
  }

  // ----- Records, processes, events -----

  /** The record carries what its token was minted for. */
  predicate Bound(m: Mint, r: Rec) {
    && r.id == DocID(m.address) && r.address == m.address
    && r.email == m.email
    && r.envelope == Some(m.env)
    && r.envelopeUUID == EnvelopeUUID(Some(m.env)) && r.envelopeDigest == EnvelopeDigest(Some(m.env))
    && r.receivedAt == m.receivedAt
    && r.tokenExpiresAt == m.receivedAt + CONFIRM_TOKEN_TTL
  }

  /** A record as a Receive mints it, before its first write. */
  predicate Untouched(r: Rec) {
    && r.status == Pending && r.confirmedAt.None?
    && r.emailSentAt.None? && r.lastEmailError == ""
    && r.deliveryAttempts == 0 && r.lastDeliveryAt.None? && r.lastDeliveryError == ""
  }

  predicate TokenBound(s: State, r: Rec) {
    r.token in s.mints && Bound(s.mints[r.token], r)
  }

  /** What every stored version says is true of the log. */
  ghost predicate RecInv(s: State, r: Rec) {
    && Invalidity(r).None?
    && TokenBound(s, r)
    && (r.status != Pending || r.confirmedAt.Some? ==> Accepted(r.token) in s.events)
    && (r.status == Pending ==> r.confirmedAt.None? && r.deliveryAttempts == 0 && r.lastDeliveryError == "")
    && (r.status == Confirmed ==> r.confirmedAt.Some?)
    && (r.status == Delivered ==> Succeeded(s.events, r.token) && r.deliveryAttempts >= 1 && r.lastDeliveryError == "")
    && (r.status == Failed ==> r.lastDeliveryError != "")
    && r.deliveryAttempts <= Attempts(s.events, r.token)
    && (r.deliveryAttempts > 0 <==> r.lastDeliveryAt.Some?)
    && (r.emailSentAt.Some? ==> r.lastEmailError == "" && MailedOut(s.events, r.token, r.email))
  }

  /** Apart from its revision, `next` is `prev` after one outcome of a delivery. */
  predicate Outcomes(prev: Rec, next: Rec) {
    && next == prev.(rev := next.rev, status := next.status, deliveryAttempts := next.deliveryAttempts,
                     lastDeliveryAt := next.lastDeliveryAt, lastDeliveryError := next.lastDeliveryError)
    && (next.status == Delivered || next.status == Failed)
    && ((next.deliveryAttempts == prev.deliveryAttempts + 1 && next.lastDeliveryAt.Some?)
        || (&& next.status == Failed
            && next.deliveryAttempts == prev.deliveryAttempts && next.lastDeliveryAt == prev.lastDeliveryAt))
  }

  /** How a version may follow the version before it on the same document, by who wrote it:
      each writer changes its own fields only. */
  predicate Successor(prev: Rec, e: Entry) {
    var next := e.rec;
    && next.id == prev.id && next.address == prev.address
    && match e.writer
       case Upsert => next.token != prev.token && Untouched(next)
       case Bookkeeping =>
         && prev.status == Pending && prev.emailSentAt.None?
         && next == prev.(rev := next.rev, emailSentAt := next.emailSentAt, lastEmailError := next.lastEmailError)
       case Attestation =>
         && prev.confirmedAt.None? && prev.status != Delivered
         && next.confirmedAt.Some? && next.status == Confirmed
         && next == prev.(rev := next.rev, confirmedAt := next.confirmedAt, status := next.status)
       case DeliveryOutcome(who) =>
         && Outcomes(prev, next)
         && (who.ByConfirm? ==> prev.status != Delivered)
         && (who.ByRedeliver? ==> prev.confirmedAt.Some?)
  }

  /** Within the window in which the emailed link works. */
  predicate InWindow(s: State, token: string, seenAt: Time)
    requires token in s.mints
  {
    s.mints[token].receivedAt <= seenAt < s.mints[token].receivedAt + CONFIRM_TOKEN_TTL
  }

  /** The local copy is a stored version, found under its own revision. */
  ghost predicate Copy(s: State, r: Rec) {
    r.rev in s.written && s.written[r.rev] == r
  }

  /** The local copy `r` may be delivered: it belongs to an accepted token, and its caller
      has seen the token live, or its confirmation. */
  ghost predicate Deliverable(s: State, base: Rec, who: Caller) {
    && TokenBound(s, base)
    && Accepted(base.token) in s.events
    && match who
       case ByConfirm(seenAt, reread) =>
         base.status != Delivered && InWindow(s, base.token, seenAt) && (!reread ==> base.confirmedAt.Some?)
       case ByRedeliver => base.confirmedAt.Some?
  }

  predicate Countersigned(s: State, token: string, env: Env, signedAt: Time)
    requires token in s.mints
  {
    && s.mints[token].env.head.Some?
    && env == CounterSigned(s.cfg.identity, s.mints[token].env, s.mints[token].address, signedAt)
  }

  ghost predicate OutcomeInv(s: State, o: Outcome) {
    match o
    case ReceiveOk(r) =>
      && r.token in s.mints && r.email == s.mints[r.token].email
      && MailedOut(s.events, r.token, r.email)
      && exists rev :: rev in s.written && s.written[rev].token == r.token && Untouched(s.written[rev])
    case ConfirmOk(r) => r.status == Delivered && Succeeded(s.events, r.token)
    case RedeliverOk(r) => r.status == Delivered && Succeeded(s.events, r.token)
    case Unticked => true
    case Errored(_) => true
  }

  /** Each process's local copy, as the version it was read from or written as and the
      fields changed since. */
  ghost predicate ProcInv(s: State, p: Proc) {
    match p
    case RGate(_) => true
    case RGet(r) => TokenBound(s, r) && Untouched(r) && r.email != "" && r.token != "" && r.rev == ""
    case RPut(r) => TokenBound(s, r) && Untouched(r) && r.email != "" && r.token != ""
    case RClock(r) => Copy(s, r) && Untouched(r)
    case RMail(r, at) => Copy(s, r) && Untouched(r)
    case RBook(r, sent) =>
      && r.rev in s.written && Untouched(s.written[r.rev])
      && r == s.written[r.rev].(emailSentAt := r.emailSentAt, lastEmailError := r.lastEmailError)
      && (sent ==> r.emailSentAt.Some? && r.lastEmailError == "" && MailedOut(s.events, r.token, r.email))
      && (!sent ==> r.emailSentAt.None? && r.lastEmailError != "")
    case HGate(_, _) => true
    case CLookup(token) => Accepted(token) in s.events
    case CAttest(r, seenAt) =>
      && Copy(s, r) && r.confirmedAt.None?
      && Deliverable(s, r, ByConfirm(seenAt, true))
    case CPut(r, seenAt) =>
      && r.rev in s.written && s.written[r.rev].confirmedAt.None?
      && Deliverable(s, s.written[r.rev], ByConfirm(seenAt, true))
      && r.confirmedAt.Some? && r == Attested(s.written[r.rev], r.confirmedAt.value)
    case CReread(token) => Accepted(token) in s.events
    case XGet(_) => true
    case DSign(r, who) => Copy(s, r) && Deliverable(s, r, who)
    case DStamp(r, who, env, signedAt) =>
      && Copy(s, r) && Deliverable(s, r, who)
      && Countersigned(s, r.token, env, signedAt)
    case DSend(r, who, env, signedAt) =>
      && r.rev in s.written && Deliverable(s, s.written[r.rev], who)
      && r.lastDeliveryAt.Some? && r == Stamped(s.written[r.rev], r.lastDeliveryAt.value)
      && Countersigned(s, r.token, env, signedAt)
    case DBook(r, who, sent) =>
      && r.rev in s.written && Deliverable(s, s.written[r.rev], who)
      && Outcomes(s.written[r.rev], r)
      && r.deliveryAttempts <= Attempts(s.events, r.token)
      && (sent <==> r.status == Delivered)
      && (sent ==> r.lastDeliveryError == "" && Succeeded(s.events, r.token))
      && (sent ==> r.deliveryAttempts >= 1)
      && (!sent ==> r.lastDeliveryError != "")
    case Done(o) => OutcomeInv(s, o)
    case Dead => true
  }

  predicate EventOk(s: State, e: Event, earlier: seq<Event>) {
    && e.token in s.mints
    && match e
       case Accepted(_) => true
       case Mailed(token, to, _) => to == s.mints[token].email
       case SignRefused(token, who) => Accepted(token) in earlier
       case Posted(token, to, who, env, signedAt, _) =>
         && to == s.cfg.authority
         && Accepted(token) in earlier
         && Countersigned(s, token, env, signedAt)
         && (who.ByConfirm? ==> InWindow(s, token, who.seenAt))
  }

  predicate MintOk(s: State, token: string, m: Mint) {
    && token != "" && m.receivedAt <= s.clock
    && Gates(s.cfg.identity, m.env, m.verdicts) == Admitted(m.address, m.email)
    && m.email != "" && m.email == PartyEmail(m.env.party)
    && m.env.head.Some?
  }

  // ----- The invariant -----

  /** The token of a Receive that has not written its record yet. */
  predicate Minting(p: Proc, token: string) {
    (p.RGet? || p.RPut?) && p.rec.token == token
  }

  /** No stored version and no event knows the token. */
  ghost predicate Unborn(s: State, token: string) {
    && (forall rev :: rev in s.written ==> s.written[rev].token != token)
    && (forall e :: e in s.events ==> e.token != token)
  }

  /** Version `i` follows the one before it, and brings back no earlier token. */
  predicate Follows(h: seq<Entry>, i: int)
    requires 0 < i < |h|
  {
    && Successor(h[i - 1].rec, h[i])
    && (h[i].rec.token != h[i - 1].rec.token ==> forall k :: 0 <= k < i ==> h[k].rec.token != h[i].rec.token)
  }

  /** One document's versions form a single line that ends in the stored record, and a
      token that stops being the current one does not come back. */
  predicate Line(h: seq<Entry>) {
    forall i :: 0 < i < |h| ==> Follows(h, i)
  }

  ghost predicate HistoryInv(s: State, id: string)
    requires id in s.history
  {
    var h := s.history[id];
    && h != [] && id in s.store && h[|h| - 1].rec == s.store[id]
    && Line(h)
    && h[0].writer == Upsert && Untouched(h[0].rec)
    && forall i :: 0 <= i < |h| ==> h[i].rec.id == id && Copy(s, h[i].rec)
  }

  ghost predicate Mints(s: State) {
    forall t {:trigger MintOk(s, t, s.mints[t])} :: t in s.mints ==> MintOk(s, t, s.mints[t])
  }
  ghost predicate Versions(s: State) {
    forall rev {:trigger RecInv(s, s.written[rev])} ::
      rev in s.written ==> rev != "" && s.written[rev].rev == rev && RecInv(s, s.written[rev])
  }
  ghost predicate Stores(s: State) {
    forall id {:trigger Copy(s, s.store[id])} :: id in s.store ==> s.store[id].id == id && Copy(s, s.store[id])
  }
  ghost predicate Procs(s: State) {
    forall pid {:trigger ProcInv(s, s.procs[pid])} :: pid in s.procs ==> ProcInv(s, s.procs[pid])
  }
  ghost predicate FreshTokens(s: State) {
    forall pid :: pid in s.procs && (s.procs[pid].RGet? || s.procs[pid].RPut?) ==>
                    && Unborn(s, s.procs[pid].rec.token)
                    && forall q :: q in s.procs && q != pid ==> !Minting(s.procs[q], s.procs[pid].rec.token)
  }
  predicate EventAt(s: State, i: int)
    requires 0 <= i < |s.events|
  {
    EventOk(s, s.events[i], s.events[..i])
  }
  ghost predicate Events(s: State) {
    forall i :: 0 <= i < |s.events| ==> EventAt(s, i)
  }
  ghost predicate Histories(s: State) {
    && s.history.Keys == s.store.Keys
    && forall id :: id in s.history ==> HistoryInv(s, id)
  }

  ghost predicate Inv(s: State) {
    && Mints(s) && Versions(s) && Stores(s) && Procs(s) && FreshTokens(s) && Events(s) && Histories(s)
  }

  lemma InvInit(cfg: Config)
    ensures Inv(Init(cfg))
  {
  }

  // ----- History only grows, and what holds of it stays true -----

  predicate Grows(s: State, s': State) {
    && s'.cfg == s.cfg && s.clock <= s'.clock
    && (forall t :: t in s.mints ==> t in s'.mints && s'.mints[t] == s.mints[t])
    && (forall rev :: rev in s.written ==> rev in s'.written && s'.written[rev] == s.written[rev])
    && s.events <= s'.events
  }

  lemma InPrefix<T>(a: seq<T>, b: seq<T>, x: T)
    requires a <= b && x in a
    ensures x in b
  {
    var i :| 0 <= i < |a| && a[i] == x;
    assert b[i] == x;
  }

  lemma {:induction false} CountMonotone(a: seq<Event>, b: seq<Event>, token: string, kind: Kind)
    requires a <= b
    ensures Count(a, token, kind) <= Count(b, token, kind)
    decreases |b|
  {
    if |a| < |b| {
      assert a <= b[..|b| - 1];
      CountMonotone(a, b[..|b| - 1], token, kind);
    } else {
      assert a == b;
    }
  }

  lemma LogMonotone(s: State, s': State, token: string, to: string)
    requires Grows(s, s')
    ensures Accepted(token) in s.events ==> Accepted(token) in s'.events
    ensures MailedOut(s.events, token, to) ==> MailedOut(s'.events, token, to)
    ensures Succeeded(s.events, token) ==> Succeeded(s'.events, token)
    ensures Attempts(s.events, token) <= Attempts(s'.events, token)
  {
    CountMonotone(s.events, s'.events, token, Post);
    forall e | e in s.events ensures e in s'.events {
      InPrefix(s.events, s'.events, e);
    }
  }

  lemma RecInvMonotone(s: State, s': State, r: Rec)
    requires Grows(s, s') && RecInv(s, r)
    ensures RecInv(s', r)
  {
    LogMonotone(s, s', r.token, r.email);
  }

  lemma DeliverableMonotone(s: State, s': State, base: Rec, who: Caller)
    requires Grows(s, s') && Deliverable(s, base, who)
    ensures Deliverable(s', base, who)
  {
    LogMonotone(s, s', base.token, base.email);
  }

  lemma OutcomeInvMonotone(s: State, s': State, o: Outcome)
    requires Grows(s, s') && OutcomeInv(s, o)
    ensures OutcomeInv(s', o)
  {
    match o
    case ReceiveOk(r) =>
      LogMonotone(s, s', r.token, r.email);
      var rev :| rev in s.written && s.written[rev].token == r.token && Untouched(s.written[rev]);
      assert rev in s'.written && s'.written[rev] == s.written[rev];
    case ConfirmOk(r) => LogMonotone(s, s', r.token, "");
    case RedeliverOk(r) => LogMonotone(s, s', r.token, "");
    case Unticked =>
    case Errored(_) =>
  }

  lemma DeliveryInvMonotone(s: State, s': State, p: Proc)
    requires Grows(s, s') && ProcInv(s, p) && (p.DSign? || p.DStamp? || p.DSend? || p.DBook?)
    ensures ProcInv(s', p)
  {
    DeliverableMonotone(s, s', s.written[p.rec.rev], p.who);
    LogMonotone(s, s', p.rec.token, p.rec.email);
  }

  lemma ConfirmInvMonotone(s: State, s': State, p: Proc)
    requires Grows(s, s') && ProcInv(s, p) && (p.CLookup? || p.CReread? || p.CAttest? || p.CPut?)
    ensures ProcInv(s', p)
  {
    if p.CLookup? || p.CReread? {
      LogMonotone(s, s', p.token, "");
    } else {
      DeliverableMonotone(s, s', s.written[p.rec.rev], ByConfirm(p.seenAt, true));
    }
  }

  lemma ProcInvMonotone(s: State, s': State, p: Proc)
    requires Grows(s, s') && ProcInv(s, p)
    ensures ProcInv(s', p)
  {
    if p.DSign? || p.DStamp? || p.DSend? || p.DBook? {
      DeliveryInvMonotone(s, s', p);
    } else if p.CLookup? || p.CReread? || p.CAttest? || p.CPut? {
      ConfirmInvMonotone(s, s', p);
    } else if p.RBook? {
      LogMonotone(s, s', p.rec.token, p.rec.email);
    } else if p.Done? {
      OutcomeInvMonotone(s, s', p.outcome);
    }
  }

  // ----- One step -----

  /** What a write must meet. */
  ghost predicate WriteOk(s: State, pid: nat, c: Choice, e: Entry) {
    && e.rec.rev == c.novel && RecInv(s, e.rec)
    && (forall q :: q in s.procs && q != pid ==> !Minting(s.procs[q], e.rec.token))
    && if e.rec.id in s.store
       then Successor(s.store[e.rec.id], e)
            && (e.rec.token != s.store[e.rec.id].token ==> Unborn(s, e.rec.token))
       else e.writer == Upsert && Untouched(e.rec)
  }

  /** A process about to hold a minted token is the only one to know it. */
  ghost predicate HoldsOk(s: State, pid: nat, t: Turn) {
    t.next.RGet? || t.next.RPut? ==>
      && t.event.None? && t.write.None?
      && Unborn(s, t.next.rec.token)
      && forall q :: q in s.procs && q != pid ==> !Minting(s.procs[q], t.next.rec.token)
  }

  /** What a turn must meet for its effect to keep the invariant. */
  ghost predicate TurnOk(s: State, pid: nat, c: Choice, t: Turn) {
    && (t.event.Some? ==> EventOk(s, t.event.value, s.events) && !Unborn(s, t.event.value.token))
    && (t.mint.Some? ==> MintOk(s.(clock := c.at), c.novel, t.mint.value))
    && (t.write.Some? ==> t.event.None? && t.mint.None? && WriteOk(s, pid, c, t.write.value))
    && ProcInv(Apply(s, pid, c, t), t.next)
    && HoldsOk(s, pid, t)
  }

  /** The environment's answer is fair, as far as the turn uses it. */
  predicate FairFor(s: State, c: Choice, t: Turn) {
    && c.at >= s.clock
    && (t.write.Some? || t.mint.Some? ==> c.novel != "" && c.novel !in s.mints && c.novel !in s.written)
  }

  lemma ApplyGrows(s: State, pid: nat, c: Choice, t: Turn)
    requires FairFor(s, c, t)
    requires t.write.Some? ==> t.write.value.rec.rev == c.novel
    ensures Grows(s, Apply(s, pid, c, t))
  {
  }

  lemma ApplyKeepsMints(s: State, pid: nat, c: Choice, t: Turn)
    requires Mints(s) && FairFor(s, c, t)
    requires t.mint.Some? ==> MintOk(s.(clock := c.at), c.novel, t.mint.value)
    ensures Mints(Apply(s, pid, c, t))
  {
    var s' := Apply(s, pid, c, t);
    forall m | m in s'.mints ensures MintOk(s', m, s'.mints[m]) {
      if m in s.mints && !(t.mint.Some? && m == c.novel) {
        assert MintOk(s, m, s.mints[m]);
      }
    }
  }

  lemma ApplyKeepsVersions(s: State, pid: nat, c: Choice, t: Turn)
    requires Versions(s) && FairFor(s, c, t)
    requires t.write.Some? ==> t.write.value.rec.rev == c.novel && RecInv(s, t.write.value.rec)
    ensures Versions(Apply(s, pid, c, t))
  {
    var s' := Apply(s, pid, c, t);
    ApplyGrows(s, pid, c, t);
    forall rev | rev in s'.written ensures rev != "" && s'.written[rev].rev == rev && RecInv(s', s'.written[rev]) {
      if rev in s.written {
        assert s'.written[rev] == s.written[rev];
      }
      RecInvMonotone(s, s', s'.written[rev]);
    }
  }

  lemma ApplyKeepsStores(s: State, pid: nat, c: Choice, t: Turn)
    requires Stores(s) && FairFor(s, c, t)
    requires t.write.Some? ==> t.write.value.rec.rev == c.novel
    ensures Stores(Apply(s, pid, c, t))
  {
    var s' := Apply(s, pid, c, t);
    forall id | id in s'.store ensures s'.store[id].id == id && Copy(s', s'.store[id]) {
      if !(t.write.Some? && id == t.write.value.rec.id) {
        assert s'.store[id] == s.store[id] && Copy(s, s.store[id]);
      }
    }
  }

  lemma ApplyKeepsProcs(s: State, pid: nat, c: Choice, t: Turn)
    requires Procs(s) && FairFor(s, c, t)
    requires t.write.Some? ==> t.write.value.rec.rev == c.novel
    requires ProcInv(Apply(s, pid, c, t), t.next)
    ensures Procs(Apply(s, pid, c, t))
  {
    var s' := Apply(s, pid, c, t);
    ApplyGrows(s, pid, c, t);
    forall p | p in s'.procs ensures ProcInv(s', s'.procs[p]) {
      if p != pid {
        ProcInvMonotone(s, s', s.procs[p]);
      }
    }
  }

  lemma ApplyKeepsEvents(s: State, pid: nat, c: Choice, t: Turn)
    requires Events(s) && FairFor(s, c, t)
    requires t.event.Some? ==> EventOk(s, t.event.value, s.events)
    ensures Events(Apply(s, pid, c, t))
  {
    var s' := Apply(s, pid, c, t);
    forall i | 0 <= i < |s'.events| ensures EventAt(s', i) {
      if i < |s.events| {
        assert s'.events[i] == s.events[i] && s'.events[..i] == s.events[..i];
        assert EventAt(s, i);
      } else {
        assert s'.events[..i] == s.events;
      }
    }
  }

  lemma UnbornStays(s: State, pid: nat, c: Choice, t: Turn, token: string)
    requires Unborn(s, token)
    requires t.event.Some? ==> t.event.value.token != token
    requires t.write.Some? ==> t.write.value.rec.token != token
    ensures Unborn(Apply(s, pid, c, t), token)
  {
  }

  lemma ApplyKeepsTokens(s: State, pid: nat, c: Choice, t: Turn)
    requires FreshTokens(s) && HoldsOk(s, pid, t)
    requires t.event.Some? ==> !Unborn(s, t.event.value.token)
    requires t.write.Some? ==> forall q :: q in s.procs && q != pid ==> !Minting(s.procs[q], t.write.value.rec.token)
    ensures FreshTokens(Apply(s, pid, c, t))
  {
    var s' := Apply(s, pid, c, t);
    forall p | p in s'.procs && (s'.procs[p].RGet? || s'.procs[p].RPut?)
      ensures Unborn(s', s'.procs[p].rec.token)
      ensures forall q :: q in s'.procs && q != p ==> !Minting(s'.procs[q], s'.procs[p].rec.token)
    {
      var token := s'.procs[p].rec.token;
      if p != pid {
        assert Minting(s.procs[p], token);
      }
      UnbornStays(s, pid, c, t, token);
    }
  }

  lemma LineAppend(h: seq<Entry>, e: Entry)
    requires Line(h) && h != [] && Successor(h[|h| - 1].rec, e)
    requires e.rec.token == h[|h| - 1].rec.token || forall k :: 0 <= k < |h| ==> h[k].rec.token != e.rec.token
    ensures Line(h + [e])
  {
    var h' := h + [e];
    forall i | 0 < i < |h'| ensures Follows(h', i) {
      if i < |h| {
        assert Follows(h, i) && h'[i - 1] == h[i - 1] && h'[i] == h[i];
      }
    }
  }

  lemma HistoryStays(s: State, s': State, id: string)
    requires Grows(s, s') && id in s.history && HistoryInv(s, id)
    requires id in s'.history && s'.history[id] == s.history[id]
    requires id in s'.store && s'.store[id] == s.store[id]
    ensures HistoryInv(s', id)
  {
  }

  lemma HistoryExtends(s: State, s': State, id: string, e: Entry)
    requires Grows(s, s') && id in s.history && HistoryInv(s, id)
    requires e.rec.id == id && Copy(s', e.rec) && Successor(s.store[id], e)
    requires e.rec.token != s.store[id].token ==> Unborn(s, e.rec.token)
    requires id in s'.history && s'.history[id] == s.history[id] + [e]
    requires id in s'.store && s'.store[id] == e.rec
    ensures HistoryInv(s', id)
  {
    var h := s.history[id];
    if e.rec.token != s.store[id].token {
      forall k | 0 <= k < |h| ensures h[k].rec.token != e.rec.token {
        assert Copy(s, h[k].rec);
      }
    }
    LineAppend(h, e);
  }

  lemma HistoryStarts(s: State, id: string, e: Entry)
    requires e.rec.id == id && Copy(s, e.rec) && e.writer == Upsert && Untouched(e.rec)
    requires id in s.history && s.history[id] == [e]
    requires id in s.store && s.store[id] == e.rec
    ensures HistoryInv(s, id)
  {
  }

  lemma ApplyKeepsHistory(s: State, pid: nat, c: Choice, t: Turn, id: string)
    requires Histories(s) && FairFor(s, c, t) && t.write.Some? && id == t.write.value.rec.id
    requires WriteOk(s, pid, c, t.write.value)
    ensures HistoryInv(Apply(s, pid, c, t), id)
  {
    var s', e := Apply(s, pid, c, t), t.write.value;
    ApplyGrows(s, pid, c, t);
    if id in s.store {
      assert HistoryInv(s, id);
      HistoryExtends(s, s', id, e);
    } else {
      assert s'.history[id] == [e];
      HistoryStarts(s', id, e);
    }
  }

  lemma ApplyKeepsHistories(s: State, pid: nat, c: Choice, t: Turn)
    requires Histories(s) && FairFor(s, c, t)
    requires t.write.Some? ==> WriteOk(s, pid, c, t.write.value)
    ensures Histories(Apply(s, pid, c, t))
  {
    var s' := Apply(s, pid, c, t);
    if t.write.Some? {
      ApplyKeepsHistory(s, pid, c, t, t.write.value.rec.id);
    }
    ApplyGrows(s, pid, c, t);
    forall id | id in s'.history && !(t.write.Some? && id == t.write.value.rec.id) ensures HistoryInv(s', id) {
      HistoryStays(s, s', id);
    }
  }

  lemma ApplyKeepsInv(s: State, pid: nat, c: Choice, t: Turn)
    requires Inv(s) && FairFor(s, c, t) && TurnOk(s, pid, c, t)
    ensures Inv(Apply(s, pid, c, t))
  {
    ApplyKeepsMints(s, pid, c, t);
    ApplyKeepsVersions(s, pid, c, t);
    ApplyKeepsStores(s, pid, c, t);
    ApplyKeepsProcs(s, pid, c, t);
    ApplyKeepsEvents(s, pid, c, t);
    ApplyKeepsTokens(s, pid, c, t);
    ApplyKeepsHistories(s, pid, c, t);
  }
}
