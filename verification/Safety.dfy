/** What every interleaving of requests, from the first state on, guarantees. */
module Safety {
  import opened Envelopes
  import opened Records
  import opened MemoryStore
  import opened Protocol
  import opened Invariant
  import opened Steps
  import opened Runs
  import opened Requests

  // ----- Attestation safety -----

  /** Action `k` is a POST of the form for `token` with the box ticked, on a pending record. */
  ghost predicate TickedAt(s: State, acts: seq<Action>, k: nat, token: string)
    requires ValidRun(s, acts) && k < |acts|
  {
    var before := StateAt(s, acts, k);
    && acts[k].Move? && acts[k].pid in before.procs
    && before.procs[acts[k].pid] == HGate(token, true)
    && var found := ByToken(before.store, token, acts[k].choice.at);
       found.Found? && found.rec.status == Pending
  }

  lemma LeftByTick(s: State, acts: seq<Action>, k: nat, i: nat, token: string)
    requires ValidRun(s, acts) && k < |acts| && LeftBy(s, acts, k, i, Accepted(token))
    ensures TickedAt(s, acts, k, token)
  {
  }

  lemma PostedAfterAcceptance(s: State, i: nat) returns (j: nat)
    requires Inv(s) && i < |s.events| && s.events[i].Posted?
    ensures j < i && s.events[j] == Accepted(s.events[i].token)
  {
    assert EventAt(s, i);
    j :| 0 <= j < i && s.events[..i][j] == Accepted(s.events[i].token);
  }

  /** Attestation safety: whatever the interleaving, an envelope posted to the authority was
      preceded in the run by a POST with the box ticked for its own token. */
  lemma AttestationSafety(cfg: Config, acts: seq<Action>, i: nat) returns (k: nat)
    requires ValidRun(Init(cfg), acts)
    requires i < |Run(Init(cfg), acts).events| && Run(Init(cfg), acts).events[i].Posted?
    ensures k < |acts| && TickedAt(Init(cfg), acts, k, Run(Init(cfg), acts).events[i].token)
    ensures |StateAt(Init(cfg), acts, k).events| < i
  {
    var s := Run(Init(cfg), acts);
    InvInit(cfg);
    RunKeepsInv(Init(cfg), acts);
    StateAtEnd(Init(cfg), acts);
    var j := PostedAfterAcceptance(s, i);
    k := EntryLeftBy(Init(cfg), acts, |acts|, j);
    LeftByTick(Init(cfg), acts, k, j, s.events[i].token);
  }

  /** The supporting fact: a stored version past pending, or with a confirmation time,
      belongs to an accepted token. */
  lemma ProgressNeedsAcceptance(s: State, rev: string)
    requires Reachable(s) && rev in s.written
    requires s.written[rev].status != Pending || s.written[rev].confirmedAt.Some?
    ensures Accepted(s.written[rev].token) in s.events
  {
    ReachableInv(s);
    assert RecInv(s, s.written[rev]);
  }

  // ----- No lost update -----

  /** The local copy a process would write, if its next step is a Put. */
  predicate Writing(p: Proc) { p.RPut? || p.RBook? || p.CPut? || p.DBook? }

  /** The version a successful Put replaces is the one its copy came from. */
  lemma PutReplacesBase(s: State, pid: nat)
    requires Inv(s) && pid in s.procs && Writing(s.procs[pid]) && PutOutcome(s.store, s.procs[pid].rec).Stored?
    ensures var r := s.procs[pid].rec;
            && (r.id in s.store ==>
                  r.rev == s.store[r.id].rev && r.rev in s.written && s.written[r.rev] == s.store[r.id])
            && (r.id !in s.store ==> r.rev == "" && s.procs[pid].RPut?)
  {
    var p := s.procs[pid];
    assert ProcInv(s, p);
    if p.rec.id in s.store {
      assert Copy(s, s.store[p.rec.id]);
    } else if !p.RPut? {
      PutBuildsOnBase(s, p.rec);
    }
  }

  lemma PutFollows(s: State, pid: nat, c: Choice)
    requires Inv(s) && Enabled(s, Move(pid, c)) && Writing(s.procs[pid])
    requires PutOutcome(s.store, s.procs[pid].rec).Stored? && s.procs[pid].rec.id in s.store
    ensures var t := TurnOf(s, s.procs[pid], c);
            t.write.Some? && Successor(s.store[s.procs[pid].rec.id], t.write.value)
  {
    TurnOfOk(s, pid, c);
    PutWrites(s, pid, c);
    WriteFollows(s, pid, c, TurnOf(s, s.procs[pid], c));
  }

  lemma PutWrites(s: State, pid: nat, c: Choice)
    requires Enabled(s, Move(pid, c)) && Writing(s.procs[pid]) && PutOutcome(s.store, s.procs[pid].rec).Stored?
    ensures var t := TurnOf(s, s.procs[pid], c); t.write.Some? && t.write.value.rec.id == s.procs[pid].rec.id
  {
  }

  lemma WriteFollows(s: State, pid: nat, c: Choice, t: Turn)
    requires TurnOk(s, pid, c, t) && t.write.Some? && t.write.value.rec.id in s.store
    ensures Successor(s.store[t.write.value.rec.id], t.write.value)
  {
  }

  /** The effect of a successful Put, of entry `e`, on the store and on the document's line of
      versions. */
  predicate PutEffect(s: State, s': State, r: Rec, novel: string, e: Entry) {
    && e.rec == r.(rev := novel) && s'.store == s.store[r.id := e.rec]
    && r.id in s'.history && s'.history[r.id] == HistoryOf(s, r.id) + [e]
  }

  lemma PutTakesEffect(s: State, pid: nat, c: Choice)
    requires Enabled(s, Move(pid, c)) && Writing(s.procs[pid])
    requires PutOutcome(s.store, s.procs[pid].rec).Stored?
    ensures var t := TurnOf(s, s.procs[pid], c);
            t.write.Some? && PutEffect(s, Step(s, Move(pid, c)), s.procs[pid].rec, c.novel, t.write.value)
  {
  }

  /** A Put that succeeds builds on the version that is stored at that moment: the copy's
      revision is that version's, the copy was derived from it, and the new version
      follows it in the document's single line of versions, changed only in the fields
      of its own writer. */
  lemma NoLostUpdate(s: State, pid: nat, c: Choice)
    requires Reachable(s) && Enabled(s, Move(pid, c)) && Writing(s.procs[pid])
    requires PutOutcome(s.store, s.procs[pid].rec).Stored?
    ensures var r, w := s.procs[pid].rec, TurnOf(s, s.procs[pid], c).write;
            && w.Some? && PutEffect(s, Step(s, Move(pid, c)), r, c.novel, w.value)
            && (r.id in s.store ==>
                  && r.rev == s.store[r.id].rev && r.rev in s.written && s.written[r.rev] == s.store[r.id]
                  && Successor(s.store[r.id], w.value))
            && (r.id !in s.store ==> r.rev == "" && s.procs[pid].RPut?)
  {
    ReachableInv(s);
    PutTakesEffect(s, pid, c);
    PutReplacesBase(s, pid);
    if s.procs[pid].rec.id in s.store {
      PutFollows(s, pid, c);
    }
  }

  // ----- Per-token progress -----

  /** No step back: on one token, `b` is not behind `a`. */
  predicate NotBehind(a: Rec, b: Rec) {
    && (a.status != Pending ==> b.status != Pending)
    && (a.confirmedAt.Some? ==> b.confirmedAt == a.confirmedAt)
    && (a.emailSentAt.Some? ==> b.emailSentAt == a.emailSentAt)
    && a.deliveryAttempts <= b.deliveryAttempts
  }

  lemma {:induction false} TokenContiguous(h: seq<Entry>, i: nat, j: nat, k: nat)
    requires Line(h) && i <= j <= k < |h| && h[i].rec.token == h[k].rec.token
    ensures h[j].rec.token == h[i].rec.token
    decreases k - j
  {
    if j < k {
      TokenContiguous(h, i, j + 1, k);
      assert Follows(h, j + 1);
    }
  }

  lemma {:induction false} LineProgress(h: seq<Entry>, i: nat, j: nat)
    requires Line(h) && i <= j < |h| && h[i].rec.token == h[j].rec.token
    ensures NotBehind(h[i].rec, h[j].rec)
    ensures h[i].rec.status == Delivered && h[j].rec.status != Delivered ==>
              exists k :: i < k <= j && h[k].writer == DeliveryOutcome(ByRedeliver)
    decreases j - i
  {
    if i < j {
      TokenContiguous(h, i, j - 1, j);
      LineProgress(h, i, j - 1);
      assert Follows(h, j);
    }
  }

  /** Over every interleaving, on one token: the status never returns to pending, the
      confirmation time once set never changes or clears, and only a Redeliver ever takes
      a record out of delivered. */
  lemma Progress(s: State, id: string, i: nat, j: nat)
    requires Reachable(s) && id in s.history && i <= j < |s.history[id]|
    requires s.history[id][i].rec.token == s.history[id][j].rec.token
    ensures var a, b := s.history[id][i].rec, s.history[id][j].rec;
            && NotBehind(a, b)
            && (a.status == Delivered && b.status != Delivered ==>
                  exists k :: i < k <= j && s.history[id][k].writer == DeliveryOutcome(ByRedeliver))
  {
    ReachableInv(s);
    assert HistoryInv(s, id);
    LineProgress(s.history[id], i, j);
  }

  // ----- Dead tokens -----

  lemma StepExtendsHistory(s: State, a: Action, id: string)
    requires Enabled(s, a) && id in s.history
    ensures id in Step(s, a).history && s.history[id] <= Step(s, a).history[id]
  {
  }

  lemma {:induction false} RunExtendsHistory(s: State, acts: seq<Action>, id: string)
    requires ValidRun(s, acts) && id in s.history
    ensures id in Run(s, acts).history && s.history[id] <= Run(s, acts).history[id]
    decreases |acts|
  {
    if acts != [] {
      StepExtendsHistory(s, acts[0], id);
      RunExtendsHistory(Step(s, acts[0]), acts[1..], id);
    }
  }

  /** The token was stored for the document once and is not any more. */
  ghost predicate Replaced(s: State, id: string, token: string) {
    && id in s.history && id in s.store && s.store[id].token != token
    && exists i :: 0 <= i < |s.history[id]| && s.history[id][i].rec.token == token
  }

  lemma GoneForGood(h: seq<Entry>, h': seq<Entry>, i: nat)
    requires Line(h') && h <= h' && i < |h| && h[|h| - 1].rec.token != h[i].rec.token
    ensures h'[i] == h[i] && h'[|h'| - 1].rec.token != h[i].rec.token
  {
    assert h'[i] == h[i] && h'[|h| - 1] == h[|h| - 1];
    if h'[|h'| - 1].rec.token == h[i].rec.token {
      TokenContiguous(h', i, |h| - 1, |h'| - 1);
    }
  }

  lemma ReplacedLater(s: State, s': State, id: string, token: string)
    requires Replaced(s, id, token) && HistoryInv(s, id)
    requires id in s'.history && s.history[id] <= s'.history[id] && HistoryInv(s', id)
    ensures Replaced(s', id, token)
  {
    LineReplaced(s.history[id], s'.history[id], token);
  }

  lemma LineReplaced(h: seq<Entry>, h': seq<Entry>, token: string)
    requires Line(h') && h != [] && h <= h' && h[|h| - 1].rec.token != token
    requires exists i :: 0 <= i < |h| && h[i].rec.token == token
    ensures h'[|h'| - 1].rec.token != token
    ensures exists i :: 0 <= i < |h'| && h'[i].rec.token == token
  {
    var i :| 0 <= i < |h| && h[i].rec.token == token;
    GoneForGood(h, h', i);
  }

  lemma ReplacedStays(s: State, acts: seq<Action>, id: string, token: string)
    requires Inv(s) && ValidRun(s, acts) && Replaced(s, id, token)
    ensures Inv(Run(s, acts)) && Replaced(Run(s, acts), id, token)
  {
    RunKeepsInv(s, acts);
    RunExtendsHistory(s, acts, id);
    assert HistoryInv(s, id) && HistoryInv(Run(s, acts), id);
    ReplacedLater(s, Run(s, acts), id, token);
  }

  lemma ReplacedWasWritten(s: State, id: string, token: string) returns (rev: string)
    requires Inv(s) && Replaced(s, id, token)
    ensures rev in s.written && s.written[rev].token == token && s.written[rev].id == id
  {
    assert HistoryInv(s, id);
    var i :| 0 <= i < |s.history[id]| && s.history[id][i].rec.token == token;
    rev := s.history[id][i].rec.rev;
  }

  lemma ReplacedNotStored(s: State, id: string, token: string)
    requires Inv(s) && Replaced(s, id, token)
    ensures forall d :: d in s.store ==> s.store[d].token != token
  {
    var rev := ReplacedWasWritten(s, id, token);
    assert RecInv(s, s.written[rev]);
    forall d | d in s.store ensures s.store[d].token != token {
      StoredFacts(s, d);
    }
  }

  lemma ReplacedNotWritable(s: State, id: string, token: string, pid: nat)
    requires Inv(s) && Replaced(s, id, token)
    requires pid in s.procs && Writing(s.procs[pid]) && s.procs[pid].rec.token == token
    ensures !PutOutcome(s.store, s.procs[pid].rec).Stored?
  {
    var rev := ReplacedWasWritten(s, id, token);
    ReplacedNotStored(s, id, token);
    if s.procs[pid].RPut? {
      UpsertIsUnborn(s, pid);
    } else if PutOutcome(s.store, s.procs[pid].rec).Stored? {
      StoredPutKeepsToken(s, pid);
    }
  }

  lemma UpsertIsUnborn(s: State, pid: nat)
    requires Inv(s) && pid in s.procs && s.procs[pid].RPut?
    ensures Unborn(s, s.procs[pid].rec.token)
  {
  }

  /** A Put that succeeds, other than an upsert's, keeps the token stored. */
  lemma StoredPutKeepsToken(s: State, pid: nat)
    requires Inv(s) && pid in s.procs && Writing(s.procs[pid]) && !s.procs[pid].RPut?
    requires PutOutcome(s.store, s.procs[pid].rec).Stored?
    ensures var r := s.procs[pid].rec; r.id in s.store && s.store[r.id].token == r.token
  {
    assert ProcInv(s, s.procs[pid]);
    PutReplacesBase(s, pid);
  }

  /** Dead tokens stay dead: however the run goes on, a replaced token resolves to nothing,
      no stored record carries it, and no process that still holds it can write it back. */
  lemma DeadTokensStayDead(s: State, acts: seq<Action>, id: string, token: string, now: Time)
    requires Reachable(s) && ValidRun(s, acts) && Replaced(s, id, token)
    ensures var s' := Run(s, acts);
            && ByToken(s'.store, token, now) == Missed(ErrNotFound)
            && (forall d :: d in s'.store ==> s'.store[d].token != token)
            && (forall pid :: pid in s'.procs && Writing(s'.procs[pid]) && s'.procs[pid].rec.token == token ==>
                                !PutOutcome(s'.store, s'.procs[pid].rec).Stored?)
  {
    ReachableInv(s);
    ReplacedStays(s, acts, id, token);
    var s' := Run(s, acts);
    ReplacedNotStored(s', id, token);
    forall pid | pid in s'.procs && Writing(s'.procs[pid]) && s'.procs[pid].rec.token == token
      ensures !PutOutcome(s'.store, s'.procs[pid].rec).Stored?
    {
      ReplacedNotWritable(s', id, token, pid);
    }
  }

  // ----- End-to-end binding -----

  /** A record some process holds, or a version that was ever stored. */
  ghost predicate Around(s: State, r: Rec) {
    || (exists pid :: pid in s.procs && Holds(s.procs[pid], r))
    || (exists rev :: rev in s.written && s.written[rev] == r)
  }

  lemma HeldIsBound(s: State, pid: nat, r: Rec)
    requires Versions(s) && pid in s.procs && ProcInv(s, s.procs[pid]) && Holds(s.procs[pid], r)
    ensures TokenBound(s, r)
  {
    if !s.procs[pid].RGet? && !s.procs[pid].RPut? {
      assert RecInv(s, s.written[r.rev]);
    }
  }

  /** All copies of a token's record, stored or in flight, carry what the token was minted for. */
  lemma CopiesAreBound(s: State, r: Rec)
    requires Reachable(s) && Around(s, r)
    ensures r.token in s.mints && Bound(s.mints[r.token], r)
  {
    ReachableInv(s);
    if rev :| rev in s.written && s.written[rev] == r {
      assert RecInv(s, s.written[rev]);
    } else {
      var pid :| pid in s.procs && Holds(s.procs[pid], r);
      HeldIsBound(s, pid, r);
    }
  }

  /** Two copies with one token agree on address, email, envelope and times. */
  lemma CopiesAgree(s: State, a: Rec, b: Rec)
    requires Reachable(s) && Around(s, a) && Around(s, b) && a.token == b.token
    ensures a.id == b.id && a.address == b.address && a.email == b.email && a.envelope == b.envelope
    ensures a.receivedAt == b.receivedAt && a.tokenExpiresAt == b.tokenExpiresAt
  {
    CopiesAreBound(s, a);
    CopiesAreBound(s, b);
  }

  /** Every envelope posted is the countersigned copy of one that passed all of Receive's
      gates under the same token, and goes to the authority; every mail goes to the first
      non-empty email of the envelope its token was minted for. */
  lemma EndToEndBinding(s: State, i: nat)
    requires Reachable(s) && i < |s.events|
    ensures var e := s.events[i];
            && e.token in s.mints
            && var m := s.mints[e.token];
               && m.verdicts.valid && m.verdicts.party == PartyOk(m.address) && m.verdicts.authority == AuthorityOk
               && OwnSignaturesVerify(s.cfg.identity, m.env)
               && m.email == PartyEmail(m.env.party) != "" && m.env.head.Some?
               && (e.Posted? ==>
                     && e.to == s.cfg.authority
                     && e.env == CounterSigned(s.cfg.identity, m.env, m.address, e.signedAt))
               && (e.Mailed? ==> e.to == PartyEmail(m.env.party))
  {
    ReachableInv(s);
    assert EventAt(s, i);
    assert MintOk(s, s.events[i].token, s.mints[s.events[i].token]);
  }

  // ----- Honest success, accounting, expiry -----

  /** A stored delivered status means the authority accepted a post of this token. */
  lemma DeliveredWasPosted(s: State, rev: string)
    requires Reachable(s) && rev in s.written && s.written[rev].status == Delivered
    ensures Succeeded(s.events, s.written[rev].token)
  {
    ReachableInv(s);
    assert RecInv(s, s.written[rev]);
  }

  lemma FinishedFor(s: State, acts: seq<Action>, j: nat)
    requires Inv(s) && ValidRun(s, acts) && j < |acts| && acts[j].Start?
    ensures var s' := Run(s, acts);
            && acts[j].pid in s'.procs && For(s'.procs[acts[j].pid], acts[j].request)
            && (s'.procs[acts[j].pid].Done? ==> OutcomeInv(s', s'.procs[acts[j].pid].outcome))
  {
    StaysFor(s, acts, j, |acts|);
    StateAtEnd(s, acts);
    RunKeepsInv(s, acts);
    var s' := Run(s, acts);
    assert ProcInv(s', s'.procs[acts[j].pid]);
  }

  /** A request that ends with a Confirm's or a Redeliver's success ends with a delivered
      record of the token, or of the address, it asked for, and the authority has accepted a
      post of that record's token. */
  lemma HonestSuccess(cfg: Config, acts: seq<Action>, j: nat)
    requires ValidRun(Init(cfg), acts) && j < |acts| && acts[j].Start?
    ensures var s, request := Run(Init(cfg), acts), acts[j].request;
            && acts[j].pid in s.procs
            && var p := s.procs[acts[j].pid];
               && (p.Done? && p.outcome.ConfirmOk? ==>
                     && request.HGate? && p.outcome.rec.token == request.token
                     && p.outcome.rec.status == Delivered && Succeeded(s.events, request.token))
               && (p.Done? && p.outcome.RedeliverOk? ==>
                     && request.XGet? && p.outcome.rec.address == request.address
                     && p.outcome.rec.status == Delivered && Succeeded(s.events, p.outcome.rec.token))
  {
    InvInit(cfg);
    FinishedFor(Init(cfg), acts, j);
    StateAtNext(Init(cfg), acts, j);
  }

  /** Stored delivery attempts never exceed the posts made, count something exactly when
      their time is set, and are at least one for a delivered record. */
  lemma AttemptAccounting(s: State, rev: string)
    requires Reachable(s) && rev in s.written
    ensures var r := s.written[rev];
            && r.deliveryAttempts <= Attempts(s.events, r.token)
            && (r.deliveryAttempts > 0 <==> r.lastDeliveryAt.Some?)
            && (r.status == Delivered ==> r.deliveryAttempts >= 1)
  {
    ReachableInv(s);
    assert RecInv(s, s.written[rev]);
  }

  /** What the log says of a post. */
  lemma PostedFacts(s: State, i: nat)
    requires Inv(s) && i < |s.events| && s.events[i].Posted?
    ensures var e := s.events[i];
            && e.token in s.mints
            && (e.who.ByConfirm? ==> InWindow(s, e.token, e.who.seenAt))
            && e.env.signatures != []
            && e.env.signatures[|e.env.signatures| - 1].exp == e.signedAt + ENDORSEMENT_TTL
  {
    assert EventAt(s, i);
  }

  /** Process `pid` does not look a token up in actions `k` to `l`. */
  ghost predicate NoLookup(s: State, acts: seq<Action>, k: nat, l: nat, pid: nat)
    requires ValidRun(s, acts) && l <= |acts|
  {
    forall m, t, at {:trigger LooksUpAt(s, acts, m, pid, t, at)} :: k <= m < l ==> !LooksUpAt(s, acts, m, pid, t, at)
  }

  lemma PosterSaw(s: State, acts: seq<Action>, l: nat, i: nat, e: Event)
    requires ValidRun(s, acts) && l < |acts| && LeftBy(s, acts, l, i, e) && e.Posted? && e.who.ByConfirm?
    ensures SawAt(s, acts, l, acts[l].pid, e.token, e.who.seenAt)
  {
  }

  lemma LastLookup(s: State, acts: seq<Action>, l: nat, i: nat, e: Event) returns (k: nat)
    requires ValidRun(s, acts) && s.procs == map[] && l < |acts|
    requires LeftBy(s, acts, l, i, e) && e.Posted? && e.who.ByConfirm?
    ensures k < l && LooksUpAt(s, acts, k, acts[l].pid, e.token, e.who.seenAt)
    ensures NoLookup(s, acts, k + 1, l, acts[l].pid)
  {
    PosterSaw(s, acts, l, i, e);
    k := LookupMade(s, acts, l, acts[l].pid, e.token, e.who.seenAt);
    NoLookupSince(s, acts, k, l, acts[l].pid, e.token, e.who.seenAt);
  }

  lemma NoLookupSince(s: State, acts: seq<Action>, k: nat, l: nat, pid: nat, token: string, seenAt: Time)
    requires ValidRun(s, acts) && l <= |acts| && forall m :: k < m <= l ==> SawAt(s, acts, m, pid, token, seenAt)
    ensures NoLookup(s, acts, k + 1, l, pid)
  {
    forall m, t, at | k < m < l ensures !LooksUpAt(s, acts, m, pid, t, at) {
      assert SawAt(s, acts, m, pid, token, seenAt);
    }
  }

  /** Over every interleaving, an emailed link works from the receipt of the envelope for 72
      hours, here in nanoseconds, expiry excluded, and is gone from then on; a token that is
      not stored, or not any more, is not found. */
  lemma LinkLivesExactly(s: State, token: string, now: Time)
    requires Reachable(s)
    ensures match ByToken(s.store, token, now)
            case Found(r) =>
              r.id in s.store && s.store[r.id] == r && r.token == token && now < r.receivedAt + 259_200_000_000_000
            case Missed(e) =>
              || (e == ErrNotFound && forall id :: id in s.store ==> s.store[id].token != token)
              || (e == ErrGone && exists id :: && id in s.store && s.store[id].token == token
                                               && now >= s.store[id].receivedAt + 259_200_000_000_000)
  {
    ReachableInv(s);
    LookupExactly(s, token, now);
    if id :| id in s.store && s.store[id].token == token {
      StoredFacts(s, id);
    }
  }

  /** Every post a Confirm makes rests on its process's last lookup of the token, which found
      the record less than 72 hours after the envelope was received; and the
      countersignature, the last of the envelope's signatures, expires 365 days after it was
      made. */
  lemma ExpiryBound(cfg: Config, acts: seq<Action>, i: nat) returns (l: nat, k: nat)
    requires ValidRun(Init(cfg), acts)
    requires i < |Run(Init(cfg), acts).events| && Run(Init(cfg), acts).events[i].Posted?
    ensures var s, e := Run(Init(cfg), acts), Run(Init(cfg), acts).events[i];
            && l < |acts| && LeftBy(Init(cfg), acts, l, i, e)
            && (e.who.ByConfirm? ==>
                  && k < l && LooksUpAt(Init(cfg), acts, k, acts[l].pid, e.token, e.who.seenAt)
                  && NoLookup(Init(cfg), acts, k + 1, l, acts[l].pid)
                  && e.token in s.mints
                  && s.mints[e.token].receivedAt <= e.who.seenAt < s.mints[e.token].receivedAt + 72 * HOUR)
            && e.env.signatures != []
            && e.env.signatures[|e.env.signatures| - 1].exp == e.signedAt + 365 * 24 * HOUR
  {
    var s := Run(Init(cfg), acts);
    InvInit(cfg);
    RunKeepsInv(Init(cfg), acts);
    PostedFacts(s, i);
    StateAtEnd(Init(cfg), acts);
    l := EntryLeftBy(Init(cfg), acts, |acts|, i);
    k := 0;
    if s.events[i].who.ByConfirm? {
      k := LastLookup(Init(cfg), acts, l, i, s.events[i]);
    }
  }

  /** A Receive that succeeds stored its envelope's record pending and got its email out. */
  lemma ReceiveSuccess(cfg: Config, acts: seq<Action>, j: nat)
    requires ValidRun(Init(cfg), acts) && j < |acts| && acts[j].Start?
    ensures var s := Run(Init(cfg), acts);
            && acts[j].pid in s.procs
            && var p := s.procs[acts[j].pid];
               p.Done? && p.outcome.ReceiveOk? ==>
                 && acts[j].request.RGate? && p.outcome.rec.envelope == Some(acts[j].request.env)
                 && Mailed(p.outcome.rec.token, p.outcome.rec.email, true) in s.events
                 && exists rev :: rev in s.written && s.written[rev].token == p.outcome.rec.token
                                  && s.written[rev].status == Pending
  {
    InvInit(cfg);
    FinishedFor(Init(cfg), acts, j);
    StateAtNext(Init(cfg), acts, j);
  }
}
