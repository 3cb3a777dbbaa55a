/** The pages behind the emailed link (internal/interfaces/web/confirm.go). */
module Web {
  import opened Envelopes
  import opened Records
  import opened Protocol
  import opened Invariant
  import opened Steps
  import opened Runs
  import opened Safety
  import opened SoloRuns
  import opened Tracking
  import opened Sequential
  import opened Reopening
  import Service

  datatype Title =
    | VerifyIdentity | NotRecognized | Expired | Unavailable | WentWrong | VerificationConfirmed | DeliveryFailed

  datatype Text =
    | Blank
    | TickTheBox | BadLink | LinkExpired | TryLater | NotProcessed | SavedNotDelivered
    | DeliveryComplete | DeliveryUnderway | SavedTryAgain

  /** The data of the one template. */
  datatype View = View(title: Title, address: Address, authority: Address, message: Text, error: Text,
                       showForm: bool, showRetry: bool)

  datatype Page = Page(status: nat, view: View)

  /** `detail` is the message that comes with an unavailable error, if it has one. */
  function ErrorPage(e: Error, detail: Text): (p: Page)
    ensures p.status >= 400 && p.view.error != Blank && p.view.message == Blank && !p.view.showForm
    ensures p.view.showRetry <==> e == ErrUnavailable
    ensures (p.status == 404 <==> e == ErrNotFound) && (p.status == 410 <==> e == ErrGone)
    ensures (p.status == 503 <==> e == ErrUnavailable) && (p.status == 503 && detail != Blank ==> p.view.error == detail)
    ensures p.status in {404, 410, 500, 503}
  {
    match e
    case ErrNotFound => Page(404, View(NotRecognized, "", "", Blank, BadLink, false, false))
    case ErrGone => Page(410, View(Expired, "", "", Blank, LinkExpired, false, false))
    case ErrUnavailable =>
      Page(503, View(Unavailable, "", "", Blank, if detail != Blank then detail else TryLater, false, true))
    case _ => Page(500, View(WentWrong, "", "", Blank, NotProcessed, false, false))
  }

  /** The page of a record that no longer needs the form. */
  method ResultView(service: Service.Verifications, rec: Verification, ghost w: State) returns (view: View)
    requires service.Mirrors(w)
    ensures service.Mirrors(w) && view == ResultOf(service.authority, old(rec.Value()))
  {
    view := View(VerificationConfirmed, rec.address, service.authority, Blank, Blank, false, false);
    match rec.status {
      case Delivered =>
        view := view.(message := DeliveryComplete);
      case Failed =>
        view := view.(title := DeliveryFailed, error := SavedTryAgain, showRetry := true);
      case _ =>
        view := view.(message := DeliveryUnderway, showRetry := true);
    }
  }

  function ResultOf(authority: Address, r: Rec): (view: View)
    ensures view.showRetry <==> r.status != Delivered
    ensures view.message == DeliveryComplete <==> r.status == Delivered
    ensures view.error != Blank <==> r.status == Failed
  {
    if r.status == Delivered then
      View(VerificationConfirmed, r.address, authority, DeliveryComplete, Blank, false, false)
    else if r.status == Failed then
      View(DeliveryFailed, r.address, authority, Blank, SavedTryAgain, false, true)
    else
      View(VerificationConfirmed, r.address, authority, DeliveryUnderway, Blank, false, true)
  }

  function FormView(authority: Address, address: Address, error: Text): View {
    View(VerifyIdentity, address, authority, Blank, error, true, false)
  }

  /** What a GET of the link shows. */
  ghost function PageFor(w: State, token: string, now: Time): Page {
    match ByToken(w.store, token, now)
    case Missed(e) => ErrorPage(e, Blank)
    case Found(r) =>
      Page(200, if r.status != Pending then ResultOf(w.cfg.authority, r)
                else FormView(w.cfg.authority, r.address, Blank))
  }

  /** The pages of a token no stored record has, and of a link past its 72 hours. */
  predicate NotKnown(page: Page) {
    page == Page(404, View(title := NotRecognized, address := "", authority := "", message := Blank,
                           error := BadLink, showForm := false, showRetry := false))
  }

  predicate Gone(page: Page) {
    page == Page(410, View(title := Expired, address := "", authority := "", message := Blank,
                           error := LinkExpired, showForm := false, showRetry := false))
  }

  /** The form, for the record's address and the service's authority. */
  predicate Form(page: Page, status: nat, address: Address, authority: Address, error: Text) {
    page == Page(status, View(title := VerifyIdentity, address := address, authority := authority, message := Blank,
                              error := error, showForm := true, showRetry := false))
  }

  /** The state of a record past pending. */
  predicate Result(page: Page, authority: Address, r: Rec) {
    && page.status == 200 && page.view.address == r.address && page.view.authority == authority && !page.view.showForm
    && (r.status == Delivered ==>
          && page.view.title == VerificationConfirmed && page.view.message == DeliveryComplete
          && page.view.error == Blank && !page.view.showRetry)
    && (r.status == Failed ==>
          && page.view.title == DeliveryFailed && page.view.message == Blank
          && page.view.error == SavedTryAgain && page.view.showRetry)
    && (r.status == Confirmed ==>
          && page.view.title == VerificationConfirmed && page.view.message == DeliveryUnderway
          && page.view.error == Blank && page.view.showRetry)
  }

  lemma ResultExactly(authority: Address, r: Rec)
    ensures Result(Page(200, ResultOf(authority, r)), authority, r)
  {
  }

  lemma FoundPage(w: State, token: string, now: Time, r: Rec)
    requires ByToken(w.store, token, now) == Found(r)
    ensures if r.status == Pending then Form(PageFor(w, token, now), 200, r.address, w.cfg.authority, Blank)
            else Result(PageFor(w, token, now), w.cfg.authority, r)
  {
    ResultExactly(w.cfg.authority, r);
  }

  lemma MissedPage(w: State, token: string, now: Time)
    ensures ByToken(w.store, token, now) == Missed(ErrNotFound) ==> NotKnown(PageFor(w, token, now))
    ensures ByToken(w.store, token, now) == Missed(ErrGone) ==> Gone(PageFor(w, token, now))
  {
  }

  /** What a GET shows, in every case: the form exactly while the link is live and its record
      pending. */
  lemma PageExactly(w: State, token: string, now: Time)
    requires Inv(w)
    ensures var page := PageFor(w, token, now);
            && ((forall id :: id in w.store ==> w.store[id].token != token) ==> NotKnown(page))
            && forall id :: id in w.store && w.store[id].token == token ==>
                 var r := w.store[id];
                 if now >= r.receivedAt + 72 * HOUR then Gone(page)
                 else if r.status == Pending then Form(page, 200, r.address, w.cfg.authority, Blank)
                 else Result(page, w.cfg.authority, r)
  {
    LookupExactly(w, token, now);
    MissedPage(w, token, now);
    if ByToken(w.store, token, now).Found? {
      FoundPage(w, token, now, ByToken(w.store, token, now).rec);
    }
  }

  method HandleConfirmPage(service: Service.Verifications, token: string, now: Time, ghost w: State)
    returns (page: Page)
    requires service.Mirrors(w) && Inv(w)
    ensures service.Mirrors(w) && page == PageFor(w, token, now)
    ensures (forall id :: id in w.store ==> w.store[id].token != token) ==> NotKnown(page)
    ensures forall id :: id in w.store && w.store[id].token == token ==>
              var r := w.store[id];
              if now >= r.receivedAt + 72 * HOUR then Gone(page)
              else if r.status == Pending then Form(page, 200, r.address, service.authority, Blank)
              else Result(page, service.authority, r)
  {
    TokensDistinct(w);
    PageExactly(w, token, now);
    var rec, error := service.ByToken(token, now, w);
    if rec == null {
      return ErrorPage(error, Blank);
    }
    if rec.status != Pending {
      var view := ResultView(service, rec, w);
      return Page(200, view);
    }
    page := Page(200, FormView(service.authority, rec.address, Blank));
  }

  /** The page that answers a POST of the link, received in `w`, by how it ended. An error
      of the first lookup comes without a message, but is never the unavailable one. */
  ghost predicate Shows(page: Page, w: State, token: string, now: Time, outcome: Outcome) {
    match outcome
    case ConfirmOk(r) => page == Page(200, ResultOf(w.cfg.authority, r))
    case Errored(e) => page == ErrorPage(e, SavedNotDelivered)
    case Unticked =>
      && ByToken(w.store, token, now).Found?
      && page == Page(422, FormView(w.cfg.authority, ByToken(w.store, token, now).rec.address, TickTheBox))
    case _ => false
  }

  /** The page of a confirmation that is saved but could not be delivered. */
  predicate Undelivered(page: Page) {
    page == Page(503, View(title := Unavailable, address := "", authority := "", message := Blank,
                           error := SavedNotDelivered, showForm := false, showRetry := true))
  }

  /** What is known of the answer to a POST that finds `r` under the token: `gate` is the time of
      the handler's lookup, `lookup` that of Confirm's. */
  ghost predicate PostAnswer(page: Page, authority: Address, r: Rec, accept: bool, gate: Time, lookup: Time,
                             delivers: bool, after: map<string, Rec>) {
    && r.id in after
    && if gate >= r.receivedAt + 72 * HOUR then Gone(page) && after[r.id] == r
       else if r.status == Pending && !accept then
         Form(page, 422, r.address, authority, TickTheBox) && after[r.id] == r
       else if lookup >= r.receivedAt + 72 * HOUR then Gone(page) && after[r.id] == r
       else if r.status == Delivered then Result(page, authority, r) && after[r.id] == r
       else
         && after[r.id].address == r.address && after[r.id].token == r.token && after[r.id].confirmedAt.Some?
         && if delivers then after[r.id].status == Delivered && Result(page, authority, after[r.id])
            else after[r.id].status == Failed && Undelivered(page)
  }

  /** How a POST starts: it goes on to Confirm, or ends. */
  lemma PostStarts(w: State, pid: nat, token: string, accept: bool, x: Answers, r: Rec) returns (s: State)
    requires CanArrive(w, pid, HGate(token, accept), x) && ByToken(w.store, token, x[9].at) == Found(r)
    ensures Prepared(s, pid, x) && Served(w, pid, HGate(token, accept), x) == Solo(s, pid, x)
    ensures s.store == w.store && s.mints == w.mints && s.cfg == w.cfg
    ensures s.procs[pid] == if r.status == Pending && !accept then Done(Unticked) else CLookup(token)
  {
    var start := Arrived(w, pid, HGate(token, accept));
    var next := if r.status == Pending && !accept then Done(Unticked) else CLookup(token);
    var event := if r.status == Pending && accept then Some(Accepted(token)) else None;
    s := SoloUnfold(start, pid, x, Turn(next, event, None, None));
  }

  lemma PostMisses(w: State, pid: nat, token: string, accept: bool, x: Answers, e: Error)
    requires CanArrive(w, pid, HGate(token, accept), x) && ByToken(w.store, token, x[9].at) == Missed(e)
    ensures var w' := Served(w, pid, HGate(token, accept), x);
            w'.store == w.store && pid in w'.procs && w'.procs[pid] == Done(Errored(e))
  {
    var s := SoloUnfold(Arrived(w, pid, HGate(token, accept)), pid, x, Goto(Done(Errored(e))));
  }

  lemma OutcomePage(page: Page, w: State, token: string, now: Time, o: Outcome)
    requires Shows(page, w, token, now, o)
    ensures o == Errored(ErrNotFound) ==> NotKnown(page)
    ensures o == Errored(ErrGone) ==> Gone(page)
    ensures o == Errored(ErrUnavailable) ==> Undelivered(page)
    ensures o.ConfirmOk? ==> Result(page, w.cfg.authority, o.rec)
    ensures o.Unticked? ==> Form(page, 422, ByToken(w.store, token, now).rec.address, w.cfg.authority, TickTheBox)
  {
    if o.ConfirmOk? {
      ResultExactly(w.cfg.authority, o.rec);
    }
  }

  /** The answer to a POST that finds a live record. */
  lemma FoundPost(w: State, pid: nat, token: string, accept: bool, x: Answers, page: Page, r: Rec)
    requires Inv(w) && CanArrive(w, pid, HGate(token, accept), x) && ByToken(w.store, token, x[9].at) == Found(r)
    requires r.id in w.store && w.store[r.id] == r && r.token == token && x[9].at < r.receivedAt + 72 * HOUR
    requires var w' := Served(w, pid, HGate(token, accept), x);
             && pid in w'.procs && w'.procs[pid].Done? && Shows(page, w, token, x[9].at, w'.procs[pid].outcome)
    ensures PostAnswer(page, w.cfg.authority, r, accept, x[9].at, x[8].at, x[4].ok && x[2].ok,
                       Served(w, pid, HGate(token, accept), x).store)
  {
    var s := PostStarts(w, pid, token, accept, x, r);
    OutcomePage(page, w, token, x[9].at, Solo(s, pid, x).procs[pid].outcome);
    if r.status != Pending || accept {
      StoredIsKnown(w, r.id);
      KnownSame(w, s, r);
      ConfirmEndsExactly(s, pid, x, r);
    }
  }

  /** What a POST of a token's link answers, and leaves stored, in every case: not found for a
      token that is not stored; gone when the link is 72 hours old at the handler's lookup or at
      Confirm's; the form again, with the reminder, on a pending record without the tick; and
      otherwise the completed delivery, or the failed one with a retry, of a record that is then
      confirmed, as countersigning and posting go. */
  lemma PostExactly(w: State, pid: nat, token: string, accept: bool, x: Answers, page: Page)
    requires Inv(w) && CanArrive(w, pid, HGate(token, accept), x)
    requires var w' := Served(w, pid, HGate(token, accept), x);
             && pid in w'.procs && w'.procs[pid].Done? && Shows(page, w, token, x[9].at, w'.procs[pid].outcome)
    ensures var after := Served(w, pid, HGate(token, accept), x).store;
            && ((forall id :: id in w.store ==> w.store[id].token != token) ==> NotKnown(page) && after == w.store)
            && forall id :: id in w.store && w.store[id].token == token ==>
                 PostAnswer(page, w.cfg.authority, w.store[id], accept, x[9].at, x[8].at, x[4].ok && x[2].ok, after)
  {
    LookupExactly(w, token, x[9].at);
    match ByToken(w.store, token, x[9].at)
    case Missed(e) =>
      PostMisses(w, pid, token, accept, x, e);
      OutcomePage(page, w, token, x[9].at, Errored(e));
      forall id | id in w.store && w.store[id].token == token ensures w.store[id].id == id {
        StoredIsKnown(w, id);
      }
    case Found(r) =>
      forall id | id in w.store && w.store[id].token == token ensures w.store[id] == r && r.id == id {
        StoredIsKnown(w, id);
      }
      FoundPost(w, pid, token, accept, x, page, r);
  }

  method HandleConfirmSubmit(service: Service.Verifications, token: string, accept: bool, x: Answers,
                             ghost w: State, ghost pid: nat)
    returns (page: Page)
    requires service.Mirrors(w) && Inv(w) && CanArrive(w, pid, HGate(token, accept), x)
    modifies service`log, service.store
    ensures var w' := Served(w, pid, HGate(token, accept), x);
            && Inv(w') && service.Mirrors(w')
            && pid in w'.procs && w'.procs[pid].Done? && Shows(page, w, token, x[9].at, w'.procs[pid].outcome)
    ensures (forall id :: id in w.store ==> w.store[id].token != token) ==> NotKnown(page)
    ensures forall id :: id in w.store && w.store[id].token == token ==>
              PostAnswer(page, service.authority, w.store[id], accept, x[9].at, x[8].at, x[4].ok && x[2].ok,
                         service.store.Contents)
  {
    ghost var start := Begins(w, pid, HGate(token, accept), x);
    ghost var w', outcome;
    page, w', outcome := Submit(service, token, accept, x, start, pid);
    Ends(w, pid, HGate(token, accept), x, w', outcome);
    PostExactly(w, pid, token, accept, x, page);
  }

  /** The lookup and the checkbox: a page, when the POST goes no further. */
  method Gate(service: Service.Verifications, token: string, accept: bool, x: Answers,
              ghost start: State, ghost pid: nat)
    returns (refusal: Option<Page>, ghost w': State, ghost outcome: Outcome)
    requires service.Mirrors(start) && Service.Trails(start, start, pid, x, HGate(token, accept))
    modifies service`log
    ensures service.Mirrors(w')
    ensures Service.Trails(start, w', pid, x, if refusal.Some? then Done(outcome) else CLookup(token))
    ensures refusal.Some? ==> Shows(refusal.value, start, token, x[9].at, outcome)
  {
    TracksDistinct(start, start, pid, x);
    var rec, error := service.ByToken(token, x[9].at, start);
    w' := HandlerLooksUp(start, start, pid, x, token, accept);
    outcome := Errored(error);
    if rec == null {
      return Some(ErrorPage(error, Blank)), w', Errored(error);
    }
    if rec.status == Pending {
      if !accept {
        return Some(Page(422, FormView(service.authority, rec.address, TickTheBox))), w', Unticked;
      }
      service.Emit(Accepted(token), start, w');
    }
    refusal := None;
  }

  method Submit(service: Service.Verifications, token: string, accept: bool, x: Answers,
                ghost start: State, ghost pid: nat)
    returns (page: Page, ghost w': State, ghost outcome: Outcome)
    requires service.Mirrors(start) && Service.Trails(start, start, pid, x, HGate(token, accept))
    modifies service`log, service.store
    ensures service.Mirrors(w') && Service.Trails(start, w', pid, x, Done(outcome))
    ensures Shows(page, start, token, x[9].at, outcome)
  {
    var refusal;
    refusal, w', outcome := Gate(service, token, accept, x, start, pid);
    if refusal.Some? {
      return refusal.value, w', outcome;
    }
    page, w', outcome := Attest(service, token, x, start, w', pid);
  }

  /** Confirms, and shows the result. */
  method Attest(service: Service.Verifications, token: string, x: Answers,
                ghost start: State, ghost w: State, ghost pid: nat)
    returns (page: Page, ghost w': State, ghost outcome: Outcome)
    requires service.Mirrors(w) && Service.Trails(start, w, pid, x, CLookup(token))
    modifies service`log, service.store
    ensures service.Mirrors(w') && Service.Trails(start, w', pid, x, Done(outcome))
    ensures outcome.ConfirmOk? || outcome.Errored?
    ensures outcome.ConfirmOk? ==> page == Page(200, ResultOf(service.authority, outcome.rec))
    ensures outcome.Errored? ==> page == ErrorPage(outcome.error, SavedNotDelivered)
  {
    var rec, error;
    rec, error, w' := service.Confirm(token, x, start, w, pid);
    if rec == null {
      return ErrorPage(error, SavedNotDelivered), w', Errored(error);
    }
    outcome := ConfirmOk(rec.Value());
    var view := ResultView(service, rec, w');
    page := Page(200, view);
  }

  /** Over every interleaving, a POST of the link of `token` that is answered with success
      shows a completed delivery, without a retry button or an error, of a record with that
      token; and the authority has accepted a post of it. */
  lemma SuccessPageIsDelivered(cfg: Config, acts: seq<Action>, j: nat, w: State, now: Time, page: Page)
    requires ValidRun(Init(cfg), acts) && j < |acts| && acts[j].Start? && acts[j].request.HGate?
    requires var s := Run(Init(cfg), acts);
             && acts[j].pid in s.procs && s.procs[acts[j].pid].Done?
             && Shows(page, w, acts[j].request.token, now, s.procs[acts[j].pid].outcome) && page.status < 400
    ensures var s, token := Run(Init(cfg), acts), acts[j].request.token;
            var o := s.procs[acts[j].pid].outcome;
            && o.ConfirmOk? && o.rec.token == token && page.view == ResultOf(w.cfg.authority, o.rec)
            && Succeeded(s.events, token)
    ensures page.view.message == DeliveryComplete && page.view.error == Blank
    ensures !page.view.showRetry && !page.view.showForm
  {
    HonestSuccess(cfg, acts, j);
  }

  /** The token is known, and not confirmed yet. */
  ghost predicate AwaitsTick(w: State, token: string, now: Time) {
    var found := ByToken(w.store, token, now);
    found.Found? && found.rec.status == Pending
  }

  lemma RetryStep(w: State, pid: nat, token: string, accept: bool, x: Answers, next: Proc)
    requires CanArrive(w, pid, HGate(token, accept), x) && !AwaitsTick(w, token, x[9].at)
    requires next == match ByToken(w.store, token, x[9].at)
                     case Missed(e) => Done(Errored(e))
                     case Found(r) => CLookup(token)
    ensures var s1 := w.(clock := x[9].at, procs := w.procs[pid := next]);
            Prepared(s1, pid, x) && Served(w, pid, HGate(token, accept), x) == Solo(s1, pid, x)
  {
    var s := Arrived(w, pid, HGate(token, accept));
    PreparedStep(s, pid, x);
    assert s.procs[pid := next] == w.procs[pid := next];
    assert Step(s, MoveOf(s, pid, x)) == w.(clock := x[9].at, procs := w.procs[pid := next]);
  }

  /** On a token that is not pending, a POST does the same with and without the tick. */
  lemma RetryNeedsNoTick(w: State, pid: nat, token: string, x: Answers)
    requires CanArrive(w, pid, HGate(token, true), x) && !AwaitsTick(w, token, x[9].at)
    ensures Served(w, pid, HGate(token, true), x) == Served(w, pid, HGate(token, false), x)
  {
    var next := match ByToken(w.store, token, x[9].at)
      case Missed(e) => Done(Errored(e))
      case Found(r) => CLookup(token);
    RetryStep(w, pid, token, true, x, next);
    RetryStep(w, pid, token, false, x, next);
  }

  /** On a pending token, a POST without the tick changes nothing. */
  lemma UntickedDoesNothing(w: State, pid: nat, token: string, x: Answers)
    requires CanArrive(w, pid, HGate(token, false), x) && AwaitsTick(w, token, x[9].at)
    ensures var w' := Served(w, pid, HGate(token, false), x);
            w'.store == w.store && w'.events == w.events && w'.written == w.written
            && pid in w'.procs && w'.procs[pid] == Done(Unticked)
  {
    var s := Arrived(w, pid, HGate(token, false));
    var s1 := SoloUnfold(s, pid, x, Goto(Done(Unticked)));
  }

  /** On a pending token, a POST with the tick leaves the declaration in the log for good. */
  lemma TickIsLogged(w: State, pid: nat, token: string, x: Answers)
    requires Inv(w) && CanArrive(w, pid, HGate(token, true), x) && AwaitsTick(w, token, x[9].at)
    ensures var w' := Served(w, pid, HGate(token, true), x);
            |w'.events| > |w.events| && w'.events[|w.events|] == Accepted(token)
  {
    var s := Arrived(w, pid, HGate(token, true));
    SwapProcKeepsInv(w, pid, HGate(token, true));
    PreparedStep(s, pid, x);
    var s1 := Step(s, MoveOf(s, pid, x));
    StepKeepsInv(s, MoveOf(s, pid, x));
    assert s1.events == w.events + [Accepted(token)];
    SoloKeepsInv(s1, pid, x);
  }

  /** A POST on a delivered record posts nothing to the authority. */
  lemma DeliveredPostIsIdle(w: State, r: Rec, q: nat, accept: bool, y: Answers)
    requires Inv(w) && r.id in w.store && w.store[r.id] == r && r.status == Delivered
    requires CanArrive(w, q, HGate(r.token, accept), y) && y[8].at < r.receivedAt + 72 * HOUR
    ensures var w' := Served(w, q, HGate(r.token, accept), y); w'.store == w.store && w'.events == w.events
  {
    StoredIsKnown(w, r.id);
    assert y[9].at <= y[8].at;
    RetryStep(w, q, r.token, accept, y, CLookup(r.token));
    var s := w.(clock := y[9].at, procs := w.procs[q := CLookup(r.token)]);
    KnownSame(w, s, r);
    ConfirmOnDelivered(s, q, y, r);
  }

  /** Exactly when Confirm succeeds once more on a token it has succeeded on, in sequential
      runs, deaths included. Take any such run to a state at rest, and its last success on
      the token at action `i`: a further POST of the link, before the expiry and with signing
      and posting succeeding, succeeds at the authority once more exactly when, since then, a
      failed Redeliver has been booked or a Confirm has died before booking its success, and
      no successful Redeliver has been booked after that. */
  lemma NextPostSucceedsExactly(cfg: Config, acts: seq<Action>, i: nat, id: string, t: string,
                                q: nat, accept: bool, y: Answers)
    requires ValidRun(Init(cfg), acts) && SequentialRun(Init(cfg), acts) && i < |acts|
    requires ConfirmSucceeds(StateAt(Init(cfg), acts, i), acts[i], t) && NoSuccess(Init(cfg), acts, i + 1, |acts|, t)
    requires Quiet(Run(Init(cfg), acts)) && Holding(Run(Init(cfg), acts), id, t)
    requires CanArrive(Run(Init(cfg), acts), q, HGate(t, accept), y) && y[4].ok && y[2].ok
    requires y[8].at < Run(Init(cfg), acts).store[id].receivedAt + 72 * HOUR
    ensures var w := Run(Init(cfg), acts);
            Count(Served(w, q, HGate(t, accept), y).events, t, ConfirmSuccess)
            == Count(w.events, t, ConfirmSuccess) + (if Reopened(Init(cfg), acts, i, |acts|, t) then 1 else 0)
  {
    var w := Run(Init(cfg), acts);
    InvInit(cfg);
    RunKeepsInv(Init(cfg), acts);
    StoredIsKnown(w, id);
    UndeliveredExactly(cfg, acts, i, id, t);
    if w.store[id].status == Delivered {
      DeliveredPostIsIdle(w, w.store[id], q, accept, y);
    } else {
      RetryDelivers(w, w.store[id], q, accept, y);
    }
  }

  /** Why Confirm can succeed twice on one token with nothing running in parallel: a Redeliver
      that fails takes the delivered record back to failed, and the next POST of the link
      posts and succeeds once more. */
  lemma SecondSuccess(w: State, r: Rec, p: nat, x: Answers, q: nat, accept: bool, y: Answers)
    requires Inv(w) && r.id in w.store && w.store[r.id] == r && r.status == Delivered && r.confirmedAt.Some?
    requires CanArrive(w, p, XGet(r.address), x) && x[4].ok && !x[2].ok
    requires CanArrive(Served(w, p, XGet(r.address), x), q, HGate(r.token, accept), y)
    requires y[4].ok && y[2].ok && y[8].at < r.receivedAt + 72 * HOUR
    ensures var w' := Served(Served(w, p, XGet(r.address), x), q, HGate(r.token, accept), y);
            Count(w'.events, r.token, ConfirmSuccess) == Count(w.events, r.token, ConfirmSuccess) + 1
  {
    var w1 := FailsAgain(w, r, p, x);
    var f := Unsent(Stamped(r, x[3].at), x[2].text).(rev := x[1].novel);
    RetryDelivers(w1, f, q, accept, y);
  }

  /** Before the expiry, a POST on a token that is past pending but not delivered posts once
      and ends delivered, ticked or not, if signing and posting succeed. */
  lemma RetryDelivers(w: State, r: Rec, q: nat, accept: bool, y: Answers)
    requires Inv(w) && r.id in w.store && w.store[r.id] == r && r.status != Pending && r.status != Delivered
    requires CanArrive(w, q, HGate(r.token, accept), y) && y[4].ok && y[2].ok && y[8].at < r.receivedAt + 72 * HOUR
    ensures var w' := Served(w, q, HGate(r.token, accept), y);
            && Count(w'.events, r.token, ConfirmSuccess) == Count(w.events, r.token, ConfirmSuccess) + 1
            && r.id in w'.store && w'.store[r.id].token == r.token && w'.store[r.id].status == Delivered
            && q in w'.procs && w'.procs[q] == Done(ConfirmOk(w'.store[r.id]))
  {
    StoredIsKnown(w, r.id);
    assert y[9].at <= y[8].at;
    RetryStep(w, q, r.token, accept, y, CLookup(r.token));
    var s := w.(clock := y[9].at, procs := w.procs[q := CLookup(r.token)]);
    KnownSame(w, s, r);
    ConfirmDelivers(s, q, y, r);
  }

  lemma KnownSame(w: State, s: State, r: Rec)
    requires Known(w, r) && s.store == w.store && s.mints == w.mints
    ensures Known(s, r)
  {
  }

  lemma FailsAgain(w: State, r: Rec, p: nat, x: Answers) returns (w1: State)
    requires Inv(w) && r.id in w.store && w.store[r.id] == r && r.status == Delivered && r.confirmedAt.Some?
    requires CanArrive(w, p, XGet(r.address), x) && x[4].ok && !x[2].ok
    ensures w1 == Served(w, p, XGet(r.address), x) && Inv(w1)
    ensures w1.store == w.store[r.id := Unsent(Stamped(r, x[3].at), x[2].text).(rev := x[1].novel)]
    ensures Count(w1.events, r.token, ConfirmSuccess) == Count(w.events, r.token, ConfirmSuccess)
  {
    var s := Arrived(w, p, XGet(r.address));
    SwapProcKeepsInv(w, p, XGet(r.address));
    StoredIsKnown(s, r.id);
    RedeliverCanUndo(s, p, x, r);
    SoloKeepsInv(s, p, x);
    w1 := Solo(s, p, x);
  }
}
