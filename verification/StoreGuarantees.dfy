/** Guarantees over whole runs of the store, for any schedule and any clock readings: replay ends a family, a code
    is redeemed once, a login completes once, deadlines do not slide and scopes do not widen. */
module StoreGuarantees {
  import opened Realm
  import opened StoreSpec
  import opened StoreInvariant
  import opened StoreSteps
  import opened StoreRuns
  import opened StoreOperations

  // ---- What an event can do to requests ----

  ghost predicate RequestChange(cfg: Settings, s: State, e: Event, id: string, request: Request) {
    if id !in s.requests then
      && e.Authorize? && e.drawn == Some(id) && request.created == e.now && request.expires == e.now + FIVE_MINUTES
      && request.asked == AskedOf(e.details) && request.clientID == e.clientID && e.clientID in cfg.clients
      && request.audience == cfg.clients[e.clientID].audiences
      && !request.done && !request.codeSaved && request.completion == NoDigest
    else
      && (request.done && !s.requests[id].done ==> LoginSucceeds(cfg, s, e, id))
      && (request.completion == s.requests[id].completion || request.completion == NoDigest
          || (e.Issue? && e.id == id && e.drawn.Some? && request.completion == Sha256(e.drawn.value)))
      && (e.Callback? && e.id == id && CallbackPasses(s, e) ==> request.completion == NoDigest)
      && (LoginSucceeds(cfg, s, e, id) ==> request.done)
  }

  ghost predicate CallbackPasses(s: State, e: Event) {
    e.Callback? && ConsumeCompletionSecret(s, e.now, e.id, e.secret).1.Ok?
  }

  lemma SaveChange(cfg: Settings, s: State, e: Event, id: string)
    requires e.SaveCode?
    requires Fewer(s, Prune(s, e.now)) && id in After(cfg, s, e).requests
    ensures RequestChange(cfg, s, e, id, After(cfg, s, e).requests[id])
  {
    hide Prune;
  }

  lemma AuthorizeChange(cfg: Settings, s: State, e: Event, id: string)
    requires e.Authorize?
    requires Fewer(s, Prune(s, e.now)) && id in After(cfg, s, e).requests
    ensures RequestChange(cfg, s, e, id, After(cfg, s, e).requests[id])
  {
    hide Prune;
  }

  lemma CompleteChange(cfg: Settings, p: State, now: Time, target: string, user: User, how: string, id: string)
    requires id in Complete(cfg, p, now, target, user, how).0.requests
    ensures id in p.requests
      && Complete(cfg, p, now, target, user, how).0.requests[id].completion == p.requests[id].completion
    ensures var ok := Complete(cfg, p, now, target, user, how).1.Ok? && id == target;
      var done := Complete(cfg, p, now, target, user, how).0.requests[id].done;
      (ok ==> done) && (done && !p.requests[id].done ==> ok)
  {
  }

  lemma LoginChange(cfg: Settings, s: State, e: Event, id: string)
    requires e.LoginEnd? || e.Select?
    requires Fewer(s, Prune(s, e.now)) && id in After(cfg, s, e).requests
    ensures RequestChange(cfg, s, e, id, After(cfg, s, e).requests[id])
  {
    hide Prune, Complete;
    match e {
      case LoginEnd(now, target, candidate, passwordOK) =>
        if candidate.requestOK && candidate.user.Some? && passwordOK {
          CompleteChange(cfg, Prune(s, now), now, target, candidate.user.value, "pwd", id);
        }
      case Select(now, target, userID) =>
        if userID in cfg.users {
          CompleteChange(cfg, Prune(s, now), now, target, cfg.users[userID], "dev-select", id);
        }
    }
  }

  lemma IssueChange(cfg: Settings, s: State, e: Event, id: string)
    requires e.Issue?
    requires Fewer(s, Prune(s, e.now)) && id in After(cfg, s, e).requests
    ensures RequestChange(cfg, s, e, id, After(cfg, s, e).requests[id])
  {
    hide Prune;
  }

  lemma CallbackChange(cfg: Settings, s: State, e: Event, id: string)
    requires e.Callback?
    requires Fewer(s, Prune(s, e.now)) && id in After(cfg, s, e).requests
    ensures RequestChange(cfg, s, e, id, After(cfg, s, e).requests[id])
  {
    hide Prune;
  }

  /** Most events leave the requests alone that the prune leaves. */
  lemma UntouchedChange(cfg: Settings, s: State, e: Event, id: string, request: Request)
    requires !e.LoginEnd? && !e.Select? && !e.Callback? && id in s.requests && request == s.requests[id]
    ensures RequestChange(cfg, s, e, id, request)
  {
  }

  lemma PairKeepsRequests(cfg: Settings, s: State, e: Event)
    requires e.CreatePair?
    ensures PairOutcome(cfg, s, e).0.requests in {s.requests, Prune(s, e.now).requests}
  {
    hide Prune;
  }

  lemma AccessKeepsRequests(cfg: Settings, s: State, e: Event)
    requires e.CreateAccess?
    ensures CreateAccessToken(cfg, s, e.now, e.request, e.drawn).0.requests in {s.requests, Prune(s, e.now).requests}
  {
    hide Prune;
  }

  lemma TokenChange(cfg: Settings, s: State, e: Event, id: string)
    requires e.CreateAccess? || e.CreatePair?
    requires Fewer(s, Prune(s, e.now)) && id in After(cfg, s, e).requests
    ensures RequestChange(cfg, s, e, id, After(cfg, s, e).requests[id])
  {
    hide Prune, PairOutcome, CreateAccessToken, RequestChange;
    if e.CreatePair? { PairKeepsRequests(cfg, s, e); } else { AccessKeepsRequests(cfg, s, e); }
    UntouchedChange(cfg, s, e, id, After(cfg, s, e).requests[id]);
  }

  lemma LogoutKeepsRequests(cfg: Settings, s: State, e: Event)
    requires e.Lookup? || e.Terminate? || e.Revocation?
    ensures After(cfg, s, e).requests in {s.requests, Prune(s, e.now).requests}
  {
    hide Prune;
  }

  lemma LogoutChange(cfg: Settings, s: State, e: Event, id: string)
    requires e.Lookup? || e.Terminate? || e.Revocation?
    requires Fewer(s, Prune(s, e.now)) && id in After(cfg, s, e).requests
    ensures RequestChange(cfg, s, e, id, After(cfg, s, e).requests[id])
  {
    hide Prune, RequestChange, After;
    LogoutKeepsRequests(cfg, s, e);
    UntouchedChange(cfg, s, e, id, After(cfg, s, e).requests[id]);
  }

  lemma ReaderChange(cfg: Settings, s: State, e: Event, id: string)
    requires e.ByID? || e.ByCode? || e.LoginBegin? || e.Info? || e.TokenInfo? || e.Userinfo? || e.Introspection?
    requires Fewer(s, Prune(s, e.now)) && id in After(cfg, s, e).requests
    ensures RequestChange(cfg, s, e, id, After(cfg, s, e).requests[id])
  {
    hide Prune, After, RequestChange;
    ReaderPrunes(cfg, s, e);
    UntouchedChange(cfg, s, e, id, After(cfg, s, e).requests[id]);
  }

  lemma EventChange(cfg: Settings, y: System, e: Event, id: string)
    requires Inv(y.store, y.used) && id in After(cfg, y.store, e).requests
    ensures RequestChange(cfg, y.store, e, id, After(cfg, y.store, e).requests[id])
  {
    hide Prune, Inv, RequestChange, Fewer;
    var s := y.store;
    if e.Delete? {
      DeleteChange(cfg, s, e, id);
    } else {
      PruneFewer(s, y.used, e.now);
      if e.Authorize? { AuthorizeChange(cfg, s, e, id); }
      else if e.SaveCode? { SaveChange(cfg, s, e, id); }
      else if e.LoginEnd? || e.Select? { LoginChange(cfg, s, e, id); }
      else if e.Issue? { IssueChange(cfg, s, e, id); }
      else if e.Callback? { CallbackChange(cfg, s, e, id); }
      else if e.CreateAccess? || e.CreatePair? { TokenChange(cfg, s, e, id); }
      else if e.Lookup? || e.Terminate? || e.Revocation? { LogoutChange(cfg, s, e, id); }
      else { ReaderChange(cfg, s, e, id); }
    }
  }

  lemma DeleteChange(cfg: Settings, s: State, e: Event, id: string)
    requires e.Delete? && id in After(cfg, s, e).requests
    ensures RequestChange(cfg, s, e, id, After(cfg, s, e).requests[id])
  {
  }

  /** Every stored request was made by an earlier authorization event, expires five minutes after it, and still has the
      client, redirect URI, nonce, state and code challenge of that event, and the client's audiences. */
  lemma {:induction false} RequestOrigin(cfg: Settings, ys: seq<System>, es: seq<Event>, j: nat, id: string)
    returns (k: nat)
    requires IsRun(cfg, ys, es) && j < |ys| && id in ys[j].store.requests
    ensures k < j && es[k].Authorize? && es[k].drawn == Some(id)
    ensures ys[j].store.requests[id].created == es[k].now
    ensures ys[j].store.requests[id].expires == es[k].now + FIVE_MINUTES
    ensures ys[j].store.requests[id].asked == AskedOf(es[k].details)
    ensures ys[j].store.requests[id].clientID == es[k].clientID && es[k].clientID in cfg.clients
    ensures ys[j].store.requests[id].audience == cfg.clients[es[k].clientID].audiences
  {
    hide Inv, ScopesOK, LentOK, AttemptOK, After, Permitted, WellFormed, LoginSucceeds, CodesEvolve;
    hide AccessEvolves, RefreshEvolves, RefreshKept, FamiliesEvolve;
    assert j != 0 by { EmptyAtStart(cfg, ys, es); }
    RunEvolves(cfg, ys, es, j - 1, j);
    StepOf(cfg, ys, es, j - 1);
    EventChange(cfg, ys[j - 1], es[j - 1], id);
    if id in ys[j - 1].store.requests {
      k := RequestOrigin(cfg, ys, es, j - 1, id);
    } else {
      k := j - 1;
    }
  }

  lemma EmptyAtStart(cfg: Settings, ys: seq<System>, es: seq<Event>)
    requires IsRun(cfg, ys, es)
    ensures ys[0].store.requests == map[]
  {
  }

  // ---- Redemption ----

  /** The event takes the authorization code of the request: its reservation goes through. */
  ghost predicate Redeems(cfg: Settings, s: State, e: Event, id: string) {
    || (e.CreateAccess? && e.request == ForCode(id) && e.drawn.Some? && Reserve(Prune(s, e.now), e.request).Ok?)
    || (e.CreatePair? && e.request == ForCode(id) && e.drawnToken.Some? && e.drawnAccess.Some?
        && Reserve(Prune(s, e.now), e.request).Ok?)
  }

  /** Creating tokens for a code needs the reservation. */
  lemma TokensNeedRedemption(cfg: Settings, s: State, e: Event, id: string)
    requires e.CreateAccess? ==> e.request == ForCode(id) && CreateAccessToken(cfg, s, e.now, e.request, e.drawn).1.Ok?
    requires e.CreatePair? ==> e.request == ForCode(id) && PairOutcome(cfg, s, e).1.Ok?
    requires e.CreateAccess? || e.CreatePair?
    ensures Redeems(cfg, s, e, id)
  {
    hide Prune;
  }

  ghost predicate Spent(s: State, used: set<string>, id: string) {
    && id in used
    && (id in s.requests ==>
          s.requests[id].codeSaved && s.requests[id].code != "" && s.requests[id].code in s.codes
          && s.codes[s.requests[id].code].reserved)
  }

  lemma SpentStays(s: State, used: set<string>, s': State, used': set<string>, id: string)
    requires Inv(s, used) && Inv(s', used') && used <= used' && Evolves(s, used, s') && Spent(s, used, id)
    ensures Spent(s', used', id)
  {
    hide FamilyLinks, AccessLinks, ExpiryBound, Known;
    if id in s'.requests {
      assert id in s.requests && RequestOK(s, id) && RequestOK(s', id);
    }
  }

  lemma AccessReserves(cfg: Settings, s: State, e: Event, id: string)
    requires e.CreateAccess? && Redeems(cfg, s, e, id)
    ensures var q, t := Reserve(Prune(s, e.now), e.request).value, After(cfg, s, e);
      t.requests == q.requests && t.codes == q.codes
  {
    hide Prune, Reserve, InfoOf, AudienceOf;
  }

  lemma PairReservesCode(cfg: Settings, s: State, e: Event, id: string)
    requires e.CreatePair? && Redeems(cfg, s, e, id)
    ensures var q, t := Reserve(Prune(s, e.now), e.request).value, After(cfg, s, e);
      t.requests == q.requests && t.codes == q.codes
  {
    hide Prune, Reserve, InfoOf, AudienceOf, Compact, Consumed;
  }

  /** The reservation itself, on a pruned state. */
  lemma ReservationSpends(p: State, used: set<string>, id: string)
    requires CodeLinks(p) && Known(p, used) && Reserve(p, ForCode(id)).Ok?
    ensures Spent(Reserve(p, ForCode(id)).value, used, id) && id in p.requests
  {
    assert RequestOK(p, id);
  }

  lemma SpentBySame(s: State, used: set<string>, t: State, more: set<string>, id: string)
    requires Spent(s, used, id) && t.requests == s.requests && t.codes == s.codes && used <= more
    ensures Spent(t, more, id)
  {
  }

  /** A pruned state holds unexpired requests of the state before. */
  lemma PrunedRequest(s: State, used: set<string>, now: Time, id: string)
    requires Inv(s, used) && id in Prune(s, now).requests
    ensures id in s.requests && now < s.requests[id].expires
  {
    hide Prune, Inv;
    PruneIsEager(s, used, now);
  }

  lemma RedeemsReserves(cfg: Settings, s: State, e: Event, id: string)
    requires Redeems(cfg, s, e, id)
    ensures (e.CreateAccess? || e.CreatePair?) && e.request == ForCode(id) && Reserve(Prune(s, e.now), e.request).Ok?
  {
    hide Prune, Reserve;
  }

  lemma RedemptionSpends(cfg: Settings, y: System, e: Event, y': System, id: string)
    requires Inv(y.store, y.used) && Next(cfg, y, e, y') && Redeems(cfg, y.store, e, id)
    ensures Spent(y'.store, y'.used, id)
    ensures id in y.store.requests && e.now < y.store.requests[id].expires
  {
    hide Prune, CodeLinks, FamilyLinks, AccessLinks, ExpiryBound, Known, Evolves;
    hide After, Permitted, Redeems, Reserve, Spent;
    RedeemsReserves(cfg, y.store, e, id);
    var p := Prune(y.store, e.now);
    PruneInv(y.store, y.used, e.now);
    ReservationSpends(p, y.used, id);
    PrunedRequest(y.store, y.used, e.now, id);
    if e.CreateAccess? {
      AccessReserves(cfg, y.store, e, id);
    } else {
      PairReservesCode(cfg, y.store, e, id);
    }
    SpentBySame(Reserve(p, e.request).value, y.used, y'.store, y'.used, id);
  }

  lemma SpentRefuses(cfg: Settings, s: State, used: set<string>, e: Event, id: string)
    requires Inv(s, used) && Spent(s, used, id)
    ensures !Redeems(cfg, s, e, id)
  {
    hide Prune, Inv;
    if Redeems(cfg, s, e, id) {
      RequestReadersAreExact(cfg, s, used, e.now, id, "");
    }
  }

  /** In any run at most one event takes a request's authorization code, and it does so within five minutes of
      the authorization request. */
  lemma RedeemedAtMostOnce(cfg: Settings, ys: seq<System>, es: seq<Event>, i: nat, j: nat, id: string)
    requires IsRun(cfg, ys, es) && i < j < |es|
    requires Redeems(cfg, ys[i].store, es[i], id)
    ensures !Redeems(cfg, ys[j].store, es[j], id)
    ensures exists k ::
      0 <= k < i && es[k].Authorize? && es[k].drawn == Some(id) && es[i].now < es[k].now + FIVE_MINUTES
  {
    hide Inv, IsRun, Next, ScopesOK, LentOK, AttemptOK, Redeems, Evolves, Spent;
    RunLength(cfg, ys, es);
    RunEvolves(cfg, ys, es, i + 1, j);
    RunInv(cfg, ys, es, i);
    StepOf(cfg, ys, es, i);
    RedemptionSpends(cfg, ys[i], es[i], ys[i + 1], id);
    SpentStays(ys[i + 1].store, ys[i + 1].used, ys[j].store, ys[j].used, id);
    SpentRefuses(cfg, ys[j].store, ys[j].used, es[j], id);
    var k := RequestOrigin(cfg, ys, es, i, id);
  }

  lemma RunLength(cfg: Settings, ys: seq<System>, es: seq<Event>)
    requires IsRun(cfg, ys, es)
    ensures |ys| == |es| + 1
  {
  }

  /** The event creates tokens for the request's code. */
  ghost predicate CreatesFor(cfg: Settings, s: State, e: Event, id: string) {
    || (e.CreateAccess? && e.request == ForCode(id) && CreateAccessToken(cfg, s, e.now, e.request, e.drawn).1.Ok?)
    || (e.CreatePair? && e.request == ForCode(id) && PairOutcome(cfg, s, e).1.Ok?)
  }

  /** In any run, whatever happens in between, tokens are created for a request at most once, and only within five
      minutes of it. */
  lemma TokensAtMostOnce(cfg: Settings, ys: seq<System>, es: seq<Event>, i: nat, j: nat, id: string)
    requires IsRun(cfg, ys, es) && i < j < |es|
    requires CreatesFor(cfg, ys[i].store, es[i], id)
    ensures !CreatesFor(cfg, ys[j].store, es[j], id)
    ensures exists k ::
      0 <= k < i && es[k].Authorize? && es[k].drawn == Some(id) && es[i].now < es[k].now + FIVE_MINUTES
  {
    hide IsRun, Redeems, PairOutcome, CreateAccessToken;
    RunLength(cfg, ys, es);
    TokensNeedRedemption(cfg, ys[i].store, es[i], id);
    RedeemedAtMostOnce(cfg, ys, es, i, j, id);
    if CreatesFor(cfg, ys[j].store, es[j], id) {
      TokensNeedRedemption(cfg, ys[j].store, es[j], id);
    }
  }

  // ---- A code that is lost ----

  /** A code of the request is reserved that was not reserved before. */
  ghost predicate NewlyReserved(s: State, t: State, id: string) {
    exists code :: code in s.codes && s.codes[code].requestID == id && !s.codes[code].reserved
                   && code in t.codes && t.codes[code].reserved
  }

  lemma PrunedCodes(s: State, used: set<string>, now: Time)
    requires Inv(s, used)
    ensures forall code | code in Prune(s, now).codes :: code in s.codes && s.codes[code] == Prune(s, now).codes[code]
  {
    hide Inv;
    PruneIsEager(s, used, now);
  }

  /** A pair creation that fails leaves the request's code reserved exactly when only the family id could not be
      drawn. */
  lemma FailedPairReservesIff(cfg: Settings, y: System, e: Event, id: string)
    requires Inv(y.store, y.used) && Permitted(cfg, y, e)
    requires e.CreatePair? && e.request == ForCode(id) && PairOutcome(cfg, y.store, e).1.Err?
    ensures NewlyReserved(y.store, After(cfg, y.store, e), id) <==>
      && e.current == "" && e.drawnToken.Some? && e.drawnAccess.Some?
      && Reserve(Prune(y.store, e.now), e.request).Ok? && e.drawnFamily.None?
  {
    hide Prune, Inv, FreshDraws, InfoOf, AddPair, Rotate, Revoke;
    PrunedCodes(y.store, y.used, e.now);
    var p, t := Prune(y.store, e.now), After(cfg, y.store, e);
    if e.drawnToken.None? || e.drawnAccess.None? {
      assert t == y.store;
    } else if Reserve(p, e.request).Err? {
      assert t.codes == p.codes;
    } else {
      var code := p.requests[id].code;
      assert code in y.store.codes && !y.store.codes[code].reserved && t.codes[code].reserved;
    }
  }

  /** A reservation that fails changes no code. */
  lemma FailedAccessReservesNothing(cfg: Settings, y: System, e: Event, id: string)
    requires Inv(y.store, y.used)
    requires e.CreateAccess? && CreateAccessToken(cfg, y.store, e.now, e.request, e.drawn).1.Err?
    ensures !NewlyReserved(y.store, After(cfg, y.store, e), id)
  {
    hide Prune, Inv;
    PrunedCodes(y.store, y.used, e.now);
  }

  /** All random values that the event asks for can be drawn. */
  predicate Drawn(e: Event) {
    && (e.CreateAccess? ==> e.drawn.Some?)
    && (e.CreatePair? ==> e.drawnToken.Some? && e.drawnAccess.Some? && (e.current == "" ==> e.drawnFamily.Some?))
  }

  /** When they can, a creation of tokens for a code that fails reserves no code. */
  lemma FailureKeepsCode(cfg: Settings, y: System, e: Event, id: string)
    requires Inv(y.store, y.used) && Permitted(cfg, y, e) && Drawn(e)
    requires (e.CreateAccess? || e.CreatePair?) && e.request == ForCode(id) && !CreatesFor(cfg, y.store, e, id)
    ensures !NewlyReserved(y.store, After(cfg, y.store, e), id)
  {
    hide Inv, Prune, Permitted, NewlyReserved, After, PairOutcome, CreateAccessToken;
    if e.CreateAccess? {
      FailedAccessReservesNothing(cfg, y, e, id);
    } else {
      FailedPairReservesIff(cfg, y, e, id);
    }
  }

  /** And it fails exactly when the code cannot be reserved: nothing else is in the way of tokens for a code. */
  lemma CreatesIffReserves(cfg: Settings, y: System, e: Event, id: string)
    requires Permitted(cfg, y, e) && Drawn(e) && (e.CreateAccess? || e.CreatePair?) && e.request == ForCode(id)
    ensures CreatesFor(cfg, y.store, e, id) <==> Reserve(Prune(y.store, e.now), e.request).Ok?
  {
    hide Prune, Reserve, InfoOf, AudienceOf, AddPair, FreshDraws;
  }

  /** Such a code is lost: no later event of the run creates tokens for the request. */
  lemma LostForever(cfg: Settings, ys: seq<System>, es: seq<Event>, i: nat, j: nat, id: string)
    requires IsRun(cfg, ys, es) && i < j < |es|
    requires es[i].CreatePair? && es[i].request == ForCode(id) && PairOutcome(cfg, ys[i].store, es[i]).1.Err?
    requires NewlyReserved(ys[i].store, ys[i + 1].store, id)
    ensures !CreatesFor(cfg, ys[j].store, es[j], id)
  {
    hide IsRun, Prune, Inv, PairOutcome, CreateAccessToken, NewlyReserved, ScopesOK, LentOK, AttemptOK, FreshDraws,
      MayRequest;
    RunLength(cfg, ys, es);
    RunInv(cfg, ys, es, i);
    StepOf(cfg, ys, es, i);
    FailedPairReservesIff(cfg, ys[i], es[i], id);
    RedeemedAtMostOnce(cfg, ys, es, i, j, id);
    if CreatesFor(cfg, ys[j].store, es[j], id) {
      TokensNeedRedemption(cfg, ys[j].store, es[j], id);
    }
  }

  // ---- Login completion ----

  ghost predicate LoggedIn(y: System, id: string) {
    id in y.used && (id in y.store.requests ==> y.store.requests[id].done)
  }

  /** A request waits for its secret, or holds one, only after its login. */
  ghost predicate LoginInv(y: System) {
    && (forall id | id in y.logins :: LoggedIn(y, id))
    && (forall id | id in y.store.requests && y.store.requests[id].completion != NoDigest ::
          y.store.requests[id].done && id !in y.logins)
  }

  /** The login is over and its secret has been issued. */
  ghost predicate SecretIssued(y: System, id: string) {
    LoggedIn(y, id) && id !in y.logins
  }

  /** The secret has been used up. */
  ghost predicate Closed(y: System, id: string) {
    SecretIssued(y, id) && (id in y.store.requests ==> y.store.requests[id].completion == NoDigest)
  }

  lemma LoginNeedsUndone(cfg: Settings, y: System, e: Event, id: string)
    requires Inv(y.store, y.used) && LoginSucceeds(cfg, y.store, e, id)
    ensures id in y.store.requests && !y.store.requests[id].done && e.now < y.store.requests[id].expires
  {
    hide Prune, Inv;
    PruneIsEager(y.store, y.used, e.now);
  }

  lemma CallbackNeedsSecret(s: State, used: set<string>, e: Event)
    requires Inv(s, used) && CallbackPasses(s, e)
    ensures e.id in s.requests && s.requests[e.id].completion == Sha256(e.secret) && e.now < s.requests[e.id].expires
  {
    hide Prune, Inv;
    PruneIsEager(s, used, e.now);
  }

  /** Login facts survive any step; the ones about secrets because only a login entitles to a secret. */
  lemma LoginStep(cfg: Settings, y: System, e: Event, y': System, id: string)
    requires WellFormed(cfg) && SystemInv(cfg, y) && SystemInv(cfg, y') && Evolves(y.store, y.used, y'.store)
    requires Next(cfg, y, e, y') && LoginInv(y)
    ensures LoggedIn(y, id) ==> LoggedIn(y', id)
    ensures SecretIssued(y, id) ==> SecretIssued(y', id)
    ensures Closed(y, id) ==> Closed(y', id)
    ensures LoginSucceeds(cfg, y.store, e, id) ==> LoggedIn(y', id)
    ensures e.Issue? && e.id == id ==> SecretIssued(y', id)
    ensures CallbackPasses(y.store, e) && e.id == id ==> Closed(y', id)
    ensures id in y'.logins ==> LoggedIn(y', id)
    ensures id in y'.store.requests && y'.store.requests[id].completion != NoDigest ==>
      y'.store.requests[id].done && id !in y'.logins
  {
    hide Prune, After, Inv, ScopesOK, LentOK, AttemptOK, LoginSucceeds, CodesEvolve, AccessEvolves;
    hide RefreshEvolves, RefreshKept, FamiliesEvolve, FreshDraws, MayRequest, WellFormed;
    if id in y'.store.requests { EventChange(cfg, y, e, id); }
    if LoginSucceeds(cfg, y.store, e, id) { LoginNeedsUndone(cfg, y, e, id); }
    if CallbackPasses(y.store, e) { CallbackNeedsSecret(y.store, y.used, e); }
    RequestsKnown(y.store, y.used);
  }

  lemma {:induction false} RunLoginInv(cfg: Settings, ys: seq<System>, es: seq<Event>, j: nat)
    requires IsRun(cfg, ys, es) && j < |ys|
    ensures LoginInv(ys[j])
  {
    hide Inv, Next, ScopesOK, LentOK, AttemptOK, Evolves, LoggedIn, WellFormed;
    if j == 0 {
      EmptyAtStart(cfg, ys, es);
    } else {
      RunLoginInv(cfg, ys, es, j - 1);
      RunEvolves(cfg, ys, es, j - 1, j);
      StepOf(cfg, ys, es, j - 1);
      forall id ensures id in ys[j].logins ==> LoggedIn(ys[j], id)
                ensures id in ys[j].store.requests && ys[j].store.requests[id].completion != NoDigest ==>
                  ys[j].store.requests[id].done && id !in ys[j].logins
      {
        LoginStep(cfg, ys[j - 1], es[j - 1], ys[j], id);
      }
    }
  }

  /** Once a request is logged in, has its secret, or has used it, it stays so for the rest of the run. */
  lemma {:induction false} LoginPersists(cfg: Settings, ys: seq<System>, es: seq<Event>, i: nat, j: nat, id: string)
    requires IsRun(cfg, ys, es) && i <= j < |ys|
    ensures LoggedIn(ys[i], id) ==> LoggedIn(ys[j], id)
    ensures SecretIssued(ys[i], id) ==> SecretIssued(ys[j], id)
    ensures Closed(ys[i], id) ==> Closed(ys[j], id)
    decreases j
  {
    hide Inv, Next, ScopesOK, LentOK, AttemptOK, Evolves, LoggedIn, SecretIssued, Closed, WellFormed, LoginInv;
    if i < j {
      LoginPersists(cfg, ys, es, i, j - 1, id);
      RunLoginInv(cfg, ys, es, j - 1);
      RunEvolves(cfg, ys, es, j - 1, j);
      StepOf(cfg, ys, es, j - 1);
      LoginStep(cfg, ys[j - 1], es[j - 1], ys[j], id);
    }
  }

  lemma AfterEvent(cfg: Settings, ys: seq<System>, es: seq<Event>, i: nat, id: string)
    requires IsRun(cfg, ys, es) && i < |es|
    ensures |ys| == |es| + 1
    ensures LoginSucceeds(cfg, ys[i].store, es[i], id) ==> LoggedIn(ys[i + 1], id)
    ensures es[i].Issue? && es[i].id == id ==> SecretIssued(ys[i + 1], id) && id in ys[i].logins
    ensures CallbackPasses(ys[i].store, es[i]) && es[i].id == id ==> Closed(ys[i + 1], id)
  {
    hide Inv, ScopesOK, LentOK, AttemptOK, Evolves, LoggedIn, SecretIssued, Closed, WellFormed, LoginInv;
    hide After, LoginSucceeds, CallbackPasses, MayRequest, FreshDraws;
    RunLength(cfg, ys, es);
    RunLoginInv(cfg, ys, es, i);
    RunEvolves(cfg, ys, es, i, i + 1);
    StepOf(cfg, ys, es, i);
    LoginStep(cfg, ys[i], es[i], ys[i + 1], id);
  }

  /** For each request at most one login succeeds, at most one completion secret is issued and at most one
      callback passes the gate, whatever logins and callbacks race. */
  lemma LoginIsSingleShot(cfg: Settings, ys: seq<System>, es: seq<Event>, i: nat, j: nat, id: string)
    requires IsRun(cfg, ys, es) && i < j < |es|
    ensures LoginSucceeds(cfg, ys[i].store, es[i], id) ==> !LoginSucceeds(cfg, ys[j].store, es[j], id)
    ensures es[i].Issue? && es[i].id == id ==> !(es[j].Issue? && es[j].id == id)
    ensures CallbackPasses(ys[i].store, es[i]) && es[i].id == id ==>
      !(CallbackPasses(ys[j].store, es[j]) && es[j].id == id)
  {
    hide Inv, Next, ScopesOK, LentOK, AttemptOK, Evolves, WellFormed, LoginInv, After, LoginSucceeds, CallbackPasses;
    AfterEvent(cfg, ys, es, i, id);
    AfterEvent(cfg, ys, es, j, id);
    LoginPersists(cfg, ys, es, i + 1, j, id);
    RunInv(cfg, ys, es, j);
    if LoginSucceeds(cfg, ys[j].store, es[j], id) { LoginNeedsUndone(cfg, ys[j], es[j], id); }
    if CallbackPasses(ys[j].store, es[j]) { CallbackNeedsSecret(ys[j].store, ys[j].used, es[j]); }
  }

  /** What a login fixed never changes again. */
  lemma LoginIsFrozen(cfg: Settings, ys: seq<System>, es: seq<Event>, i: nat, j: nat, id: string)
    requires IsRun(cfg, ys, es) && i <= j < |ys|
    requires id in ys[i].store.requests && ys[i].store.requests[id].done && id in ys[j].store.requests
    ensures var r, r' := ys[i].store.requests[id], ys[j].store.requests[id];
      r'.done && r'.subject == r.subject && r'.scopes == r.scopes && r'.authTime == r.authTime && r'.amr == r.amr
  {
    hide Inv, IsRun;
    RunEvolves(cfg, ys, es, i, j);
  }

  /** A callback that passes presents a secret that was issued for that very request. */
  lemma {:induction false} SecretOrigin(cfg: Settings, ys: seq<System>, es: seq<Event>, j: nat, id: string,
                                        secret: string)
    returns (k: nat)
    requires IsRun(cfg, ys, es) && j < |ys| && id in ys[j].store.requests
    requires ys[j].store.requests[id].completion == Sha256(secret)
    ensures k < j && es[k].Issue? && es[k].id == id && es[k].drawn == Some(secret)
  {
    hide Inv, ScopesOK, LentOK, AttemptOK, After, Permitted, WellFormed, LoginSucceeds, Evolves;
    assert j != 0 by { EmptyAtStart(cfg, ys, es); }
    RunInv(cfg, ys, es, j - 1);
    StepOf(cfg, ys, es, j - 1);
    EventChange(cfg, ys[j - 1], es[j - 1], id);
    if id in ys[j - 1].store.requests && ys[j - 1].store.requests[id].completion == Sha256(secret) {
      k := SecretOrigin(cfg, ys, es, j - 1, id, secret);
    } else {
      k := j - 1;
    }
  }

  lemma CallbackSecretWasIssued(cfg: Settings, ys: seq<System>, es: seq<Event>, j: nat)
    requires IsRun(cfg, ys, es) && j < |es| && CallbackPasses(ys[j].store, es[j])
    ensures exists k :: 0 <= k < j && es[k].Issue? && es[k].id == es[j].id && es[k].drawn == Some(es[j].secret)
  {
    hide Inv, Next, CallbackPasses;
    RunInv(cfg, ys, es, j);
    RunLength(cfg, ys, es);
    assert es[j].Callback? by { PassingIsCallback(ys[j].store, es[j]); }
    CallbackNeedsSecret(ys[j].store, ys[j].used, es[j]);
    var k := SecretOrigin(cfg, ys, es, j, es[j].id, es[j].secret);
  }

  lemma PassingIsCallback(s: State, e: Event)
    ensures CallbackPasses(s, e) ==> e.Callback?
  {
  }

  // ---- Refresh families ----

  /** The token belongs to the family: if stored, with that family, and stored while the family is. */
  ghost predicate Member(s: State, used: set<string>, token: string, f: string) {
    && token in used && f in used
    && (Sha256(token) in s.refresh ==> s.refresh[Sha256(token)].familyID == f)
    && (f in s.families ==> Sha256(token) in s.refresh)
  }

  ghost predicate AccessMember(s: State, used: set<string>, accessID: string, f: string) {
    accessID in used && f in used && (accessID in s.access ==> s.access[accessID].familyID == f)
  }

  ghost predicate Burnt(s: State, token: string) {
    Sha256(token) in s.refresh ==> s.refresh[Sha256(token)].consumed
  }

  /** Nothing of the family can be presented any more: no family and no refresh record. */
  ghost predicate Ended(s: State, used: set<string>, f: string) {
    f in used && f !in s.families && forall h | h in s.refresh :: s.refresh[h].familyID != f
  }

  /** Ended, and no access record of the family is left. */
  ghost predicate Erased(s: State, used: set<string>, f: string) {
    Ended(s, used, f) && forall id | id in s.access :: s.access[id].familyID != f
  }

  lemma FamilyFactsPersist(s: State, used: set<string>, s': State, used': set<string>, token: string,
                           accessID: string, f: string)
    requires Inv(s, used) && Inv(s', used') && used <= used' && Evolves(s, used, s')
    ensures Member(s, used, token, f) ==> Member(s', used', token, f)
    ensures AccessMember(s, used, accessID, f) ==> AccessMember(s', used', accessID, f)
    ensures token in used && Burnt(s, token) ==> Burnt(s', token)
    ensures Ended(s, used, f) ==> Ended(s', used', f)
    ensures Erased(s, used, f) && f != "" ==> Erased(s', used', f)
  {
    hide CodeLinks, AccessLinks, ExpiryBound, Known, RequestsEvolve, CodesEvolve;
    forall h | h in s'.refresh
      ensures s'.refresh[h].familyID in s'.families
    {
      assert RefreshOK(s', h);
    }
  }

  /** The family a successful pair creation adds to. */
  ghost predicate Issues(cfg: Settings, s: State, e: Event, token: string, accessID: string, f: string) {
    e.CreatePair? && PairOutcome(cfg, s, e).1.Ok?
    && PairOutcome(cfg, s, e).1.value.token == token && PairOutcome(cfg, s, e).1.value.accessID == accessID
    && PairOutcome(cfg, s, e).1.value.familyID == f
  }

  ghost predicate Rotates(cfg: Settings, s: State, e: Event, token: string, f: string) {
    e.CreatePair? && PairOutcome(cfg, s, e).1.Ok? && e.current == token != ""
      && PairOutcome(cfg, s, e).1.value.familyID == f
  }

  lemma IssuingMakesMembers(cfg: Settings, y: System, e: Event, y': System, token: string, accessID: string, f: string)
    requires Inv(y.store, y.used) && Inv(y'.store, y'.used) && Next(cfg, y, e, y')
      && Issues(cfg, y.store, e, token, accessID, f)
    ensures Member(y'.store, y'.used, token, f) && AccessMember(y'.store, y'.used, accessID, f) && f != ""
    ensures accessID in y'.store.access && Sha256(token) in y'.store.refresh && f in y'.store.families
  {
    hide Prune, CodeLinks, FamilyLinks, AccessLinks, ExpiryBound, Reserve, InfoOf, AudienceOf, Compact;
    assert f in y'.store.families && Sha256(token) in y'.store.refresh && accessID in y'.store.access;
    FamilyNamed(y'.store, f);
  }

  /** Reserving a code leaves the token records alone. */
  lemma PairReserves(cfg: Settings, s: State, e: Event)
    requires e.CreatePair? && Reserve(Prune(s, e.now), e.request).Ok?
    ensures Reserve(Prune(s, e.now), e.request).value.refresh == Prune(s, e.now).refresh
    ensures Reserve(Prune(s, e.now), e.request).value.families == Prune(s, e.now).families
    ensures Reserve(Prune(s, e.now), e.request).value.access == Prune(s, e.now).access
  {
    hide Prune;
  }

  lemma FamilyNamed(s: State, f: string)
    requires FamilyLinks(s) && f in s.families
    ensures f != ""
  {
    assert FamilyOK(s, f);
  }

  /** A rotation consumes a record of the pruned state. */
  lemma RotationConsumes(cfg: Settings, s: State, e: Event, token: string, f: string)
    requires Rotates(cfg, s, e, token, f)
    requires PairOutcome(cfg, s, e).1.value.token != token
    ensures var p, t, h := Prune(s, e.now), After(cfg, s, e), Sha256(token);
      && h in p.refresh && p.refresh[h].familyID == f
      && h in t.refresh && t.refresh[h].familyID == f && t.refresh[h].consumed
  {
    hide Prune, Reserve, InfoOf, AudienceOf, Compact;
    PairReservesOk(cfg, s, e);
    PairReserves(cfg, s, e);
  }

  /** What a rotation issues is newly drawn. */
  lemma IssuedIsDrawn(cfg: Settings, y: System, e: Event)
    requires Permitted(cfg, y, e) && e.CreatePair? && PairOutcome(cfg, y.store, e).1.Ok?
    ensures PairOutcome(cfg, y.store, e).1.value.token !in y.used
  {
    hide Prune, Reserve, InfoOf, AddPair, Rotate, Revoke, MayRequest;
    assert One(e.drawnToken) <= Draws(e);
  }

  lemma RotationBurns(cfg: Settings, y: System, e: Event, y': System, token: string, f: string)
    requires SystemInv(cfg, y) && Next(cfg, y, e, y') && Rotates(cfg, y.store, e, token, f)
    ensures token in y.used && Burnt(y'.store, token)
    ensures Sha256(token) in y.store.refresh && y.store.refresh[Sha256(token)].familyID == f
    ensures Sha256(token) in y'.store.refresh && y'.store.refresh[Sha256(token)].familyID == f
  {
    hide Prune, Inv, ScopesOK, LentOK, AttemptOK, After, Permitted, PairOutcome;
    IssuedIsDrawn(cfg, y, e);
    RotatedIsKnown(cfg, y, e, token, f);
    RotationConsumes(cfg, y.store, e, token, f);
    PrunedRefresh(y.store, y.used, e.now, Sha256(token));
  }

  lemma RotatedIsKnown(cfg: Settings, y: System, e: Event, token: string, f: string)
    requires Inv(y.store, y.used) && Rotates(cfg, y.store, e, token, f)
    ensures Sha256(token) in Prune(y.store, e.now).refresh && token in y.used
  {
    hide Prune, Inv, Reserve, InfoOf, AudienceOf, AddPair, Rotate, Revoke;
    PairReservesOk(cfg, y.store, e);
    PairReserves(cfg, y.store, e);
    PrunedRefresh(y.store, y.used, e.now, Sha256(token));
  }

  ghost predicate Presents(e: Event, token: string) {
    && token != ""
    && ((e.Lookup? && e.token == token) ||
        (e.CreatePair? && e.current == token && e.drawnToken.Some? && e.drawnAccess.Some?))
  }

  /** The refresh token is accepted: by a lookup, a rotation or for its subject. */
  ghost predicate Accepts(cfg: Settings, s: State, e: Event, token: string) {
    || (e.Lookup? && e.token == token && TokenRequestByRefreshToken(s, e.now, token).1.Ok?)
    || (e.CreatePair? && e.current == token && PairOutcome(cfg, s, e).1.Ok?)
    || (e.TokenInfo? && e.token == token && GetRefreshTokenInfo(s, e.now, e.clientID, token).1.Ok?)
  }

  /** The store after a presented token that is consumed or unknown. */
  ghost function AfterReplay(p: State, token: string): State {
    if Sha256(token) in p.refresh then Revoke(p, {p.refresh[Sha256(token)].familyID}) else p
  }

  lemma ReplayIsRevocation(cfg: Settings, y: System, e: Event, token: string)
    requires Permitted(cfg, y, e) && Presents(e, token) && Burnt(Prune(y.store, e.now), token)
    ensures After(cfg, y.store, e) == AfterReplay(Prune(y.store, e.now), token)
    ensures !Accepts(cfg, y.store, e, token)
  {
    hide Prune, Revoke;
  }

  lemma ReplayErases(p: State, used: set<string>, token: string, f: string)
    requires Inv(p, used) && Member(p, used, token, f) && f != ""
    ensures Ended(AfterReplay(p, token), used, f)
    ensures f in p.families ==> Erased(AfterReplay(p, token), used, f)
  {
    hide CodeLinks, AccessLinks, ExpiryBound, Known, Revoke;
    if f in p.families {
      RevokeErases(p, used, {f});
    } else {
      forall h | h in p.refresh ensures p.refresh[h].familyID != f { assert RefreshOK(p, h); }
    }
  }

  ghost predicate Alive(s: State, f: string, now: Time) {
    f in s.families && now < s.families[f].expires
  }

  /** An unexpired access record of a family that is over. */
  ghost predicate Outlives(s: State, id: string, f: string, now: Time) {
    id in s.access && s.access[id].familyID == f && now < s.access[id].expires && !Alive(s, f, now)
  }

  ghost predicate StoredFor(s: State, id: string, f: string) {
    id in s.access && s.access[id].familyID == f
  }

  /** What a replay leaves of the family are exactly the access records that have outlived it. */
  lemma ReplayLeaves(s: State, used: set<string>, now: Time, token: string, f: string)
    requires Inv(s, used) && Inv(Prune(s, now), used) && Member(Prune(s, now), used, token, f) && f != ""
    ensures f in Prune(s, now).families <==> Alive(s, f, now)
    ensures forall id :: StoredFor(AfterReplay(Prune(s, now), token), id, f) <==> Outlives(s, id, f, now)
  {
    hide Prune, Inv, Revoke;
    var p := Prune(s, now);
    PruneIsEager(s, used, now);
    ReplayErases(p, used, token, f);
    if f !in p.families {
      MembersNeedFamily(p, used, token, f);
    }
  }

  lemma MembersNeedFamily(s: State, used: set<string>, token: string, f: string)
    requires Inv(s, used) && Member(s, used, token, f)
    ensures Sha256(token) in s.refresh ==> f in s.families
  {
    if Sha256(token) in s.refresh {
      assert RefreshOK(s, Sha256(token));
    }
  }

  /** Presenting a consumed token is refused and leaves nothing of its family but the access records that have
      outlived it. */
  lemma ReplayEndsFamily(cfg: Settings, y: System, e: Event, y': System, token: string, f: string)
    requires SystemInv(cfg, y) && Next(cfg, y, e, y') && Presents(e, token)
    requires Member(y.store, y.used, token, f) && Burnt(y.store, token) && f != ""
    ensures !Accepts(cfg, y.store, e, token)
    ensures Ended(y'.store, y'.used, f)
    ensures f in Prune(y.store, e.now).families ==> Erased(y'.store, y'.used, f)
    ensures f in Prune(y.store, e.now).families <==> Alive(y.store, f, e.now)
    ensures forall id :: StoredFor(y'.store, id, f) <==> Outlives(y.store, id, f, e.now)
  {
    hide Prune, Inv, ScopesOK, LentOK, AttemptOK, Member, Burnt, Accepts, AfterReplay, After, Permitted, Evolves;
    hide Alive, Outlives, StoredFor;
    var p := Prune(y.store, e.now);
    PruneInv(y.store, y.used, e.now);
    assert token in y.used by { MemberDrawn(y.store, y.used, token, f); }
    FamilyFactsPersist(y.store, y.used, p, y.used, token, "", f);
    ReplayIsRevocation(cfg, y, e, token);
    ReplayErases(p, y.used, token, f);
    ReplayLeaves(y.store, y.used, e.now, token, f);
  }

  lemma MemberDrawn(s: State, used: set<string>, token: string, f: string)
    requires Member(s, used, token, f)
    ensures token in used && f in used
  {
  }

  lemma EndedRefuses(cfg: Settings, s: State, used: set<string>, e: Event, token: string, f: string)
    requires Inv(s, used) && Ended(s, used, f) && Member(s, used, token, f) && token != ""
    ensures !Accepts(cfg, s, e, token)
  {
    hide Prune, Inv, AddPair, Rotate, Revoke;
    if e.CreatePair? || e.Lookup? || e.TokenInfo? {
      PruneIsEager(s, used, e.now);
      assert Sha256(token) !in Prune(s, e.now).refresh;
      if e.CreatePair? && Reserve(Prune(s, e.now), e.request).Ok? { PairReserves(cfg, s, e); }
    }
  }

  lemma EndedIsErased(s: State, used: set<string>, f: string)
    requires Ended(s, used, f) && forall id :: !StoredFor(s, id, f)
    ensures Erased(s, used, f)
  {
    assert forall id | id in s.access :: !StoredFor(s, id, f);
  }

  lemma ErasedHasNoAccess(s: State, used: set<string>, accessID: string, f: string, now: Time, subject: string,
                          clientID: string)
    requires Inv(s, used) && Erased(s, used, f) && AccessMember(s, used, accessID, f)
    ensures accessID !in s.access && Introspect(s, now, accessID, subject, clientID).1.Err?
  {
    hide Prune, Inv;
    PruneIsEager(s, used, now);
  }

  /** A token is a member of its family from the event that issued or consumed it on. */
  lemma MembersForever(cfg: Settings, ys: seq<System>, es: seq<Event>, k: nat, j: nat, token: string,
                       accessID: string, f: string)
    requires IsRun(cfg, ys, es) && k < |es| && k < j < |ys|
    requires Issues(cfg, ys[k].store, es[k], token, accessID, f)
    ensures Member(ys[j].store, ys[j].used, token, f) && AccessMember(ys[j].store, ys[j].used, accessID, f) && f != ""
  {
    hide Inv, Next, ScopesOK, LentOK, AttemptOK, Evolves, Member, AccessMember, Issues, Burnt, Ended, Erased;
    RunEvolves(cfg, ys, es, k + 1, j);
    RunInv(cfg, ys, es, k);
    StepOf(cfg, ys, es, k);
    IssuingMakesMembers(cfg, ys[k], es[k], ys[k + 1], token, accessID, f);
    FamilyFactsPersist(ys[k + 1].store, ys[k + 1].used, ys[j].store, ys[j].used, token, accessID, f);
  }

  /** A token that has been rotated away stays consumed, and with its family. */
  lemma RotatedForever(cfg: Settings, ys: seq<System>, es: seq<Event>, k: nat, j: nat, token: string, f: string)
    requires IsRun(cfg, ys, es) && k < |es| && k < j < |ys| && Rotates(cfg, ys[k].store, es[k], token, f)
    ensures Member(ys[j].store, ys[j].used, token, f) && Burnt(ys[j].store, token) && f != ""
  {
    hide Inv, Next, ScopesOK, LentOK, AttemptOK, Evolves, AccessMember, Issues, Burnt, Ended, Erased, Rotates;
    RunEvolves(cfg, ys, es, k + 1, j);
    RunInv(cfg, ys, es, k);
    StepOf(cfg, ys, es, k);
    RotationBurns(cfg, ys[k], es[k], ys[k + 1], token, f);
    StoredMember(ys[k + 1].store, ys[k + 1].used, token, f);
    FamilyFactsPersist(ys[k + 1].store, ys[k + 1].used, ys[j].store, ys[j].used, token, "", f);
  }

  lemma StoredMember(s: State, used: set<string>, token: string, f: string)
    requires Inv(s, used) && Sha256(token) in s.refresh && s.refresh[Sha256(token)].familyID == f
    ensures Member(s, used, token, f) && f != ""
  {
    assert RefreshOK(s, Sha256(token)) && FamilyOK(s, f);
  }

  /** Replay over a whole run. At `k` a rotation consumed `token`, in family `f`, after any number of earlier
      rotations; at `i` somebody presents it again, by lookup or by a rotation that was looked up before. Then that
      event fails and, at any later `j`, no family or refresh record of `f` is left, and any refresh token that any
      event `m` ever issued in `f` is refused. Of its access records the event leaves exactly those that have outlived
      `f`; where there are none, as when `f` was still alive at `i`, any access id ever issued in `f` is inactive. */
  lemma ReplayKillsFamily(cfg: Settings, ys: seq<System>, es: seq<Event>, k: nat, i: nat, m: nat, j: nat,
                          token: string, f: string, issued: string, accessID: string)
    requires IsRun(cfg, ys, es) && k < i < j < |es| && m < j
    requires Rotates(cfg, ys[k].store, es[k], token, f) && Presents(es[i], token)
    requires Issues(cfg, ys[m].store, es[m], issued, accessID, f)
    ensures !Accepts(cfg, ys[i].store, es[i], token)
    ensures Ended(ys[j].store, ys[j].used, f)
    ensures !Accepts(cfg, ys[j].store, es[j], issued)
    ensures |ys| == |es| + 1
    ensures forall id :: StoredFor(ys[i + 1].store, id, f) <==> Outlives(ys[i].store, id, f, es[i].now)
    ensures (forall id :: !Outlives(ys[i].store, id, f, es[i].now)) ==>
      Erased(ys[j].store, ys[j].used, f) && accessID !in ys[j].store.access
    ensures f in Prune(ys[i].store, es[i].now).families ==> forall id :: !Outlives(ys[i].store, id, f, es[i].now)
  {
    hide Inv, Next, ScopesOK, LentOK, AttemptOK, Evolves, Member, AccessMember, Issues, Burnt, Ended, Erased;
    hide Rotates, Accepts, Prune, StoredFor;
    RunLength(cfg, ys, es);
    RotatedForever(cfg, ys, es, k, i, token, f);
    RunInv(cfg, ys, es, i);
    StepOf(cfg, ys, es, i);
    ReplayEndsFamily(cfg, ys[i], es[i], ys[i + 1], token, f);
    RunEvolves(cfg, ys, es, i + 1, j);
    FamilyFactsPersist(ys[i + 1].store, ys[i + 1].used, ys[j].store, ys[j].used, "", "", f);
    MembersForever(cfg, ys, es, m, j, issued, accessID, f);
    IssuedNonempty(cfg, ys, es, m, issued, accessID, f);
    EndedRefuses(cfg, ys[j].store, ys[j].used, es[j], issued, f);
    if forall id :: !Outlives(ys[i].store, id, f, es[i].now) {
      EndedIsErased(ys[i + 1].store, ys[i + 1].used, f);
      ErasedHasNoAccess(ys[j].store, ys[j].used, accessID, f, 0, "", "");
    }
  }

  lemma IssuedNonempty(cfg: Settings, ys: seq<System>, es: seq<Event>, m: nat, token: string, accessID: string,
                       f: string)
    requires IsRun(cfg, ys, es) && m < |es| && Issues(cfg, ys[m].store, es[m], token, accessID, f)
    ensures token != ""
  {
    hide Prune, Reserve, AddPair, Rotate, Revoke, WellFormed, MayRequest, TokenRequestByRefreshToken;
    hide AuthenticateBegin, LoginSucceeds;
    StepOf(cfg, ys, es, m);
    assert token in Draws(es[m]);
  }

  // ---- The absolute deadline ----

  /** The family of a token that is accepted, and the end of its life. */
  lemma AcceptedBeforeDeadline(cfg: Settings, s: State, used: set<string>, e: Event, token: string, f: string)
    requires Inv(s, used) && Accepts(cfg, s, e, token) && Member(s, used, token, f) && token != ""
    ensures f in s.families && e.now < s.families[f].expires
  {
    hide Prune, Inv, AddPair, Rotate, Revoke;
    PruneIsEager(s, used, e.now);
    if e.CreatePair? && Reserve(Prune(s, e.now), e.request).Ok? { PairReserves(cfg, s, e); }
    assert Sha256(token) in Prune(s, e.now).refresh;
  }

  lemma NewFamilyDeadline(cfg: Settings, y: System, e: Event, y': System, token: string, accessID: string, f: string)
    requires Next(cfg, y, e, y') && Issues(cfg, y.store, e, token, accessID, f) && e.current == ""
    ensures f in y'.store.families && y'.store.families[f].expires == e.now + cfg.refreshTTL
  {
    hide Prune, Reserve, InfoOf, AudienceOf, Permitted;
  }

  /** However often a family rotates, its deadline stays its creation time plus the refresh lifetime, and every
      accepted refresh token of it is presented before that. */
  lemma {:induction false} DeadlineDoesNotSlide(cfg: Settings, ys: seq<System>, es: seq<Event>, k: nat, m: nat, j: nat,
                             first: string, firstAccess: string, token: string, accessID: string, f: string)
    requires IsRun(cfg, ys, es) && k <= m < j < |es|
    requires Issues(cfg, ys[k].store, es[k], first, firstAccess, f) && es[k].current == ""
    requires Issues(cfg, ys[m].store, es[m], token, accessID, f)
    ensures f in ys[j].store.families ==> ys[j].store.families[f].expires == es[k].now + cfg.refreshTTL
    ensures Accepts(cfg, ys[j].store, es[j], token) ==> es[j].now < es[k].now + cfg.refreshTTL
  {
    hide Inv, Next, ScopesOK, LentOK, AttemptOK, Member, AccessMember, Issues, Accepts, RequestsEvolve;
    hide CodesEvolve, AccessEvolves, RefreshEvolves, RefreshKept;
    RunLength(cfg, ys, es);
    StepOf(cfg, ys, es, k);
    NewFamilyDeadline(cfg, ys[k], es[k], ys[k + 1], first, firstAccess, f);
    RunEvolves(cfg, ys, es, k + 1, j);
    MembersForever(cfg, ys, es, k, k + 1, first, firstAccess, f);
    MemberDrawn(ys[k + 1].store, ys[k + 1].used, first, f);
    MembersForever(cfg, ys, es, m, j, token, accessID, f);
    IssuedNonempty(cfg, ys, es, m, token, accessID, f);
    if Accepts(cfg, ys[j].store, es[j], token) {
      AcceptedBeforeDeadline(cfg, ys[j].store, ys[j].used, es[j], token, f);
    }
  }

  // ---- Structure and scopes in every reachable state ----

  /** In every state of every run each family is unrevoked, has exactly one unconsumed refresh record, indexes
      exactly that one, and has no access record but the one it names; every refresh record has its family. */
  lemma FamiliesAreWellFormed(cfg: Settings, ys: seq<System>, es: seq<Event>, j: nat, f: string)
    requires IsRun(cfg, ys, es) && j < |ys| && f in ys[j].store.families
    ensures var s := ys[j].store;
      && !s.families[f].revoked
      && (exists h :: h in s.refresh && s.families[f].tokens == [h]
            && !s.refresh[h].consumed && s.refresh[h].familyID == f
            && (forall g | g in s.refresh && s.refresh[g].familyID == f && !s.refresh[g].consumed :: g == h)
            && (forall id | id in s.access && s.access[id].familyID == f :: id == s.refresh[h].accessID))
      && (forall h | h in s.refresh :: s.refresh[h].familyID in s.families)
      && (forall i, j | i in s.access && j in s.access && s.access[i].familyID == s.access[j].familyID != "" :: i == j)
  {
    hide IsRun, ScopesOK, LentOK, AttemptOK;
    RunInv(cfg, ys, es, j);
    var s := ys[j].store;
    assert FamilyOK(s, f);
    var h := s.families[f].tokens[0];
    assert s.families[f].tokens == [h];
    forall g | g in s.refresh ensures s.refresh[g].familyID in s.families
                              ensures s.refresh[g].familyID == f && !s.refresh[g].consumed ==> g == h {
      assert RefreshOK(s, g);
    }
    forall id | id in s.access && s.access[id].familyID == f ensures id == s.refresh[h].accessID {
      assert AccessOK(s, id);
    }
    forall a, b | a in s.access && b in s.access && s.access[a].familyID == s.access[b].familyID != "" ensures a == b {
      assert Siblings(s, a, b);
    }
  }

  ghost predicate TokenRequestOK(cfg: Settings, s: State, e: Event) {
    || (e.CreateAccess? && CreateAccessToken(cfg, s, e.now, e.request, e.drawn).1.Ok?)
    || (e.CreatePair? && PairOutcome(cfg, s, e).1.Ok?)
  }

  /** The `permission` claim of any token ever created is within the principal's permissions and the client's
      allow-list. */
  lemma ClaimsWithinPermissions(cfg: Settings, ys: seq<System>, es: seq<Event>, j: nat)
    requires IsRun(cfg, ys, es) && j < |es| && TokenRequestOK(cfg, ys[j].store, es[j])
    ensures var info := InfoOf(ys[j].store, es[j].request);
      && info.clientID in cfg.clients
      && forall scope | scope in ApplicationScopes(info.scopes) ::
           && scope in PrincipalPermissions(cfg, info.clientID, info.subject)
           && scope in cfg.clients[info.clientID].allowedScopes
  {
    hide IsRun, Inv, LentOK, AttemptOK, Prune, ScopesOK, MayRequest, After;
    RunLength(cfg, ys, es);
    RunInv(cfg, ys, es, j);
    StepOf(cfg, ys, es, j);
    InfoWithin(cfg, ys[j], es[j].request, if es[j].CreateAccess? then None else Some(es[j].current), es[j].now);
  }

  /** Every record of the family carries at most these scopes. */
  ghost predicate NarrowedTo(s: State, f: string, scopes: seq<string>) {
    && (forall h | h in s.refresh && s.refresh[h].familyID == f && !s.refresh[h].consumed ::
          forall scope | scope in s.refresh[h].scopes :: scope in scopes)
    && (forall id | id in s.access && s.access[id].familyID == f ::
          forall scope | scope in s.access[id].scopes :: scope in scopes)
  }

  /** Records new in `s'` that carry the family id come from a pair creation in it. */
  ghost predicate NewInFamily(cfg: Settings, s: State, e: Event, s': State, f: string) {
    && (forall h | h in s'.refresh && h !in s.refresh && s'.refresh[h].familyID == f ::
          e.CreatePair? && PairOutcome(cfg, s, e).1.Ok? && PairOutcome(cfg, s, e).1.value.familyID == f
          && s'.refresh[h].scopes == InfoOf(s, e.request).scopes)
    && (forall id | id in s'.access && id !in s.access && s'.access[id].familyID == f ::
          e.CreatePair? && PairOutcome(cfg, s, e).1.Ok? && PairOutcome(cfg, s, e).1.value.familyID == f
          && s'.access[id].scopes == InfoOf(s, e.request).scopes)
  }

  lemma FewerNewInFamily(cfg: Settings, s: State, e: Event, s': State, f: string)
    requires s'.refresh.Keys <= s.refresh.Keys && s'.access.Keys <= s.access.Keys
    ensures NewInFamily(cfg, s, e, s', f)
  {
  }

  lemma CodeEventKeys(cfg: Settings, s: State, e: Event)
    requires e.Authorize? || e.SaveCode? || e.Issue? || e.Callback?
    ensures var p, t := Prune(s, e.now), After(cfg, s, e);
      t.refresh in {s.refresh, p.refresh} && t.access in {s.access, p.access}
  {
    hide Prune;
  }

  lemma RequestEventKeys(cfg: Settings, s: State, e: Event)
    requires e.Authorize? || e.SaveCode? || e.Issue? || e.Callback? || e.LoginEnd? || e.Select?
    requires Fewer(s, Prune(s, e.now))
    ensures After(cfg, s, e).refresh.Keys <= s.refresh.Keys && After(cfg, s, e).access.Keys <= s.access.Keys
  {
    if e.LoginEnd? || e.Select? {
      LoginEventKeys(cfg, s, e);
    } else {
      hide Prune, After;
      CodeEventKeys(cfg, s, e);
    }
  }

  lemma LoginEventKeys(cfg: Settings, s: State, e: Event)
    requires (e.LoginEnd? || e.Select?) && Fewer(s, Prune(s, e.now))
    ensures After(cfg, s, e).refresh.Keys <= s.refresh.Keys && After(cfg, s, e).access.Keys <= s.access.Keys
  {
    hide Prune, Complete;
    if e.LoginEnd? && e.candidate.user.Some? {
      CompleteKeys(cfg, Prune(s, e.now), e.now, e.id, e.candidate.user.value, "pwd");
    } else if e.Select? && e.userID in cfg.users {
      CompleteKeys(cfg, Prune(s, e.now), e.now, e.id, cfg.users[e.userID], "dev-select");
    }
  }

  lemma CompleteKeys(cfg: Settings, p: State, now: Time, id: string, user: User, how: string)
    ensures var t := Complete(cfg, p, now, id, user, how).0; t.refresh == p.refresh && t.access == p.access
  {
  }

  lemma CreateAccessKeys(cfg: Settings, s: State, e: Event, f: string)
    requires e.CreateAccess? && f != "" && Fewer(s, Prune(s, e.now))
    ensures NewInFamily(cfg, s, e, After(cfg, s, e), f)
  {
    hide Prune;
  }

  lemma NewPairFamily(cfg: Settings, s: State, e: Event, q: State, f: string)
    requires e.CreatePair? && PairOutcome(cfg, s, e).1.Ok? && Fewer(s, q) && e.current == ""
    requires Reserve(Prune(s, e.now), e.request) == Ok(q)
    ensures NewInFamily(cfg, s, e, After(cfg, s, e), f)
  {
    hide Prune, Reserve, Rotate, AudienceOf, InfoOf;
  }

  lemma RotatedPairFamily(cfg: Settings, s: State, e: Event, q: State, f: string)
    requires e.CreatePair? && PairOutcome(cfg, s, e).1.Ok? && Fewer(s, q) && e.current != ""
    requires Reserve(Prune(s, e.now), e.request) == Ok(q)
    ensures NewInFamily(cfg, s, e, After(cfg, s, e), f)
  {
    hide Prune, Reserve, Compact, AudienceOf, InfoOf, Revoke;
  }

  lemma CreatePairKeys(cfg: Settings, s: State, e: Event, f: string)
    requires e.CreatePair? && Fewer(s, Prune(s, e.now))
    ensures NewInFamily(cfg, s, e, After(cfg, s, e), f)
  {
    hide Prune, NewInFamily, Fewer, PairOutcome;
    var p := Prune(s, e.now);
    if PairOutcome(cfg, s, e).1.Ok? {
      PairReservesOk(cfg, s, e);
      FewerReserved(s, p, e.request);
      if e.current == "" {
        NewPairFamily(cfg, s, e, Reserve(p, e.request).value, f);
      } else {
        RotatedPairFamily(cfg, s, e, Reserve(p, e.request).value, f);
      }
    } else {
      FailedPairKeys(cfg, s, e);
      FewerNewInFamily(cfg, s, e, After(cfg, s, e), f);
    }
  }

  lemma PairReservesOk(cfg: Settings, s: State, e: Event)
    requires e.CreatePair? && PairOutcome(cfg, s, e).1.Ok?
    ensures Reserve(Prune(s, e.now), e.request).Ok?
  {
    hide Prune;
  }

  lemma FailedPairKeys(cfg: Settings, s: State, e: Event)
    requires e.CreatePair? && PairOutcome(cfg, s, e).1.Err? && Fewer(s, Prune(s, e.now))
    ensures After(cfg, s, e).refresh.Keys <= s.refresh.Keys && After(cfg, s, e).access.Keys <= s.access.Keys
  {
    hide Prune, AddPair, Rotate, Reserve, Revoke, InfoOf, AudienceOf;
    var p := Prune(s, e.now);
    if Reserve(p, e.request).Ok? {
      PairReserves(cfg, s, e);
      var q, h := Reserve(p, e.request).value, Sha256(e.current);
      if h in q.refresh { RevokedKeys(q, {q.refresh[h].familyID}); }
    }
  }

  lemma RevokedKeys(q: State, ids: set<string>)
    ensures Revoke(q, ids).refresh.Keys <= q.refresh.Keys && Revoke(q, ids).access.Keys <= q.access.Keys
  {
  }

  lemma EventNewInFamily(cfg: Settings, y: System, e: Event, f: string)
    requires Inv(y.store, y.used) && f != ""
    ensures NewInFamily(cfg, y.store, e, After(cfg, y.store, e), f)
  {
    hide Prune, Inv, NewInFamily, PairOutcome;
    var s := y.store;
    if e.Delete? {
      FewerNewInFamily(cfg, s, e, After(cfg, s, e), f);
    } else {
      PruneFewer(s, y.used, e.now);
      if e.Authorize? || e.SaveCode? || e.Issue? || e.Callback? || e.LoginEnd? || e.Select? {
        RequestEventKeys(cfg, s, e);
        FewerNewInFamily(cfg, s, e, After(cfg, s, e), f);
      } else if e.CreateAccess? {
        CreateAccessKeys(cfg, s, e, f);
      } else if e.CreatePair? {
        CreatePairKeys(cfg, s, e, f);
      } else if e.Lookup? || e.Terminate? || e.Revocation? {
        RevocationFewer(cfg, s, e);
        FewerNewInFamily(cfg, s, e, After(cfg, s, e), f);
      } else {
        FewerNewInFamily(cfg, s, e, After(cfg, s, e), f);
      }
    }
  }

  /** A rotation asks for no scope that the consumed token's record did not have. */
  lemma RotationNarrows(cfg: Settings, y: System, e: Event, f: string)
    requires SystemInv(cfg, y) && Permitted(cfg, y, e) && e.CreatePair? && PairOutcome(cfg, y.store, e).1.Ok?
    requires PairOutcome(cfg, y.store, e).1.value.familyID == f && f in y.used
    ensures e.current != "" && Sha256(e.current) in y.store.refresh && !y.store.refresh[Sha256(e.current)].consumed
    ensures y.store.refresh[Sha256(e.current)].familyID == f
    ensures forall scope | scope in InfoOf(y.store, e.request).scopes ::
      scope in y.store.refresh[Sha256(e.current)].scopes
  {
    hide Prune, Inv, ScopesOK, AttemptOK, AddPair, Rotate;
    PruneFewer(y.store, y.used, e.now);
    PruneIsEager(y.store, y.used, e.now);
    PairReservesOk(cfg, y.store, e);
    PairReserves(cfg, y.store, e);
    PruneGood(y.store, y.used, e.now, {});
    if e.current != "" {
      RotationMatches(cfg, y, e.request, e.current, Prune(y.store, e.now));
    }
  }

  lemma NarrowedStep(cfg: Settings, y: System, e: Event, y': System, f: string, scopes: seq<string>)
    requires SystemInv(cfg, y) && Next(cfg, y, e, y') && Evolves(y.store, y.used, y'.store)
    requires f in y.used && f != "" && NarrowedTo(y.store, f, scopes)
    ensures NarrowedTo(y'.store, f, scopes)
  {
    hide Prune, Inv, ScopesOK, LentOK, AttemptOK, After, Permitted, PairOutcome, RequestsEvolve, CodesEvolve;
    hide FamiliesEvolve, RefreshKept;
    EventNewInFamily(cfg, y, e, f);
    if e.CreatePair? && PairOutcome(cfg, y.store, e).1.Ok? && PairOutcome(cfg, y.store, e).1.value.familyID == f {
      RotationNarrows(cfg, y, e, f);
    }
  }

  /** From any state of a run on, no rotation of any length gives a family a scope that none of its records had. */
  lemma {:induction false} ScopesNeverWiden(cfg: Settings, ys: seq<System>, es: seq<Event>, i: nat, j: nat,
                                            f: string, scopes: seq<string>)
    requires IsRun(cfg, ys, es) && i <= j < |ys| && f in ys[i].used && f != "" && NarrowedTo(ys[i].store, f, scopes)
    ensures NarrowedTo(ys[j].store, f, scopes)
    decreases j
  {
    hide Inv, Next, ScopesOK, LentOK, AttemptOK, Evolves, NarrowedTo;
    if i < j {
      ScopesNeverWiden(cfg, ys, es, i, j - 1, f, scopes);
      RunEvolves(cfg, ys, es, i, j - 1);
      RunEvolves(cfg, ys, es, j - 1, j);
      StepOf(cfg, ys, es, j - 1);
      NarrowedStep(cfg, ys[j - 1], es[j - 1], ys[j], f, scopes);
    }
  }
}
