/** What the token operations store and give, field by field, in every state of a run: the record behind each granted
    token is told from the request it was granted for, and each operation succeeds exactly when it should. */
module StoreIssued {
  import opened Realm
  import opened StoreSpec
  import opened StoreInvariant
  import opened StoreSteps
  import opened StoreRuns
  import opened StoreGuarantees
  import opened StoreRoundTrips
  import opened StoreExact

  /** The request has a code, and nobody has taken it. */
  ghost predicate CodeWaits(live: State, id: string) {
    && id in live.requests && live.requests[id].code != "" && live.requests[id].code in live.codes
    && !live.codes[live.requests[id].code].reserved
  }

  /** The state with that code taken. */
  ghost function CodeTaken(live: State, id: string): State
    requires CodeWaits(live, id)
  {
    var code := live.requests[id].code;
    live.(codes := live.codes[code := Code(live.codes[code].requestID, live.codes[code].expires, true)])
  }

  lemma ReservationIsExact(s: State, used: set<string>, now: Time, id: string)
    requires Inv(s, used)
    ensures var r, live := Reserve(Prune(s, now), ForCode(id)), Eager(s, now);
      if CodeWaits(live, id)
      then r.Ok? && SameRecords(r.value, CodeTaken(live, id)) && id in s.requests && s.requests[id] == live.requests[id]
      else r == Err(InvalidGrant)
  {
    hide Prune, FamilyLinks, AccessLinks, ExpiryBound, Known;
    Unexpired(s, used, now);
    if id in s.requests {
      assert RequestOK(s, id);
    }
  }

  // ---- Access tokens ----

  /** The record an access token without a family must have. */
  function AccessRecord(cfg: Settings, id: string, clientID: string, subject: string, scopes: seq<string>,
                        authTime: Time, amr: seq<string>, now: Time): Access
    requires clientID in cfg.clients
  {
    Access(id, clientID, subject, cfg.clients[clientID].audiences, scopes, now + cfg.accessTTL, now, authTime, amr, "")
  }

  lemma AccessOutcome(cfg: Settings, s: State, now: Time, request: TokenRequest, drawn: Option<string>)
    ensures var (t, r), reserved := CreateAccessToken(cfg, s, now, request, drawn), Reserve(Prune(s, now), request);
      var info := InfoOf(s, request);
      if drawn == None then t == s && r == Err(RandomFailed)
      else if reserved.Err? then t == Prune(s, now) && r == Err(reserved.error)
      else
        && r == Ok(AccessGrant(drawn.value, now + cfg.accessTTL))
        && (info.clientID in cfg.clients ==>
              SameRecords(t, reserved.value.(access := reserved.value.access[drawn.value :=
                AccessRecord(cfg, drawn.value, info.clientID, info.subject, info.scopes, info.authTime, info.amr,
                             now)])))
  {
    hide Prune, Reserve, InfoOf;
  }

  lemma StoredIntrospects(t: State, used: set<string>, later: Time, id: string)
    requires Inv(t, used) && id in t.access
    ensures var record := t.access[id];
      Introspect(t, later, id, record.subject, record.clientID).1
      == if later < record.expires then Ok(record) else Err(Inactive)
  {
    hide Prune, Inv;
    Unexpired(t, used, later);
  }

  lemma AccessInv(cfg: Settings, y: System, e: Event)
    requires WellFormed(cfg) && SystemInv(cfg, y) && e.CreateAccess? && Permitted(cfg, y, e)
    ensures Inv(CreateAccessToken(cfg, y.store, e.now, e.request, e.drawn).0, y.used + Draws(e))
  {
    hide Inv, CreateAccessToken, Evolves;
    EventGood(cfg, y, e);
  }

  lemma RequestClient(cfg: Settings, s: State, id: string)
    requires ScopesOK(cfg, s) && id in s.requests
    ensures s.requests[id].clientID in cfg.clients
  {
  }

  /** An access token for a code: granted exactly when the code waits, for what the stored request says. It introspects
      as just that, for its own time to live and no longer. */
  lemma AccessForCode(cfg: Settings, y: System, e: Event, later: Time)
    requires WellFormed(cfg) && SystemInv(cfg, y) && e.CreateAccess? && Permitted(cfg, y, e)
    requires e.request.ForCode? && e.drawn.Some?
    ensures var (t, r), live := CreateAccessToken(cfg, y.store, e.now, e.request, e.drawn), Eager(y.store, e.now);
      var id, accessID := e.request.id, e.drawn.value;
      if CodeWaits(live, id) then
        var q := live.requests[id];
        && q.clientID in cfg.clients && r == Ok(AccessGrant(accessID, e.now + cfg.accessTTL))
        && var record := Access(accessID, q.clientID, q.subject, cfg.clients[q.clientID].audiences, q.scopes,
                                e.now + cfg.accessTTL, e.now, q.authTime, q.amr, "");
           && SameRecords(t, CodeTaken(live, id).(access := live.access[accessID := record]))
           && Introspect(t, later, accessID, q.subject, q.clientID).1
              == if later < e.now + cfg.accessTTL then Ok(record) else Err(Inactive)
      else r == Err(InvalidGrant) && SameRecords(t, live)
  {
    hide Permitted, Prune, Inv, Eager, CreateAccessToken, Reserve, ScopesOK, LentOK, AttemptOK, WellFormed, Introspect;
    var id, t := e.request.id, CreateAccessToken(cfg, y.store, e.now, e.request, e.drawn).0;
    ReservationIsExact(y.store, y.used, e.now, id);
    AccessOutcome(cfg, y.store, e.now, e.request, e.drawn);
    PruneIsEager(y.store, y.used, e.now);
    AccessInv(cfg, y, e);
    if CodeWaits(Eager(y.store, e.now), id) {
      RequestClient(cfg, y.store, id);
      StoredIntrospects(t, y.used + Draws(e), later, e.drawn.value);
    }
  }

  /** An access token for client credentials: always granted, to the client as its own subject. */
  lemma AccessForService(cfg: Settings, y: System, e: Event, later: Time)
    requires WellFormed(cfg) && SystemInv(cfg, y) && e.CreateAccess? && Permitted(cfg, y, e)
    requires e.request.ForService? && e.drawn.Some?
    ensures var (t, r), live := CreateAccessToken(cfg, y.store, e.now, e.request, e.drawn), Eager(y.store, e.now);
      var client, accessID := e.request.clientID, e.drawn.value;
      && client in cfg.clients && r == Ok(AccessGrant(accessID, e.now + cfg.accessTTL))
      && var record := Access(accessID, client, client, cfg.clients[client].audiences, e.request.scopes,
                              e.now + cfg.accessTTL, e.now, 0, [], "");
         && SameRecords(t, live.(access := live.access[accessID := record]))
         && Introspect(t, later, accessID, client, client).1
            == if later < e.now + cfg.accessTTL then Ok(record) else Err(Inactive)
  {
    hide FreshDraws, Prune, Inv, Eager, CreateAccessToken, ScopesOK, LentOK, AttemptOK, WellFormed, Introspect;
    var t := CreateAccessToken(cfg, y.store, e.now, e.request, e.drawn).0;
    AccessOutcome(cfg, y.store, e.now, e.request, e.drawn);
    PruneIsEager(y.store, y.used, e.now);
    AccessInv(cfg, y, e);
    StoredIntrospects(t, y.used + Draws(e), later, e.drawn.value);
  }

  /** An access token for a refresh request: granted for what the request says. */
  lemma AccessForRefresh(cfg: Settings, y: System, e: Event, later: Time)
    requires WellFormed(cfg) && SystemInv(cfg, y) && e.CreateAccess? && Permitted(cfg, y, e)
    requires e.request.ForRefresh? && e.drawn.Some?
    ensures var (t, r), live := CreateAccessToken(cfg, y.store, e.now, e.request, e.drawn), Eager(y.store, e.now);
      var q, accessID := e.request, e.drawn.value;
      && q.clientID in cfg.clients && r == Ok(AccessGrant(accessID, e.now + cfg.accessTTL))
      && var record := Access(accessID, q.clientID, q.subject, cfg.clients[q.clientID].audiences, q.scopes,
                              e.now + cfg.accessTTL, e.now, q.authTime, q.amr, "");
         && SameRecords(t, live.(access := live.access[accessID := record]))
         && Introspect(t, later, accessID, q.subject, q.clientID).1
            == if later < e.now + cfg.accessTTL then Ok(record) else Err(Inactive)
  {
    hide FreshDraws, Prune, Inv, Eager, CreateAccessToken, ScopesOK, AttemptOK, WellFormed, Introspect;
    var t := CreateAccessToken(cfg, y.store, e.now, e.request, e.drawn).0;
    var l :| l in y.lent && From(e.request, l);
    assert LentOK(cfg, y, l);
    AccessOutcome(cfg, y.store, e.now, e.request, e.drawn);
    PruneIsEager(y.store, y.used, e.now);
    AccessInv(cfg, y, e);
    StoredIntrospects(t, y.used + Draws(e), later, e.drawn.value);
  }

  // ---- Pairs ----

  /** The state with a first pair in a new family: the deadline of the family is the refresh time to live from now, that
      of the access record its own. */
  function FirstPair(cfg: Settings, live: State, g: TokenGrant, clientID: string, subject: string,
                     scopes: seq<string>, authTime: Time, amr: seq<string>, now: Time): State
    requires clientID in cfg.clients
  {
    var audience, h := cfg.clients[clientID].audiences, Sha256(g.token);
    live.(families := live.families[g.familyID := Family(clientID, subject, now + cfg.refreshTTL, false, [h])],
          refresh := live.refresh[h := Refresh(g.familyID, clientID, subject, audience, scopes, amr, authTime, false,
                                               g.accessID)],
          access := live.access[g.accessID := Access(g.accessID, clientID, subject, audience, scopes,
                                                     now + cfg.accessTTL, now, authTime, amr, g.familyID)])
  }

  lemma NewPairOutcome(cfg: Settings, s: State, e: Event)
    requires e.CreatePair? && e.current == "" && Drawn(e)
    ensures var (t, r), reserved := PairOutcome(cfg, s, e), Reserve(Prune(s, e.now), e.request);
      var info, g := InfoOf(s, e.request),
                     TokenGrant(e.drawnAccess.value, e.drawnToken.value, e.now + cfg.accessTTL, e.drawnFamily.value);
      if reserved.Err? then t == Prune(s, e.now) && r == Err(reserved.error)
      else
        && r == Ok(g)
        && (info.clientID in cfg.clients ==>
              SameRecords(t, FirstPair(cfg, reserved.value, g, info.clientID, info.subject, info.scopes, info.authTime,
                                       info.amr, e.now)))
  {
    hide Prune, Reserve, InfoOf;
    var info, reserved := InfoOf(s, e.request), Reserve(Prune(s, e.now), e.request);
    if reserved.Ok? {
      var families, f, h := reserved.value.families, e.drawnFamily.value, Sha256(e.drawnToken.value);
      var family := Family(info.clientID, info.subject, e.now + cfg.refreshTTL, false, []);
      assert [] + [h] == [h];
      assert families[f := family][f := family.(tokens := [h])] == families[f := family.(tokens := [h])];
    }
  }

  /** A pair for a code: granted exactly when the code waits, in a new family, for what the stored request says. */
  lemma PairForCode(cfg: Settings, y: System, e: Event)
    requires WellFormed(cfg) && SystemInv(cfg, y) && e.CreatePair? && Permitted(cfg, y, e) && Drawn(e)
    requires e.request.ForCode?
    ensures var (t, r), live := PairOutcome(cfg, y.store, e), Eager(y.store, e.now);
      var id, g := e.request.id, TokenGrant(e.drawnAccess.value, e.drawnToken.value, e.now + cfg.accessTTL,
                                            if e.drawnFamily.Some? then e.drawnFamily.value else "");
      if CodeWaits(live, id) then
        var q := live.requests[id];
        && q.clientID in cfg.clients && r == Ok(g)
        && SameRecords(t, FirstPair(cfg, CodeTaken(live, id), g, q.clientID, q.subject, q.scopes, q.authTime, q.amr,
                                    e.now))
      else r == Err(InvalidGrant) && SameRecords(t, live)
  {
    hide FreshDraws, Prune, Inv, Eager, PairOutcome, Reserve, ScopesOK, LentOK, AttemptOK, WellFormed;
    ReservationIsExact(y.store, y.used, e.now, e.request.id);
    NewPairOutcome(cfg, y.store, e);
    PruneIsEager(y.store, y.used, e.now);
    if CodeWaits(Eager(y.store, e.now), e.request.id) {
      RequestClient(cfg, y.store, e.request.id);
    }
  }

  /** A pair for client credentials, were one asked for: in a new family of the client with itself. */
  lemma PairForService(cfg: Settings, y: System, e: Event)
    requires WellFormed(cfg) && SystemInv(cfg, y) && e.CreatePair? && Permitted(cfg, y, e) && Drawn(e)
    requires e.request.ForService?
    ensures var (t, r), live, q := PairOutcome(cfg, y.store, e), Eager(y.store, e.now), e.request;
      && e.drawnFamily.Some? && q.clientID in cfg.clients
      && var g := TokenGrant(e.drawnAccess.value, e.drawnToken.value, e.now + cfg.accessTTL, e.drawnFamily.value);
         r == Ok(g) && SameRecords(t, FirstPair(cfg, live, g, q.clientID, q.clientID, q.scopes, 0, [], e.now))
  {
    hide FreshDraws, Prune, Inv, Eager, PairOutcome, ScopesOK, LentOK, AttemptOK, WellFormed;
    NewPairOutcome(cfg, y.store, e);
    PruneIsEager(y.store, y.used, e.now);
  }

  // ---- Rotation ----

  /** The state after a rotation: the old record is wiped but for its family and client, its access record is gone, and
      the new pair stands in the same family with the same deadline. */
  function Rotated(cfg: Settings, live: State, h: Digest, g: TokenGrant, q: TokenRequest, now: Time): State
    requires h in live.refresh && live.refresh[h].familyID in live.families
    requires q.ForRefresh? && q.clientID in cfg.clients
  {
    var audience, f, next := cfg.clients[q.clientID].audiences, live.refresh[h].familyID, Sha256(g.token);
    var family := live.families[f];
    live.(families := live.families[f := Family(family.clientID, family.subject, family.expires, false, [next])],
          refresh := live.refresh[h := Refresh(f, live.refresh[h].clientID, "", [], [], [], 0, true, "")]
                       [next := Refresh(f, q.clientID, q.subject, audience, q.scopes, q.amr, q.authTime, false,
                                        g.accessID)],
          access := (live.access - {live.refresh[h].accessID})
                      [g.accessID := Access(g.accessID, q.clientID, q.subject, audience, q.scopes,
                                            now + cfg.accessTTL, now, q.authTime, q.amr, f)])
  }

  /** The live record of the presented token. */
  ghost predicate Presentable(live: State, h: Digest) {
    h in live.refresh && !live.refresh[h].consumed
  }

  /** A refresh request that may be passed on names a registered client, and the client of the token's record. */
  lemma RotationClient(cfg: Settings, y: System, request: TokenRequest, current: string)
    requires MayRequest(cfg, y, request, Some(current)) && current != ""
    requires forall l | l in y.lent :: LentOK(cfg, y, l)
    ensures request.ForRefresh? && request.clientID in cfg.clients
    ensures Presentable(y.store, Sha256(current)) ==> request.clientID == y.store.refresh[Sha256(current)].clientID
  {
    hide RefreshOK;
    var l :| l in y.lent && From(request, l) && current == l.token;
    assert LentOK(cfg, y, l);
  }

  lemma LiveRefresh(s: State, used: set<string>, now: Time, h: Digest)
    requires Inv(s, used) && h in Eager(s, now).refresh
    ensures var live, f := Eager(s, now), s.refresh[h].familyID;
      && h in s.refresh && live.refresh[h] == s.refresh[h]
      && f in live.families && !live.families[f].revoked && now < live.families[f].expires
  {
    hide CodeLinks, AccessLinks, ExpiryBound, Known;
    assert FamilyOK(s, s.refresh[h].familyID);
  }

  /** What a presented token meets once the lookups are done. */
  lemma RotationOutcome(cfg: Settings, s: State, e: Event)
    requires e.CreatePair? && e.current != "" && Drawn(e) && e.request.ForRefresh?
    ensures var (t, r), p, h := PairOutcome(cfg, s, e), Prune(s, e.now), Sha256(e.current);
      if h !in p.refresh then t == p && r == Err(InvalidGrant)
      else
        var f := p.refresh[h].familyID;
        if p.refresh[h].consumed then t == Revoke(p, {f}) && r == Err(InvalidGrant)
        else if f in p.families && !p.families[f].revoked && e.now < p.families[f].expires
                && p.refresh[h].clientID == e.request.clientID
        then r == Ok(TokenGrant(e.drawnAccess.value, e.drawnToken.value, e.now + cfg.accessTTL, f))
        else r.Err?
  {
    hide Prune, AddPair, Rotate, Revoke;
  }

  lemma RotatedIsRotated(cfg: Settings, y: System, e: Event)
    requires WellFormed(cfg) && SystemInv(cfg, y) && e.CreatePair? && Permitted(cfg, y, e) && e.current != ""
    requires e.request.ForRefresh? && e.request.clientID in cfg.clients && PairOutcome(cfg, y.store, e).1.Ok?
    requires var live, h := Eager(y.store, e.now), Sha256(e.current);
      Presentable(live, h) && live.refresh[h].familyID in live.families
      && !live.families[live.refresh[h].familyID].revoked
    ensures var (t, r) := PairOutcome(cfg, y.store, e);
      SameRecords(t, Rotated(cfg, Eager(y.store, e.now), Sha256(e.current), r.value, e.request, e.now))
  {
    hide Prune, Inv, Eager, PairOutcome, Permitted, ScopesOK, LentOK, AttemptOK, WellFormed;
    Unexpired(y.store, y.used, e.now);
    PairStored(cfg, y, e);
    RotationIsExact(cfg, y, e);
  }

  /** A rotation succeeds exactly when the presented token's record is stored, unexpired and not consumed; presenting a
      consumed one removes its family; presenting anything else changes nothing. */
  lemma RotationIff(cfg: Settings, y: System, e: Event)
    requires WellFormed(cfg) && SystemInv(cfg, y) && e.CreatePair? && Permitted(cfg, y, e) && Drawn(e)
    requires e.current != ""
    ensures var (t, r), live, h := PairOutcome(cfg, y.store, e), Eager(y.store, e.now), Sha256(e.current);
      && e.request.ForRefresh? && e.request.clientID in cfg.clients
      && if h !in live.refresh then r == Err(InvalidGrant) && SameRecords(t, live)
         else
           var f := live.refresh[h].familyID;
           if live.refresh[h].consumed then r == Err(InvalidGrant) && SameRecords(t, Without(live, {f}))
           else
             var g := TokenGrant(e.drawnAccess.value, e.drawnToken.value, e.now + cfg.accessTTL, f);
             && f in live.families && r == Ok(g)
             && SameRecords(t, Rotated(cfg, live, h, g, e.request, e.now))
  {
    hide FreshDraws, Prune, Inv, Eager, PairOutcome, ScopesOK, LentOK, AttemptOK, WellFormed, Rotated, Revoke, Without;
    var s, live, h := y.store, Eager(y.store, e.now), Sha256(e.current);
    RotationClient(cfg, y, e.request, e.current);
    RotationOutcome(cfg, s, e);
    PruneIsEager(s, y.used, e.now);
    if h in live.refresh {
      LiveRefresh(s, y.used, e.now, h);
      if live.refresh[h].consumed {
        ConsumedErases(s, y.used, e.now, h);
      } else {
        RotatedIsRotated(cfg, y, e);
      }
    }
  }

  lemma ConsumedErases(s: State, used: set<string>, now: Time, h: Digest)
    requires Inv(s, used) && h in Prune(s, now).refresh
    ensures var p, f := Prune(s, now), Prune(s, now).refresh[h].familyID;
      SameRecords(Revoke(p, {f}), Without(Eager(s, now), {f}))
  {
    hide Prune, CodeLinks, AccessLinks, ExpiryBound, Known, Revoke, Evolves;
    var p, f := Prune(s, now), Prune(s, now).refresh[h].familyID;
    PruneInv(s, used, now);
    PruneIsEager(s, used, now);
    assert RefreshOK(p, h);
    assert {f} * p.families.Keys == {f};
    RevokeErases(p, used, {f});
  }

  // ---- Tokens presented ----

  /** Looking a refresh token up gives its record back exactly when that is stored, unexpired and not consumed;
      presenting a consumed token removes its family. */
  lemma LookupIff(s: State, used: set<string>, now: Time, token: string)
    requires Inv(s, used)
    ensures var (t, r), live, h := TokenRequestByRefreshToken(s, now, token), Eager(s, now), Sha256(token);
      if h !in live.refresh then r == Err(InvalidRefreshToken) && SameRecords(t, live)
      else
        var record := live.refresh[h];
        if record.consumed then r == Err(InvalidGrant) && SameRecords(t, Without(live, {record.familyID}))
        else
          && SameRecords(t, live)
          && r == Ok(RefreshGrant(record.clientID, record.subject, record.audience, record.scopes, record.amr,
                                  record.authTime, record.familyID))
  {
    hide Prune, Inv, Eager, Revoke, Without;
    var live, h := Eager(s, now), Sha256(token);
    PruneIsEager(s, used, now);
    if h in live.refresh {
      LiveRefresh(s, used, now, h);
      if live.refresh[h].consumed { ConsumedErases(s, used, now, h); }
    }
  }

  /** A request object that is not the stored one gets nothing, and neither does anybody while nothing can be drawn. */
  lemma NothingForStale(cfg: Settings, s: State, used: set<string>, now: Time, request: TokenRequest, current: string,
                        drawn: Option<string>, more: Option<string>, family: Option<string>)
    requires Inv(s, used) && (request.ForStale? || drawn == None || more == None)
    ensures var (t, r), live := CreateAccessAndRefreshTokens(cfg, s, now, request, current, drawn, more, family),
                                Eager(s, now);
      if drawn == None || more == None then t == s && r == Err(RandomFailed)
      else SameRecords(t, live) && r == Err(InvalidGrant)
    ensures var (t, r), live := CreateAccessToken(cfg, s, now, request, drawn), Eager(s, now);
      (drawn == None ==> t == s && r == Err(RandomFailed))
      && (drawn != None && request.ForStale? ==> SameRecords(t, live) && r == Err(InvalidGrant))
  {
    hide Prune, Inv, Eager;
    PruneIsEager(s, used, now);
  }

  /** Client credentials are for registered services, for scopes that are both in the client's list and among its
      permissions, and for at least one. */
  lemma ServiceRequestIff(cfg: Settings, id: string, scopes: seq<string>)
    ensures var r := ClientCredentialsTokenRequest(cfg, id, scopes);
      if id !in cfg.clients || cfg.clients[id].kind != Service then r == Err(InvalidClient)
      else if |scopes| > 0 && forall i | 0 <= i < |scopes| ::
                scopes[i] in cfg.clients[id].allowedScopes && scopes[i] in cfg.clients[id].permissions
      then r == Ok(ForService(id, id, scopes))
      else r == Err(InvalidScope)
  {
    if scope :| scope in scopes && id in cfg.clients
                && (scope !in cfg.clients[id].allowedScopes || scope !in cfg.clients[id].permissions)
    {
      var i :| 0 <= i < |scopes| && scopes[i] == scope;
    }
  }
}
