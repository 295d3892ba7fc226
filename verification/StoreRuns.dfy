/** Runs of the store with any number of concurrent callers: each event is one locked section, in any order and
    with any clock readings. The environment draws fresh random ids, passes on only what earlier events returned,
    and issues a completion secret only after a login that succeeded. */
module StoreRuns {
  import opened Realm
  import opened StoreSpec
  import opened StoreInvariant
  import opened StoreSteps

  datatype Event =
    | Authorize(now: Time, promptNone: bool, drawn: Option<string>, clientID: string, scopes: seq<string>,
                userID: string, details: Details)
    | ByID(now: Time, id: string)
    | ByCode(now: Time, code: string)
    | SaveCode(now: Time, id: string, code: string)
    | Delete(id: string)
    | LoginBegin(now: Time, id: string, username: string)
    | LoginEnd(now: Time, id: string, candidate: Candidate, passwordOK: bool)
    | Select(now: Time, id: string, userID: string)
    | Issue(now: Time, id: string, drawn: Option<string>)
    | Callback(now: Time, id: string, secret: string)
    | Info(now: Time, id: string)
    | CreateAccess(now: Time, request: TokenRequest, drawn: Option<string>)
    | CreatePair(now: Time, request: TokenRequest, current: string,
                 drawnToken: Option<string>, drawnAccess: Option<string>, drawnFamily: Option<string>)
    | Lookup(now: Time, token: string)
    | Terminate(now: Time, userID: string, clientID: string)
    | TokenInfo(now: Time, clientID: string, token: string)
    | Revocation(now: Time, tokenOrID: string, clientID: string)
    | Userinfo(now: Time, tokenID: string, subject: string, origin: string)
    | Introspection(now: Time, tokenID: string, subject: string, clientID: string)

  /** The store after the event's locked section. */
  ghost function After(cfg: Settings, s: State, e: Event): State {
    match e
    case Authorize(now, promptNone, drawn, clientID, scopes, userID, details) =>
      CreateAuthRequest(cfg, s, now, promptNone, drawn, clientID, scopes, userID, details).0
    case ByID(now, id) => AuthRequestByID(s, now, id).0
    case ByCode(now, code) => AuthRequestByCode(s, now, code).0
    case SaveCode(now, id, code) => SaveAuthCode(s, now, id, code).0
    case Delete(id) => DeleteAuthRequest(s, id).0
    case LoginBegin(now, id, username) => AuthenticateBegin(cfg, s, now, id, username).0
    case LoginEnd(now, id, candidate, passwordOK) => AuthenticateEnd(cfg, s, now, id, candidate, passwordOK).0
    case Select(now, id, userID) => SelectIdentity(cfg, s, now, id, userID).0
    case Issue(now, id, drawn) => IssueCompletionSecret(s, now, id, drawn).0
    case Callback(now, id, secret) => ConsumeCompletionSecret(s, now, id, secret).0
    case Info(now, id) => LoginInfo(cfg, s, now, id).0
    case CreateAccess(now, request, drawn) => CreateAccessToken(cfg, s, now, request, drawn).0
    case CreatePair(_, _, _, _, _, _) => PairOutcome(cfg, s, e).0
    case Lookup(now, token) => TokenRequestByRefreshToken(s, now, token).0
    case Terminate(now, userID, clientID) => TerminateSession(s, now, userID, clientID).0
    case TokenInfo(now, clientID, token) => GetRefreshTokenInfo(s, now, clientID, token).0
    case Revocation(now, tokenOrID, clientID) => RevokeToken(s, now, tokenOrID, clientID)
    case Userinfo(now, tokenID, subject, origin) => UserinfoFromToken(cfg, s, now, tokenID, subject, origin).0
    case Introspection(now, tokenID, subject, clientID) => Introspect(s, now, tokenID, subject, clientID).0
  }

  ghost function PairOutcome(cfg: Settings, s: State, e: Event): (State, Result<TokenGrant>)
    requires e.CreatePair?
  {
    CreateAccessAndRefreshTokens(cfg, s, e.now, e.request, e.current, e.drawnToken, e.drawnAccess, e.drawnFamily)
  }

  function One(drawn: Option<string>): set<string> {
    if drawn.Some? then {drawn.value} else {}
  }

  /** The random ids the event draws. */
  function Draws(e: Event): set<string> {
    match e
    case Authorize(_, _, drawn, _, _, _, _) => One(drawn)
    case Issue(_, _, drawn) => One(drawn)
    case CreateAccess(_, _, drawn) => One(drawn)
    case CreatePair(_, _, _, token, access, family) => One(token) + One(access) + One(family)
    case _ => {}
  }

  ghost predicate FreshDraws(e: Event, used: set<string>) {
    && "" !in Draws(e) && Draws(e) !! used
    && (e.CreatePair? ==> One(e.drawnToken) !! One(e.drawnAccess) && One(e.drawnToken) !! One(e.drawnFamily)
                          && One(e.drawnAccess) !! One(e.drawnFamily))
  }

  datatype Lent = Lent(token: string, grant: RefreshGrant)

  datatype Attempt = Attempt(id: string, candidate: Candidate)

  /** The store together with what its callers hold: refresh requests returned by lookups, logins between
      their two locked sections, and requests whose successful login has not been given its secret. */
  datatype System = System(store: State, used: set<string>, lent: set<Lent>, attempts: set<Attempt>,
                           logins: set<string>)

  const START: System := System(EMPTY, {}, {}, {}, {})

  /** A refresh request as the caller may pass it on: `SetCurrentScopes` has at most narrowed it. */
  ghost predicate From(request: TokenRequest, l: Lent) {
    && request.ForRefresh? && request.clientID == l.grant.clientID && request.subject == l.grant.subject
    && (forall scope | scope in request.scopes :: scope in l.grant.scopes)
  }

  ghost predicate Permitted(cfg: Settings, y: System, e: Event) {
    && FreshDraws(e, y.used)
    && match e
       case LoginEnd(_, id, candidate, _) => Attempt(id, candidate) in y.attempts
       case Issue(_, id, _) => id in y.logins
       case CreateAccess(_, request, _) => MayRequest(cfg, y, request, None)
       case CreatePair(_, request, current, _, _, _) => MayRequest(cfg, y, request, Some(current))
       case _ => true
  }

  ghost predicate MayRequest(cfg: Settings, y: System, request: TokenRequest, current: Option<string>) {
    match request
    case ForRefresh(_, _, _, _, _) =>
      exists l :: l in y.lent && From(request, l) && (current.Some? ==> current.value == l.token != "")
    case ForService(clientID, _, scopes) =>
      ClientCredentialsTokenRequest(cfg, clientID, scopes) == Ok(request) && (current.Some? ==> current.value == "")
    case _ => current.Some? ==> current.value == ""
  }

  ghost predicate LoginSucceeds(cfg: Settings, s: State, e: Event, id: string) {
    || (e.LoginEnd? && e.id == id && AuthenticateEnd(cfg, s, e.now, e.id, e.candidate, e.passwordOK).1.Ok?)
    || (e.Select? && e.id == id && SelectIdentity(cfg, s, e.now, e.id, e.userID).1.Ok?)
  }

  ghost predicate Next(cfg: Settings, y: System, e: Event, y': System) {
    && Permitted(cfg, y, e)
    && y'.store == After(cfg, y.store, e)
    && y'.used == y.used + Draws(e)
    && y'.lent == y.lent + (
         if e.Lookup? && TokenRequestByRefreshToken(y.store, e.now, e.token).1.Ok?
         then {Lent(e.token, TokenRequestByRefreshToken(y.store, e.now, e.token).1.value)} else {})
    && y'.attempts == y.attempts + (
         if e.LoginBegin? && AuthenticateBegin(cfg, y.store, e.now, e.id, e.username).1.Ok?
         then {Attempt(e.id, AuthenticateBegin(cfg, y.store, e.now, e.id, e.username).1.value)} else {})
    && y'.logins == (
         if e.Issue? then y.logins - {e.id}
         else if (e.LoginEnd? || e.Select?) && LoginSucceeds(cfg, y.store, e, e.id) then y.logins + {e.id}
         else y.logins)
  }

  ghost predicate IsRun(cfg: Settings, ys: seq<System>, es: seq<Event>) {
    && WellFormed(cfg) && |ys| == |es| + 1 && ys[0] == START
    && forall i {:trigger StepAt(cfg, ys, es, i)} | 0 <= i < |es| :: StepAt(cfg, ys, es, i)
  }

  ghost predicate StepAt(cfg: Settings, ys: seq<System>, es: seq<Event>, i: nat)
    requires i < |es| && |ys| == |es| + 1
  {
    Next(cfg, ys[i], es[i], ys[i + 1])
  }

  // ---- The invariant of every run ----

  function PrincipalPermissions(cfg: Settings, clientID: string, subject: string): seq<string> {
    if subject in cfg.users then cfg.users[subject].permissions
    else if clientID in cfg.clients then cfg.clients[clientID].permissions
    else []
  }

  /** The scopes lie within the client's allow-list, and those that are not OIDC's own within the principal's
      permissions. */
  ghost predicate Within(cfg: Settings, clientID: string, subject: string, scopes: seq<string>) {
    && clientID in cfg.clients
    && forall scope | scope in scopes ::
         && scope in cfg.clients[clientID].allowedScopes
         && (OIDCScope(scope) || scope in PrincipalPermissions(cfg, clientID, subject))
  }

  ghost predicate ScopesOK(cfg: Settings, s: State) {
    && (forall id | id in s.requests :: s.requests[id].clientID in cfg.clients)
    && (forall id | id in s.requests && s.requests[id].done ::
          Within(cfg, s.requests[id].clientID, s.requests[id].subject, s.requests[id].scopes))
    && (forall id | id in s.access :: Within(cfg, s.access[id].clientID, s.access[id].subject, s.access[id].scopes))
    && (forall h | h in s.refresh && !s.refresh[h].consumed ::
          Within(cfg, s.refresh[h].clientID, s.refresh[h].subject, s.refresh[h].scopes))
  }

  /** A refresh request lent for a token agrees with the token's record for as long as that is unconsumed. */
  ghost predicate LentOK(cfg: Settings, y: System, l: Lent) {
    && l.token in y.used && Within(cfg, l.grant.clientID, l.grant.subject, l.grant.scopes)
    && (Sha256(l.token) in y.store.refresh && !y.store.refresh[Sha256(l.token)].consumed ==>
          var r := y.store.refresh[Sha256(l.token)];
          l.grant == RefreshGrant(r.clientID, r.subject, r.audience, r.scopes, r.amr, r.authTime, r.familyID))
  }

  ghost predicate AttemptOK(cfg: Settings, a: Attempt) {
    a.candidate.user.Some? ==>
      a.candidate.user.value.id in cfg.users && cfg.users[a.candidate.user.value.id] == a.candidate.user.value
  }

  ghost predicate SystemInv(cfg: Settings, y: System) {
    && Inv(y.store, y.used) && ScopesOK(cfg, y.store)
    && (forall l | l in y.lent :: LentOK(cfg, y, l))
    && (forall a | a in y.attempts :: AttemptOK(cfg, a))
  }

  // ---- Each event is a sequence of primitive changes ----

  lemma InvMore(s: State, used: set<string>, more: set<string>)
    requires Inv(s, used) && used <= more
    ensures Inv(s, more)
  {
  }

  lemma ThenGood(s: State, used: set<string>, p: State, s': State, some: set<string>, all: set<string>)
    requires Inv(s, used) && Good(s, used, p, {}) && Good(p, used, s', some) && some <= all
    ensures Good(s, used, s', all)
  {
    assert used + {} == used;
    EvolvesTransitively(s, used, p, used, s');
    InvMore(s', used + some, used + all);
  }

  lemma GoodInv(s: State, used: set<string>, s': State)
    requires Good(s, used, s', {})
    ensures Inv(s', used)
  {
    assert used + {} == used;
  }

  lemma MoreDrawn(s: State, used: set<string>, s': State, some: set<string>, all: set<string>)
    requires Good(s, used, s', some) && some <= all
    ensures Good(s, used, s', all)
  {
    InvMore(s', used + some, used + all);
  }

  lemma PruneGood(s: State, used: set<string>, now: Time, drawn: set<string>)
    requires Inv(s, used)
    ensures Good(s, used, Prune(s, now), drawn) && Good(s, used, Prune(s, now), {}) && Inv(Prune(s, now), used)
  {
    PruneInv(s, used, now);
    InvMore(Prune(s, now), used, used + drawn);
    assert used + {} == used;
  }

  lemma NothingGood(s: State, used: set<string>, drawn: set<string>)
    requires Inv(s, used)
    ensures Good(s, used, s, drawn)
  {
    EvolvesReflexively(s, used);
    InvMore(s, used, used + drawn);
  }

  lemma AuthorizeGood(cfg: Settings, y: System, e: Event)
    requires Inv(y.store, y.used) && e.Authorize? && Permitted(cfg, y, e)
    ensures Good(y.store, y.used, After(cfg, y.store, e), Draws(e))
  {
    hide Good, Prune, CodeLinks, FamilyLinks, AccessLinks, ExpiryBound, Known;
    var s, p := y.store, Prune(y.store, e.now);
    NothingGood(s, y.used, Draws(e));
    PruneGood(s, y.used, e.now, Draws(e));
    if CreateAuthRequest(cfg, s, e.now, e.promptNone, e.drawn, e.clientID, e.scopes, e.userID, e.details).1.Ok? {
      var request := Request(AskedOf(e.details), e.clientID, e.userID, e.scopes, cfg.clients[e.clientID].audiences, "",
                             e.now, e.now + FIVE_MINUTES, 0, [], false, false, NoDigest);
      InsertRequest(p, y.used, e.drawn.value, request);
      ThenGood(s, y.used, p, After(cfg, s, e), {e.drawn.value}, Draws(e));
    }
  }

  lemma CompleteGood(cfg: Settings, p: State, used: set<string>, now: Time, id: string, user: User, how: string)
    requires Inv(p, used)
    ensures Good(p, used, Complete(cfg, p, now, id, user, how).0, {})
  {
    NothingGood(p, used, {});
    if Complete(cfg, p, now, id, user, how).1.Ok? {
      RewriteRequest(p, used, id, Complete(cfg, p, now, id, user, how).0.requests[id]);
    }
  }

  lemma RequestEventGood(cfg: Settings, y: System, e: Event)
    requires Inv(y.store, y.used) && Permitted(cfg, y, e)
    requires e.SaveCode? || e.Delete? || e.LoginEnd? || e.Select? || e.Issue? || e.Callback?
    ensures Good(y.store, y.used, After(cfg, y.store, e), Draws(e))
  {
    hide Good, Prune, FamilyLinks, AccessLinks, ExpiryBound, Known;
    var s := y.store;
    NothingGood(s, y.used, Draws(e));
    if e.Delete? {
      if DeleteAuthRequest(s, e.id).1.Ok? {
        assert RequestOK(s, e.id);
        DeleteRequest(s, y.used, e.id);
      }
    } else {
      var p, s' := Prune(s, e.now), After(cfg, s, e);
      PruneGood(s, y.used, e.now, Draws(e));
      match e {
        case SaveCode(now, id, code) =>
          if SaveAuthCode(s, now, id, code).1.Ok? {
            StoreSteps.SaveCode(p, y.used, id, code);
            ThenGood(s, y.used, p, s', {}, Draws(e));
          }
        case LoginEnd(now, id, candidate, passwordOK) =>
          if candidate.requestOK && candidate.user.Some? && passwordOK {
            CompleteGood(cfg, p, y.used, now, id, candidate.user.value, "pwd");
            ThenGood(s, y.used, p, s', {}, Draws(e));
          }
        case Select(now, id, userID) =>
          if userID in cfg.users {
            CompleteGood(cfg, p, y.used, now, id, cfg.users[userID], "dev-select");
            ThenGood(s, y.used, p, s', {}, Draws(e));
          }
        case Issue(now, id, drawn) =>
          if s' != p {
            RewriteRequest(p, y.used, id, s'.requests[id]);
            ThenGood(s, y.used, p, s', {}, Draws(e));
          }
        case Callback(now, id, secret) =>
          if s' != p {
            RewriteRequest(p, y.used, id, s'.requests[id]);
            ThenGood(s, y.used, p, s', {}, Draws(e));
          }
      }
    }
  }

  /** Issuing an access record without a family, after the code, if any, is reserved. */
  lemma IssueAccessGood(s: State, used: set<string>, q: State, record: Access, drawn: set<string>)
    requires Inv(s, used) && Good(s, used, q, {}) && record.id !in used && record.id in drawn
    requires record.id != "" && record.expires > 0 && record.familyID == ""
    ensures Good(s, used, Scheduled(q.(access := q.access[record.id := record]), record.expires), drawn)
  {
    assert used + {} == used;
    AddAccess(q, used, record);
    ThenGood(s, used, q, Scheduled(q.(access := q.access[record.id := record]), record.expires), {record.id}, drawn);
  }

  lemma ReserveGood(s: State, used: set<string>, now: Time, request: TokenRequest)
    requires Inv(s, used) && Reserve(Prune(s, now), request).Ok?
    ensures Good(s, used, Reserve(Prune(s, now), request).value, {}) && Inv(Reserve(Prune(s, now), request).value, used)
  {
    PruneGood(s, used, now, {});
    assert used + {} == used;
    ReserveCode(Prune(s, now), used, request);
    ThenGood(s, used, Prune(s, now), Reserve(Prune(s, now), request).value, {}, {});
  }

  lemma AccessGood(cfg: Settings, y: System, e: Event)
    requires WellFormed(cfg) && Inv(y.store, y.used) && e.CreateAccess? && FreshDraws(e, y.used)
    ensures Good(y.store, y.used, After(cfg, y.store, e), Draws(e))
  {
    hide Good, Inv, Prune, Evolves, ScopesOK, LentOK, AttemptOK;
    var s, p := y.store, Prune(y.store, e.now);
    if e.drawn.None? {
      NothingGood(s, y.used, Draws(e));
    } else if Reserve(p, e.request).Err? {
      PruneGood(s, y.used, e.now, Draws(e));
    } else {
      var info := InfoOf(s, e.request);
      ReserveGood(s, y.used, e.now, e.request);
      IssueAccessGood(s, y.used, Reserve(p, e.request).value,
        Access(e.drawn.value, info.clientID, info.subject, AudienceOf(cfg, info.clientID), info.scopes,
               e.now + cfg.accessTTL, e.now, info.authTime, info.amr, ""), Draws(e));
    }
  }

  /** The subject and client of a rotation are those of the family. */
  lemma RotationMatches(cfg: Settings, y: System, request: TokenRequest, current: string, p: State)
    requires Inv(y.store, y.used) && Good(y.store, y.used, p, {}) && MayRequest(cfg, y, request, Some(current))
      && current != ""
    requires forall l | l in y.lent :: LentOK(cfg, y, l)
    requires Sha256(current) in p.refresh && !p.refresh[Sha256(current)].consumed
    ensures request.ForRefresh? && p.refresh[Sha256(current)] == y.store.refresh[Sha256(current)]
    ensures request.clientID == p.refresh[Sha256(current)].clientID
      && request.subject == p.refresh[Sha256(current)].subject
    ensures forall scope | scope in request.scopes :: scope in p.refresh[Sha256(current)].scopes
  {
    var l :| l in y.lent && From(request, l) && current == l.token;
    assert LentOK(cfg, y, l);
  }

  lemma NewFamilyOpens(s: State, used: set<string>, q: State, f: string, family: Family)
    requires Inv(s, used) && Good(s, used, q, {}) && f !in used && f != ""
    requires !family.revoked && family.expires > 0 && family.tokens == []
    ensures var q' := Scheduled(q.(families := q.families[f := family]), family.expires);
      Open(q', used + {f}, f) && Evolves(s, used, q')
  {
    hide Evolves, FamilyLinks, AccessLinks, ExpiryBound, Open;
    var q' := Scheduled(q.(families := q.families[f := family]), family.expires);
    assert used + {} == used;
    OpenNew(q, used, f, family);
    OpenFamily(q', used + {f}, f);
    EvolvesTransitively(s, used, q, used, q');
  }

  /** Closing an open family completes whatever has led to it. */
  lemma CloseGood(cfg: Settings, s: State, used: set<string>, q: State, ids: set<string>, now: Time,
                  info: StoreSpec.Info, f: string, accessID: string, token: string)
    requires cfg.accessTTL > 0 && Inv(s, used) && Open(q, used + ids, f) && Evolves(s, used, q)
    requires accessID !in used + ids && token !in used + ids && accessID != "" && accessID != token
    requires info.clientID == q.families[f].clientID && info.subject == q.families[f].subject
    ensures Good(s, used, AddPair(cfg, q, now, info, f, accessID, token), ids + {accessID, token})
  {
    hide AddPair, Evolves, CodeLinks, FamilyLinks, AccessLinks, ExpiryBound, Known, Open;
    OpenFamily(q, used + ids, f);
    var s' := AddPair(cfg, q, now, info, f, accessID, token);
    ClosePair(cfg, q, used + ids, now, info, f, accessID, token);
    EvolvesTransitively(s, used, q, used + ids, s');
    assert used + ids + {accessID, token} == used + (ids + {accessID, token});
  }

  lemma NewFamilyGood(cfg: Settings, s: State, used: set<string>, q: State, now: Time, info: StoreSpec.Info,
                      f: string, accessID: string, token: string)
    requires cfg.accessTTL > 0 && cfg.refreshTTL > 0 && Inv(s, used) && Good(s, used, q, {})
    requires {f, accessID, token} !! used && f != accessID && f != token && accessID != token && f != ""
      && accessID != ""
    ensures var family := Family(info.clientID, info.subject, now + cfg.refreshTTL, false, []);
      var q' := Scheduled(q.(families := q.families[f := family]), family.expires);
      Good(s, used, AddPair(cfg, q', now, info, f, accessID, token), {f, accessID, token})
  {
    hide AddPair, Evolves, Inv, Good, Open;
    var family := Family(info.clientID, info.subject, now + cfg.refreshTTL, false, []);
    var q' := Scheduled(q.(families := q.families[f := family]), family.expires);
    NewFamilyOpens(s, used, q, f, family);
    CloseGood(cfg, s, used, q', {f}, now, info, f, accessID, token);
    assert {f} + {accessID, token} == {f, accessID, token};
  }

  lemma RotatedGood(cfg: Settings, s: State, used: set<string>, q: State, now: Time, info: StoreSpec.Info,
                    h: Digest, accessID: string, token: string)
    requires cfg.accessTTL > 0 && Inv(s, used) && Good(s, used, q, {})
    requires {accessID, token} !! used && accessID != token && accessID != ""
    requires h in q.refresh && !q.refresh[h].consumed
    requires info.clientID == q.refresh[h].clientID && info.subject == q.refresh[h].subject
    ensures q.refresh[h].familyID in q.families
    ensures Good(s, used, AddPair(cfg, Rotate(q, h), now, info, q.refresh[h].familyID, accessID, token),
                 {accessID, token})
  {
    hide AddPair, Evolves, ExpiryBound, Known, Open, Rotate;
    assert used + {} == used;
    assert RefreshOK(q, h);
    OpenByRotation(q, used, h);
    RotationFields(q, h);
    OpenFamily(Rotate(q, h), used, q.refresh[h].familyID);
    EvolvesTransitively(s, used, q, used, Rotate(q, h));
    CloseGood(cfg, s, used, Rotate(q, h), {}, now, info, q.refresh[h].familyID, accessID, token);
    assert {} + {accessID, token} == {accessID, token};
  }

  lemma PairGoodNew(cfg: Settings, y: System, e: Event, q: State)
    requires WellFormed(cfg) && Inv(y.store, y.used) && e.CreatePair? && FreshDraws(e, y.used)
    requires e.current == "" && e.drawnToken.Some? && e.drawnAccess.Some? && e.drawnFamily.Some?
    requires Reserve(Prune(y.store, e.now), e.request) == Ok(q) && Good(y.store, y.used, q, {})
    ensures Good(y.store, y.used, After(cfg, y.store, e), Draws(e))
  {
    hide Good, Inv, Prune, Reserve, InfoOf, AddPair;
    var info := InfoOf(y.store, e.request);
    NewFamilyGood(cfg, y.store, y.used, q, e.now, info, e.drawnFamily.value, e.drawnAccess.value, e.drawnToken.value);
    assert Draws(e) == {e.drawnFamily.value, e.drawnAccess.value, e.drawnToken.value};
  }

  lemma PairGood(cfg: Settings, y: System, e: Event)
    requires WellFormed(cfg) && SystemInv(cfg, y) && e.CreatePair? && Permitted(cfg, y, e)
    ensures Good(y.store, y.used, After(cfg, y.store, e), Draws(e))
  {
    hide Good, Inv, Prune, Evolves, ScopesOK, LentOK, AttemptOK;
    var s, p, s' := y.store, Prune(y.store, e.now), After(cfg, y.store, e);
    NothingGood(s, y.used, Draws(e));
    PruneGood(s, y.used, e.now, Draws(e));
    if e.drawnToken.Some? && e.drawnAccess.Some? && Reserve(p, e.request).Ok? {
      var q, info := Reserve(p, e.request).value, InfoOf(s, e.request);
      ReserveGood(s, y.used, e.now, e.request);
      MoreDrawn(s, y.used, q, {}, Draws(e));
      if e.current == "" {
        if e.drawnFamily.Some? { PairGoodNew(cfg, y, e, q); }
      } else if Sha256(e.current) in q.refresh {
        PairGoodForToken(cfg, y, e, q);
      }
    }
  }

  lemma PairGoodForToken(cfg: Settings, y: System, e: Event, q: State)
    requires WellFormed(cfg) && SystemInv(cfg, y) && e.CreatePair? && Permitted(cfg, y, e) && e.current != ""
    requires e.drawnToken.Some? && e.drawnAccess.Some?
    requires Reserve(Prune(y.store, e.now), e.request) == Ok(q) && Inv(q, y.used)
    requires Good(y.store, y.used, q, {}) && Good(y.store, y.used, q, Draws(e))
    requires Sha256(e.current) in q.refresh
    ensures Good(y.store, y.used, After(cfg, y.store, e), Draws(e))
  {
    hide Good, Inv, Prune, Evolves, ScopesOK, LentOK, AttemptOK;
    var s, h := y.store, Sha256(e.current);
    var f, s' := q.refresh[h].familyID, After(cfg, s, e);
    if q.refresh[h].consumed {
      assert y.used + {} == y.used;
      RevokeFamilies(q, y.used, {f});
      ThenGood(s, y.used, q, s', {}, Draws(e));
    } else if PairOutcome(cfg, s, e).1.Ok? {
      RotationMatches(cfg, y, e.request, e.current, q);
      RotatedGood(cfg, s, y.used, q, e.now, InfoOf(s, e.request), h, e.drawnAccess.value, e.drawnToken.value);
      MoreDrawn(s, y.used, s', {e.drawnAccess.value, e.drawnToken.value}, Draws(e));
    }
  }

  lemma RevocationGood(cfg: Settings, y: System, e: Event)
    requires Inv(y.store, y.used) && (e.Lookup? || e.Terminate? || e.Revocation?)
    ensures Good(y.store, y.used, After(cfg, y.store, e), Draws(e))
  {
    hide Good, Prune, CodeLinks, FamilyLinks, AccessLinks, ExpiryBound, Known;
    var s, p, s' := y.store, Prune(y.store, e.now), After(cfg, y.store, e);
    NothingGood(s, y.used, Draws(e));
    PruneGood(s, y.used, e.now, {});
    assert y.used + {} == y.used;
    match e {
      case Lookup(now, token) =>
        if Sha256(token) in p.refresh { RevokeFamilies(p, y.used, {p.refresh[Sha256(token)].familyID}); }
        if s' != p { ThenGood(s, y.used, p, s', {}, {}); }
      case Terminate(now, userID, clientID) =>
        var q := p.(access := p.access - SessionAccess(p.access, userID, clientID));
        DropAccess(p, y.used, SessionAccess(p.access, userID, clientID));
        GoodInv(p, y.used, q);
        RevokeFamilies(q, y.used, SessionFamilies(p, userID, clientID));
        ThenGood(s, y.used, p, q, {}, {});
        if s' != s { ThenGood(s, y.used, q, s', {}, {}); }
      case Revocation(now, tokenOrID, clientID) =>
        var q := p.(access := p.access - {tokenOrID});
        DropAccess(p, y.used, {tokenOrID});
        GoodInv(p, y.used, q);
        ThenGood(s, y.used, p, q, {}, {});
        if tokenOrID in p.access { RevokeFamilies(q, y.used, {p.access[tokenOrID].familyID}); }
        if Sha256(tokenOrID) in p.refresh { RevokeFamilies(p, y.used, {p.refresh[Sha256(tokenOrID)].familyID}); }
        if s' != p && s' != q {
          if tokenOrID in p.access && p.access[tokenOrID].id != "" { ThenGood(s, y.used, q, s', {}, {}); }
          else { ThenGood(s, y.used, p, s', {}, {}); }
        }
    }
  }

  /** Every event keeps the store's invariant and changes only what `Evolves` allows. */
  lemma {:induction false} EventGood(cfg: Settings, y: System, e: Event)
    requires WellFormed(cfg) && SystemInv(cfg, y) && Permitted(cfg, y, e)
    ensures Good(y.store, y.used, After(cfg, y.store, e), Draws(e))
  {
    hide Good, CodeLinks, FamilyLinks, AccessLinks, ExpiryBound, Known, Prune;
    match e {
      case Authorize(_, _, _, _, _, _, _) => AuthorizeGood(cfg, y, e);
      case SaveCode(_, _, _) => RequestEventGood(cfg, y, e);
      case Delete(_) => RequestEventGood(cfg, y, e);
      case LoginEnd(_, _, _, _) => RequestEventGood(cfg, y, e);
      case Select(_, _, _) => RequestEventGood(cfg, y, e);
      case Issue(_, _, _) => RequestEventGood(cfg, y, e);
      case Callback(_, _, _) => RequestEventGood(cfg, y, e);
      case CreateAccess(_, _, _) => AccessGood(cfg, y, e);
      case CreatePair(_, _, _, _, _, _) => PairGood(cfg, y, e);
      case Lookup(_, _) => RevocationGood(cfg, y, e);
      case Terminate(_, _, _) => RevocationGood(cfg, y, e);
      case Revocation(_, _, _) => RevocationGood(cfg, y, e);
      case ByID(now, _) => PruneGood(y.store, y.used, now, {});
      case ByCode(now, _) => PruneGood(y.store, y.used, now, {});
      case LoginBegin(now, _, _) => PruneGood(y.store, y.used, now, {});
      case Info(now, _) => PruneGood(y.store, y.used, now, {});
      case TokenInfo(now, _, _) => PruneGood(y.store, y.used, now, {});
      case Userinfo(now, _, _, _) => PruneGood(y.store, y.used, now, {});
      case Introspection(now, _, _, _) => PruneGood(y.store, y.used, now, {});
    }
  }

  // ---- Scopes and lent requests ----

  /** Requests and access records of `p` are unchanged ones of `s`, and no refresh record is new. */
  ghost predicate Fewer(s: State, p: State) {
    && (forall id | id in p.requests :: id in s.requests && p.requests[id] == s.requests[id])
    && (forall id | id in p.access :: id in s.access && p.access[id] == s.access[id])
    && p.refresh.Keys <= s.refresh.Keys
  }

  lemma PruneFewer(s: State, used: set<string>, now: Time)
    requires Inv(s, used)
    ensures Fewer(s, Prune(s, now))
  {
    PruneIsEager(s, used, now);
  }

  /** What is new in `s'` keeps to the scope rules. */
  ghost predicate Newcomers(cfg: Settings, s: State, s': State) {
    && (forall id | id in s'.requests && id !in s.requests ::
          s'.requests[id].clientID in cfg.clients && !s'.requests[id].done)
    && (forall id | id in s'.requests && id in s.requests && !s.requests[id].done && s'.requests[id].done ::
          Within(cfg, s'.requests[id].clientID, s'.requests[id].subject, s'.requests[id].scopes))
    && (forall id | id in s'.access && id !in s.access ::
          Within(cfg, s'.access[id].clientID, s'.access[id].subject, s'.access[id].scopes))
    && (forall h | h in s'.refresh && h !in s.refresh && !s'.refresh[h].consumed ::
          Within(cfg, s'.refresh[h].clientID, s'.refresh[h].subject, s'.refresh[h].scopes))
  }

  lemma ScopesKept(cfg: Settings, s: State, used: set<string>, s': State)
    requires ScopesOK(cfg, s) && Evolves(s, used, s') && Newcomers(cfg, s, s')
    ensures ScopesOK(cfg, s')
  {
  }

  lemma FewerNewcomers(cfg: Settings, s: State, p: State)
    requires Fewer(s, p)
    ensures Newcomers(cfg, s, p)
  {
  }

  lemma CompleteNewcomers(cfg: Settings, s: State, p: State, now: Time, id: string, user: User, how: string)
    requires Fewer(s, p) && user.id in cfg.users && cfg.users[user.id] == user
    ensures Newcomers(cfg, s, Complete(cfg, p, now, id, user, how).0)
  {
    FewerNewcomers(cfg, s, p);
    if Complete(cfg, p, now, id, user, how).1.Ok? {
      var request := Complete(cfg, p, now, id, user, how).0.requests[id];
      assert Within(cfg, request.clientID, request.subject, request.scopes);
    }
  }

  lemma AccessNewcomers(cfg: Settings, s: State, q: State, record: Access)
    requires Fewer(s, q) && Within(cfg, record.clientID, record.subject, record.scopes)
    ensures Newcomers(cfg, s, Scheduled(q.(access := q.access[record.id := record]), record.expires))
  {
  }

  lemma PairNewcomers(cfg: Settings, s: State, q: State, now: Time, info: StoreSpec.Info, f: string,
                      accessID: string, token: string)
    requires Fewer(s, q) && f in q.families && Within(cfg, info.clientID, info.subject, info.scopes)
    ensures Newcomers(cfg, s, AddPair(cfg, q, now, info, f, accessID, token))
  {
  }

  /** A token request whose code could be reserved carries scopes the principal may have. */
  lemma InfoWithin(cfg: Settings, y: System, request: TokenRequest, current: Option<string>, now: Time)
    requires WellFormed(cfg) && Inv(y.store, y.used) && ScopesOK(cfg, y.store)
    requires forall l | l in y.lent :: LentOK(cfg, y, l)
    requires MayRequest(cfg, y, request, current) && Reserve(Prune(y.store, now), request).Ok?
    ensures var info := InfoOf(y.store, request); Within(cfg, info.clientID, info.subject, info.scopes)
  {
    match request {
      case ForCode(id) =>
        PruneFewer(y.store, y.used, now);
        assert RequestOK(y.store, id);
      case ForRefresh(_, _, _, _, _) =>
        var l :| l in y.lent && From(request, l);
        assert LentOK(cfg, y, l);
      case ForService(clientID, subject, scopes) =>
        assert PrincipalPermissions(cfg, clientID, subject) == cfg.clients[clientID].permissions;
      case ForStale(_) =>
    }
  }

  lemma FewerReserved(s: State, p: State, request: TokenRequest)
    requires Fewer(s, p) && Reserve(p, request).Ok?
    ensures Fewer(s, Reserve(p, request).value)
  {
  }

  lemma CreateAccessNewcomers(cfg: Settings, s: State, now: Time, request: TokenRequest, drawn: Option<string>)
    requires Fewer(s, Prune(s, now))
    requires Reserve(Prune(s, now), request).Ok? ==>
      var info := InfoOf(s, request); Within(cfg, info.clientID, info.subject, info.scopes)
    ensures Newcomers(cfg, s, CreateAccessToken(cfg, s, now, request, drawn).0)
  {
    var p, s' := Prune(s, now), CreateAccessToken(cfg, s, now, request, drawn).0;
    FewerNewcomers(cfg, s, s);
    FewerNewcomers(cfg, s, p);
    if drawn.Some? && Reserve(p, request).Ok? {
      FewerReserved(s, p, request);
      AccessNewcomers(cfg, s, Reserve(p, request).value, s'.access[drawn.value]);
    }
  }

  lemma FamilyFewer(s: State, q: State, f: string, family: Family)
    requires Fewer(s, q)
    ensures Fewer(s, Scheduled(q.(families := q.families[f := family]), family.expires))
  {
  }

  lemma RotateFewer(s: State, q: State, h: Digest)
    requires Fewer(s, q) && h in q.refresh && q.refresh[h].familyID in q.families
    ensures Fewer(s, Rotate(q, h))
  {
    hide Compact;
  }

  lemma IssuedNewcomers(cfg: Settings, s: State, e: Event, q: State)
    requires e.CreatePair? && PairOutcome(cfg, s, e).1.Ok?
    requires Reserve(Prune(s, e.now), e.request) == Ok(q) && Fewer(s, q)
    requires var info := InfoOf(s, e.request); Within(cfg, info.clientID, info.subject, info.scopes)
    ensures Newcomers(cfg, s, PairOutcome(cfg, s, e).0)
  {
    hide Within, Prune, Reserve, AddPair, Newcomers, InfoOf, Fewer, Rotate, Revoke;
    var info, h := InfoOf(s, e.request), Sha256(e.current);
    if e.current == "" {
      var f, family := e.drawnFamily.value, Family(info.clientID, info.subject, e.now + cfg.refreshTTL, false, []);
      var q' := Scheduled(q.(families := q.families[f := family]), family.expires);
      FamilyFewer(s, q, f, family);
      PairNewcomers(cfg, s, q', e.now, info, f, e.drawnAccess.value, e.drawnToken.value);
    } else {
      RotateFewer(s, q, h);
      RotationFields(q, h);
      PairNewcomers(cfg, s, Rotate(q, h), e.now, info, q.refresh[h].familyID, e.drawnAccess.value, e.drawnToken.value);
    }
  }

  lemma CreatePairNewcomers(cfg: Settings, s: State, e: Event)
    requires e.CreatePair? && Fewer(s, Prune(s, e.now))
    requires Reserve(Prune(s, e.now), e.request).Ok? ==>
      var info := InfoOf(s, e.request); Within(cfg, info.clientID, info.subject, info.scopes)
    ensures Newcomers(cfg, s, PairOutcome(cfg, s, e).0)
  {
    hide Within;
    var p, s' := Prune(s, e.now), PairOutcome(cfg, s, e).0;
    FewerNewcomers(cfg, s, s);
    FewerNewcomers(cfg, s, p);
    if e.drawnToken.Some? && e.drawnAccess.Some? && Reserve(p, e.request).Ok? {
      var q, info, h := Reserve(p, e.request).value, InfoOf(s, e.request), Sha256(e.current);
      FewerReserved(s, p, e.request);
      FewerNewcomers(cfg, s, q);
      if PairOutcome(cfg, s, e).1.Ok? {
        IssuedNewcomers(cfg, s, e, q);
      } else if e.current != "" && h in q.refresh && q.refresh[h].consumed {
        assert Fewer(s, Revoke(q, {q.refresh[h].familyID}));
        FewerNewcomers(cfg, s, s');
      }
    }
  }

  lemma RewriteNewcomers(cfg: Settings, s: State, p: State, id: string, request: Request, s': State)
    requires Fewer(s, p) && s'.requests == p.requests[id := request] && s'.access == p.access && s'.refresh == p.refresh
    requires if id in p.requests then request.done == p.requests[id].done
             else request.clientID in cfg.clients && !request.done && id !in s.requests
    ensures Newcomers(cfg, s, s')
  {
  }

  lemma RequestNewcomers(cfg: Settings, s: State, e: Event)
    requires e.Authorize? || e.SaveCode? || e.Issue? || e.Callback?
    requires Fewer(s, Prune(s, e.now)) && (e.Authorize? ==> Draws(e) !! s.requests.Keys)
    ensures Newcomers(cfg, s, After(cfg, s, e))
  {
    hide Newcomers, Fewer, Prune;
    var p, s' := Prune(s, e.now), After(cfg, s, e);
    SameFewer(s);
    FewerNewcomers(cfg, s, s);
    FewerNewcomers(cfg, s, p);
    if s' != s && s' != p {
      match e {
        case Authorize(_, _, drawn, _, _, _, _) =>
          RewriteNewcomers(cfg, s, p, drawn.value, s'.requests[drawn.value], s');
        case SaveCode(_, id, _) => RewriteNewcomers(cfg, s, p, id, s'.requests[id], s');
        case Issue(_, id, _) => RewriteNewcomers(cfg, s, p, id, s'.requests[id], s');
        case Callback(_, id, _) => RewriteNewcomers(cfg, s, p, id, s'.requests[id], s');
      }
    }
  }

  lemma RevokeFewer(s: State, p: State, ids: set<string>)
    requires Fewer(s, p)
    ensures Fewer(s, Revoke(p, ids))
  {
  }

  lemma DropFewer(s: State, p: State, ids: set<string>)
    requires Fewer(s, p)
    ensures Fewer(s, p.(access := p.access - ids))
  {
  }

  lemma RevocationFewer(cfg: Settings, s: State, e: Event)
    requires e.Lookup? || e.Terminate? || e.Revocation?
    requires Fewer(s, Prune(s, e.now))
    ensures Fewer(s, After(cfg, s, e))
  {
    hide Fewer, Prune, Revoke;
    var p := Prune(s, e.now);
    SameFewer(s);
    match e {
      case Lookup(now, token) =>
        if Sha256(token) in p.refresh { RevokeFewer(s, p, {p.refresh[Sha256(token)].familyID}); }
      case Terminate(now, userID, clientID) =>
        DropFewer(s, p, SessionAccess(p.access, userID, clientID));
        RevokeFewer(s, p.(access := p.access - SessionAccess(p.access, userID, clientID)),
                    SessionFamilies(p, userID, clientID));
      case Revocation(now, tokenOrID, clientID) =>
        DropFewer(s, p, {tokenOrID});
        if tokenOrID in p.access {
          RevokeFewer(s, p.(access := p.access - {tokenOrID}), {p.access[tokenOrID].familyID});
        }
        if Sha256(tokenOrID) in p.refresh { RevokeFewer(s, p, {p.refresh[Sha256(tokenOrID)].familyID}); }
    }
  }

  lemma TokenNewcomers(cfg: Settings, y: System, e: Event)
    requires WellFormed(cfg) && SystemInv(cfg, y) && Permitted(cfg, y, e) && (e.CreateAccess? || e.CreatePair?)
    ensures Newcomers(cfg, y.store, After(cfg, y.store, e))
  {
    hide Inv, Evolves, ScopesOK, LentOK, Newcomers, Fewer, Within, FreshDraws, MayRequest, Prune;
    PruneFewer(y.store, y.used, e.now);
    if Reserve(Prune(y.store, e.now), e.request).Ok? {
      InfoWithin(cfg, y, e.request, if e.CreateAccess? then None else Some(e.current), e.now);
    }
    if e.CreateAccess? {
      CreateAccessNewcomers(cfg, y.store, e.now, e.request, e.drawn);
    } else {
      CreatePairNewcomers(cfg, y.store, e);
    }
  }

  lemma LoginNewcomers(cfg: Settings, y: System, e: Event)
    requires SystemInv(cfg, y) && Permitted(cfg, y, e) && (e.LoginEnd? || e.Select?) && WellFormed(cfg)
    ensures Newcomers(cfg, y.store, After(cfg, y.store, e))
  {
    hide Inv, Evolves, ScopesOK, LentOK, Newcomers, Fewer, Within, FreshDraws, Prune, Complete;
    var s, p := y.store, Prune(y.store, e.now);
    PruneFewer(s, y.used, e.now);
    FewerNewcomers(cfg, s, p);
    SameFewer(s);
    FewerNewcomers(cfg, s, s);
    match e {
      case LoginEnd(now, id, candidate, passwordOK) =>
        assert AttemptOK(cfg, Attempt(id, candidate));
        if candidate.user.Some? { CompleteNewcomers(cfg, s, p, now, id, candidate.user.value, "pwd"); }
      case Select(now, id, userID) =>
        if userID in cfg.users { CompleteNewcomers(cfg, s, p, now, id, cfg.users[userID], "dev-select"); }
    }
  }

  lemma SameFewer(s: State)
    ensures Fewer(s, s)
  {
  }

  lemma RequestsKnown(s: State, used: set<string>)
    requires Inv(s, used)
    ensures s.requests.Keys <= used
  {
  }

  lemma EventNewcomers(cfg: Settings, y: System, e: Event)
    requires WellFormed(cfg) && SystemInv(cfg, y) && Permitted(cfg, y, e)
    ensures Newcomers(cfg, y.store, After(cfg, y.store, e))
  {
    hide Inv, ScopesOK, LentOK, AttemptOK, Newcomers, Fewer, MayRequest, Prune, After;
    var s := y.store;
    if e.Delete? {
      DeleteNewcomers(cfg, s, e);
    } else {
      PruneFewer(s, y.used, e.now);
      FewerNewcomers(cfg, s, Prune(s, e.now));
      RequestsKnown(s, y.used);
      match e {
        case Authorize(_, _, _, _, _, _, _) => RequestNewcomers(cfg, s, e);
        case SaveCode(_, _, _) => RequestNewcomers(cfg, s, e);
        case Issue(_, _, _) => RequestNewcomers(cfg, s, e);
        case Callback(_, _, _) => RequestNewcomers(cfg, s, e);
        case LoginEnd(_, _, _, _) => LoginNewcomers(cfg, y, e);
        case Select(_, _, _) => LoginNewcomers(cfg, y, e);
        case CreateAccess(_, _, _) => TokenNewcomers(cfg, y, e);
        case CreatePair(_, _, _, _, _, _) => TokenNewcomers(cfg, y, e);
        case Lookup(_, _) => RevocationFewer(cfg, s, e); FewerNewcomers(cfg, s, After(cfg, s, e));
        case Terminate(_, _, _) => RevocationFewer(cfg, s, e); FewerNewcomers(cfg, s, After(cfg, s, e));
        case Revocation(_, _, _) => RevocationFewer(cfg, s, e); FewerNewcomers(cfg, s, After(cfg, s, e));
        case _ => ReaderPrunes(cfg, s, e);
      }
    }
  }

  /** Readers only prune. */
  lemma ReaderPrunes(cfg: Settings, s: State, e: Event)
    requires e.ByID? || e.ByCode? || e.LoginBegin? || e.Info? || e.TokenInfo? || e.Userinfo? || e.Introspection?
    ensures After(cfg, s, e) == Prune(s, e.now)
  {
    hide Prune;
  }

  lemma DeleteNewcomers(cfg: Settings, s: State, e: Event)
    requires e.Delete?
    ensures Newcomers(cfg, s, After(cfg, s, e))
  {
    FewerNewcomers(cfg, s, After(cfg, s, e));
  }

  lemma OldLentKept(cfg: Settings, y: System, y': System, l: Lent)
    requires LentOK(cfg, y, l) && y.used <= y'.used && RefreshEvolves(y.store, y.used, y'.store)
    ensures LentOK(cfg, y', l)
  {
    hide Within;
  }

  lemma NewLent(cfg: Settings, y: System, e: Event, y': System, l: Lent)
    requires Next(cfg, y, e, y') && Inv(y.store, y.used) && ScopesOK(cfg, y.store)
    requires l in y'.lent && l !in y.lent
    ensures LentOK(cfg, y', l)
  {
    hide Inv, Permitted, Within, Prune;
    var p, h := Prune(y.store, e.now), Sha256(e.token);
    assert y'.store == p && l.token == e.token && h in p.refresh;
    PrunedRefresh(y.store, y.used, e.now, h);
  }

  lemma PrunedRefresh(s: State, used: set<string>, now: Time, h: Digest)
    requires Inv(s, used) && h in Prune(s, now).refresh
    ensures h in s.refresh && s.refresh[h] == Prune(s, now).refresh[h] && (h.Sha256? ==> h.preimage in used)
  {
    hide Prune, CodeLinks, FamilyLinks, AccessLinks, ExpiryBound;
    PruneIsEager(s, used, now);
  }

  lemma LentKept(cfg: Settings, y: System, e: Event, y': System, l: Lent)
    requires Next(cfg, y, e, y') && Inv(y.store, y.used) && ScopesOK(cfg, y.store) && Evolves(y.store, y.used, y'.store)
    requires l in y'.lent && (l in y.lent ==> LentOK(cfg, y, l))
    ensures LentOK(cfg, y', l)
  {
    hide Next, Inv, ScopesOK, LentOK, RefreshEvolves;
    if l in y.lent {
      StepUses(cfg, y, e, y');
      OldLentKept(cfg, y, y', l);
    } else {
      NewLent(cfg, y, e, y', l);
    }
  }

  /** One step of the system keeps its invariant. */
  lemma StepInv(cfg: Settings, y: System, e: Event, y': System)
    requires WellFormed(cfg) && SystemInv(cfg, y) && Next(cfg, y, e, y')
    ensures SystemInv(cfg, y') && Evolves(y.store, y.used, y'.store)
  {
    EventGood(cfg, y, e);
    EventNewcomers(cfg, y, e);
    assert Good(y.store, y.used, y'.store, Draws(e)) && Newcomers(cfg, y.store, y'.store);
    StepKeeps(cfg, y, e, y');
  }

  lemma StepKeeps(cfg: Settings, y: System, e: Event, y': System)
    requires WellFormed(cfg) && SystemInv(cfg, y) && Next(cfg, y, e, y')
    requires Good(y.store, y.used, y'.store, Draws(e)) && Newcomers(cfg, y.store, y'.store)
    ensures SystemInv(cfg, y') && Evolves(y.store, y.used, y'.store)
  {
    hide After, Next, Inv, Evolves, ScopesOK, LentOK, AttemptOK, Newcomers;
    StepUses(cfg, y, e, y');
    ScopesKept(cfg, y.store, y.used, y'.store);
    forall l | l in y'.lent ensures LentOK(cfg, y', l) {
      LentKept(cfg, y, e, y', l);
    }
    AttemptsKept(cfg, y, e, y');
  }

  lemma StepUses(cfg: Settings, y: System, e: Event, y': System)
    requires Next(cfg, y, e, y')
    ensures y'.used == y.used + Draws(e)
  {
  }

  lemma AttemptsKept(cfg: Settings, y: System, e: Event, y': System)
    requires WellFormed(cfg) && Next(cfg, y, e, y') && forall a | a in y.attempts :: AttemptOK(cfg, a)
    ensures forall a | a in y'.attempts :: AttemptOK(cfg, a)
  {
    hide After, Permitted, Prune;
    forall a | a in y'.attempts ensures AttemptOK(cfg, a) {
      if a !in y.attempts {
        assert e.LoginBegin? && a == Attempt(e.id, AuthenticateBegin(cfg, y.store, e.now, e.id, e.username).1.value);
      }
    }
  }

  // ---- Any run ----

  lemma StepOf(cfg: Settings, ys: seq<System>, es: seq<Event>, i: nat)
    requires IsRun(cfg, ys, es) && i < |es|
    ensures WellFormed(cfg) && Next(cfg, ys[i], es[i], ys[i + 1])
  {
    hide WellFormed, Next;
    assert StepAt(cfg, ys, es, i);
  }

  lemma StartInv(cfg: Settings)
    ensures SystemInv(cfg, START)
  {
  }

  /** Every state of every run satisfies the invariant. */
  lemma {:induction false} RunInv(cfg: Settings, ys: seq<System>, es: seq<Event>, i: nat)
    requires IsRun(cfg, ys, es) && i < |ys|
    ensures SystemInv(cfg, ys[i])
  {
    hide SystemInv, Next, WellFormed;
    if i == 0 {
      StartInv(cfg);
    } else {
      RunInv(cfg, ys, es, i - 1);
      StepOf(cfg, ys, es, i - 1);
      StepInv(cfg, ys[i - 1], es[i - 1], ys[i]);
    }
  }

  /** Between any two states of a run only what `Evolves` allows has happened. */
  lemma {:induction false} RunEvolves(cfg: Settings, ys: seq<System>, es: seq<Event>, i: nat, j: nat)
    requires IsRun(cfg, ys, es) && i <= j < |ys|
    ensures SystemInv(cfg, ys[i]) && SystemInv(cfg, ys[j])
    ensures ys[i].used <= ys[j].used && Evolves(ys[i].store, ys[i].used, ys[j].store)
    decreases j
  {
    hide Evolves, CodeLinks, FamilyLinks, AccessLinks, ExpiryBound, Known, ScopesOK, LentOK, AttemptOK;
    hide Permitted, After, WellFormed;
    RunInv(cfg, ys, es, i);
    if i == j {
      EvolvesReflexively(ys[i].store, ys[i].used);
    } else {
      RunEvolves(cfg, ys, es, i, j - 1);
      StepOf(cfg, ys, es, j - 1);
      StepInv(cfg, ys[j - 1], es[j - 1], ys[j]);
      EvolvesTransitively(ys[i].store, ys[i].used, ys[j - 1].store, ys[j - 1].used, ys[j].store);
    }
  }
}
