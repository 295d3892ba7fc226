/** The protocol store as a state machine on values: one function for each public method, giving the state
    after the method's locked section and what it returns. The class in Store.dfy is proved against these. */
module StoreSpec {
  import opened Realm

  datatype Option<+T> = None | Some(value: T)

  /** Nanoseconds; 0 is Go's zero time. */
  type Time = nat

  const FIVE_MINUTES: nat := 300_000_000_000
  const MAX_PENDING_AUTH_REQUESTS: nat := 1024

  /** SHA-256 taken as injective and never all zero; `NoDigest` is the all-zero array. */
  datatype Digest = NoDigest | Sha256(preimage: string)

  /** What an authorization request brings along for later: the store only keeps it. */
  datatype Details = Details(
    redirectURI: string, state: string, nonce: string, codeChallenge: string, codeChallengeMethod: string,
    responseType: string, responseMode: string)

  datatype CodeChallenge = CodeChallenge(challenge: string, method_: string)

  datatype Asked = Asked(
    redirectURI: string, state: string, nonce: string, challenge: Option<CodeChallenge>,
    responseType: string, responseMode: string)

  /** An empty challenge is none. */
  function AskedOf(d: Details): Asked {
    Asked(d.redirectURI, d.state, d.nonce,
          if d.codeChallenge == "" then None else Some(CodeChallenge(d.codeChallenge, d.codeChallengeMethod)),
          d.responseType, d.responseMode)
  }

  datatype Request = Request(
    asked: Asked, clientID: string, subject: string, scopes: seq<string>, audience: seq<string>, code: string,
    created: Time, expires: Time, authTime: Time, amr: seq<string>,
    done: bool, codeSaved: bool, completion: Digest)

  datatype Code = Code(requestID: string, expires: Time, reserved: bool)

  datatype Access = Access(
    id: string, clientID: string, subject: string, audience: seq<string>, scopes: seq<string>,
    expires: Time, issuedAt: Time, authTime: Time, amr: seq<string>, familyID: string)

  datatype Refresh = Refresh(
    familyID: string, clientID: string, subject: string, audience: seq<string>, scopes: seq<string>,
    amr: seq<string>, authTime: Time, consumed: bool, accessID: string)

  datatype Family = Family(clientID: string, subject: string, expires: Time, revoked: bool, tokens: seq<Digest>)

  datatype State = State(
    requests: map<string, Request>, codes: map<string, Code>, access: map<string, Access>,
    refresh: map<Digest, Refresh>, families: map<string, Family>, nextExpiry: Time)

  const EMPTY: State := State(map[], map[], map[], map[], map[], 0)

  datatype Error =
    | LoginRequired | RandomFailed | InvalidRequest | ServerError | InvalidGrant | InvalidRefreshToken
    | RequestMissing | RequestDone | InvalidCredentials | ClientUnavailable | CompletionDenied
    | LogoutUnverified | InvalidToken | UserNotFound | Inactive | InvalidClient | InvalidScope

  datatype Result<+T> = Ok(value: T) | Err(error: Error)

  // ---- Expiry ----

  function Schedule(next: Time, expires: Time): Time {
    if expires == 0 then next
    else if next == 0 || expires < next then expires
    else next
  }

  function Scheduled(s: State, expires: Time): State {
    s.(nextExpiry := Schedule(s.nextExpiry, expires))
  }

  ghost function RequestTimes(requests: map<string, Request>, ids: set<string>): set<Time> {
    set id | id in ids && id in requests :: requests[id].expires
  }

  ghost function CodeTimes(codes: map<string, Code>): set<Time> {
    set code | code in codes :: codes[code].expires
  }

  ghost function AccessTimes(access: map<string, Access>): set<Time> {
    set id | id in access :: access[id].expires
  }

  ghost function FamilyTimes(families: map<string, Family>, ids: set<string>): set<Time> {
    set f | f in ids && f in families :: families[f].expires
  }

  ghost function Expiries(s: State): set<Time> {
    RequestTimes(s.requests, s.requests.Keys) + CodeTimes(s.codes) + AccessTimes(s.access)
      + FamilyTimes(s.families, s.families.Keys)
  }

  /** The least nonzero time in the set, or zero when there is none. */
  ghost predicate IsEarliest(times: set<Time>, t: Time) {
    if t == 0 then forall u | u in times :: u == 0
    else t in times && forall u | u in times :: u == 0 || t <= u
  }

  lemma {:induction false} EarliestExists(times: set<Time>)
    ensures exists t: Time :: IsEarliest(times, t)
    decreases times
  {
    if times == {} {
      assert IsEarliest(times, 0);
    } else {
      var u :| u in times;
      EarliestExists(times - {u});
      var t: Time :| IsEarliest(times - {u}, t);
      ScheduleKeepsEarliest(times - {u}, t, u);
      assert times - {u} + {u} == times;
    }
  }

  lemma ScheduleKeepsEarliest(times: set<Time>, t: Time, u: Time)
    requires IsEarliest(times, t)
    ensures IsEarliest(times + {u}, Schedule(t, u))
  {
    forall w | w in times + {u}
      ensures w == 0 || (Schedule(t, u) != 0 && Schedule(t, u) <= w)
    {
    }
  }

  ghost function Earliest(times: set<Time>): (t: Time)
    ensures IsEarliest(times, t)
  {
    EarliestExists(times);
    var t: Time :| IsEarliest(times, t);
    t
  }

  /** What `consider` and `scheduleExpiryLocked` compute is the earliest expiry so far. */
  lemma EarliestOfMore(times: set<Time>, expires: Time)
    ensures Earliest(times + {expires}) == Schedule(Earliest(times), expires)
  {
    ScheduleKeepsEarliest(times, Earliest(times), expires);
  }

  ghost function ExpiredRequests(requests: map<string, Request>, now: Time): set<string> {
    set id | id in requests && requests[id].expires <= now
  }

  ghost function CodesOf(requests: map<string, Request>, ids: set<string>): set<string> {
    set id | id in ids && id in requests && requests[id].code != "" :: requests[id].code
  }

  ghost function ExpiredCodes(codes: map<string, Code>, now: Time): set<string> {
    set code | code in codes && codes[code].expires <= now
  }

  ghost function ExpiredAccess(access: map<string, Access>, now: Time): set<string> {
    set id | id in access && access[id].expires <= now
  }

  ghost function ExpiredFamilies(families: map<string, Family>, now: Time): set<string> {
    set id | id in families && families[id].expires <= now
  }

  ghost function TokensOf(families: map<string, Family>, ids: set<string>): set<Digest> {
    set id, h | id in ids && id in families && h in families[id].tokens :: h
  }

  ghost function DeadConsumed(refresh: map<Digest, Refresh>, families: map<string, Family>, now: Time): set<Digest> {
    set h | h in refresh && refresh[h].consumed &&
            !(refresh[h].familyID in families && now < families[refresh[h].familyID].expires)
  }

  /** The full scan of `pruneLocked`: consumed refresh records go when their family is gone or expired,
      unconsumed ones only through the token index of an expired family. */
  ghost function Scan(s: State, now: Time): State {
    var codes := s.codes - CodesOf(s.requests, ExpiredRequests(s.requests, now));
    var s' := State(
      s.requests - ExpiredRequests(s.requests, now),
      codes - ExpiredCodes(codes, now),
      s.access - ExpiredAccess(s.access, now),
      s.refresh - DeadConsumed(s.refresh, s.families, now) - TokensOf(s.families, ExpiredFamilies(s.families, now)),
      s.families - ExpiredFamilies(s.families, now),
      0);
    s'.(nextExpiry := Earliest(Expiries(s')))
  }

  ghost function Prune(s: State, now: Time): State {
    if s.nextExpiry != 0 && now < s.nextExpiry then s else Scan(s, now)
  }

  // ---- Authorization requests and codes ----

  ghost function CreateAuthRequest(cfg: Settings, s: State, now: Time, promptNone: bool, id: Option<string>,
                                   clientID: string, scopes: seq<string>, userID: string, details: Details)
    : (State, Result<string>)
  {
    if promptNone then (s, Err(LoginRequired))
    else if id.None? then (s, Err(RandomFailed))
    else if clientID !in cfg.clients then (s, Err(InvalidRequest))
    else
      var p := Prune(s, now);
      if |p.requests| >= MAX_PENDING_AUTH_REQUESTS then (p, Err(ServerError))
      else
        var request := Request(AskedOf(details), clientID, userID, scopes, cfg.clients[clientID].audiences, "",
                               now, now + FIVE_MINUTES, 0, [], false, false, NoDigest);
        (Scheduled(p.(requests := p.requests[id.value := request]), request.expires), Ok(id.value))
  }

  ghost function AuthRequestByID(s: State, now: Time, id: string): (State, Result<string>) {
    var p := Prune(s, now);
    (p, if id in p.requests then Ok(id) else Err(InvalidRequest))
  }

  /** Returns the id of the request the code stands for. */
  ghost function AuthRequestByCode(s: State, now: Time, code: string): (State, Result<string>) {
    var p := Prune(s, now);
    (p,
     if code !in p.codes || p.codes[code].reserved then Err(InvalidGrant)
     else
       var record := p.codes[code];
       if record.requestID !in p.requests || !p.requests[record.requestID].done || record.expires <= now
       then Err(InvalidGrant)
       else Ok(record.requestID))
  }

  ghost function SaveAuthCode(s: State, now: Time, id: string, code: string): (State, Result<()>) {
    var p := Prune(s, now);
    if id !in p.requests || !p.requests[id].done || p.requests[id].codeSaved || p.requests[id].expires <= now
       || code in p.codes
    then (p, Err(InvalidGrant))
    else
      var request := p.requests[id];
      (Scheduled(p.(requests := p.requests[id := request.(codeSaved := true, code := code)],
                    codes := p.codes[code := Code(id, request.expires, false)]), request.expires),
       Ok(()))
  }

  /** Takes no clock reading and does not prune. */
  ghost function DeleteAuthRequest(s: State, id: string): (State, Result<()>) {
    if id !in s.requests || s.requests[id].code == "" then (s, Err(InvalidGrant))
    else
      var code := s.requests[id].code;
      if code !in s.codes || s.codes[code].requestID != id || !s.codes[code].reserved then (s, Err(InvalidGrant))
      else (s.(requests := s.requests - {id}, codes := s.codes - {code}), Ok(()))
  }

  // ---- Login ----

  function Granted(scopes: seq<string>, client: Client, user: User): (granted: seq<string>)
    ensures forall scope ::
      scope in granted <==>
        scope in scopes && scope in client.allowedScopes && (OIDCScope(scope) || scope in user.permissions)
  {
    if scopes == [] then []
    else
      var front, last := scopes[..|scopes| - 1], scopes[|scopes| - 1];
      assert scopes == front + [last];
      if last in client.allowedScopes && (OIDCScope(last) || last in user.permissions)
      then Granted(front, client, user) + [last]
      else Granted(front, client, user)
  }

  /** `completeAuthenticationLocked`, on a state that is already pruned. */
  ghost function Complete(cfg: Settings, p: State, now: Time, id: string, user: User, how: string): (State,
                          Result<()>) {
    if id !in p.requests then (p, Err(RequestMissing))
    else if p.requests[id].done then (p, Err(RequestDone))
    else if p.requests[id].clientID !in cfg.clients then (p, Err(ClientUnavailable))
    else
      var request := p.requests[id];
      var granted := Granted(request.scopes, cfg.clients[request.clientID], user);
      var completed := request.(subject := user.id, scopes := granted, authTime := now, amr := [how], done := true);
      (p.(requests := p.requests[id := completed]),
       Ok(()))
  }

  /** What the first locked section of `Authenticate` learns. */
  datatype Candidate = Candidate(requestOK: bool, user: Option<User>)

  /** First locked section of `Authenticate`; `username` is already folded. */
  ghost function AuthenticateBegin(cfg: Settings, s: State, now: Time, id: string, username: string): (State,
                                   Result<Candidate>) {
    var p := Prune(s, now);
    (p,
     if id in p.requests && p.requests[id].done then Err(RequestDone)
     else Ok(Candidate(id in p.requests,
                       if username in cfg.usernames && cfg.usernames[username] in cfg.users
                       then Some(cfg.users[cfg.usernames[username]]) else None)))
  }

  /** The rest of `Authenticate`, after the password check and with a second clock reading. */
  ghost function AuthenticateEnd(cfg: Settings, s: State, now: Time, id: string, candidate: Candidate, passwordOK: bool)
    : (State, Result<()>)
  {
    if !candidate.requestOK then (s, Err(RequestMissing))
    else if candidate.user.None? || !passwordOK then (s, Err(InvalidCredentials))
    else Complete(cfg, Prune(s, now), now, id, candidate.user.value, "pwd")
  }

  ghost function SelectIdentity(cfg: Settings, s: State, now: Time, id: string, userID: string): (State, Result<()>) {
    var p := Prune(s, now);
    if userID !in cfg.users then (p, Err(InvalidCredentials))
    else Complete(cfg, p, now, id, cfg.users[userID], "dev-select")
  }

  ghost function IssueCompletionSecret(s: State, now: Time, id: string, secret: Option<string>): (State,
                                       Result<string>) {
    var p := Prune(s, now);
    if id !in p.requests || !p.requests[id].done then (p, Err(RequestMissing))
    else if secret.None? then (p, Err(RandomFailed))
    else (p.(requests := p.requests[id := p.requests[id].(completion := Sha256(secret.value))]), Ok(secret.value))
  }

  ghost function ConsumeCompletionSecret(s: State, now: Time, id: string, secret: string): (State, Result<()>) {
    var p := Prune(s, now);
    if id !in p.requests || p.requests[id].completion == NoDigest || p.requests[id].completion != Sha256(secret)
    then (p, Err(CompletionDenied))
    else (p.(requests := p.requests[id := p.requests[id].(completion := NoDigest)]), Ok(()))
  }

  ghost function LoginInfo(cfg: Settings, s: State, now: Time, id: string): (State, Result<string>) {
    var p := Prune(s, now);
    (p,
     if id !in p.requests then Err(RequestMissing)
     else if p.requests[id].clientID !in cfg.clients then Err(ClientUnavailable)
     else
       var client := cfg.clients[p.requests[id].clientID];
       Ok(if client.name != "" then client.name else client.id))
  }

  // ---- Tokens ----

  /** `op.TokenRequest`: a stored authorization request, an authorization request object that is not the one
      stored under its id, a request made by `TokenRequestByRefreshToken`, or one for client credentials. */
  datatype TokenRequest =
    | ForCode(id: string)
    | ForStale(clientID: string)
    | ForRefresh(clientID: string, subject: string, scopes: seq<string>, amr: seq<string>, authTime: Time)
    | ForService(clientID: string, subject: string, scopes: seq<string>)

  datatype Info = Info(clientID: string, subject: string, scopes: seq<string>, amr: seq<string>, authTime: Time)

  function InfoOf(s: State, request: TokenRequest): Info {
    match request
    case ForCode(id) =>
      if id in s.requests
      then Info(s.requests[id].clientID, s.requests[id].subject, s.requests[id].scopes, s.requests[id].amr,
                s.requests[id].authTime)
      else Info("", "", [], [], 0)
    case ForStale(clientID) => Info(clientID, "", [], [], 0)
    case ForRefresh(clientID, subject, scopes, amr, authTime) => Info(clientID, subject, scopes, amr, authTime)
    case ForService(clientID, subject, scopes) => Info(clientID, subject, scopes, [], 0)
  }

  function AudienceOf(cfg: Settings, clientID: string): seq<string> {
    if clientID in cfg.clients then cfg.clients[clientID].audiences else []
  }

  /** `reserveAuthorizationCodeLocked`. */
  function Reserve(p: State, request: TokenRequest): Result<State> {
    match request
    case ForRefresh(_, _, _, _, _) => Ok(p)
    case ForService(_, _, _) => Ok(p)
    case ForStale(_) => Err(InvalidGrant)
    case ForCode(id) =>
      if id !in p.requests || p.requests[id].code == "" then Err(InvalidGrant)
      else
        var code := p.requests[id].code;
        if code !in p.codes || p.codes[code].requestID != id || p.codes[code].reserved then Err(InvalidGrant)
        else Ok(p.(codes := p.codes[code := p.codes[code].(reserved := true)]))
  }

  datatype AccessGrant = AccessGrant(accessID: string, expires: Time)

  ghost function CreateAccessToken(cfg: Settings, s: State, now: Time, request: TokenRequest, id: Option<string>)
    : (State, Result<AccessGrant>)
  {
    if id.None? then (s, Err(RandomFailed))
    else
      var p := Prune(s, now);
      var reserved := Reserve(p, request);
      if reserved.Err? then (p, Err(reserved.error))
      else
        var info := InfoOf(s, request);
        var expires := now + cfg.accessTTL;
        var record := Access(id.value, info.clientID, info.subject, AudienceOf(cfg, info.clientID), info.scopes,
                             expires, now, info.authTime, info.amr, "");
        var q := reserved.value;
        (Scheduled(q.(access := q.access[id.value := record]), expires), Ok(AccessGrant(id.value, expires)))
  }

  function Consumed(record: Refresh): Refresh {
    Refresh(record.familyID, record.clientID, "", [], [], [], 0, true, "")
  }

  /** `compactFamilyTokensLocked`. */
  function Compact(tokens: seq<Digest>, refresh: map<Digest, Refresh>): seq<Digest> {
    if tokens == [] then []
    else
      var last := tokens[|tokens| - 1];
      Compact(tokens[..|tokens| - 1], refresh) + if last in refresh && !refresh[last].consumed then [last] else []
  }

  ghost function AccessOf(refresh: map<Digest, Refresh>, ids: set<string>): set<string> {
    set h | h in refresh && refresh[h].familyID in ids && !refresh[h].consumed :: refresh[h].accessID
  }

  ghost function MembersOf(refresh: map<Digest, Refresh>, ids: set<string>): set<Digest> {
    set h | h in refresh && refresh[h].familyID in ids
  }

  /** `revokeFamilyLocked` on each of the given ids; an id that is not stored is a no-op. */
  ghost function Revoke(s: State, ids: set<string>): State {
    var stored := ids * s.families.Keys;
    s.(access := s.access - AccessOf(s.refresh, stored),
       refresh := s.refresh - MembersOf(s.refresh, stored),
       families := s.families - stored)
  }

  datatype TokenGrant = TokenGrant(accessID: string, token: string, expires: Time, familyID: string)

  /** The end of `CreateAccessAndRefreshTokens`: put the new pair into the stored family. */
  function AddPair(cfg: Settings, q: State, now: Time, info: Info, familyID: string, accessID: string,
                   token: string): State
    requires familyID in q.families
  {
    var family := q.families[familyID];
    var expires := now + cfg.accessTTL;
    var audience := AudienceOf(cfg, info.clientID);
    var q' := q.(
      families := q.families[familyID := family.(tokens := family.tokens + [Sha256(token)])],
      refresh := q.refresh[Sha256(token) := Refresh(familyID, info.clientID, info.subject, audience, info.scopes,
                                                    info.amr, info.authTime, false, accessID)],
      access := q.access[accessID := Access(accessID, info.clientID, info.subject, audience, info.scopes,
                                            expires, now, info.authTime, info.amr, familyID)]);
    Scheduled(q', expires)
  }

  /** Consume the presented token, drop its access record and compact the family's index. */
  function Rotate(q: State, current: Digest): State
    requires current in q.refresh && q.refresh[current].familyID in q.families
  {
    var prior := q.refresh[current];
    var refresh' := q.refresh[current := Consumed(prior)];
    var family := q.families[prior.familyID];
    q.(refresh := refresh',
       access := q.access - {prior.accessID},
       families := q.families[prior.familyID := family.(tokens := Compact(family.tokens, refresh'))])
  }

  ghost function CreateAccessAndRefreshTokens(
    cfg: Settings, s: State, now: Time, request: TokenRequest, current: string,
    newToken: Option<string>, accessID: Option<string>, newFamily: Option<string>): (State, Result<TokenGrant>)
  {
    if newToken.None? || accessID.None? then (s, Err(RandomFailed))
    else
      var info := InfoOf(s, request);
      var p := Prune(s, now);
      var reserved := Reserve(p, request);
      if reserved.Err? then (p, Err(reserved.error))
      else
        var q := reserved.value;
        if current == "" then
          // The code stays reserved when the family id cannot be drawn.
          if newFamily.None? then (q, Err(RandomFailed))
          else
            var family := Family(info.clientID, info.subject, now + cfg.refreshTTL, false, []);
            var q' := Scheduled(q.(families := q.families[newFamily.value := family]), family.expires);
            (AddPair(cfg, q', now, info, newFamily.value, accessID.value, newToken.value),
             Ok(TokenGrant(accessID.value, newToken.value, now + cfg.accessTTL, newFamily.value)))
        else
          var h := Sha256(current);
          if h !in q.refresh then (q, Err(InvalidGrant))
          else
            var prior := q.refresh[h];
            if prior.consumed then (Revoke(q, {prior.familyID}), Err(InvalidGrant))
            else if prior.familyID !in q.families || q.families[prior.familyID].revoked
                    || q.families[prior.familyID].expires <= now || prior.clientID != info.clientID
            then (q, Err(InvalidGrant))
            else
              (AddPair(cfg, Rotate(q, h), now, info, prior.familyID, accessID.value, newToken.value),
               Ok(TokenGrant(accessID.value, newToken.value, now + cfg.accessTTL, prior.familyID)))
  }

  datatype RefreshGrant = RefreshGrant(
    clientID: string, subject: string, audience: seq<string>, scopes: seq<string>, amr: seq<string>, authTime: Time,
    familyID: string)

  ghost function TokenRequestByRefreshToken(s: State, now: Time, token: string): (State, Result<RefreshGrant>) {
    var p := Prune(s, now);
    var h := Sha256(token);
    if h !in p.refresh then (p, Err(InvalidRefreshToken))
    else
      var r := p.refresh[h];
      if r.consumed then (Revoke(p, {r.familyID}), Err(InvalidGrant))
      else if r.familyID !in p.families || p.families[r.familyID].revoked || p.families[r.familyID].expires <= now
      then (p, Err(InvalidGrant))
      else (p, Ok(RefreshGrant(r.clientID, r.subject, r.audience, r.scopes, r.amr, r.authTime, r.familyID)))
  }

  ghost function SessionAccess(access: map<string, Access>, userID: string, clientID: string): set<string> {
    set id | id in access && access[id].subject == userID && access[id].clientID == clientID
  }

  ghost function FamiliesBehind(access: map<string, Access>, ids: set<string>): set<string> {
    set id | id in ids && id in access && access[id].familyID != "" :: access[id].familyID
  }

  ghost function FamiliesOf(families: map<string, Family>, userID: string, clientID: string): set<string> {
    set id | id in families && families[id].subject == userID && families[id].clientID == clientID
  }

  ghost function SessionFamilies(p: State, userID: string, clientID: string): set<string> {
    FamiliesBehind(p.access, SessionAccess(p.access, userID, clientID)) + FamiliesOf(p.families, userID, clientID)
  }

  ghost function TerminateSession(s: State, now: Time, userID: string, clientID: string): (State, Result<()>) {
    if userID == "" || clientID == "" then (s, Err(LogoutUnverified))
    else
      var p := Prune(s, now);
      (Revoke(p.(access := p.access - SessionAccess(p.access, userID, clientID)),
              SessionFamilies(p, userID, clientID)),
       Ok(()))
  }

  ghost function GetRefreshTokenInfo(s: State, now: Time, clientID: string, token: string): (State, Result<string>) {
    var p := Prune(s, now);
    var h := Sha256(token);
    (p,
     if h !in p.refresh then Err(InvalidRefreshToken)
     else
       var r := p.refresh[h];
       if r.clientID != clientID || r.consumed || r.familyID !in p.families || p.families[r.familyID].revoked
       then Err(InvalidRefreshToken)
       else Ok(r.subject))
  }

  ghost function RevokeToken(s: State, now: Time, tokenOrID: string, clientID: string): State {
    var p := Prune(s, now);
    if tokenOrID in p.access && p.access[tokenOrID].id != "" then
      var access := p.access[tokenOrID];
      if access.clientID != clientID then p
      else
        var q := p.(access := p.access - {tokenOrID});
        if access.familyID != "" then Revoke(q, {access.familyID}) else q
    else
      var h := Sha256(tokenOrID);
      if h in p.refresh && p.refresh[h].clientID == clientID then Revoke(p, {p.refresh[h].familyID}) else p
  }

  /** The fields of the userinfo response; what the scopes do not ask for stays empty. */
  datatype Claims = Claims(subject: string, name: string, preferredUsername: string, email: string, emailVerified: bool)

  function UserClaims(user: User, scopes: seq<string>): Claims {
    var profile, email := "profile" in scopes, "email" in scopes;
    Claims(user.id, if profile then user.name else "", if profile then user.username else "",
           if email then user.email else "", email && user.emailVerified)
  }

  /** `SetUserinfoFromToken`, with the claims it copies. */
  ghost function UserinfoFromToken(cfg: Settings, s: State, now: Time, tokenID: string, subject: string, origin: string)
    : (State, Result<Claims>)
  {
    var p := Prune(s, now);
    (p,
     if tokenID !in p.access || p.access[tokenID].subject != subject then Err(InvalidToken)
     else
       var record := p.access[tokenID];
       if origin != "" && (record.clientID !in cfg.clients || origin !in cfg.clients[record.clientID].origins)
       then Err(InvalidToken)
       else if record.subject !in cfg.users then Err(UserNotFound)
       else Ok(UserClaims(cfg.users[record.subject], record.scopes)))
  }

  /** `SetIntrospectionFromToken`; the response fields are those of the returned record. */
  ghost function Introspect(s: State, now: Time, tokenID: string, subject: string, clientID: string): (State,
                            Result<Access>) {
    var p := Prune(s, now);
    (p,
     if tokenID !in p.access || p.access[tokenID].subject != subject || p.access[tokenID].clientID != clientID
     then Err(Inactive)
     else Ok(p.access[tokenID]))
  }

  function ClientCredentialsTokenRequest(cfg: Settings, id: string, scopes: seq<string>): Result<TokenRequest> {
    if id !in cfg.clients || !cfg.clients[id].kind.Service? then Err(InvalidClient)
    else if scopes == [] then Err(InvalidScope)
    else if exists scope :: scope in scopes &&
              (scope !in cfg.clients[id].allowedScopes || scope !in cfg.clients[id].permissions)
    then Err(InvalidScope)
    else Ok(ForService(id, id, scopes))
  }

  function ApplicationScopes(scopes: seq<string>): (result: seq<string>)
    ensures forall scope :: scope in result <==> scope in scopes && !OIDCScope(scope)
  {
    if scopes == [] then []
    else
      var front, last := scopes[..|scopes| - 1], scopes[|scopes| - 1];
      assert scopes == front + [last];
      ApplicationScopes(front) + if OIDCScope(last) then [] else [last]
  }
}
