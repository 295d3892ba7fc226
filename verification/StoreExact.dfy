/** What each operation on requests, codes and logins does, record by record: when it succeeds, with which error it
    fails otherwise, and the whole state it leaves. The state before is given by its unexpired records. */
module StoreExact {
  import opened Realm
  import opened StoreSpec
  import opened StoreInvariant

  lemma Unexpired(s: State, used: set<string>, now: Time)
    requires Inv(s, used)
    ensures var p, live := Prune(s, now), Eager(s, now);
      && p.requests == live.requests && p.codes == live.codes && p.access == live.access
      && p.refresh == live.refresh && p.families == live.families
  {
    PruneIsEager(s, used, now);
  }

  // ---- Authorization requests ----

  /** A request is taken from a registered client that does not ask for no prompt, while fewer than 1024 others are
      pending. What is stored is what was asked for, for five minutes. */
  lemma CreateRequestIsExact(cfg: Settings, s: State, used: set<string>, now: Time, promptNone: bool,
                             drawn: Option<string>, clientID: string, scopes: seq<string>, userID: string, d: Details)
    requires Inv(s, used)
    ensures var (t, r) := CreateAuthRequest(cfg, s, now, promptNone, drawn, clientID, scopes, userID, d);
      var live := Eager(s, now);
      if promptNone then t == s && r == Err(LoginRequired)
      else if drawn == None then t == s && r == Err(RandomFailed)
      else if clientID !in cfg.clients then t == s && r == Err(InvalidRequest)
      else if |live.requests| >= 1024 then SameRecords(t, live) && r == Err(ServerError)
      else
        var challenge := if d.codeChallenge == "" then None
                         else Some(CodeChallenge(d.codeChallenge, d.codeChallengeMethod));
        var asked := Asked(d.redirectURI, d.state, d.nonce, challenge, d.responseType, d.responseMode);
        var made := Request(asked, clientID, userID, scopes, cfg.clients[clientID].audiences, "",
                            now, now + 300_000_000_000, 0, [], false, false, NoDigest);
        r == Ok(drawn.value) && SameRecords(t, live.(requests := live.requests[drawn.value := made]))
  {
    hide Prune, Eager;
    Unexpired(s, used, now);
  }

  /** A code is saved once, for a request that is logged in, under a name that no unexpired code has. */
  lemma SaveCodeIsExact(s: State, used: set<string>, now: Time, id: string, code: string)
    requires Inv(s, used)
    ensures var (t, r), live := SaveAuthCode(s, now, id, code), Eager(s, now);
      if id in live.requests && live.requests[id].done && !live.requests[id].codeSaved && code !in live.codes
      then
        var q := live.requests[id];
        && r == Ok(())
        && SameRecords(t, live.(requests := live.requests[id := q.(codeSaved := true, code := code)],
                                codes := live.codes[code := Code(id, q.expires, false)]))
      else r == Err(InvalidGrant) && SameRecords(t, live)
  {
    hide Prune, Eager;
    Unexpired(s, used, now);
    EagerLive(s, now);
  }

  lemma EagerLive(s: State, now: Time)
    ensures forall id | id in Eager(s, now).requests :: now < Eager(s, now).requests[id].expires
    ensures forall code | code in Eager(s, now).codes :: now < Eager(s, now).codes[code].expires
  {
  }

  /** Deletion is for requests whose code is stored for them and taken. It removes the request and that code and
      nothing else, and nobody finds the request again; otherwise it changes nothing. */
  lemma DeleteIsExact(cfg: Settings, s: State, id: string, later: Time)
    ensures var (t, r) := DeleteAuthRequest(s, id);
      if id in s.requests && s.requests[id].code != "" && s.requests[id].code in s.codes
         && s.codes[s.requests[id].code].requestID == id && s.codes[s.requests[id].code].reserved
      then
        && r == Ok(())
        && t.requests == s.requests - {id} && t.codes == s.codes - {s.requests[id].code}
        && t.access == s.access && t.refresh == s.refresh && t.families == s.families
        && t.nextExpiry == s.nextExpiry
        && AuthRequestByID(t, later, id).1 == Err(InvalidRequest)
        && LoginInfo(cfg, t, later, id).1 == Err(RequestMissing)
        && AuthRequestByCode(t, later, s.requests[id].code).1 == Err(InvalidGrant)
      else r == Err(InvalidGrant) && t == s
  {
    GoneStaysGone(DeleteAuthRequest(s, id).0, later);
  }

  lemma GoneStaysGone(s: State, later: Time)
    ensures Prune(s, later).requests.Keys <= s.requests.Keys && Prune(s, later).codes.Keys <= s.codes.Keys
  {
  }

  // ---- Login ----

  /** Of the scopes asked for, those the client may use that are OpenID's own or among the permissions, in order. */
  function Kept(scopes: seq<string>, allowed: seq<string>, permissions: seq<string>): seq<string> {
    if scopes == [] then []
    else
      var scope := scopes[0];
      (if scope in allowed && (scope in {"openid", "profile", "email", "offline_access"} || scope in permissions)
       then [scope] else [])
      + Kept(scopes[1..], allowed, permissions)
  }

  lemma {:induction false} KeptSnoc(scopes: seq<string>, last: string, allowed: seq<string>, permissions: seq<string>)
    ensures Kept(scopes + [last], allowed, permissions)
         == Kept(scopes, allowed, permissions) + Kept([last], allowed, permissions)
  {
    if scopes == [] {
      assert scopes + [last] == [last];
    } else {
      KeptSnoc(scopes[1..], last, allowed, permissions);
      assert (scopes + [last])[1..] == scopes[1..] + [last];
    }
  }

  lemma NoneKept(allowed: seq<string>, permissions: seq<string>)
    ensures Kept([], allowed, permissions) == []
  {
  }

  lemma OneKept(scope: string, allowed: seq<string>, permissions: seq<string>)
    ensures Kept([scope], allowed, permissions)
         == if scope in allowed && (OIDCScope(scope) || scope in permissions) then [scope] else []
  {
    assert [scope][1..] == [];
    NoneKept(allowed, permissions);
  }

  lemma {:induction false} GrantedAreKept(scopes: seq<string>, client: Client, user: User)
    ensures Granted(scopes, client, user) == Kept(scopes, client.allowedScopes, user.permissions)
  {
    hide Kept;
    if scopes == [] {
      NoneKept(client.allowedScopes, user.permissions);
    } else {
      var front, last := scopes[..|scopes| - 1], scopes[|scopes| - 1];
      GrantedAreKept(front, client, user);
      OneKept(last, client.allowedScopes, user.permissions);
      KeptSnoc(front, last, client.allowedScopes, user.permissions);
      assert scopes == front + [last];
    }
  }

  /** The scopes that are not OpenID's own, which go into the permission claim: each as often as it was asked for, and
      in that order. */
  function Others(scopes: seq<string>): seq<string> {
    if scopes == [] then []
    else (if scopes[0] in {"openid", "profile", "email", "offline_access"} then [] else [scopes[0]])
         + Others(scopes[1..])
  }

  lemma {:induction false} OthersSnoc(scopes: seq<string>, last: string)
    ensures Others(scopes + [last]) == Others(scopes) + Others([last])
  {
    if scopes == [] {
      assert scopes + [last] == [last];
    } else {
      OthersSnoc(scopes[1..], last);
      assert (scopes + [last])[1..] == scopes[1..] + [last];
    }
  }

  lemma {:induction false} ApplicationScopesAreOthers(scopes: seq<string>)
    ensures ApplicationScopes(scopes) == Others(scopes)
  {
    if scopes != [] {
      var front, last := scopes[..|scopes| - 1], scopes[|scopes| - 1];
      ApplicationScopesAreOthers(front);
      OthersSnoc(front, last);
      assert scopes == front + [last];
    }
  }

  /** The request after its login as the user, at the given time and by the given method. */
  function LoggedInAs(cfg: Settings, q: Request, user: User, now: Time, how: string): Request
    requires q.clientID in cfg.clients
  {
    Request(q.asked, q.clientID, user.id, Kept(q.scopes, cfg.clients[q.clientID].allowedScopes, user.permissions),
            q.audience, q.code, q.created, q.expires, now, [how], true, q.codeSaved, q.completion)
  }

  /** The request waits for its login and its client is registered. */
  ghost predicate Pending(cfg: Settings, live: State, id: string) {
    id in live.requests && !live.requests[id].done && live.requests[id].clientID in cfg.clients
  }

  lemma CompleteIsExact(cfg: Settings, p: State, now: Time, id: string, user: User, how: string)
    ensures var (t, r) := Complete(cfg, p, now, id, user, how);
      if Pending(cfg, p, id)
      then r == Ok(()) && t == p.(requests := p.requests[id := LoggedInAs(cfg, p.requests[id], user, now, how)])
      else t == p && r == Err(if id !in p.requests then RequestMissing
                              else if p.requests[id].done then RequestDone else ClientUnavailable)
  {
    if Pending(cfg, p, id) { GrantedAreKept(p.requests[id].scopes, cfg.clients[p.requests[id].clientID], user); }
  }

  /** The first half of a login finds the user of the folded name, whatever the password will be, and refuses a request
      that is logged in. It changes nothing. */
  lemma LoginBeginIsExact(cfg: Settings, s: State, used: set<string>, now: Time, id: string, username: string)
    requires WellFormed(cfg) && Inv(s, used)
    ensures var (t, r), live := AuthenticateBegin(cfg, s, now, id, username), Eager(s, now);
      && SameRecords(t, live)
      && (r == Err(RequestDone) <==> id in live.requests && live.requests[id].done)
      && (r.Ok? <==> !(id in live.requests && live.requests[id].done))
      && (r.Ok? ==> (r.value.requestOK <==> id in live.requests)
                    && (r.value.user.Some? <==> username in cfg.usernames)
                    && (username in cfg.usernames ==>
                          r.value.user.value.id == cfg.usernames[username]
                          && r.value.user.value == cfg.users[cfg.usernames[username]]))
  {
    hide Prune, Eager;
    Unexpired(s, used, now);
  }

  /** The second half logs the request in exactly when the first half had found the request and the user, the password
      was right, and the request is still waiting. */
  lemma LoginEndIsExact(cfg: Settings, s: State, used: set<string>, now: Time, id: string, candidate: Candidate,
                        passwordOK: bool)
    requires Inv(s, used)
    ensures var (t, r), live := AuthenticateEnd(cfg, s, now, id, candidate, passwordOK), Eager(s, now);
      if !candidate.requestOK then t == s && r == Err(RequestMissing)
      else if candidate.user == None || !passwordOK then t == s && r == Err(InvalidCredentials)
      else if Pending(cfg, live, id) then
        var q := LoggedInAs(cfg, live.requests[id], candidate.user.value, now, "pwd");
        r == Ok(()) && SameRecords(t, live.(requests := live.requests[id := q]))
      else
        SameRecords(t, live) && r == Err(if id !in live.requests then RequestMissing
                                         else if live.requests[id].done then RequestDone else ClientUnavailable)
  {
    hide Prune, Eager, Complete, LoggedInAs;
    Unexpired(s, used, now);
    if candidate.user.Some? { CompleteIsExact(cfg, Prune(s, now), now, id, candidate.user.value, "pwd"); }
  }

  lemma SelectIsExact(cfg: Settings, s: State, used: set<string>, now: Time, id: string, userID: string)
    requires Inv(s, used)
    ensures var (t, r), live := SelectIdentity(cfg, s, now, id, userID), Eager(s, now);
      if userID in cfg.users && Pending(cfg, live, id) then
        var q := LoggedInAs(cfg, live.requests[id], cfg.users[userID], now, "dev-select");
        r == Ok(()) && SameRecords(t, live.(requests := live.requests[id := q]))
      else
        SameRecords(t, live) && r == Err(if userID !in cfg.users then InvalidCredentials
                                         else if id !in live.requests then RequestMissing
                                         else if live.requests[id].done then RequestDone else ClientUnavailable)
  {
    hide Prune, Eager, Complete, LoggedInAs;
    Unexpired(s, used, now);
    if userID in cfg.users { CompleteIsExact(cfg, Prune(s, now), now, id, cfg.users[userID], "dev-select"); }
  }

  // ---- Completion secrets ----

  /** A secret is bound to a request that is logged in, in place of any before it. */
  lemma IssueIsExact(s: State, used: set<string>, now: Time, id: string, drawn: Option<string>)
    requires Inv(s, used)
    ensures var (t, r), live := IssueCompletionSecret(s, now, id, drawn), Eager(s, now);
      if id in live.requests && live.requests[id].done && drawn != None then
        && r == Ok(drawn.value)
        && var bound := live.requests[id].(completion := Sha256(drawn.value));
           SameRecords(t, live.(requests := live.requests[id := bound]))
      else
        SameRecords(t, live)
        && r == Err(if id in live.requests && live.requests[id].done then RandomFailed else RequestMissing)
  {
    hide Prune, Eager;
    Unexpired(s, used, now);
  }

  /** A callback passes with the secret that is bound, and unbinds it. */
  lemma ConsumeIsExact(s: State, used: set<string>, now: Time, id: string, secret: string)
    requires Inv(s, used)
    ensures var (t, r), live := ConsumeCompletionSecret(s, now, id, secret), Eager(s, now);
      if id in live.requests && live.requests[id].completion == Sha256(secret) then
        var unbound := live.requests[id].(completion := NoDigest);
        r == Ok(()) && SameRecords(t, live.(requests := live.requests[id := unbound]))
      else r == Err(CompletionDenied) && SameRecords(t, live)
  {
    hide Prune, Eager;
    Unexpired(s, used, now);
  }

  /** The login page shows the client's name, or its id when it has none. */
  lemma LoginInfoIsExact(cfg: Settings, s: State, used: set<string>, now: Time, id: string)
    requires WellFormed(cfg) && Inv(s, used)
    ensures var (t, r), live := LoginInfo(cfg, s, now, id), Eager(s, now);
      && SameRecords(t, live)
      && (id !in live.requests ==> r == Err(RequestMissing))
      && (id in live.requests && live.requests[id].clientID !in cfg.clients ==> r == Err(ClientUnavailable))
      && (id in live.requests && live.requests[id].clientID in cfg.clients ==>
            var client := live.requests[id].clientID;
            r == Ok(if cfg.clients[client].name == "" then client else cfg.clients[client].name))
  {
    hide Prune, Eager;
    Unexpired(s, used, now);
  }
}
