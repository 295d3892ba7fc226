/** What single operations of the store mean in any state the invariant allows, stated on the eagerly filtered
    records: which readers accept, what a logout removes and what a revocation removes. */
module StoreOperations {
  import opened Realm
  import opened StoreSpec
  import opened StoreInvariant
  import opened StoreSteps

  // ---- Readers that trust the lazy prune ----

  /** No reader checks a time that matters: each accepts exactly when an unexpired record is stored. */
  lemma RequestReadersAreExact(cfg: Settings, s: State, used: set<string>, now: Time, id: string, code: string)
    requires Inv(s, used)
    ensures AuthRequestByID(s, now, id).1
      == if id in s.requests && now < s.requests[id].expires then Ok(id) else Err(InvalidRequest)
    ensures LoginInfo(cfg, s, now, id).1.Ok? <==>
      id in s.requests && now < s.requests[id].expires && s.requests[id].clientID in cfg.clients
    ensures AuthRequestByCode(s, now, code).1
      == if code in s.codes && now < s.codes[code].expires && !s.codes[code].reserved
         then Ok(s.codes[code].requestID) else Err(InvalidGrant)
    ensures Reserve(Prune(s, now), ForCode(id)).Ok? <==>
      && id in s.requests && now < s.requests[id].expires && s.requests[id].code in s.codes
      && s.requests[id].code != "" && !s.codes[s.requests[id].code].reserved
  {
    hide Prune, FamilyLinks, AccessLinks, ExpiryBound, Known;
    PruneIsEager(s, used, now);
    if code in s.codes { assert CodeOK(s, code) && RequestOK(s, s.codes[code].requestID); }
    if id in s.requests {
      assert RequestOK(s, id);
      if s.requests[id].codeSaved { assert CodeOK(s, s.requests[id].code); }
    }
  }

  lemma TokenReadersAreExact(cfg: Settings, s: State, used: set<string>, now: Time, clientID: string, token: string,
                             tokenID: string, subject: string)
    requires Inv(s, used)
    ensures var h := Sha256(token);
      && (GetRefreshTokenInfo(s, now, clientID, token).1
          == if h in s.refresh && !s.refresh[h].consumed && s.refresh[h].clientID == clientID
                && s.refresh[h].familyID in s.families && now < s.families[s.refresh[h].familyID].expires
             then Ok(s.refresh[h].subject) else Err(InvalidRefreshToken))
      && (TokenRequestByRefreshToken(s, now, token).1.Ok? <==>
            h in s.refresh && !s.refresh[h].consumed
            && s.refresh[h].familyID in s.families && now < s.families[s.refresh[h].familyID].expires)
    ensures Introspect(s, now, tokenID, subject, clientID).1
      == if tokenID in s.access && now < s.access[tokenID].expires
            && s.access[tokenID].subject == subject && s.access[tokenID].clientID == clientID
         then Ok(s.access[tokenID]) else Err(Inactive)
  {
    hide Prune, CodeLinks, AccessLinks, ExpiryBound, Known;
    PruneIsEager(s, used, now);
    var h := Sha256(token);
    if h in s.refresh {
      assert RefreshOK(s, h) && FamilyOK(s, s.refresh[h].familyID);
    }
  }

  /** The claims that the scopes ask for, and no others. */
  ghost predicate ClaimsFor(c: Claims, user: User, scopes: seq<string>) {
    && c.subject == user.id
    && ("profile" in scopes ==> c.name == user.name && c.preferredUsername == user.username)
    && ("profile" !in scopes ==> c.name == "" && c.preferredUsername == "")
    && ("email" in scopes ==> c.email == user.email && c.emailVerified == user.emailVerified)
    && ("email" !in scopes ==> c.email == "" && !c.emailVerified)
  }

  /** Userinfo is for an unexpired token of the named subject; with an origin, only for one of the token's registered
      client. It holds the claims of the token's scopes. */
  lemma UserinfoIsExact(cfg: Settings, s: State, used: set<string>, now: Time, tokenID: string, subject: string,
                        origin: string)
    requires WellFormed(cfg) && Inv(s, used)
    ensures var r := UserinfoFromToken(cfg, s, now, tokenID, subject, origin).1;
      if tokenID !in s.access || s.access[tokenID].expires <= now || s.access[tokenID].subject != subject
      then r == Err(InvalidToken)
      else
        var record := s.access[tokenID];
        if origin == "" || (record.clientID in cfg.clients && origin in cfg.clients[record.clientID].origins)
        then if subject in cfg.users then r.Ok? && ClaimsFor(r.value, cfg.users[subject], record.scopes)
             else r == Err(UserNotFound)
        else r == Err(InvalidToken)
  {
    hide Prune, CodeLinks, FamilyLinks, AccessLinks, ExpiryBound, Known;
    PruneIsEager(s, used, now);
  }

  /** An intermediate prune cannot be noticed by anything that happens at a later or equal time. */
  lemma PruneIsInvisible(s: State, used: set<string>, earlier: Time, now: Time)
    requires Inv(s, used) && earlier <= now
    ensures SameRecords(Prune(Prune(s, earlier), now), Prune(s, now))
  {
    hide Prune;
    PruneInv(s, used, earlier);
    PruneIsEager(s, used, earlier);
    PruneIsEager(s, used, now);
    PruneIsEager(Prune(s, earlier), used, now);
    assert Eager(Prune(s, earlier), now) == Eager(Eager(s, earlier), now);
    EagerTwice(s, earlier, now);
  }

  lemma EagerTwiceRefresh(s: State, earlier: Time, now: Time)
    requires earlier <= now
    ensures Eager(Eager(s, earlier), now).refresh == Eager(s, now).refresh
  {
  }

  lemma EagerTwiceCodes(s: State, earlier: Time, now: Time)
    requires earlier <= now
    ensures Eager(Eager(s, earlier), now).requests == Eager(s, now).requests
    ensures Eager(Eager(s, earlier), now).codes == Eager(s, now).codes
  {
  }

  lemma EagerTwiceTokens(s: State, earlier: Time, now: Time)
    requires earlier <= now
    ensures Eager(Eager(s, earlier), now).access == Eager(s, now).access
    ensures Eager(Eager(s, earlier), now).families == Eager(s, now).families
    ensures Eager(Eager(s, earlier), now).nextExpiry == Eager(s, now).nextExpiry
  {
  }

  lemma EagerTwice(s: State, earlier: Time, now: Time)
    requires earlier <= now
    ensures Eager(Eager(s, earlier), now) == Eager(s, now)
  {
    hide Eager;
    EagerTwiceRefresh(s, earlier, now);
    EagerTwiceCodes(s, earlier, now);
    EagerTwiceTokens(s, earlier, now);
  }

  datatype CodeLookup = CodeLookup(now: Time, code: string)

  ghost function AfterLookups(s: State, lookups: seq<CodeLookup>): State
    decreases |lookups|
  {
    if lookups == [] then s
    else AfterLookups(AuthRequestByCode(s, lookups[0].now, lookups[0].code).0, lookups[1..])
  }

  /** Any number of lookups of any codes leaves the outcome of a lookup or of a reservation unchanged. */
  lemma {:induction false} LookupsDoNotConsume(s: State, used: set<string>, lookups: seq<CodeLookup>, now: Time,
                                               code: string, request: TokenRequest)
    requires Inv(s, used) && forall l | l in lookups :: l.now <= now
    ensures AuthRequestByCode(AfterLookups(s, lookups), now, code).1 == AuthRequestByCode(s, now, code).1
    ensures Reserve(Prune(AfterLookups(s, lookups), now), request).Ok? == Reserve(Prune(s, now), request).Ok?
    decreases |lookups|
  {
    hide Prune, Inv;
    if lookups != [] {
      assert lookups[0] in lookups;
      var s' := AuthRequestByCode(s, lookups[0].now, lookups[0].code).0;
      PruneInv(s, used, lookups[0].now);
      PruneIsInvisible(s, used, lookups[0].now, now);
      LookupsDoNotConsume(s', used, lookups[1..], now, code, request);
    }
  }

  // ---- Logout ----

  ghost predicate InSession(subject: string, clientID: string, userID: string, client: string) {
    subject == userID && clientID == client
  }

  /** The state without the records of one subject at one client; a refresh record belongs to its family's pair. */
  ghost function WithoutSession(t: State, userID: string, client: string): State {
    t.(access := map id | id in t.access && !InSession(t.access[id].subject, t.access[id].clientID, userID, client) ::
         t.access[id],
       refresh := map h | h in t.refresh && t.refresh[h].familyID in t.families
                          && !InSession(t.families[t.refresh[h].familyID].subject,
                                        t.families[t.refresh[h].familyID].clientID,
                                        userID, client)
                        :: t.refresh[h],
       families := map f | f in t.families
                           && !InSession(t.families[f].subject, t.families[f].clientID, userID, client) ::
                     t.families[f])
  }

  lemma SessionFamiliesStored(p: State, used: set<string>, userID: string, client: string)
    requires Inv(p, used)
    ensures SessionFamilies(p, userID, client) * p.families.Keys == FamiliesOf(p.families, userID, client)
  {
    forall f | f in SessionFamilies(p, userID, client) && f in p.families
      ensures InSession(p.families[f].subject, p.families[f].clientID, userID, client)
    {
      if id :| id in SessionAccess(p.access, userID, client) && p.access[id].familyID == f {
        assert AccessOK(p, id);
      }
    }
  }

  /** `TerminateSession` removes every access, refresh and family record of the pair and no other unexpired record;
      without a user or a client it is refused. */
  lemma TerminateIsExact(s: State, used: set<string>, now: Time, userID: string, client: string)
    requires Inv(s, used)
    ensures var (t, r) := TerminateSession(s, now, userID, client);
      if userID == "" || client == "" then t == s && r == Err(LogoutUnverified)
      else r == Ok(()) && SameRecords(t, WithoutSession(Eager(s, now), userID, client))
  {
    hide Prune, CodeLinks, FamilyLinks, AccessLinks, ExpiryBound, Known, RequestsEvolve, CodesEvolve;
    hide AccessEvolves, RefreshEvolves, RefreshKept, FamiliesEvolve, Revoke;
    var p := Prune(s, now);
    PruneIsEager(s, used, now);
    PruneInv(s, used, now);
    var gone := SessionAccess(p.access, userID, client);
    var q := p.(access := p.access - gone);
    DropAccess(p, used, gone);
    assert used + {} == used;
    RevokeErases(q, used, SessionFamilies(p, userID, client));
    SessionFamiliesStored(p, used, userID, client);
    SessionErased(p, used, userID, client);
    assert Eager(s, now) == p.(nextExpiry := 0);
  }

  lemma SessionAccessErased(p: State, used: set<string>, userID: string, client: string)
    requires Inv(p, used)
    ensures forall id | id in p.access && p.access[id].familyID in FamiliesOf(p.families, userID, client) ::
      id in SessionAccess(p.access, userID, client)
    ensures forall h | h in p.refresh :: p.refresh[h].familyID in p.families
  {
    forall id | id in p.access && p.access[id].familyID in FamiliesOf(p.families, userID, client)
      ensures id in SessionAccess(p.access, userID, client)
    {
      assert AccessOK(p, id);
    }
    forall h | h in p.refresh ensures p.refresh[h].familyID in p.families { assert RefreshOK(p, h); }
  }

  lemma SessionErased(p: State, used: set<string>, userID: string, client: string)
    requires Inv(p, used)
    ensures Without(p.(access := p.access - SessionAccess(p.access, userID, client)),
                    FamiliesOf(p.families, userID, client))
            == WithoutSession(p, userID, client)
  {
    hide Inv;
    var F := FamiliesOf(p.families, userID, client);
    var t := Without(p.(access := p.access - SessionAccess(p.access, userID, client)), F);
    var u := WithoutSession(p, userID, client);
    SessionAccessErased(p, used, userID, client);
    assert t.access == u.access;
    assert t.refresh == u.refresh;
    assert t.families == u.families;
  }

  // ---- Revocation ----

  /** The live token the caller names and its family: an access id first, then a refresh token. */
  datatype Named = Nothing | AnAccess(owner: string, familyID: string) | ARefresh(owner: string, familyID: string)

  ghost function NamedBy(t: State, tokenOrID: string): Named {
    if tokenOrID in t.access then AnAccess(t.access[tokenOrID].clientID, t.access[tokenOrID].familyID)
    else if Sha256(tokenOrID) in t.refresh
    then ARefresh(t.refresh[Sha256(tokenOrID)].clientID, t.refresh[Sha256(tokenOrID)].familyID)
    else Nothing
  }

  /** Revocation by the owner removes the named token and every record of its family and nothing else;
      by anyone else, or of an unknown token, it removes nothing but expired records. */
  lemma RevokeIsExact(s: State, used: set<string>, now: Time, tokenOrID: string, client: string)
    requires Inv(s, used)
    ensures var t, s' := Eager(s, now), RevokeToken(s, now, tokenOrID, client);
      match NamedBy(t, tokenOrID)
      case Nothing => SameRecords(s', t)
      case AnAccess(owner, f) =>
        SameRecords(s', if owner == client then Without(t.(access := t.access - {tokenOrID}), {f} - {""}) else t)
      case ARefresh(owner, f) => SameRecords(s', if owner == client then Without(t, {f}) else t)
  {
    hide Prune, CodeLinks, FamilyLinks, ExpiryBound, Known, RequestsEvolve, CodesEvolve, AccessEvolves;
    hide RefreshEvolves, RefreshKept, FamiliesEvolve, Revoke;
    var p := Prune(s, now);
    PruneIsEager(s, used, now);
    PruneInv(s, used, now);
    assert used + {} == used;
    if tokenOrID in p.access {
      assert AccessOK(p, tokenOrID);
      var f, q := p.access[tokenOrID].familyID, p.(access := p.access - {tokenOrID});
      DropAccess(p, used, {tokenOrID});
      RevokeErases(q, used, {f});
      DeadFamilyErased(p, used, tokenOrID, f);
    } else if Sha256(tokenOrID) in p.refresh {
      var f := p.refresh[Sha256(tokenOrID)].familyID;
      RevokeErases(p, used, {f});
      RefreshFamilyStored(p, Sha256(tokenOrID));
      assert {f} * p.families.Keys == {f};
    }
  }

  lemma RefreshFamilyStored(p: State, h: Digest)
    requires FamilyLinks(p) && h in p.refresh
    ensures p.refresh[h].familyID in p.families && p.refresh[h].familyID != ""
  {
    assert RefreshOK(p, h) && FamilyOK(p, p.refresh[h].familyID);
  }

  /** When the family itself is gone, its one access record was the last of it. */
  lemma NothingLeft(p: State, used: set<string>, id: string, f: string)
    requires Inv(p, used) && id in p.access && p.access[id].familyID == f != ""
    ensures forall i | i in p.access && i != id :: p.access[i].familyID != f
    ensures f !in p.families ==> forall h | h in p.refresh :: p.refresh[h].familyID != f
  {
    forall i | i in p.access && i != id ensures p.access[i].familyID != f { assert !Siblings(p, i, id); }
    forall h | h in p.refresh ensures p.refresh[h].familyID in p.families { assert RefreshOK(p, h); }
  }

  lemma WithoutNone(q: State)
    ensures Without(q, {}) == q
  {
    assert Without(q, {}).access == q.access;
    assert Without(q, {}).refresh == q.refresh;
    assert Without(q, {}).families == q.families;
  }

  lemma WithoutStranger(q: State, f: string)
    requires f !in q.families && (forall i | i in q.access :: q.access[i].familyID != f)
    requires forall h | h in q.refresh :: q.refresh[h].familyID != f
    ensures Without(q, {f}) == q
  {
    assert Without(q, {f}).access == q.access;
    assert Without(q, {f}).refresh == q.refresh;
    assert Without(q, {f}).families == q.families;
  }

  lemma DeadFamilyErased(p: State, used: set<string>, id: string, f: string)
    requires Inv(p, used) && id in p.access && p.access[id].familyID == f
    ensures var q := p.(access := p.access - {id});
      if f == "" then Without(q, {f} - {""}) == q else Without(q, {f} * q.families.Keys) == Without(q, {f} - {""})
  {
    hide Inv, Without;
    var q := p.(access := p.access - {id});
    WithoutNone(q);
    if f == "" {
      assert {f} - {""} == {};
    } else {
      assert {f} - {""} == {f};
      NothingLeft(p, used, id, f);
      if f in p.families {
        assert {f} * q.families.Keys == {f};
      } else {
        assert {f} * q.families.Keys == {};
        WithoutStranger(q, f);
      }
    }
  }
}
