/** What one operation stores, another gives back, exactly until its deadline; and what a rotation leaves alone. */
module StoreRoundTrips {
  import opened Realm
  import opened StoreSpec
  import opened StoreInvariant
  import opened StoreSteps
  import opened StoreRuns

  /** The later state of a record is what the eager filter keeps of it. */
  lemma PrunedLookups(t: State, used: set<string>, later: Time)
    requires Inv(t, used)
    ensures var p := Prune(t, later);
      && p.requests == Eager(t, later).requests && p.codes == Eager(t, later).codes
      && p.access == Eager(t, later).access
      && p.refresh == Eager(t, later).refresh && p.families == Eager(t, later).families
  {
    PruneIsEager(t, used, later);
  }

  // ---- Tokens ----

  /** The records behind a grant, as every later operation finds them. */
  ghost predicate Stored(cfg: Settings, t: State, info: StoreSpec.Info, g: TokenGrant, now: Time) {
    && g.familyID in t.families && Sha256(g.token) in t.refresh && g.accessID in t.access
    && t.families[g.familyID].clientID == info.clientID
    && t.refresh[Sha256(g.token)] ==
         Refresh(g.familyID, info.clientID, info.subject, AudienceOf(cfg, info.clientID), info.scopes,
                                             info.amr, info.authTime, false, g.accessID)
    && t.access[g.accessID] ==
         Access(g.accessID, info.clientID, info.subject, AudienceOf(cfg, info.clientID), info.scopes,
                                      g.expires, now, info.authTime, info.amr, g.familyID)
    && g.expires == now + cfg.accessTTL
  }

  lemma PairStored(cfg: Settings, y: System, e: Event)
    requires WellFormed(cfg) && SystemInv(cfg, y) && e.CreatePair? && Permitted(cfg, y, e)
    requires PairOutcome(cfg, y.store, e).1.Ok?
    ensures Inv(PairOutcome(cfg, y.store, e).0, y.used + Draws(e))
    ensures Stored(cfg, PairOutcome(cfg, y.store, e).0, InfoOf(y.store, e.request),
                   PairOutcome(cfg, y.store, e).1.value, e.now)
  {
    hide Prune, Evolves, ScopesOK, LentOK, AttemptOK, CodeLinks, AccessLinks, ExpiryBound, Known, Reserve;
    EventGood(cfg, y, e);
    var (t, r) := PairOutcome(cfg, y.store, e);
    var g := r.value;
    assert RefreshOK(t, Sha256(g.token));
  }

  /** A granted refresh token gives back what it was granted for, and its subject, strictly before the family's
      deadline and never after it. */
  lemma {:induction false} IssuedRefreshToken(cfg: Settings, y: System, e: Event, later: Time)
    requires WellFormed(cfg) && SystemInv(cfg, y) && e.CreatePair? && Permitted(cfg, y, e)
    requires PairOutcome(cfg, y.store, e).1.Ok?
    ensures var (t, r) := PairOutcome(cfg, y.store, e);
      var info, g := InfoOf(y.store, e.request), r.value;
      && g.familyID in t.families
      && TokenRequestByRefreshToken(t, later, g.token).1 ==
           (if later < t.families[g.familyID].expires
            then Ok(RefreshGrant(info.clientID, info.subject, AudienceOf(cfg, info.clientID), info.scopes, info.amr,
                                 info.authTime, g.familyID))
            else Err(InvalidRefreshToken))
      && GetRefreshTokenInfo(t, later, info.clientID, g.token).1 ==
           (if later < t.families[g.familyID].expires then Ok(info.subject) else Err(InvalidRefreshToken))
  {
    hide PairOutcome, InfoOf, Permitted, SystemInv, Prune, Inv;
    PairStored(cfg, y, e);
    var (t, r) := PairOutcome(cfg, y.store, e);
    PrunedLookups(t, y.used + Draws(e), later);
    Unrevoked(t, y.used + Draws(e), r.value.familyID);
  }

  lemma Unrevoked(t: State, used: set<string>, f: string)
    requires Inv(t, used) && f in t.families
    ensures !t.families[f].revoked
  {
    assert FamilyOK(t, f);
  }

  /** A granted access token introspects as what it was granted for, strictly before its own deadline. */
  lemma {:induction false} IssuedAccessToken(cfg: Settings, y: System, e: Event, later: Time)
    requires WellFormed(cfg) && SystemInv(cfg, y) && e.CreatePair? && Permitted(cfg, y, e)
    requires PairOutcome(cfg, y.store, e).1.Ok?
    ensures var (t, r) := PairOutcome(cfg, y.store, e);
      var info, g := InfoOf(y.store, e.request), r.value;
      g.accessID in t.access &&
      Introspect(t, later, g.accessID, info.subject, info.clientID).1 ==
        if later < e.now + cfg.accessTTL then Ok(t.access[g.accessID]) else Err(Inactive)
  {
    hide PairOutcome, InfoOf, Permitted, SystemInv, Prune, Inv;
    PairStored(cfg, y, e);
    var (t, r) := PairOutcome(cfg, y.store, e);
    PrunedLookups(t, y.used + Draws(e), later);
  }

  /** A rotation replaces one refresh record and one access record of its family and touches nothing else. */
  lemma RotationIsExact(cfg: Settings, y: System, e: Event)
    requires WellFormed(cfg) && SystemInv(cfg, y) && e.CreatePair? && Permitted(cfg, y, e) && e.current != ""
    requires PairOutcome(cfg, y.store, e).1.Ok?
    ensures var p, h := Prune(y.store, e.now), Sha256(e.current);
      var (t, r) := PairOutcome(cfg, y.store, e);
      var g := r.value;
      && h in p.refresh && p.refresh[h].familyID == g.familyID && g.familyID in p.families
      && t.requests == p.requests && t.codes == p.codes
      && t.refresh == p.refresh[h := Consumed(p.refresh[h])][Sha256(g.token) := t.refresh[Sha256(g.token)]]
      && t.access == (p.access - {p.refresh[h].accessID})[g.accessID := t.access[g.accessID]]
      && t.families == p.families[g.familyID := p.families[g.familyID].(tokens := [Sha256(g.token)])]
  {
    hide Prune, Evolves, ScopesOK, LentOK, AttemptOK, CodeLinks, AccessLinks, ExpiryBound, Known;
    EventGood(cfg, y, e);
    var (t, r) := PairOutcome(cfg, y.store, e);
    assert RefreshOK(t, Sha256(r.value.token));
    assert e.request.ForRefresh?;
  }

  // ---- Codes ----

  /** A saved code stands for its request strictly before the request's deadline, until it is reserved. */
  lemma SavedCode(s: State, used: set<string>, now: Time, id: string, code: string, later: Time)
    requires Inv(s, used) && SaveAuthCode(s, now, id, code).1.Ok?
    ensures var t := SaveAuthCode(s, now, id, code).0;
      && id in t.requests
      && AuthRequestByCode(t, later, code).1 == (if later < t.requests[id].expires then Ok(id) else Err(InvalidGrant))
  {
    hide Prune, Evolves;
    var p, t := Prune(s, now), SaveAuthCode(s, now, id, code).0;
    PruneInv(s, used, now);
    StoreSteps.SaveCode(p, used, id, code);
    GoodInv(p, used, t);
    PrunedLookups(t, used, later);
  }

  /** A reserved code stands for nothing, at any time. */
  lemma ReservedCode(cfg: Settings, s: State, used: set<string>, now: Time, id: string, random: Option<string>,
                     later: Time)
    requires Inv(s, used) && CreateAccessToken(cfg, s, now, ForCode(id), random).1.Ok?
    requires random.value !in used && random.value != "" && cfg.accessTTL > 0
    ensures var t := CreateAccessToken(cfg, s, now, ForCode(id), random).0;
      id in t.requests && AuthRequestByCode(t, later, t.requests[id].code).1 == Err(InvalidGrant)
  {
    hide Prune, Evolves, Good, CodeLinks, FamilyLinks, AccessLinks, ExpiryBound, Known;
    var p, t := Prune(s, now), CreateAccessToken(cfg, s, now, ForCode(id), random).0;
    ReserveGood(s, used, now, ForCode(id));
    IssueAccessGood(s, used, Reserve(p, ForCode(id)).value, t.access[random.value], {random.value});
    GoodIsInv(s, used, t, {random.value});
    PrunedLookups(t, used + {random.value}, later);
  }

  lemma GoodIsInv(s: State, used: set<string>, t: State, drawn: set<string>)
    requires Good(s, used, t, drawn)
    ensures Inv(t, used + drawn)
  {
  }

  // ---- Completion secrets ----

  /** An issued secret passes once, no other secret passes, and none passes after the request's deadline. */
  lemma IssuedSecret(s: State, used: set<string>, now: Time, id: string, secret: string, later: Time, supplied: string)
    requires Inv(s, used) && IssueCompletionSecret(s, now, id, Some(secret)).1.Ok?
    ensures var t := IssueCompletionSecret(s, now, id, Some(secret)).0;
      && id in t.requests
      && (ConsumeCompletionSecret(t, later, id, supplied).1.Ok? <==>
          supplied == secret && later < t.requests[id].expires)
  {
    hide Prune, Evolves;
    var p, t := Prune(s, now), IssueCompletionSecret(s, now, id, Some(secret)).0;
    PruneInv(s, used, now);
    RewriteRequest(p, used, id, t.requests[id]);
    GoodInv(p, used, t);
    PrunedLookups(t, used, later);
  }

  lemma ConsumedSecret(s: State, used: set<string>, now: Time, id: string, secret: string, later: Time,
                       supplied: string)
    requires Inv(s, used) && ConsumeCompletionSecret(s, now, id, secret).1.Ok?
    ensures ConsumeCompletionSecret(ConsumeCompletionSecret(s, now, id, secret).0, later, id, supplied).1
      == Err(CompletionDenied)
  {
    hide Prune, Evolves;
    var p, t := Prune(s, now), ConsumeCompletionSecret(s, now, id, secret).0;
    PruneInv(s, used, now);
    RewriteRequest(p, used, id, t.requests[id]);
    GoodInv(p, used, t);
    PrunedLookups(t, used, later);
  }
}
