/** The invariant that links the store's five maps and `nextExpiry`, the two-state relation every step obeys, and
    the theorem that pruning lazily is filtering eagerly. */
module StoreInvariant {
  import opened Realm
  import opened StoreSpec

  /** A request has its code saved exactly when the code table holds that code for it. */
  ghost predicate RequestOK(s: State, id: string) {
    && id in s.requests && s.requests[id].expires > 0
    && if s.requests[id].codeSaved
       then s.requests[id].done && s.requests[id].code in s.codes && s.codes[s.requests[id].code].requestID == id
       else s.requests[id].code == ""
  }

  ghost predicate CodeOK(s: State, code: string) {
    && code in s.codes && s.codes[code].requestID in s.requests
    && s.requests[s.codes[code].requestID].codeSaved
    && s.requests[s.codes[code].requestID].code == code
    && s.codes[code].expires == s.requests[s.codes[code].requestID].expires
  }

  ghost predicate CodeLinks(s: State) {
    && (forall id {:trigger RequestOK(s, id)} | id in s.requests :: RequestOK(s, id))
    && (forall code {:trigger CodeOK(s, code)} | code in s.codes :: CodeOK(s, code))
  }

  /** A stored family is unrevoked and its index holds exactly the digest of its one unconsumed record. */
  ghost predicate FamilyOK(s: State, f: string) {
    && f in s.families && f != "" && s.families[f].expires > 0 && !s.families[f].revoked
    && |s.families[f].tokens| == 1 && s.families[f].tokens[0] in s.refresh
    && s.refresh[s.families[f].tokens[0]].familyID == f && !s.refresh[s.families[f].tokens[0]].consumed
  }

  ghost predicate RefreshOK(s: State, h: Digest) {
    && h in s.refresh && h.Sha256? && s.refresh[h].familyID in s.families
    && s.refresh[h].clientID == s.families[s.refresh[h].familyID].clientID
    && if s.refresh[h].consumed then s.refresh[h] == Consumed(s.refresh[h])
       else
         && s.families[s.refresh[h].familyID].tokens == [h]
         && s.refresh[h].subject == s.families[s.refresh[h].familyID].subject
         && (s.refresh[h].accessID in s.access ==> s.access[s.refresh[h].accessID].familyID == s.refresh[h].familyID)
  }

  ghost predicate FamilyLinks(s: State) {
    && (forall f {:trigger FamilyOK(s, f)} | f in s.families :: FamilyOK(s, f))
    && (forall h {:trigger RefreshOK(s, h)} | h in s.refresh :: RefreshOK(s, h))
  }

  /** An access record of a stored family is the one that the family's unconsumed refresh record names. */
  ghost predicate AccessOK(s: State, id: string) {
    && id in s.access && s.access[id].id == id && id != "" && s.access[id].expires > 0
    && (s.access[id].familyID in s.families ==>
          && s.access[id].subject == s.families[s.access[id].familyID].subject
          && s.access[id].clientID == s.families[s.access[id].familyID].clientID
          && |s.families[s.access[id].familyID].tokens| == 1
          && s.families[s.access[id].familyID].tokens[0] in s.refresh
          && s.refresh[s.families[s.access[id].familyID].tokens[0]].accessID == id)
  }

  ghost predicate Siblings(s: State, i: string, j: string) {
    i in s.access && j in s.access && s.access[i].familyID == s.access[j].familyID != ""
  }

  /** At most one access record carries a given family id, also after the family is gone. */
  ghost predicate AccessLinks(s: State) {
    && (forall id {:trigger AccessOK(s, id)} | id in s.access :: AccessOK(s, id))
    && (forall i, j {:trigger Siblings(s, i, j)} | Siblings(s, i, j) :: i == j)
  }

  /** Every stored time is at or after `nextExpiry`; zero means that nothing is stored. */
  ghost predicate ExpiryBound(s: State) {
    if s.nextExpiry == 0 then s.requests == map[] && s.codes == map[] && s.access == map[] && s.families == map[]
    else
      && (forall id | id in s.requests :: s.nextExpiry <= s.requests[id].expires)
      && (forall code | code in s.codes :: s.nextExpiry <= s.codes[code].expires)
      && (forall id | id in s.access :: s.nextExpiry <= s.access[id].expires)
      && (forall f | f in s.families :: s.nextExpiry <= s.families[f].expires)
  }

  /** Every random id or token the state mentions has been drawn before. */
  ghost predicate Known(s: State, used: set<string>) {
    && s.requests.Keys <= used && s.access.Keys <= used && s.families.Keys <= used
    && (forall id | id in s.access :: s.access[id].familyID == "" || s.access[id].familyID in used)
    && (forall h | h in s.refresh :: s.refresh[h].familyID in used && (h.Sha256? ==> h.preimage in used))
    && (forall h | h in s.refresh && !s.refresh[h].consumed :: s.refresh[h].accessID in used)
  }

  ghost predicate Inv(s: State, used: set<string>) {
    CodeLinks(s) && FamilyLinks(s) && AccessLinks(s) && ExpiryBound(s) && Known(s, used)
  }

  // ---- What a step may change ----

  ghost predicate RequestEvolves(r: Request, r': Request) {
    && r'.asked == r.asked && r'.clientID == r.clientID && r'.audience == r.audience
    && r'.created == r.created && r'.expires == r.expires
    && (r.done ==>
          && r'.done && r'.subject == r.subject && r'.scopes == r.scopes
          && r'.authTime == r.authTime && r'.amr == r.amr)
    && (r.codeSaved ==> r'.codeSaved && r'.code == r.code)
  }

  /** Stored requests evolve; others carry an id that had not been drawn. */
  ghost predicate RequestsEvolve(s: State, used: set<string>, s': State) {
    forall id | id in s'.requests ::
      if id in s.requests then RequestEvolves(s.requests[id], s'.requests[id]) else id !in used
  }

  /** A reservation stays, and the code of a request that had one saved is not reinstated. */
  ghost predicate CodesEvolve(s: State, s': State) {
    && (forall code | code in s'.codes && code in s.codes && s.codes[code].requestID == s'.codes[code].requestID ::
          s.codes[code].reserved ==> s'.codes[code].reserved)
    && (forall code | code in s'.codes && s'.codes[code].requestID in s.requests
                      && s.requests[s'.codes[code].requestID].codeSaved :: code in s.codes)
  }

  ghost predicate AccessEvolves(s: State, used: set<string>, s': State) {
    && (forall id | id in s'.access :: if id in s.access then s'.access[id] == s.access[id] else id !in used)
    && (forall id | id in s'.access && id !in s.access && s'.access[id].familyID != "" ::
          s'.access[id].familyID in s.families || s'.access[id].familyID !in used)
  }

  ghost predicate RefreshEvolves(s: State, used: set<string>, s': State) {
    forall h | h in s'.refresh ::
      if h in s.refresh
      then s'.refresh[h] == s.refresh[h] || s'.refresh[h] == Consumed(s.refresh[h])
      else h.Sha256? && h.preimage !in used
  }

  /** A stored family loses none of its refresh records, so that replays of any of them are recognised. */
  ghost predicate RefreshKept(s: State, s': State) {
    forall h | h in s.refresh && s.refresh[h].familyID in s'.families :: h in s'.refresh
  }

  ghost predicate FamiliesEvolve(s: State, used: set<string>, s': State) {
    forall f | f in s'.families ::
      if f in s.families then s'.families[f].(tokens := []) == s.families[f].(tokens := []) else f !in used
  }

  ghost predicate Evolves(s: State, used: set<string>, s': State) {
    RequestsEvolve(s, used, s') && CodesEvolve(s, s') && AccessEvolves(s, used, s') &&
    RefreshEvolves(s, used, s') && RefreshKept(s, s') && FamiliesEvolve(s, used, s')
  }

  lemma CodesEvolveTransitively(s: State, used: set<string>, s': State, used': set<string>, s'': State)
    requires CodeLinks(s) && CodeLinks(s') && CodeLinks(s'') && Known(s, used) && used <= used'
    requires CodesEvolve(s, s') && CodesEvolve(s', s'') && RequestsEvolve(s, used, s') && RequestsEvolve(s', used', s'')
    ensures CodesEvolve(s, s'')
  {
    forall code | code in s''.codes && s''.codes[code].requestID in s.requests
                  && s.requests[s''.codes[code].requestID].codeSaved
      ensures code in s.codes && code in s'.codes
      ensures s'.codes[code].requestID == s.codes[code].requestID == s''.codes[code].requestID
    {
      var id := s''.codes[code].requestID;
      assert CodeOK(s'', code) && RequestOK(s, id) && id in s'.requests && RequestOK(s', id);
      assert s''.requests[id].code == s'.requests[id].code == s.requests[id].code == code;
    }
    forall code | code in s''.codes && code in s.codes && s.codes[code].requestID == s''.codes[code].requestID
      ensures s.codes[code].reserved ==> s''.codes[code].reserved
    {
      assert CodeOK(s, code);
    }
  }

  lemma EvolvesTransitively(s: State, used: set<string>, s': State, used': set<string>, s'': State)
    requires CodeLinks(s) && CodeLinks(s') && CodeLinks(s'') && Known(s, used) && used <= used'
    requires Evolves(s, used, s') && Evolves(s', used', s'')
    ensures Evolves(s, used, s'')
  {
    CodesEvolveTransitively(s, used, s', used', s'');
  }

  lemma EvolvesReflexively(s: State, used: set<string>)
    requires FamilyLinks(s)
    ensures Evolves(s, used, s)
  {
  }

  // ---- Lazy pruning is eager filtering ----

  /** The reference: every expired record is gone, and so are the refresh records of expired families. */
  ghost function Eager(s: State, now: Time): State {
    State(
      map id | id in s.requests && now < s.requests[id].expires :: s.requests[id],
      map code | code in s.codes && now < s.codes[code].expires :: s.codes[code],
      map id | id in s.access && now < s.access[id].expires :: s.access[id],
      map h | h in s.refresh && s.refresh[h].familyID in s.families
              && now < s.families[s.refresh[h].familyID].expires :: s.refresh[h],
      map f | f in s.families && now < s.families[f].expires :: s.families[f],
      0)
  }

  ghost predicate SameRecords(s: State, t: State) {
    s.(nextExpiry := 0) == t.(nextExpiry := 0)
  }

  ghost predicate AllLive(s: State, now: Time) {
    && (forall id | id in s.requests :: now < s.requests[id].expires)
    && (forall code | code in s.codes :: now < s.codes[code].expires)
    && (forall id | id in s.access :: now < s.access[id].expires)
    && (forall f | f in s.families :: now < s.families[f].expires)
  }

  lemma ScanCodes(s: State, now: Time)
    requires CodeLinks(s)
    ensures Scan(s, now).codes == Eager(s, now).codes
  {
    forall code | code in s.codes
      ensures code in CodesOf(s.requests, ExpiredRequests(s.requests, now)) ==> s.codes[code].expires <= now
    {
      if code in CodesOf(s.requests, ExpiredRequests(s.requests, now)) {
        var id :| id in ExpiredRequests(s.requests, now) && s.requests[id].code == code && code != "";
        assert RequestOK(s, id) && CodeOK(s, code);
      }
    }
  }

  /** The two ways a refresh record goes are together the end of its family. */
  lemma ScannedRecord(s: State, now: Time, h: Digest)
    requires FamilyLinks(s) && h in s.refresh
    ensures s.refresh[h].familyID in s.families
    ensures h in DeadConsumed(s.refresh, s.families, now) || h in TokensOf(s.families, ExpiredFamilies(s.families, now))
       <==> s.families[s.refresh[h].familyID].expires <= now
  {
    var f := s.refresh[h].familyID;
    assert RefreshOK(s, h);
    assert !s.refresh[h].consumed ==> h in s.families[f].tokens by {
      assert !s.refresh[h].consumed ==> s.families[f].tokens == [h];
    }
    if h in TokensOf(s.families, ExpiredFamilies(s.families, now)) {
      var g :| g in ExpiredFamilies(s.families, now) && h in s.families[g].tokens;
      assert FamilyOK(s, g);
    }
  }

  lemma ScanRefresh(s: State, now: Time)
    requires FamilyLinks(s)
    ensures Scan(s, now).refresh == Eager(s, now).refresh
  {
    hide DeadConsumed, TokensOf, FamilyLinks, Expiries, IsEarliest;
    forall h | h in s.refresh
      ensures s.refresh[h].familyID in s.families
      ensures h in Scan(s, now).refresh <==> now < s.families[s.refresh[h].familyID].expires
    {
      ScannedRecord(s, now, h);
    }
  }

  lemma ScanOthers(s: State, now: Time)
    ensures Scan(s, now).requests == Eager(s, now).requests
    ensures Scan(s, now).access == Eager(s, now).access
    ensures Scan(s, now).families == Eager(s, now).families
  {
  }

  lemma NothingExpired(s: State, now: Time)
    requires AllLive(s, now)
    ensures s.requests == Eager(s, now).requests && s.codes == Eager(s, now).codes
    ensures s.access == Eager(s, now).access && s.families == Eager(s, now).families
  {
  }

  lemma RefreshOutlivesNobody(s: State, now: Time)
    requires FamilyLinks(s) && forall f | f in s.families :: now < s.families[f].expires
    ensures s.refresh == Eager(s, now).refresh
  {
    forall h | h in s.refresh
      ensures h in Eager(s, now).refresh
    {
      assert RefreshOK(s, h);
    }
  }

  /** In every state the invariant allows, `pruneLocked` leaves exactly what the eager filter leaves,
      whether or not it takes its early return. */
  lemma PruneIsEager(s: State, used: set<string>, now: Time)
    requires Inv(s, used)
    ensures SameRecords(Prune(s, now), Eager(s, now))
  {
    if s.nextExpiry != 0 && now < s.nextExpiry {
      RefreshOutlivesNobody(s, now);
      NothingExpired(s, now);
    } else {
      ScanCodes(s, now);
      ScanRefresh(s, now);
      ScanOthers(s, now);
    }
  }

  lemma EagerCodeLinks(s: State, now: Time)
    requires CodeLinks(s)
    ensures CodeLinks(Eager(s, now))
  {
    var t := Eager(s, now);
    forall id | id in t.requests ensures RequestOK(t, id) {
      assert RequestOK(s, id);
      if s.requests[id].codeSaved { assert CodeOK(s, s.requests[id].code); }
    }
    forall code | code in t.codes ensures CodeOK(t, code) {
      assert CodeOK(s, code);
    }
  }

  lemma EagerFamilyLinks(s: State, now: Time)
    requires FamilyLinks(s) && AccessLinks(s)
    ensures FamilyLinks(Eager(s, now)) && AccessLinks(Eager(s, now))
  {
    var t := Eager(s, now);
    forall f | f in t.families ensures FamilyOK(t, f) {
      assert FamilyOK(s, f);
    }
    forall h | h in t.refresh ensures RefreshOK(t, h) {
      assert RefreshOK(s, h);
    }
    forall id | id in t.access ensures AccessOK(t, id) {
      assert AccessOK(s, id);
      if t.access[id].familyID in t.families { assert FamilyOK(s, s.access[id].familyID); }
    }
    forall i, j | Siblings(t, i, j) ensures i == j {
      assert Siblings(s, i, j);
    }
  }

  lemma EagerEvolves(s: State, used: set<string>, now: Time)
    ensures Evolves(s, used, Eager(s, now))
    ensures Known(s, used) ==> Known(Eager(s, now), used)
    ensures AllLive(Eager(s, now), now)
  {
  }

  lemma ScanBound(s: State, now: Time)
    requires CodeLinks(Scan(s, now)) && FamilyLinks(Scan(s, now)) && AccessLinks(Scan(s, now))
    ensures ExpiryBound(Scan(s, now))
  {
    var s' := Scan(s, now);
    assert Expiries(s'.(nextExpiry := 0)) == Expiries(s');
    forall id | id in s'.requests ensures s'.requests[id].expires in Expiries(s') && s'.requests[id].expires != 0 {
      assert RequestOK(s', id);
    }
    forall code | code in s'.codes ensures s'.codes[code].expires in Expiries(s') && s'.codes[code].expires != 0 {
      assert CodeOK(s', code) && RequestOK(s', s'.codes[code].requestID);
    }
    forall id | id in s'.access ensures s'.access[id].expires in Expiries(s') && s'.access[id].expires != 0 {
      assert AccessOK(s', id);
    }
    forall f | f in s'.families ensures s'.families[f].expires in Expiries(s') && s'.families[f].expires != 0 {
      assert FamilyOK(s', f);
    }
    assert IsEarliest(Expiries(s'), s'.nextExpiry);
  }

  /** The links between records do not read `nextExpiry`. */
  lemma NextExpiryIrrelevant(s: State, t: State)
    requires SameRecords(s, t)
    ensures CodeLinks(s) ==> CodeLinks(t)
    ensures FamilyLinks(s) ==> FamilyLinks(t)
    ensures AccessLinks(s) ==> AccessLinks(t)
  {
    if CodeLinks(s) {
      forall id | id in t.requests ensures RequestOK(t, id) { assert RequestOK(s, id); }
      forall code | code in t.codes ensures CodeOK(t, code) { assert CodeOK(s, code); }
    }
    if FamilyLinks(s) {
      forall f | f in t.families ensures FamilyOK(t, f) { assert FamilyOK(s, f); }
      forall h | h in t.refresh ensures RefreshOK(t, h) { assert RefreshOK(s, h); }
    }
    if AccessLinks(s) {
      forall id | id in t.access ensures AccessOK(t, id) { assert AccessOK(s, id); }
      forall i, j | Siblings(t, i, j) ensures i == j { assert Siblings(s, i, j); }
    }
  }

  lemma PruneBound(s: State, now: Time)
    requires ExpiryBound(s)
    requires CodeLinks(Prune(s, now)) && FamilyLinks(Prune(s, now)) && AccessLinks(Prune(s, now))
    ensures ExpiryBound(Prune(s, now))
  {
    if s.nextExpiry == 0 || s.nextExpiry <= now {
      ScanBound(s, now);
    }
  }

  /** Neither do the rest of the invariant, but for the bound itself, and the two-state relation. */
  lemma NextExpiryUnrelated(s: State, used: set<string>, t: State, next: Time, now: Time)
    requires Known(t, used) && Evolves(s, used, t) && AllLive(t, now)
    ensures var u := t.(nextExpiry := next); Known(u, used) && Evolves(s, used, u) && AllLive(u, now)
  {
  }

  lemma PruneInv(s: State, used: set<string>, now: Time)
    requires Inv(s, used)
    ensures Inv(Prune(s, now), used) && Evolves(s, used, Prune(s, now)) && AllLive(Prune(s, now), now)
  {
    hide Prune, Eager, CodeLinks, FamilyLinks, AccessLinks, ExpiryBound, Known, Evolves, AllLive;
    var p := Prune(s, now);
    PruneIsEager(s, used, now);
    EagerCodeLinks(s, now);
    EagerFamilyLinks(s, now);
    EagerEvolves(s, used, now);
    NextExpiryIrrelevant(Eager(s, now), p);
    NextExpiryUnrelated(s, used, Eager(s, now), p.nextExpiry, now);
    assert p == Eager(s, now).(nextExpiry := p.nextExpiry);
    PruneBound(s, now);
  }
}
