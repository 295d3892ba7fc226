/** Every primitive change of the store keeps the invariant and is allowed by `Evolves`. */
module StoreSteps {
  import opened Realm
  import opened StoreSpec
  import opened StoreInvariant

  /** `s'` is a good successor of `s` once the ids in `drawn` have been drawn. */
  ghost predicate Good(s: State, used: set<string>, s': State, drawn: set<string>) {
    Inv(s', used + drawn) && Evolves(s, used, s')
  }

  /** The token records' links and evolution do not read requests, codes or `nextExpiry`. */
  lemma SameTokens(p: State, used: set<string>, s: State)
    requires s.access == p.access && s.refresh == p.refresh && s.families == p.families
    requires FamilyLinks(p) && AccessLinks(p)
    ensures FamilyLinks(s) && AccessLinks(s)
    ensures AccessEvolves(p, used, s) && RefreshEvolves(p, used, s) && RefreshKept(p, s) && FamiliesEvolve(p, used, s)
  {
    var q := p.(requests := s.requests, codes := s.codes);
    forall f | f in q.families ensures FamilyOK(q, f) { assert FamilyOK(p, f); }
    forall h | h in q.refresh ensures RefreshOK(q, h) { assert RefreshOK(p, h); }
    forall id | id in q.access ensures AccessOK(q, id) { assert AccessOK(p, id); }
    forall i, j | Siblings(q, i, j) ensures i == j { assert Siblings(p, i, j); }
    NextExpiryIrrelevant(q, s);
  }

  /** The links between requests and codes, and their evolution, do not read anything else. */
  lemma SameCodes(p: State, used: set<string>, s: State)
    requires s.requests == p.requests && s.codes == p.codes && CodeLinks(p)
    ensures CodeLinks(s) && RequestsEvolve(p, used, s) && CodesEvolve(p, s)
  {
    forall id | id in s.requests ensures RequestOK(s, id) { assert RequestOK(p, id); }
    forall code | code in s.codes ensures CodeOK(s, code) { assert CodeOK(p, code); }
  }

  lemma InsertedLinks(p: State, used: set<string>, id: string, request: Request, s: State)
    requires CodeLinks(p) && Known(p, used) && id !in used && s.codes == p.codes
      && s.requests == p.requests[id := request]
    requires !request.codeSaved && request.code == "" && request.expires > 0
    ensures CodeLinks(s) && RequestsEvolve(p, used, s) && CodesEvolve(p, s)
  {
    forall i | i in s.requests ensures RequestOK(s, i) { if i != id { assert RequestOK(p, i); } }
    forall code | code in s.codes ensures CodeOK(s, code) { assert CodeOK(p, code); }
  }

  lemma InsertedTimes(p: State, used: set<string>, id: string, request: Request)
    requires ExpiryBound(p) && Known(p, used) && request.expires > 0
    ensures var s := Scheduled(p.(requests := p.requests[id := request]), request.expires);
      ExpiryBound(s) && Known(s, used + {id})
  {
  }

  lemma InsertRequest(p: State, used: set<string>, id: string, request: Request)
    requires Inv(p, used) && id !in used
    requires !request.codeSaved && request.code == "" && request.expires > 0
    ensures Good(p, used, Scheduled(p.(requests := p.requests[id := request]), request.expires), {id})
  {
    hide CodeLinks, RequestsEvolve, CodesEvolve, FamilyLinks, AccessLinks, AccessEvolves, RefreshEvolves;
    hide RefreshKept, FamiliesEvolve, ExpiryBound, Known;
    var s := Scheduled(p.(requests := p.requests[id := request]), request.expires);
    InsertedTimes(p, used, id, request);
    InsertedLinks(p, used, id, request, s);
    SameTokens(p, used, s);
  }

  lemma RewrittenLinks(p: State, used: set<string>, id: string, request: Request)
    requires CodeLinks(p) && id in p.requests && RequestEvolves(p.requests[id], request)
    requires request.code == p.requests[id].code && request.codeSaved == p.requests[id].codeSaved
    ensures var s := p.(requests := p.requests[id := request]);
      CodeLinks(s) && RequestsEvolve(p, used, s) && CodesEvolve(p, s)
  {
    var s := p.(requests := p.requests[id := request]);
    forall i | i in s.requests ensures RequestOK(s, i) { assert RequestOK(p, i); }
    forall code | code in s.codes ensures CodeOK(s, code) { assert CodeOK(p, code); }
  }

  lemma RewrittenTimes(p: State, used: set<string>, id: string, request: Request)
    requires ExpiryBound(p) && Known(p, used) && id in p.requests && request.expires == p.requests[id].expires
    ensures var s := p.(requests := p.requests[id := request]); ExpiryBound(s) && Known(s, used)
  {
  }

  /** Login and completion secrets rewrite one request without touching its code. */
  lemma RewriteRequest(p: State, used: set<string>, id: string, request: Request)
    requires Inv(p, used) && id in p.requests
    requires RequestEvolves(p.requests[id], request)
    requires request.code == p.requests[id].code && request.codeSaved == p.requests[id].codeSaved
    ensures Good(p, used, p.(requests := p.requests[id := request]), {})
  {
    hide CodeLinks, RequestsEvolve, CodesEvolve, FamilyLinks, AccessLinks, AccessEvolves, RefreshEvolves;
    hide RefreshKept, FamiliesEvolve, ExpiryBound, Known;
    var s := p.(requests := p.requests[id := request]);
    RewrittenLinks(p, used, id, request);
    RewrittenTimes(p, used, id, request);
    SameTokens(p, used, s);
    assert used + {} == used;
  }

  function WithCode(p: State, id: string, code: string): State
    requires id in p.requests
  {
    Scheduled(p.(requests := p.requests[id := p.requests[id].(codeSaved := true, code := code)],
                 codes := p.codes[code := Code(id, p.requests[id].expires, false)]), p.requests[id].expires)
  }

  lemma SavedLinks(p: State, used: set<string>, id: string, code: string)
    requires CodeLinks(p) && id in p.requests && p.requests[id].done && !p.requests[id].codeSaved && code !in p.codes
    ensures CodeLinks(WithCode(p, id, code))
    ensures RequestsEvolve(p, used, WithCode(p, id, code)) && CodesEvolve(p, WithCode(p, id, code))
  {
    var s := WithCode(p, id, code);
    assert RequestOK(p, id);
    forall i | i in s.requests ensures RequestOK(s, i) { assert RequestOK(p, i); }
    forall c | c in s.codes ensures CodeOK(s, c) { if c != code { assert CodeOK(p, c); } }
  }

  lemma SavedTimes(p: State, used: set<string>, id: string, code: string)
    requires ExpiryBound(p) && Known(p, used) && id in p.requests && p.requests[id].expires > 0
    ensures ExpiryBound(WithCode(p, id, code)) && Known(WithCode(p, id, code), used)
  {
  }

  lemma SaveCode(p: State, used: set<string>, id: string, code: string)
    requires Inv(p, used) && id in p.requests && p.requests[id].done && !p.requests[id].codeSaved && code !in p.codes
    ensures Good(p, used, WithCode(p, id, code), {})
  {
    hide CodeLinks, RequestsEvolve, CodesEvolve, FamilyLinks, AccessLinks, AccessEvolves, RefreshEvolves;
    hide RefreshKept, FamiliesEvolve, ExpiryBound, Known;
    PositiveExpiry(p, id);
    SavedLinks(p, used, id, code);
    SavedTimes(p, used, id, code);
    SameTokens(p, used, WithCode(p, id, code));
    assert used + {} == used;
  }

  lemma PositiveExpiry(p: State, id: string)
    requires CodeLinks(p) && id in p.requests
    ensures p.requests[id].expires > 0
  {
    assert RequestOK(p, id);
  }

  lemma DeletedLinks(p: State, used: set<string>, id: string)
    requires CodeLinks(p) && id in p.requests && p.requests[id].codeSaved
    ensures var s := p.(requests := p.requests - {id}, codes := p.codes - {p.requests[id].code});
      CodeLinks(s) && RequestsEvolve(p, used, s) && CodesEvolve(p, s)
  {
    var s := p.(requests := p.requests - {id}, codes := p.codes - {p.requests[id].code});
    assert RequestOK(p, id);
    forall i | i in s.requests ensures RequestOK(s, i) { assert RequestOK(p, i); }
    forall c | c in s.codes ensures CodeOK(s, c) { assert CodeOK(p, c); }
  }

  lemma DeletedTimes(p: State, used: set<string>, id: string)
    requires ExpiryBound(p) && Known(p, used) && id in p.requests
    ensures var s := p.(requests := p.requests - {id}, codes := p.codes - {p.requests[id].code});
      ExpiryBound(s) && Known(s, used)
  {
  }

  lemma DeleteRequest(p: State, used: set<string>, id: string)
    requires Inv(p, used) && id in p.requests && p.requests[id].codeSaved
    ensures Good(p, used, p.(requests := p.requests - {id}, codes := p.codes - {p.requests[id].code}), {})
  {
    hide CodeLinks, RequestsEvolve, CodesEvolve, FamilyLinks, AccessLinks, AccessEvolves, RefreshEvolves;
    hide RefreshKept, FamiliesEvolve, ExpiryBound, Known;
    var s := p.(requests := p.requests - {id}, codes := p.codes - {p.requests[id].code});
    DeletedLinks(p, used, id);
    DeletedTimes(p, used, id);
    SameTokens(p, used, s);
    assert used + {} == used;
  }

  lemma ReservedLinks(p: State, used: set<string>, request: TokenRequest)
    requires CodeLinks(p) && Reserve(p, request).Ok?
    ensures var s := Reserve(p, request).value; CodeLinks(s) && RequestsEvolve(p, used, s) && CodesEvolve(p, s)
  {
    var s := Reserve(p, request).value;
    forall i | i in s.requests ensures RequestOK(s, i) { assert RequestOK(p, i); }
    forall c | c in s.codes ensures CodeOK(s, c) { assert CodeOK(p, c); }
  }

  lemma ReservedTimes(p: State, used: set<string>, request: TokenRequest)
    requires ExpiryBound(p) && Known(p, used) && Reserve(p, request).Ok?
    ensures var s := Reserve(p, request).value;
      && ExpiryBound(s) && Known(s, used)
      && s.access == p.access && s.refresh == p.refresh && s.families == p.families
  {
  }

  lemma ReserveCode(p: State, used: set<string>, request: TokenRequest)
    requires Inv(p, used) && Reserve(p, request).Ok?
    ensures Good(p, used, Reserve(p, request).value, {})
  {
    hide CodeLinks, RequestsEvolve, CodesEvolve, FamilyLinks, AccessLinks, AccessEvolves, RefreshEvolves;
    hide RefreshKept, FamiliesEvolve, ExpiryBound, Known;
    hide Reserve;
    ReservedLinks(p, used, request);
    ReservedTimes(p, used, request);
    SameTokens(p, used, Reserve(p, request).value);
    assert used + {} == used;
  }

  lemma AddAccessLinks(p: State, used: set<string>, s: State, record: Access)
    requires FamilyLinks(p) && AccessLinks(p) && Known(p, used)
    requires record.id !in used && record.id != "" && record.expires > 0 && record.familyID == ""
    requires s.access == p.access[record.id := record] && s.refresh == p.refresh && s.families == p.families
    ensures FamilyLinks(s) && AccessLinks(s)
    ensures AccessEvolves(p, used, s) && RefreshEvolves(p, used, s) && RefreshKept(p, s) && FamiliesEvolve(p, used, s)
  {
    assert FamilyLinks(s) by {
      forall f | f in s.families ensures FamilyOK(s, f) { assert FamilyOK(p, f); }
      forall h | h in s.refresh ensures RefreshOK(s, h) { assert RefreshOK(p, h); }
    }
    assert AccessLinks(s) by {
      assert "" in p.families ==> FamilyOK(p, "");
      forall id | id in s.access ensures AccessOK(s, id) { if id != record.id { assert AccessOK(p, id); } }
      forall i, j | Siblings(s, i, j) ensures i == j { assert Siblings(p, i, j); }
    }
  }

  lemma AddAccessTimes(p: State, used: set<string>, record: Access)
    requires ExpiryBound(p) && Known(p, used) && record.expires > 0 && record.familyID == ""
    ensures var s := Scheduled(p.(access := p.access[record.id := record]), record.expires);
      ExpiryBound(s) && Known(s, used + {record.id})
  {
  }

  lemma AddAccess(p: State, used: set<string>, record: Access)
    requires Inv(p, used) && record.id !in used && record.id != "" && record.expires > 0 && record.familyID == ""
    ensures Good(p, used, Scheduled(p.(access := p.access[record.id := record]), record.expires), {record.id})
  {
    hide CodeLinks, RequestsEvolve, CodesEvolve, FamilyLinks, AccessLinks, AccessEvolves, RefreshEvolves;
    hide RefreshKept, FamiliesEvolve, ExpiryBound, Known;
    var s := Scheduled(p.(access := p.access[record.id := record]), record.expires);
    SameCodes(p, used, s);
    AddAccessLinks(p, used, s, record);
    AddAccessTimes(p, used, record);
  }

  lemma DroppedLinks(p: State, ids: set<string>)
    requires FamilyLinks(p) && AccessLinks(p)
    ensures FamilyLinks(p.(access := p.access - ids)) && AccessLinks(p.(access := p.access - ids))
  {
    var s := p.(access := p.access - ids);
    forall f | f in s.families ensures FamilyOK(s, f) { assert FamilyOK(p, f); }
    forall h | h in s.refresh ensures RefreshOK(s, h) { assert RefreshOK(p, h); }
    forall id | id in s.access ensures AccessOK(s, id) { assert AccessOK(p, id); }
    forall i, j | Siblings(s, i, j) ensures i == j { assert Siblings(p, i, j); }
  }

  lemma DroppedTimes(p: State, used: set<string>, ids: set<string>)
    requires ExpiryBound(p) && Known(p, used)
    ensures var s := p.(access := p.access - ids);
      && ExpiryBound(s) && Known(s, used)
      && AccessEvolves(p, used, s) && RefreshEvolves(p, used, s) && RefreshKept(p, s) && FamiliesEvolve(p, used, s)
  {
  }

  lemma DropAccess(p: State, used: set<string>, ids: set<string>)
    requires Inv(p, used)
    ensures Good(p, used, p.(access := p.access - ids), {})
  {
    hide CodeLinks, RequestsEvolve, CodesEvolve, FamilyLinks, AccessLinks, AccessEvolves, RefreshEvolves;
    hide RefreshKept, FamiliesEvolve, ExpiryBound, Known;
    SameCodes(p, used, p.(access := p.access - ids));
    DroppedLinks(p, ids);
    DroppedTimes(p, used, ids);
    assert used + {} == used;
  }

  /** The reference for revocation: every record of the given families is gone and nothing else is. */
  ghost function Without(s: State, ids: set<string>): State {
    s.(access := map id | id in s.access && s.access[id].familyID !in ids :: s.access[id],
       refresh := map h | h in s.refresh && s.refresh[h].familyID !in ids :: s.refresh[h],
       families := map f | f in s.families && f !in ids :: s.families[f])
  }

  /** Revoking stored families erases exactly their records, although the code finds access records only
      through the unconsumed refresh record. */
  lemma RevokeErases(p: State, used: set<string>, ids: set<string>)
    requires Inv(p, used)
    ensures Revoke(p, ids) == Without(p, ids * p.families.Keys)
  {
    var stored := ids * p.families.Keys;
    forall id | id in p.access
      ensures id in AccessOf(p.refresh, stored) <==> p.access[id].familyID in stored
    {
      var f := p.access[id].familyID;
      assert AccessOK(p, id);
      if f in stored {
        assert FamilyOK(p, f);
        assert p.families[f].tokens[0] in p.refresh;
      }
      if id in AccessOf(p.refresh, stored) {
        var h :| h in p.refresh && p.refresh[h].familyID in stored && !p.refresh[h].consumed
          && p.refresh[h].accessID == id;
        assert RefreshOK(p, h);
      }
    }
    assert Revoke(p, ids).access == Without(p, stored).access;
    assert Revoke(p, ids).refresh == Without(p, stored).refresh;
    assert Revoke(p, ids).families == Without(p, stored).families;
  }

  lemma EraseLinks(p: State, ids: set<string>)
    requires FamilyLinks(p) && AccessLinks(p) && ids <= p.families.Keys
    ensures FamilyLinks(Without(p, ids)) && AccessLinks(Without(p, ids))
  {
    var s := Without(p, ids);
    forall f | f in s.families ensures FamilyOK(s, f) { assert FamilyOK(p, f); }
    forall h | h in s.refresh ensures RefreshOK(s, h) { assert RefreshOK(p, h); }
    forall id | id in s.access ensures AccessOK(s, id) {
      assert AccessOK(p, id);
      if p.access[id].familyID in p.families { assert FamilyOK(p, p.access[id].familyID); }
    }
    forall i, j | Siblings(s, i, j) ensures i == j { assert Siblings(p, i, j); }
  }

  lemma EraseTimes(p: State, used: set<string>, ids: set<string>)
    requires ExpiryBound(p) && Known(p, used)
    ensures var s := Without(p, ids);
      && ExpiryBound(s) && Known(s, used) && s.requests == p.requests && s.codes == p.codes
      && AccessEvolves(p, used, s) && RefreshEvolves(p, used, s) && RefreshKept(p, s) && FamiliesEvolve(p, used, s)
  {
  }

  lemma EraseFamilies(p: State, used: set<string>, ids: set<string>)
    requires Inv(p, used) && ids <= p.families.Keys
    ensures Good(p, used, Without(p, ids), {})
  {
    hide CodeLinks, RequestsEvolve, CodesEvolve, FamilyLinks, AccessLinks, AccessEvolves, RefreshEvolves;
    hide RefreshKept, FamiliesEvolve, ExpiryBound, Known;
    hide Without;
    EraseTimes(p, used, ids);
    SameCodes(p, used, Without(p, ids));
    EraseLinks(p, ids);
    assert used + {} == used;
  }

  lemma RevokeFamilies(p: State, used: set<string>, ids: set<string>)
    requires Inv(p, used)
    ensures Good(p, used, Revoke(p, ids), {})
  {
    RevokeErases(p, used, ids);
    EraseFamilies(p, used, ids * p.families.Keys);
  }

  // ---- Issuing a pair ----

  /** The family `f` is stored without any refresh or access record: the moment between the two halves of
      `CreateAccessAndRefreshTokens`, after the old pair went and before the new one is in. */
  ghost predicate Open(q: State, used: set<string>, f: string) {
    && f in q.families && f != "" && !q.families[f].revoked && q.families[f].expires > 0 && q.families[f].tokens == []
    && CodeLinks(q) && ExpiryBound(q) && Known(q, used)
    && (forall g {:trigger FamilyOK(q, g)} | g in q.families && g != f :: FamilyOK(q, g))
    && (forall h {:trigger RefreshOK(q, h)} | h in q.refresh && q.refresh[h].familyID != f :: RefreshOK(q, h))
    && (forall h | h in q.refresh && q.refresh[h].familyID == f ::
          h.Sha256? && q.refresh[h] == Consumed(q.refresh[h]) && q.refresh[h].clientID == q.families[f].clientID)
    && (forall id {:trigger AccessOK(q, id)} | id in q.access :: q.access[id].familyID != f && AccessOK(q, id))
    && (forall i, j {:trigger Siblings(q, i, j)} | Siblings(q, i, j) :: i == j)
  }

  lemma OpenNewLinks(p: State, used: set<string>, f: string, q: State)
    requires FamilyLinks(p) && AccessLinks(p) && Known(p, used) && f !in used && f != ""
    requires q.refresh == p.refresh && q.access == p.access && f in q.families
    requires forall g | g in q.families && g != f :: g in p.families && q.families[g] == p.families[g]
    requires p.families.Keys <= q.families.Keys
    ensures forall g {:trigger FamilyOK(q, g)} | g in q.families && g != f :: FamilyOK(q, g)
    ensures forall h {:trigger RefreshOK(q, h)} | h in q.refresh :: RefreshOK(q, h)
    ensures forall h | h in q.refresh :: q.refresh[h].familyID != f
    ensures forall id {:trigger AccessOK(q, id)} | id in q.access :: q.access[id].familyID != f && AccessOK(q, id)
    ensures forall i, j {:trigger Siblings(q, i, j)} | Siblings(q, i, j) :: i == j
  {
    forall g | g in q.families && g != f ensures FamilyOK(q, g) { assert FamilyOK(p, g); }
    forall h | h in q.refresh ensures RefreshOK(q, h) && q.refresh[h].familyID != f { assert RefreshOK(p, h); }
    forall id | id in q.access ensures q.access[id].familyID != f && AccessOK(q, id) { assert AccessOK(p, id); }
    forall i, j | Siblings(q, i, j) ensures i == j { assert Siblings(p, i, j); }
  }

  lemma KnownFamily(s: State, used: set<string>, f: string)
    requires Known(s, used)
    ensures f in s.families ==> f in used
  {
  }

  lemma OpenNewTimes(p: State, used: set<string>, f: string, family: Family)
    requires ExpiryBound(p) && Known(p, used) && f !in used && family.expires > 0
    ensures var q := Scheduled(p.(families := p.families[f := family]), family.expires);
      && ExpiryBound(q) && Known(q, used + {f})
      && AccessEvolves(p, used, q) && RefreshEvolves(p, used, q) && RefreshKept(p, q) && FamiliesEvolve(p, used, q)
  {
  }

  lemma OpenNew(p: State, used: set<string>, f: string, family: Family)
    requires Inv(p, used) && f !in used && f != ""
    requires !family.revoked && family.expires > 0 && family.tokens == []
    ensures var q := Scheduled(p.(families := p.families[f := family]), family.expires);
      Open(q, used + {f}, f) && Evolves(p, used, q)
  {
    hide CodeLinks, RequestsEvolve, CodesEvolve, FamilyLinks, AccessLinks, AccessEvolves, RefreshEvolves;
    hide RefreshKept, FamiliesEvolve, ExpiryBound, Known;
    hide FamilyOK, RefreshOK, AccessOK, Siblings;
    var q := Scheduled(p.(families := p.families[f := family]), family.expires);
    SameCodes(p, used, q);
    KnownFamily(p, used, f);
    OpenNewLinks(p, used, f, q);
    OpenNewTimes(p, used, f, family);
  }

  lemma RotationLinks(p: State, current: Digest, f: string)
    requires FamilyLinks(p) && AccessLinks(p) && current in p.refresh && !p.refresh[current].consumed
    requires f == p.refresh[current].familyID && f in p.families
    ensures var q := Rotate(p, current);
      && f in q.families && q.families[f].tokens == []
      && (forall g {:trigger FamilyOK(q, g)} | g in q.families && g != f :: FamilyOK(q, g))
      && (forall h {:trigger RefreshOK(q, h)} | h in q.refresh && q.refresh[h].familyID != f :: RefreshOK(q, h))
      && (forall h | h in q.refresh && q.refresh[h].familyID == f ::
            h.Sha256? && q.refresh[h] == Consumed(q.refresh[h]) && q.refresh[h].clientID == q.families[f].clientID)
  {
    var q := Rotate(p, current);
    assert FamilyOK(p, f) && RefreshOK(p, current);
    assert Compact([current], q.refresh) == [] by { assert [current][..0] == []; }
    forall g | g in q.families && g != f ensures FamilyOK(q, g) { assert FamilyOK(p, g); }
    forall h | h in q.refresh
      ensures q.refresh[h].familyID != f ==> RefreshOK(q, h)
      ensures q.refresh[h].familyID == f ==>
        h.Sha256? && q.refresh[h] == Consumed(q.refresh[h]) && q.refresh[h].clientID == q.families[f].clientID
    {
      assert RefreshOK(p, h);
    }
  }

  lemma RotationAccess(p: State, current: Digest, f: string)
    requires FamilyLinks(p) && AccessLinks(p) && current in p.refresh && !p.refresh[current].consumed
    requires f == p.refresh[current].familyID && f in p.families
    ensures var q := Rotate(p, current);
      && (forall id {:trigger AccessOK(q, id)} | id in q.access :: q.access[id].familyID != f && AccessOK(q, id))
      && (forall i, j {:trigger Siblings(q, i, j)} | Siblings(q, i, j) :: i == j)
  {
    var q := Rotate(p, current);
    assert FamilyOK(p, f) && RefreshOK(p, current);
    forall id | id in q.access ensures q.access[id].familyID != f && AccessOK(q, id) {
      assert AccessOK(p, id);
      if p.access[id].familyID in p.families { assert FamilyOK(p, p.access[id].familyID); }
    }
    forall i, j | Siblings(q, i, j) ensures i == j { assert Siblings(p, i, j); }
  }

  lemma RotationEvolves(p: State, used: set<string>, current: Digest)
    requires Known(p, used) && current in p.refresh && p.refresh[current].familyID in p.families
    ensures var q := Rotate(p, current);
      && Known(q, used) && AccessEvolves(p, used, q) && RefreshEvolves(p, used, q)
      && RefreshKept(p, q) && FamiliesEvolve(p, used, q)
  {
  }

  lemma RotationBound(p: State, current: Digest)
    requires ExpiryBound(p) && current in p.refresh && p.refresh[current].familyID in p.families
    ensures ExpiryBound(Rotate(p, current))
  {
  }

  lemma FamilyOfLive(p: State, current: Digest)
    requires FamilyLinks(p) && current in p.refresh && !p.refresh[current].consumed
    ensures var f := p.refresh[current].familyID;
      f in p.families && f != "" && !p.families[f].revoked && p.families[f].expires > 0
  {
    assert RefreshOK(p, current);
    assert FamilyOK(p, p.refresh[current].familyID);
  }

  /** What a rotation leaves as it is. */
  lemma RotationFields(p: State, current: Digest)
    requires current in p.refresh && p.refresh[current].familyID in p.families
    ensures var q := Rotate(p, current);
      && q.requests == p.requests && q.codes == p.codes && q.families.Keys == p.families.Keys
      && forall f | f in p.families :: q.families[f] == p.families[f].(tokens := q.families[f].tokens)
  {
  }

  lemma OpenByRotation(p: State, used: set<string>, current: Digest)
    requires Inv(p, used) && current in p.refresh && !p.refresh[current].consumed
    ensures p.refresh[current].familyID in p.families
    ensures Open(Rotate(p, current), used, p.refresh[current].familyID) && Evolves(p, used, Rotate(p, current))
  {
    hide CodeLinks, RequestsEvolve, CodesEvolve, AccessEvolves, RefreshEvolves, RefreshKept, FamiliesEvolve, Known;
    hide ExpiryBound, FamilyLinks, AccessLinks, Rotate, FamilyOK, RefreshOK, AccessOK, Siblings, Consumed;
    var f := p.refresh[current].familyID;
    FamilyOfLive(p, current);
    RotationFields(p, current);
    RotationBound(p, current);
    RotationLinks(p, current, f);
    RotationAccess(p, current, f);
    RotationEvolves(p, used, current);
    SameCodes(p, used, Rotate(p, current));
  }

  lemma PairLinks(cfg: Settings, q: State, used: set<string>, now: Time, info: Info, f: string,
                  accessID: string, token: string)
    requires Open(q, used, f)
    requires accessID !in used && token !in used && accessID != "" && accessID != token
    requires info.clientID == q.families[f].clientID && info.subject == q.families[f].subject
    ensures FamilyLinks(AddPair(cfg, q, now, info, f, accessID, token))
  {
    var s := AddPair(cfg, q, now, info, f, accessID, token);
    forall g | g in s.families ensures FamilyOK(s, g) { if g != f { assert FamilyOK(q, g); } }
    forall h | h in s.refresh ensures RefreshOK(s, h) {
      if h != Sha256(token) && q.refresh[h].familyID != f { assert RefreshOK(q, h); }
    }
  }

  lemma PairAccess(cfg: Settings, q: State, used: set<string>, now: Time, info: Info, f: string,
                   accessID: string, token: string)
    requires Open(q, used, f) && cfg.accessTTL > 0
    requires accessID !in used && token !in used && accessID != "" && accessID != token
    requires info.clientID == q.families[f].clientID && info.subject == q.families[f].subject
    ensures AccessLinks(AddPair(cfg, q, now, info, f, accessID, token))
  {
    var s := AddPair(cfg, q, now, info, f, accessID, token);
    forall id | id in s.access ensures AccessOK(s, id) {
      if id != accessID {
        assert AccessOK(q, id);
        if q.access[id].familyID in q.families { assert FamilyOK(q, q.access[id].familyID); }
      }
    }
    forall i, j | Siblings(s, i, j) ensures i == j {
      assert i in q.access ==> AccessOK(q, i);
      assert j in q.access ==> AccessOK(q, j);
      assert i in q.access && j in q.access && i != accessID && j != accessID ==> Siblings(q, i, j);
    }
  }

  lemma PairBound(cfg: Settings, q: State, now: Time, info: Info, f: string, accessID: string, token: string)
    requires f in q.families && ExpiryBound(q) && cfg.accessTTL > 0
    ensures ExpiryBound(AddPair(cfg, q, now, info, f, accessID, token))
  {
  }

  lemma PairCodes(cfg: Settings, q: State, now: Time, info: Info, f: string, accessID: string, token: string)
    requires f in q.families
    ensures var s := AddPair(cfg, q, now, info, f, accessID, token); s.requests == q.requests && s.codes == q.codes
  {
  }

  lemma OpenFamily(q: State, used: set<string>, f: string)
    requires Open(q, used, f)
    ensures f in q.families && f in used && CodeLinks(q) && ExpiryBound(q) && Known(q, used)
  {
  }

  lemma PairKnown(cfg: Settings, q: State, used: set<string>, now: Time, info: Info, f: string,
                  accessID: string, token: string)
    requires f in q.families && Known(q, used) && f in used
    ensures Known(AddPair(cfg, q, now, info, f, accessID, token), used + {accessID, token})
  {
  }

  lemma PairEvolves(cfg: Settings, q: State, used: set<string>, now: Time, info: Info, f: string,
                    accessID: string, token: string)
    requires f in q.families && Known(q, used) && accessID !in used && token !in used
    ensures var s := AddPair(cfg, q, now, info, f, accessID, token);
      AccessEvolves(q, used, s) && RefreshEvolves(q, used, s) && RefreshKept(q, s) && FamiliesEvolve(q, used, s)
  {
  }

  /** The new pair closes the family again. */
  lemma ClosePair(cfg: Settings, q: State, used: set<string>, now: Time, info: Info, f: string,
                  accessID: string, token: string)
    requires Open(q, used, f) && cfg.accessTTL > 0
    requires accessID !in used && token !in used && accessID != "" && accessID != token
    requires info.clientID == q.families[f].clientID && info.subject == q.families[f].subject
    ensures Good(q, used, AddPair(cfg, q, now, info, f, accessID, token), {accessID, token})
  {
    hide CodeLinks, RequestsEvolve, CodesEvolve, FamilyLinks, AccessLinks, AccessEvolves, RefreshEvolves;
    hide RefreshKept, FamiliesEvolve, ExpiryBound, Known;
    hide AddPair;
    OpenFamily(q, used, f);
    hide Open;
    PairCodes(cfg, q, now, info, f, accessID, token);
    PairBound(cfg, q, now, info, f, accessID, token);
    SameCodes(q, used, AddPair(cfg, q, now, info, f, accessID, token));
    PairLinks(cfg, q, used, now, info, f, accessID, token);
    PairAccess(cfg, q, used, now, info, f, accessID, token);
    PairKnown(cfg, q, used, now, info, f, accessID, token);
    PairEvolves(cfg, q, used, now, info, f, accessID, token);
  }
}
