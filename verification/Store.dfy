/** The store as the object it is: maps of records that are overwritten in place. Each method is one locked
    section and is proved to take the state to what StoreSpec says, so that everything proved of the state
    machine holds of these methods. Clock readings and random ids are parameters. */
module Store {
  import opened Realm
  import opened StoreSpec

  class AuthRequest {
    const id: string
    const clientID: string
    const audience: seq<string>
    const asked: Asked
    const created: Time
    const expires: Time
    var subject: string
    var code: string
    var scopes: seq<string>
    var amr: seq<string>
    var authTime: Time
    var done: bool
    var codeSaved: bool
    var completionHash: Digest

    constructor (id: string, asked: Asked, clientID: string, userID: string, scopes: seq<string>, audience: seq<string>,
                 now: Time)
      ensures this.id == id
      ensures Value() == Request(asked, clientID, userID, scopes, audience, "", now, now + FIVE_MINUTES, 0, [],
                                 false, false, NoDigest)
    {
      this.asked := asked;
      this.id, this.clientID, this.audience := id, clientID, audience;
      this.created, this.expires := now, now + FIVE_MINUTES;
      this.subject, this.scopes := userID, scopes;
      this.code, this.amr, this.authTime, this.done, this.codeSaved := "", [], 0, false, false;
      this.completionHash := NoDigest;
    }

    ghost function Value(): Request
      reads this
    {
      Request(asked, clientID, subject, scopes, audience, code, created, expires, authTime, amr, done, codeSaved,
              completionHash)
    }
  }

  class RefreshRecord {
    ghost const hash: Digest
    var familyID: string
    var clientID: string
    var subject: string
    var audience: seq<string>
    var scopes: seq<string>
    var amr: seq<string>
    var authTime: Time
    var consumed: bool
    var accessID: string

    constructor (ghost hash: Digest, value: Refresh)
      ensures this.hash == hash && Value() == value
    {
      this.hash := hash;
      familyID, clientID, subject, audience := value.familyID, value.clientID, value.subject, value.audience;
      scopes, amr, authTime, consumed, accessID :=
        value.scopes, value.amr, value.authTime, value.consumed, value.accessID;
    }

    ghost function Value(): Refresh
      reads this
    {
      Refresh(familyID, clientID, subject, audience, scopes, amr, authTime, consumed, accessID)
    }
  }

  class RefreshFamily {
    const id: string
    const clientID: string
    const subject: string
    const expires: Time
    var revoked: bool
    var tokens: seq<Digest>

    constructor (id: string, clientID: string, subject: string, expires: Time)
      ensures this.id == id && Value() == Family(clientID, subject, expires, false, [])
    {
      this.id, this.clientID, this.subject, this.expires := id, clientID, subject, expires;
      revoked, tokens := false, [];
    }

    ghost function Value(): Family
      reads this
    {
      Family(clientID, subject, expires, revoked, tokens)
    }
  }

  /** What `TokenRequestByRefreshToken` hands out; the caller may narrow the scopes before passing it on. */
  class RefreshRequest {
    const clientID: string
    const subject: string
    const audience: seq<string>
    const amr: seq<string>
    const authTime: Time
    const familyID: string
    var scopes: seq<string>

    constructor (grant: RefreshGrant)
      ensures Value() == grant
    {
      clientID, subject, audience, scopes := grant.clientID, grant.subject, grant.audience, grant.scopes;
      amr, authTime, familyID := grant.amr, grant.authTime, grant.familyID;
    }

    ghost function Value(): RefreshGrant
      reads this
    {
      RefreshGrant(clientID, subject, audience, scopes, amr, authTime, familyID)
    }

    method SetCurrentScopes(current: seq<string>)
      modifies this
      ensures Value() == old(Value()).(scopes := current)
    {
      scopes := current;
    }
  }

  /** `op.TokenRequest` as the library passes it in. */
  datatype Holder =
    | WithCode(auth: AuthRequest)
    | WithRefresh(request: RefreshRequest)
    | WithService(clientID: string, subject: string, scopes: seq<string>)
  {
    function ClientID(): string {
      match this
      case WithCode(auth) => auth.clientID
      case WithRefresh(request) => request.clientID
      case WithService(id, _, _) => id
    }

    ghost function Objects(): set<object> {
      match this
      case WithCode(auth) => {auth}
      case WithRefresh(request) => {request}
      case WithService(_, _, _) => {}
    }
  }

  ghost predicate OwnRequests(m: map<string, AuthRequest>) {
    forall id | id in m :: m[id].id == id
  }

  ghost predicate OwnRefresh(m: map<Digest, RefreshRecord>) {
    forall h | h in m :: m[h].hash == h
  }

  ghost predicate OwnFamilies(m: map<string, RefreshFamily>) {
    forall f | f in m :: m[f].id == f
  }

  ghost function RequestValues(m: map<string, AuthRequest>): map<string, Request>
    reads m.Values
  {
    map id | id in m :: m[id].Value()
  }

  ghost function RefreshValues(m: map<Digest, RefreshRecord>): map<Digest, Refresh>
    reads m.Values
  {
    map h | h in m :: m[h].Value()
  }

  ghost function FamilyValues(m: map<string, RefreshFamily>): map<string, Family>
    reads m.Values
  {
    map f | f in m :: m[f].Value()
  }

  lemma RequestsMinus(m: map<string, AuthRequest>, ids: set<string>)
    ensures RequestValues(m - ids) == RequestValues(m) - ids && RequestValues(m).Keys == m.Keys
    ensures OwnRequests(m) ==> OwnRequests(m - ids)
    ensures Submap(m, m - ids)
  {
  }

  lemma RequestFacts(m: map<string, AuthRequest>, now: Time)
    ensures var requests := RequestValues(m);
      && requests.Keys == m.Keys && ExpiredRequests(requests, now) <= m.Keys
      && forall id | id in m ::
           && requests[id].code == m[id].code && requests[id].expires == m[id].expires
           && (id in ExpiredRequests(requests, now) <==> m[id].expires <= now)
  {
  }

  lemma RefreshMinus(m: map<Digest, RefreshRecord>, hashes: set<Digest>)
    ensures RefreshValues(m - hashes) == RefreshValues(m) - hashes && RefreshValues(m).Keys == m.Keys
    ensures OwnRefresh(m) ==> OwnRefresh(m - hashes)
    ensures Submap(m, m - hashes)
  {
  }

  lemma FamiliesMinus(m: map<string, RefreshFamily>, ids: set<string>)
    ensures FamilyValues(m - ids) == FamilyValues(m) - ids && FamilyValues(m).Keys == m.Keys
    ensures OwnFamilies(m) ==> OwnFamilies(m - ids)
    ensures Submap(m, m - ids)
  {
  }

  lemma RequestsPlus(m: map<string, AuthRequest>, id: string, request: AuthRequest)
    ensures RequestValues(m[id := request]) == RequestValues(m)[id := request.Value()]
    ensures OwnRequests(m) && request.id == id ==> OwnRequests(m[id := request])
  {
  }

  lemma RefreshPlus(m: map<Digest, RefreshRecord>, h: Digest, record: RefreshRecord)
    ensures RefreshValues(m[h := record]) == RefreshValues(m)[h := record.Value()]
    ensures OwnRefresh(m) && record.hash == h ==> OwnRefresh(m[h := record])
  {
  }

  lemma FamiliesPlus(m: map<string, RefreshFamily>, f: string, family: RefreshFamily)
    ensures FamilyValues(m[f := family]) == FamilyValues(m)[f := family.Value()]
    ensures OwnFamilies(m) && family.id == f ==> OwnFamilies(m[f := family])
  {
  }

  lemma RequestAt(m: map<string, AuthRequest>, id: string)
    requires id in m
    ensures id in RequestValues(m) && RequestValues(m)[id] == m[id].Value()
  {
  }

  lemma RefreshAt(m: map<Digest, RefreshRecord>, h: Digest)
    requires h in m
    ensures h in RefreshValues(m) && RefreshValues(m)[h] == m[h].Value()
  {
  }

  lemma FamilyAt(m: map<string, RefreshFamily>, f: string)
    requires f in m
    ensures f in FamilyValues(m) && FamilyValues(m)[f] == m[f].Value()
  {
  }

  twostate lemma RequestsKept(m: map<string, AuthRequest>)
    requires forall id | id in m :: unchanged(m[id])
    ensures RequestValues(m) == old(RequestValues(m))
  {
  }

  twostate lemma RefreshKept(m: map<Digest, RefreshRecord>)
    requires forall h | h in m :: unchanged(m[h])
    ensures RefreshValues(m) == old(RefreshValues(m))
  {
  }

  twostate lemma FamiliesKept(m: map<string, RefreshFamily>)
    requires forall f | f in m :: unchanged(m[f])
    ensures FamilyValues(m) == old(FamilyValues(m))
  {
  }

  twostate lemma RequestWritten(m: map<string, AuthRequest>, new id: string)
    requires OwnRequests(m) && id in m
    requires forall k | k in m && m[k] != m[id] :: unchanged(m[k])
    ensures RequestValues(m) == old(RequestValues(m))[id := m[id].Value()]
    ensures id in old(RequestValues(m)) && m[id].Value().expires == old(RequestValues(m))[id].expires
  {
  }

  /** Writing to one stored object is one map update: no other key shares it. */
  twostate lemma RefreshWritten(m: map<Digest, RefreshRecord>, new h: Digest)
    requires OwnRefresh(m) && h in m
    requires forall k | k in m && m[k] != m[h] :: unchanged(m[k])
    ensures RefreshValues(m) == old(RefreshValues(m))[h := m[h].Value()]
  {
  }

  twostate lemma FamilyWritten(m: map<string, RefreshFamily>, new f: string)
    requires OwnFamilies(m) && f in m
    requires forall k | k in m && m[k] != m[f] :: unchanged(m[k])
    ensures FamilyValues(m) == old(FamilyValues(m))[f := m[f].Value()]
  {
  }

  ghost predicate LinkedMaps(requests: map<string, AuthRequest>, refresh: map<Digest, RefreshRecord>,
                             families: map<string, RefreshFamily>)
  {
    OwnRequests(requests) && OwnRefresh(refresh) && OwnFamilies(families)
  }

  lemma LinkedLess(requests: map<string, AuthRequest>, ids: set<string>, refresh: map<Digest, RefreshRecord>,
                   hashes: set<Digest>,
                   families: map<string, RefreshFamily>, dropped: set<string>)
    requires LinkedMaps(requests, refresh, families)
    ensures LinkedMaps(requests - ids, refresh - hashes, families - dropped)
    ensures requests - {} == requests && refresh - {} == refresh && families - {} == families
  {
  }

  method GrantedScopes(scopes: seq<string>, client: Client, user: User) returns (granted: seq<string>)
    ensures granted == Granted(scopes, client, user)
  {
    granted := [];
    for i := 0 to |scopes|
      invariant granted == Granted(scopes[..i], client, user)
    {
      var scope := scopes[i];
      assert scopes[..i + 1][..i] == scopes[..i];
      if scope !in client.allowedScopes { continue; }
      if OIDCScope(scope) {
        granted := granted + [scope];
      } else if scope in user.permissions {
        granted := granted + [scope];
      }
    }
    assert scopes[..|scopes|] == scopes;
  }

  method ConsumeRefreshRecord(record: RefreshRecord) returns (accessID: string)
    modifies record
    ensures record.Value() == Consumed(old(record.Value())) && accessID == old(record.accessID)
  {
    accessID := record.accessID;
    record.subject, record.audience, record.scopes, record.amr, record.authTime := "", [], [], [], 0;
    record.consumed, record.accessID := true, "";
  }

  method ApplicationScopes(scopes: seq<string>) returns (result: seq<string>)
    ensures result == StoreSpec.ApplicationScopes(scopes)
  {
    result := [];
    for i := 0 to |scopes|
      invariant result == StoreSpec.ApplicationScopes(scopes[..i])
    {
      assert scopes[..i + 1][..i] == scopes[..i];
      if !OIDCScope(scopes[i]) {
        result := result + [scopes[i]];
      }
    }
    assert scopes[..|scopes|] == scopes;
  }

  class Store {
    const cfg: Settings
    var nextExpiry: Time
    var authRequests: map<string, AuthRequest>
    var codes: map<string, Code>
    var access: map<string, Access>
    var refresh: map<Digest, RefreshRecord>
    var families: map<string, RefreshFamily>

    constructor (users: seq<User>, clients: seq<Client>, fold: Fold, accessTTL: nat, refreshTTL: nat)
      ensures cfg == FromRealm(users, clients, fold, accessTTL, refreshTTL)
      ensures Linked() && Abs() == EMPTY && Objects() == {}
    {
      var usersByID, usernames, clientsByID := map[], map[], map[];
      for i := 0 to |clients|
        invariant clientsByID == ClientMap(clients[..i])
      {
        assert clients[..i + 1][..i] == clients[..i];
        clientsByID := clientsByID[clients[i].id := clients[i]];
      }
      for i := 0 to |users|
        invariant usersByID == UserMap(users[..i]) && usernames == UsernameMap(users[..i], fold)
      {
        assert users[..i + 1][..i] == users[..i];
        usersByID := usersByID[users[i].id := users[i]];
        usernames := usernames[fold(users[i].username) := users[i].id];
      }
      assert clients[..|clients|] == clients && users[..|users|] == users;
      cfg, nextExpiry := Settings(usersByID, usernames, clientsByID, accessTTL, refreshTTL), 0;
      authRequests, codes, access, refresh, families := map[], map[], map[], map[], map[];
    }

    // ---- Abstraction ----

    ghost function Objects(): set<object>
      reads this
    {
      authRequests.Values + refresh.Values + families.Values
    }

    /** Each record object is stored under its own key, so no two keys share one. */
    ghost predicate Linked()
      reads this`authRequests, this`refresh, this`families
    {
      LinkedMaps(authRequests, refresh, families)
    }

    ghost function Abs(): State
      reads this, authRequests.Values, refresh.Values, families.Values
    {
      State(RequestValues(authRequests), codes, access, RefreshValues(refresh), FamilyValues(families), nextExpiry)
    }

    // ---- Expiry ----

    method ScheduleExpiryLocked(expires: Time)
      modifies this`nextExpiry
      ensures nextExpiry == Schedule(old(nextExpiry), expires)
      ensures Abs() == Scheduled(old(Abs()), expires)
    {
      if expires == 0 { return; }
      if nextExpiry == 0 || expires < nextExpiry {
        nextExpiry := expires;
      }
    }

    method PruneRequest(id: string, now: Time, first: Time) returns (next: Time)
      requires id in authRequests
      modifies this`authRequests, this`codes
      ensures var request := old(authRequests[id]);
        if request.expires <= now then
          && authRequests == old(authRequests) - {id} && next == first
          && codes == old(codes) - CodeNamed(request.code)
        else authRequests == old(authRequests) && codes == old(codes) && next == Schedule(first, request.expires)
    {
      var request := authRequests[id];
      next := first;
      if request.expires <= now {
        authRequests := authRequests - {id};
        if request.code != "" {
          codes := codes - {request.code};
        } else {
          assert codes == codes - {};
        }
      } else {
        next := Schedule(first, request.expires);
      }
    }

    method PruneRequests(now: Time) returns (next: Time)
      modifies this`authRequests, this`codes
      ensures var requests := old(RequestValues(authRequests));
        && authRequests == old(authRequests) - ExpiredRequests(requests, now)
        && codes == old(codes) - CodesOf(requests, ExpiredRequests(requests, now))
        && next == Earliest(RequestTimes(requests, requests.Keys - ExpiredRequests(requests, now)))
    {
      ghost var all, requests, allCodes, done := authRequests, RequestValues(authRequests), codes, {};
      ghost var expired := ExpiredRequests(requests, now);
      hide *;
      RequestFacts(all, now);
      next := 0;
      var pending := authRequests.Keys;
      NoTimes(requests, map[]);
      NothingDone(all, expired);
      NothingDone(codes, {});
      while pending != {}
        invariant pending == all.Keys - done && done <= all.Keys
        invariant authRequests == all - expired * done
        invariant codes == allCodes - CodesOf(requests, expired * done)
        invariant next == Earliest(RequestTimes(requests, done - expired))
      {
        var id :| id in pending;
        StillThere(all, expired, done, id);
        assert authRequests[id] == all[id];
        next := PruneRequest(id, now, next);
        OneMore(all, expired, done, id);
        PrunedOneMore(requests, allCodes, expired, done, id);
        pending, done := pending - {id}, done + {id};
      }
      AllDone(all, expired, done);
    }

    method PruneCodes(now: Time, first: Time, ghost times: set<Time>) returns (next: Time)
      requires first == Earliest(times)
      modifies this`codes
      ensures codes == old(codes) - ExpiredCodes(old(codes), now)
      ensures next == Earliest(times + CodeTimes(codes))
    {
      ghost var all, done := codes, {};
      ghost var expired := ExpiredCodes(codes, now);
      next := first;
      var pending := codes.Keys;
      NothingDone(all, expired);
      assert times + CodeTimes(all - all.Keys) == times && all - all.Keys == all - (expired + (all.Keys - done));
      while pending != {}
        invariant pending == all.Keys - done && done <= all.Keys
        invariant codes == all - expired * done
        invariant next == Earliest(times + CodeTimes(all - (expired + (all.Keys - done))))
      {
        var code :| code in pending;
        StillThere(all, expired, done, code);
        OneMore(all, expired, done, code);
        if codes[code].expires <= now {
          codes := codes - {code};
          assert all - (expired + (all.Keys - (done + {code}))) == all - (expired + (all.Keys - done));
        } else {
          MoreCodeTimes(all, times, expired, done, code);
          next := Schedule(next, codes[code].expires);
        }
        pending, done := pending - {code}, done + {code};
      }
      AllDone(all, expired, done);
      assert all - (expired + (all.Keys - done)) == all - expired;
    }

    method PruneAccess(now: Time, first: Time, ghost times: set<Time>) returns (next: Time)
      requires first == Earliest(times)
      modifies this`access
      ensures access == old(access) - ExpiredAccess(old(access), now)
      ensures next == Earliest(times + AccessTimes(access))
    {
      ghost var all, done := access, {};
      ghost var expired := ExpiredAccess(access, now);
      next := first;
      var pending := access.Keys;
      NothingDone(all, expired);
      assert times + AccessTimes(all - all.Keys) == times && all - all.Keys == all - (expired + (all.Keys - done));
      while pending != {}
        invariant pending == all.Keys - done && done <= all.Keys
        invariant access == all - expired * done
        invariant next == Earliest(times + AccessTimes(all - (expired + (all.Keys - done))))
      {
        var id :| id in pending;
        StillThere(all, expired, done, id);
        OneMore(all, expired, done, id);
        if access[id].expires <= now {
          access := access - {id};
          assert all - (expired + (all.Keys - (done + {id}))) == all - (expired + (all.Keys - done));
        } else {
          MoreAccessTimes(all, times, expired, done, id);
          next := Schedule(next, access[id].expires);
        }
        pending, done := pending - {id}, done + {id};
      }
      AllDone(all, expired, done);
      assert all - (expired + (all.Keys - done)) == all - expired;
    }

    method PruneConsumed(now: Time)
      modifies this`refresh
      ensures refresh == old(refresh) - DeadConsumed(old(RefreshValues(refresh)), old(FamilyValues(families)), now)
    {
      ghost var all, gone := refresh, {};
      ghost var dead := DeadConsumed(RefreshValues(refresh), FamilyValues(families), now);
      var pending := refresh.Keys;
      assert all - {} == all;
      while pending != {}
        invariant pending <= all.Keys && gone <= all.Keys && gone !! pending
        invariant refresh == all - gone
        invariant forall h | h in all && h !in pending :: h in gone <==> h in dead
      {
        var h :| h in pending;
        var record := refresh[h];
        pending := pending - {h};
        if !record.consumed { continue; }
        if record.familyID in families && now < families[record.familyID].expires { continue; }
        refresh := refresh - {h};
        MinusTwice(all, gone, {h});
        gone := gone + {h};
      }
      assert gone == dead;
    }

    method PruneFamily(id: string, now: Time, first: Time) returns (next: Time)
      requires id in families
      modifies this`families, this`refresh
      ensures var family := old(families[id]);
        if family.expires <= now then
          families == old(families) - {id} && refresh == old(refresh) - (set h | h in family.tokens) && next == first
        else families == old(families) && refresh == old(refresh) && next == Schedule(first, family.expires)
    {
      var family := families[id];
      next := first;
      if family.expires <= now {
        families := families - {id};
        DeleteTokens(family.tokens);
      } else {
        next := Schedule(first, family.expires);
      }
    }

    method DeleteTokens(tokens: seq<Digest>)
      modifies this`refresh
      ensures refresh == old(refresh) - (set h | h in tokens)
    {
      for i := 0 to |tokens|
        invariant refresh == old(refresh) - (set h | h in tokens[..i])
      {
        refresh := refresh - {tokens[i]};
      }
      assert tokens[..|tokens|] == tokens;
    }

    method PruneFamilies(now: Time, first: Time, ghost times: set<Time>) returns (next: Time)
      requires first == Earliest(times)
      modifies this`families, this`refresh
      ensures var stored := old(FamilyValues(families));
        && families == old(families) - ExpiredFamilies(stored, now)
        && refresh == old(refresh) - TokensOf(stored, ExpiredFamilies(stored, now))
        && next == Earliest(times + FamilyTimes(stored, stored.Keys - ExpiredFamilies(stored, now)))
    {
      ghost var all, stored, records, done := families, FamilyValues(families), refresh, {};
      ghost var expired := ExpiredFamilies(stored, now);
      assert stored.Keys == all.Keys;
      assert forall id | id in all ::
        && stored[id].tokens == all[id].tokens && stored[id].expires == all[id].expires
        && (id in expired <==> all[id].expires <= now);
      hide *;
      next := first;
      var pending := families.Keys;
      NoTimes(map[], stored);
      NothingDone(all, expired);
      NothingDone(records, {});
      assert times + {} == times;
      while pending != {}
        invariant pending == all.Keys - done && done <= all.Keys
        invariant families == all - expired * done
        invariant refresh == records - TokensOf(stored, expired * done)
        invariant next == Earliest(times + FamilyTimes(stored, done - expired))
      {
        var id :| id in pending;
        StillThere(all, expired, done, id);
        assert families[id] == all[id];
        next := PruneFamily(id, now, next);
        OneMore(all, expired, done, id);
        DroppedOneMore(stored, records, times, expired, done, id);
        pending, done := pending - {id}, done + {id};
      }
      AllDone(all, expired, done);
    }

    /** The objects that stay are the ones that were stored. */
    twostate predicate OnlyDeletes()
      reads this
    {
      Submap(old(authRequests), authRequests) && Submap(old(refresh), refresh) && Submap(old(families), families)
    }

    method PruneLocked(now: Time)
      requires Linked()
      modifies this
      ensures Linked() && Abs() == Prune(old(Abs()), now) && OnlyDeletes()
    {
      hide Scan, OwnRequests, OwnRefresh, OwnFamilies, RequestValues, RefreshValues, FamilyValues, Submap;
      if nextExpiry != 0 && now < nextExpiry {
        SubmapSame(authRequests);
        SubmapSame(refresh);
        SubmapSame(families);
        return;
      }
      ghost var s := Abs();
      ghost var requests, records, stored := authRequests, refresh, families;
      ghost var dead, tokens :=
        DeadConsumed(s.refresh, s.families, now), TokensOf(s.families, ExpiredFamilies(s.families, now));
      ScanMaps(now);
      hide *;
      RequestsMinus(requests, ExpiredRequests(s.requests, now));
      FamiliesMinus(stored, ExpiredFamilies(s.families, now));
      RefreshMinus(records, dead);
      RefreshMinus(records - dead, tokens);
      SubmapTwice(records, records - dead, refresh);
      ScanParts(s, now, RequestValues(authRequests), codes, access, RefreshValues(refresh), FamilyValues(families),
                nextExpiry);
    }

    method ScanMaps(now: Time)
      requires Linked()
      modifies this
      ensures var s := old(Abs());
        && authRequests == old(authRequests) - ExpiredRequests(s.requests, now)
        && codes == s.codes - CodesOf(s.requests, ExpiredRequests(s.requests, now))
                    - ExpiredCodes(s.codes - CodesOf(s.requests, ExpiredRequests(s.requests, now)), now)
        && access == s.access - ExpiredAccess(s.access, now)
        && refresh == old(refresh) - DeadConsumed(s.refresh, s.families, now)
                                   - TokensOf(s.families, ExpiredFamilies(s.families, now))
        && families == old(families) - ExpiredFamilies(s.families, now)
        && nextExpiry == Earliest(RequestTimes(s.requests, s.requests.Keys - ExpiredRequests(s.requests, now))
             + CodeTimes(codes) + AccessTimes(access)
             + FamilyTimes(s.families, s.families.Keys - ExpiredFamilies(s.families, now)))
    {
      hide Scan, LinkedMaps, RequestValues, RefreshValues, FamilyValues;
      hide Earliest, RequestTimes, CodeTimes, AccessTimes, FamilyTimes, CodesOf, TokensOf;
      hide ExpiredRequests, ExpiredFamilies, ExpiredCodes, ExpiredAccess, DeadConsumed;
      ghost var s := Abs();
      var next := PruneRequests(now);
      ghost var times := RequestTimes(s.requests, s.requests.Keys - ExpiredRequests(s.requests, now));
      next := PruneCodes(now, next, times);
      next := PruneAccess(now, next, times + CodeTimes(codes));
      PruneConsumed(now);
      next := PruneFamilies(now, next, times + CodeTimes(codes) + AccessTimes(access));
      nextExpiry := next;
    }

    // ---- The abstraction, read and written ----

    lemma Keys()
      ensures Abs().refresh.Keys == refresh.Keys && Abs().families.Keys == families.Keys
    {
    }

    lemma HoldsRefresh(h: Digest)
      requires h in refresh
      ensures h in Abs().refresh && Abs().refresh[h] == refresh[h].Value()
    {
    }

    lemma HoldsFamily(f: string)
      requires f in families
      ensures f in Abs().families && Abs().families[f] == families[f].Value()
    {
    }

    twostate lemma WroteRequest(id: string)
      requires Linked() && unchanged(this) && id in authRequests
      requires forall k | k in authRequests && authRequests[k] != authRequests[id] :: unchanged(authRequests[k])
      requires forall h | h in refresh :: unchanged(refresh[h])
      requires forall f | f in families :: unchanged(families[f])
      ensures Abs() == old(Abs()).(requests := old(Abs()).requests[id := authRequests[id].Value()])
      ensures id in old(Abs()).requests && authRequests[id].Value().expires == old(Abs()).requests[id].expires
    {
      hide RequestValues, RefreshValues, FamilyValues, OwnRequests, OwnRefresh, OwnFamilies;
      RequestWritten(authRequests, id);
      RefreshKept(refresh);
      FamiliesKept(families);
    }

    twostate lemma WroteFamily(f: string)
      requires Linked() && unchanged(this) && f in families
      requires forall g | g in families && families[g] != families[f] :: unchanged(families[g])
      requires forall id | id in authRequests :: unchanged(authRequests[id])
      requires forall h | h in refresh :: unchanged(refresh[h])
      ensures Abs() == old(Abs()).(families := old(Abs()).families[f := families[f].Value()])
    {
      hide RequestValues, RefreshValues, FamilyValues, OwnRequests, OwnRefresh, OwnFamilies;
      FamilyWritten(families, f);
      RequestsKept(authRequests);
      RefreshKept(refresh);
    }

    // ---- Authorization requests and codes ----

    /** The caller is handed the stored object itself. */
    ghost predicate Stands(r: Result<AuthRequest>, spec: Result<string>)
      reads this`authRequests
    {
      match spec
      case Ok(id) => r.Ok? && id in authRequests && r.value == authRequests[id]
      case Err(error) => r == Err(error)
    }

    method AddRequestLocked(auth: AuthRequest)
      requires Linked()
      modifies this`authRequests, this`nextExpiry
      ensures Linked() && authRequests == old(authRequests)[auth.id := auth]
      ensures var before := old(Abs());
        Abs() == Scheduled(before.(requests := before.requests[auth.id := auth.Value()]), auth.expires)
    {
      hide OwnRequests, OwnRefresh, OwnFamilies, RequestValues, RefreshValues, FamilyValues;
      RequestsPlus(authRequests, auth.id, auth);
      authRequests := authRequests[auth.id := auth];
      ScheduleExpiryLocked(auth.expires);
    }

    /** What is kept of an authorization request. */
    method Keep(details: Details) returns (asked: Asked)
      ensures asked == AskedOf(details)
    {
      var challenge: Option<CodeChallenge> := None;
      if details.codeChallenge != "" {
        challenge := Some(CodeChallenge(details.codeChallenge, details.codeChallengeMethod));
      }
      asked := Asked(details.redirectURI, details.state, details.nonce, challenge,
                     details.responseType, details.responseMode);
    }

    lemma Pending()
      ensures |authRequests| == |Abs().requests|
    {
      RequestsMinus(authRequests, {});
      assert |authRequests.Keys| == |Abs().requests.Keys|;
    }

    method CreateAuthRequest(now: Time, promptNone: bool, random: Option<string>, clientID: string,
                             scopes: seq<string>, userID: string, details: Details)
      returns (r: Result<AuthRequest>)
      requires Linked()
      modifies this
      ensures Linked()
      ensures var (s, result) :=
        StoreSpec.CreateAuthRequest(cfg, old(Abs()), now, promptNone, random, clientID, scopes, userID, details);
        Abs() == s && Stands(r, result)
    {
      hide Prune, LinkedMaps, Abs, Submap, AskedOf;
      if promptNone { return Err(LoginRequired); }
      if random.None? { return Err(RandomFailed); }
      var id := random.value;
      var asked := Keep(details);
      if clientID !in cfg.clients { return Err(InvalidRequest); }
      var auth := new AuthRequest(id, asked, clientID, userID, scopes, cfg.clients[clientID].audiences, now);
      PruneLocked(now);
      Pending();
      if |authRequests| >= MAX_PENDING_AUTH_REQUESTS { return Err(ServerError); }
      AddRequestLocked(auth);
      r := Ok(auth);
    }

    method AuthRequestByID(now: Time, id: string) returns (r: Result<AuthRequest>)
      requires Linked()
      modifies this
      ensures Linked()
      ensures var (s, result) := StoreSpec.AuthRequestByID(old(Abs()), now, id); Abs() == s && Stands(r, result)
    {
      hide Prune;
      PruneLocked(now);
      if id !in authRequests { return Err(InvalidRequest); }
      r := Ok(authRequests[id]);
    }

    method AuthRequestByCode(now: Time, code: string) returns (r: Result<AuthRequest>)
      requires Linked()
      modifies this
      ensures Linked()
      ensures var (s, result) := StoreSpec.AuthRequestByCode(old(Abs()), now, code); Abs() == s && Stands(r, result)
    {
      hide Prune;
      PruneLocked(now);
      if code !in codes || codes[code].reserved { return Err(InvalidGrant); }
      var record := codes[code];
      if record.requestID !in authRequests { return Err(InvalidGrant); }
      var request := authRequests[record.requestID];
      if !request.done || record.expires <= now { return Err(InvalidGrant); }
      r := Ok(request);
    }

    method SaveAuthCode(now: Time, id: string, code: string) returns (r: Result<()>)
      requires Linked()
      modifies this, authRequests.Values
      ensures Linked()
      ensures (Abs(), r) == StoreSpec.SaveAuthCode(old(Abs()), now, id, code)
    {
      hide LinkedMaps, Prune, Submap, Scheduled, RequestValues, RefreshValues, FamilyValues;
      PruneLocked(now);
      RequestsMinus(authRequests, {});
      if id !in authRequests { return Err(InvalidGrant); }
      var request := authRequests[id];
      RequestAt(authRequests, id);
      SubmapAt(old(authRequests), authRequests, id);
      if !request.done || request.codeSaved || request.expires <= now || code in codes { return Err(InvalidGrant); }
      AttachCode(id, code);
      r := Ok(());
    }

    method AttachCode(id: string, code: string)
      requires Linked() && id in authRequests
      modifies this`codes, this`nextExpiry, authRequests[id]
      ensures id in old(Abs()).requests
      ensures var s, request := old(Abs()), old(Abs()).requests[id];
        Abs() == Scheduled(s.(requests := s.requests[id := request.(codeSaved := true, code := code)],
                              codes := s.codes[code := Code(id, request.expires, false)]), request.expires)
    {
      hide LinkedMaps, Scheduled, Abs;
      var expires := authRequests[id].expires;
      MarkSaved(id, code);
      AddCodeLocked(code, Code(id, expires, false));
    }

    method MarkSaved(id: string, code: string)
      requires Linked() && id in authRequests
      modifies authRequests[id]
      ensures id in old(Abs()).requests && authRequests[id].expires == old(Abs()).requests[id].expires
      ensures var s, request := old(Abs()), old(Abs()).requests[id];
        Abs() == s.(requests := s.requests[id := request.(codeSaved := true, code := code)])
    {
      hide LinkedMaps, RequestValues, RefreshValues, FamilyValues;
      var request := authRequests[id];
      RequestAt(authRequests, id);
      request.codeSaved := true;
      request.code := code;
      WroteRequest(id);
    }

    method AddCodeLocked(code: string, record: Code)
      modifies this`codes, this`nextExpiry
      ensures Abs() == Scheduled(old(Abs()).(codes := old(Abs()).codes[code := record]), record.expires)
    {
      hide RequestValues, RefreshValues, FamilyValues;
      codes := codes[code := record];
      ScheduleExpiryLocked(record.expires);
    }

    method DeleteAuthRequest(id: string) returns (r: Result<()>)
      requires Linked()
      modifies this
      ensures Linked()
      ensures (Abs(), r) == StoreSpec.DeleteAuthRequest(old(Abs()), id)
    {
      hide LinkedMaps, RequestValues, RefreshValues, FamilyValues;
      RequestsMinus(authRequests, {id});
      if id !in authRequests { return Err(InvalidGrant); }
      RequestAt(authRequests, id);
      if authRequests[id].code == "" { return Err(InvalidGrant); }
      var code := authRequests[id].code;
      if code !in codes || codes[code].requestID != id || !codes[code].reserved { return Err(InvalidGrant); }
      LinkedLess(authRequests, {id}, refresh, {}, families, {});
      codes := codes - {code};
      authRequests := authRequests - {id};
      r := Ok(());
    }

    // ---- Login ----

    /** First locked section of `Authenticate`. */
    method AuthenticateBegin(now: Time, id: string, username: string) returns (r: Result<Candidate>)
      requires Linked()
      modifies this
      ensures Linked()
      ensures (Abs(), r) == StoreSpec.AuthenticateBegin(cfg, old(Abs()), now, id, username)
    {
      hide Prune;
      PruneLocked(now);
      if id in authRequests && authRequests[id].done { return Err(RequestDone); }
      var user := None;
      if username in cfg.usernames && cfg.usernames[username] in cfg.users {
        user := Some(cfg.users[cfg.usernames[username]]);
      }
      r := Ok(Candidate(id in authRequests, user));
    }

    /** The rest of `Authenticate`, after the password check. */
    method AuthenticateEnd(now: Time, id: string, candidate: Candidate, passwordOK: bool) returns (r: Result<()>)
      requires Linked()
      modifies this, authRequests.Values
      ensures Linked()
      ensures (Abs(), r) == StoreSpec.AuthenticateEnd(cfg, old(Abs()), now, id, candidate, passwordOK)
    {
      hide Prune, Complete, LinkedMaps, RequestValues, RefreshValues, FamilyValues, Submap;
      if !candidate.requestOK { return Err(RequestMissing); }
      if candidate.user.None? || !passwordOK { return Err(InvalidCredentials); }
      PruneLocked(now);
      if id in authRequests { SubmapAt(old(authRequests), authRequests, id); }
      r := CompleteAuthenticationLocked(now, id, candidate.user.value, "pwd");
    }

    method SelectIdentity(now: Time, id: string, userID: string) returns (r: Result<()>)
      requires Linked()
      modifies this, authRequests.Values
      ensures Linked()
      ensures (Abs(), r) == StoreSpec.SelectIdentity(cfg, old(Abs()), now, id, userID)
    {
      hide Prune, Complete, LinkedMaps, RequestValues, RefreshValues, FamilyValues, Submap;
      PruneLocked(now);
      if userID !in cfg.users { return Err(InvalidCredentials); }
      if id in authRequests { SubmapAt(old(authRequests), authRequests, id); }
      r := CompleteAuthenticationLocked(now, id, cfg.users[userID], "dev-select");
    }

    method CompleteAuthenticationLocked(now: Time, id: string, user: User, how: string) returns (r: Result<()>)
      requires Linked()
      modifies if id in authRequests then {authRequests[id]} else {}
      ensures (Abs(), r) == Complete(cfg, old(Abs()), now, id, user, how)
    {
      hide LinkedMaps, RequestValues, RefreshValues, FamilyValues;
      RequestsMinus(authRequests, {});
      if id !in authRequests { return Err(RequestMissing); }
      RequestAt(authRequests, id);
      var request := authRequests[id];
      if request.done { return Err(RequestDone); }
      if request.clientID !in cfg.clients { return Err(ClientUnavailable); }
      var granted := GrantedScopes(request.scopes, cfg.clients[request.clientID], user);
      request.subject, request.scopes, request.authTime, request.amr, request.done :=
        user.id, granted, now, [how], true;
      WroteRequest(id);
      r := Ok(());
    }

    method IssueCompletionSecret(now: Time, id: string, random: Option<string>) returns (r: Result<string>)
      requires Linked()
      modifies this, authRequests.Values
      ensures Linked()
      ensures (Abs(), r) == StoreSpec.IssueCompletionSecret(old(Abs()), now, id, random)
    {
      hide Prune, LinkedMaps, RequestValues, RefreshValues, FamilyValues, Submap;
      PruneLocked(now);
      RequestsMinus(authRequests, {});
      if id !in authRequests { return Err(RequestMissing); }
      var request := authRequests[id];
      RequestAt(authRequests, id);
      SubmapAt(old(authRequests), authRequests, id);
      if !request.done { return Err(RequestMissing); }
      if random.None? { return Err(RandomFailed); }
      label before:
      request.completionHash := Sha256(random.value);
      WroteRequest@before(id);
      r := Ok(random.value);
    }

    method ConsumeCompletionSecret(now: Time, id: string, secret: string) returns (r: Result<()>)
      requires Linked()
      modifies this, authRequests.Values
      ensures Linked()
      ensures (Abs(), r) == StoreSpec.ConsumeCompletionSecret(old(Abs()), now, id, secret)
    {
      hide Prune, LinkedMaps, RequestValues, RefreshValues, FamilyValues, Submap;
      PruneLocked(now);
      RequestsMinus(authRequests, {});
      if id !in authRequests { return Err(CompletionDenied); }
      var request := authRequests[id];
      RequestAt(authRequests, id);
      SubmapAt(old(authRequests), authRequests, id);
      var supplied := Sha256(secret);
      if request.completionHash == NoDigest || request.completionHash != supplied { return Err(CompletionDenied); }
      label before:
      request.completionHash := NoDigest;
      WroteRequest@before(id);
      r := Ok(());
    }

    method LoginInfo(now: Time, id: string) returns (r: Result<string>)
      requires Linked()
      modifies this
      ensures Linked()
      ensures (Abs(), r) == StoreSpec.LoginInfo(cfg, old(Abs()), now, id)
    {
      hide Prune;
      PruneLocked(now);
      if id !in authRequests { return Err(RequestMissing); }
      if authRequests[id].clientID !in cfg.clients { return Err(ClientUnavailable); }
      var client := cfg.clients[authRequests[id].clientID];
      r := Ok(if client.name != "" then client.name else client.id);
    }

    // ---- Revocation ----

    method RevokeMember(h: Digest, id: string)
      requires OwnRefresh(refresh) && h in refresh
      modifies this`access, this`refresh, refresh[h]
      ensures OwnRefresh(refresh)
      ensures var record := old(refresh[h].Value());
        if record.familyID != id
        then access == old(access) && refresh == old(refresh) && RefreshValues(refresh) == old(RefreshValues(refresh))
        else
          && refresh == old(refresh) - {h} && RefreshValues(refresh) == old(RefreshValues(refresh)) - {h}
          && access == old(access) - AccessNamed(record)
    {
      hide RefreshValues, AccessNamed;
      if refresh[h].familyID != id {
        RefreshKept(refresh);
        return;
      }
      RemoveMember(h);
    }

    method RemoveMember(h: Digest)
      requires OwnRefresh(refresh) && h in refresh
      modifies this`access, this`refresh, refresh[h]
      ensures OwnRefresh(refresh)
      ensures refresh == old(refresh) - {h} && RefreshValues(refresh) == old(RefreshValues(refresh)) - {h}
      ensures access == old(access) - AccessNamed(old(refresh[h].Value()))
    {
      hide RefreshValues;
      var record := refresh[h];
      if !record.consumed {
        var accessID := ConsumeRefreshRecord(record);
        access := access - {accessID};
      } else {
        assert access == access - {};
      }
      RefreshWritten(refresh, h);
      DropWritten(h);
    }

    method DropWritten(h: Digest)
      requires OwnRefresh(refresh) && h in refresh
      modifies this`refresh
      ensures OwnRefresh(refresh) && refresh == old(refresh) - {h}
      ensures RefreshValues(refresh) == old(RefreshValues(refresh)) - {h}
    {
      RefreshMinus(refresh, {h});
      refresh := refresh - {h};
    }

    /** The loop of `revokeFamilyLocked`: every record of the family goes, and the access record of each live one. */
    method RevokeMembers(id: string)
      requires OwnRefresh(refresh)
      modifies this`access, this`refresh, refresh.Values
      ensures refresh == old(refresh) - MembersOf(old(RefreshValues(refresh)), {id})
      ensures access == old(access) - AccessOf(old(RefreshValues(refresh)), {id})
      ensures RefreshValues(refresh) == old(RefreshValues(refresh)) - MembersOf(old(RefreshValues(refresh)), {id})
    {
      ghost var all, records, accounts, done := refresh, RefreshValues(refresh), access, {};
      ghost var members := MembersOf(records, {id});
      var pending := refresh.Keys;
      NothingDone(all, members);
      NothingDone(accounts, {});
      AccessOfMembers(records, {id});
      RefreshMinus(all, {});
      while pending != {}
        invariant pending == all.Keys - done && done <= all.Keys
        invariant refresh == all - members * done
        invariant access == accounts - AccessAt(records, members * done)
        invariant OwnRefresh(refresh) && RefreshValues(refresh) == records - members * done
      {
        hide MembersOf, AccessAt, AccessNamed, RefreshValues, OwnRefresh;
        var h :| h in pending;
        StillThere(all, members, done, h);
        OneMore(all, members, done, h);
        OneMore(records, members, done, h);
        RefreshAt(refresh, h);
        MemberAt(records, h, id);
        RevokeMember(h, id);
        RevokedOneMore(records, accounts, members, done, h);
        pending, done := pending - {h}, done + {h};
      }
      AllDone(all, members, done);
    }

    method EraseFamily(id: string)
      requires Linked() && id in families
      modifies this`access, this`refresh, this`families, refresh.Values, families[id]
      ensures var (records, stored) := (old(RefreshValues(refresh)), old(FamilyValues(families)));
        && access == old(access) - AccessOf(records, {id})
        && refresh == old(refresh) - MembersOf(records, {id})
        && RefreshValues(refresh) == records - MembersOf(records, {id})
        && families == old(families) - {id} && FamilyValues(families) == stored - {id}
    {
      hide MembersOf, AccessOf, RefreshValues, FamilyValues, OwnRequests, OwnRefresh, OwnFamilies;
      MarkRevoked(id);
      label marked:
      RefreshKept(refresh);
      RevokeMembers(id);
      label revoked:
      FamiliesKept@marked(families);
      FamiliesMinus(families, {id});
      families := families - {id};
      RefreshKept@revoked(refresh);
    }

    method MarkRevoked(id: string)
      requires OwnFamilies(families) && id in families
      modifies families[id]
      ensures OwnFamilies(families) && FamilyValues(families) - {id} == old(FamilyValues(families)) - {id}
    {
      hide FamilyValues;
      families[id].revoked := true;
      FamilyWritten(families, id);
    }

    method RevokeFamilyLocked(id: string)
      requires Linked()
      modifies this, refresh.Values, families.Values
      ensures Linked() && Abs() == Revoke(old(Abs()), {id}) && OnlyDeletes()
    {
      hide Revoke, MembersOf, AccessOf, RequestValues, RefreshValues, FamilyValues, LinkedMaps, Submap;
      ghost var s, requests, records, stored := Abs(), authRequests, refresh, families;
      ghost var members := MembersOf(s.refresh, {id});
      SubmapSame(requests);
      RefreshMinus(records, members);
      FamiliesMinus(stored, {id});
      LinkedLess(requests, {}, records, members, stored, {id});
      if id !in families {
        SubmapSame(refresh);
        SubmapSame(families);
        NothingRevoked(s, id);
        return;
      }
      EraseFamily(id);
      RequestsKept(requests);
      OneRevoked(s, id);
    }

    method RevokeFamilies(ids: set<string>)
      requires Linked()
      modifies this, refresh.Values, families.Values
      ensures Linked() && Abs() == Revoke(old(Abs()), ids)
    {
      hide LinkedMaps, Abs, Submap, Revoke;
      ghost var s, requests, records, stored, done := Abs(), authRequests, refresh, families, {};
      var pending := ids;
      RevokeNone(s);
      SubmapSame(refresh);
      SubmapSame(families);
      while pending != {}
        invariant Linked() && pending == ids - done && done <= ids
        invariant Abs() == Revoke(s, done)
        invariant Submap(records, refresh) && Submap(stored, families)
      {
        var id :| id in pending;
        ghost var records', stored' := refresh, families;
        SubmapValues(records, refresh);
        SubmapValues(stored, families);
        RevokeFamilyLocked(id);
        SubmapTwice(records, records', refresh);
        SubmapTwice(stored, stored', families);
        RevokeTwice(s, done, id);
        pending, done := pending - {id}, done + {id};
      }
      assert done == ids;
    }

    /** First loop of `TerminateSession`; the ids it collects are those of the families behind the access records. */
    method DropSessionAccess(userID: string, clientID: string) returns (ended: set<string>)
      modifies this`access
      ensures access == old(access) - SessionAccess(old(access), userID, clientID)
      ensures ended == FamiliesBehind(old(access), SessionAccess(old(access), userID, clientID))
    {
      ghost var all, session, done := access, SessionAccess(access, userID, clientID), {};
      var pending := access.Keys;
      NothingDone(all, session);
      ended := {};
      while pending != {}
        invariant pending == all.Keys - done && done <= all.Keys
        invariant access == all - session * done
        invariant ended == FamiliesBehind(all, session * done)
      {
        var id :| id in pending;
        StillThere(all, session, done, id);
        OneMore(all, session, done, id);
        var record := access[id];
        if record.subject == userID && record.clientID == clientID {
          MoreFamiliesBehind(all, session * done, id);
          access := access - {id};
          if record.familyID != "" {
            ended := ended + {record.familyID};
          }
        }
        pending, done := pending - {id}, done + {id};
      }
      AllDone(all, session, done);
    }

    /** Second loop of `TerminateSession`. */
    method FamiliesFor(userID: string, clientID: string) returns (ended: set<string>)
      ensures ended == FamiliesOf(FamilyValues(families), userID, clientID)
    {
      ghost var done := {};
      var pending := families.Keys;
      ended := {};
      while pending != {}
        invariant pending == families.Keys - done && done <= families.Keys
        invariant ended == FamiliesOf(FamilyValues(families), userID, clientID) * done
      {
        var id :| id in pending;
        if families[id].subject == userID && families[id].clientID == clientID {
          ended := ended + {id};
        }
        pending, done := pending - {id}, done + {id};
      }
    }

    method TerminateSession(now: Time, userID: string, clientID: string) returns (r: Result<()>)
      requires Linked()
      modifies this, refresh.Values, families.Values
      ensures Linked()
      ensures (Abs(), r) == StoreSpec.TerminateSession(old(Abs()), now, userID, clientID)
    {
      hide LinkedMaps, Prune, Revoke, SessionAccess, FamiliesBehind, FamiliesOf, Submap, RequestValues;
      hide RefreshValues, FamilyValues;
      if userID == "" || clientID == "" { return Err(LogoutUnverified); }
      PruneLocked(now);
      SubmapValues(old(refresh), refresh);
      SubmapValues(old(families), families);
      var behind := DropSessionAccess(userID, clientID);
      var ended := FamiliesFor(userID, clientID);
      RevokeFamilies(behind + ended);
      r := Ok(());
    }

    method RevokeToken(now: Time, tokenOrID: string, clientID: string)
      requires Linked()
      modifies this, refresh.Values, families.Values
      ensures Linked()
      ensures Abs() == StoreSpec.RevokeToken(old(Abs()), now, tokenOrID, clientID)
    {
      hide LinkedMaps, Prune, Revoke, Submap, RequestValues, RefreshValues, FamilyValues;
      PruneLocked(now);
      SubmapValues(old(refresh), refresh);
      SubmapValues(old(families), families);
      if tokenOrID in access && access[tokenOrID].id != "" {
        var record := access[tokenOrID];
        if record.clientID == clientID {
          access := access - {tokenOrID};
          if record.familyID != "" {
            RevokeFamilyLocked(record.familyID);
          }
        }
        return;
      }
      var h := Sha256(tokenOrID);
      RefreshMinus(refresh, {});
      if h in refresh {
        RefreshAt(refresh, h);
        if refresh[h].clientID == clientID {
          RevokeFamilyLocked(refresh[h].familyID);
        }
      }
    }

    // ---- Tokens ----

    /** What the library's request is to the state machine: an object that is not the one stored is stale. */
    ghost function Requested(holder: Holder): TokenRequest
      reads this`authRequests, holder.Objects()
    {
      match holder
      case WithCode(auth) =>
        if auth.id in authRequests && authRequests[auth.id] == auth then ForCode(auth.id) else ForStale(auth.clientID)
      case WithRefresh(request) =>
        ForRefresh(request.clientID, request.subject, request.scopes, request.amr, request.authTime)
      case WithService(clientID, subject, scopes) => ForService(clientID, subject, scopes)
    }

    method TokenRequestInfo(holder: Holder) returns (info: Info)
      requires Linked()
      ensures info.clientID == holder.ClientID()
      ensures old(Requested(holder)).ForStale? || info == InfoOf(old(Abs()), old(Requested(holder)))
    {
      match holder
      case WithCode(auth) => info := Info(auth.clientID, auth.subject, auth.scopes, auth.amr, auth.authTime);
      case WithRefresh(request) =>
        info := Info(request.clientID, request.subject, request.scopes, request.amr, request.authTime);
      case WithService(clientID, subject, scopes) => info := Info(clientID, subject, scopes, [], 0);
    }

    /** A stored object that the prune took away is refused like one that never was stored. */
    twostate lemma StaleAfterPrune(holder: Holder)
      requires Submap(old(authRequests), authRequests)
      ensures Reserve(Abs(), Requested(holder)) == Reserve(Abs(), old(Requested(holder)))
    {
    }

    method ReserveAuthorizationCodeLocked(holder: Holder) returns (r: Result<()>)
      requires Linked()
      modifies this`codes
      ensures var q := Reserve(old(Abs()), old(Requested(holder)));
        if q.Ok? then r == Ok(()) && Abs() == q.value else r == Err(q.error) && Abs() == old(Abs())
    {
      hide LinkedMaps, RefreshValues, FamilyValues;
      if !holder.WithCode? { return Ok(()); }
      var auth := holder.auth;
      if auth.id !in authRequests || authRequests[auth.id] != auth || auth.code == "" { return Err(InvalidGrant); }
      if auth.code !in codes || codes[auth.code].requestID != auth.id || codes[auth.code].reserved {
        return Err(InvalidGrant);
      }
      codes := codes[auth.code := codes[auth.code].(reserved := true)];
      r := Ok(());
    }

    method AddAccessLocked(record: Access)
      modifies this`access, this`nextExpiry
      ensures Abs() == Scheduled(old(Abs()).(access := old(Abs()).access[record.id := record]), record.expires)
    {
      hide RequestValues, RefreshValues, FamilyValues;
      access := access[record.id := record];
      ScheduleExpiryLocked(record.expires);
    }

    method CreateAccessToken(now: Time, holder: Holder, random: Option<string>) returns (r: Result<AccessGrant>)
      requires Linked() && holder.ClientID() in cfg.clients
      modifies this
      ensures Linked()
      ensures (Abs(), r) == StoreSpec.CreateAccessToken(cfg, old(Abs()), now, old(Requested(holder)), random)
    {
      hide LinkedMaps, Prune, Submap, Abs, InfoOf, Reserve, Requested;
      if random.None? { return Err(RandomFailed); }
      var id := random.value;
      var info := TokenRequestInfo(holder);
      var audience := cfg.clients[info.clientID].audiences;
      PruneLocked(now);
      StaleAfterPrune(holder);
      StaleIsRefused(Abs(), old(Requested(holder)));
      var reserved := ReserveAuthorizationCodeLocked(holder);
      if reserved.Err? { return Err(reserved.error); }
      var expires := now + cfg.accessTTL;
      AddAccessLocked(Access(id, info.clientID, info.subject, audience, info.scopes, expires, now, info.authTime,
                             info.amr, ""));
      r := Ok(AccessGrant(id, expires));
    }

    method CompactFamilyTokensLocked(family: RefreshFamily)
      modifies family`tokens
      ensures family.tokens == Compact(old(family.tokens), RefreshValues(refresh))
    {
      var live := [];
      for i := 0 to |family.tokens|
        invariant live == Compact(family.tokens[..i], RefreshValues(refresh)) && family.tokens == old(family.tokens)
      {
        var hash := family.tokens[i];
        assert family.tokens[..i + 1][..i] == family.tokens[..i];
        if hash in refresh && !refresh[hash].consumed {
          live := live + [hash];
        }
      }
      assert family.tokens[..|family.tokens|] == family.tokens;
      family.tokens := live;
    }

    method StartFamily(id: string, info: Info, expires: Time)
      requires Linked()
      modifies this`families, this`nextExpiry
      ensures Linked() && id in families && fresh(families[id])
      ensures var s, family := old(Abs()), Family(info.clientID, info.subject, expires, false, []);
        Abs() == Scheduled(s.(families := s.families[id := family]), expires)
    {
      hide OwnRequests, OwnRefresh, OwnFamilies, RequestValues, RefreshValues, FamilyValues;
      var family := new RefreshFamily(id, info.clientID, info.subject, expires);
      FamiliesPlus(families, id, family);
      families := families[id := family];
      ScheduleExpiryLocked(expires);
    }

    method RotateLocked(h: Digest)
      requires Linked() && h in refresh && refresh[h].familyID in families
      modifies this`access, refresh[h], families[refresh[h].familyID]
      ensures h in old(Abs()).refresh && old(Abs()).refresh[h].familyID in old(Abs()).families
      ensures Abs() == Rotate(old(Abs()), h)
    {
      hide OwnRequests, RequestValues, RefreshValues, FamilyValues, Compact;
      var prior := refresh[h];
      var familyID := prior.familyID;
      RefreshAt(refresh, h);
      FamilyAt(families, familyID);
      var accessID := ConsumeRefreshRecord(prior);
      RefreshWritten(refresh, h);
      label consumed:
      access := access - {accessID};
      CompactFamilyTokensLocked(families[familyID]);
      RequestsKept(authRequests);
      RefreshKept@consumed(refresh);
      FamilyWritten(families, familyID);
    }

    method IndexToken(familyID: string, token: Digest)
      requires Linked() && familyID in families
      modifies families[familyID]
      ensures Linked() && familyID in old(Abs()).families
      ensures var family := old(Abs()).families[familyID];
        Abs() == old(Abs()).(families := old(Abs()).families[familyID := family.(tokens := family.tokens + [token])])
    {
      hide OwnRequests, OwnRefresh, OwnFamilies, RequestValues, RefreshValues, FamilyValues;
      FamilyAt(families, familyID);
      families[familyID].tokens := families[familyID].tokens + [token];
      WroteFamily(familyID);
    }

    method AddRefreshLocked(h: Digest, value: Refresh)
      requires Linked()
      modifies this`refresh
      ensures Linked() && Abs() == old(Abs()).(refresh := old(Abs()).refresh[h := value])
    {
      hide OwnRequests, OwnRefresh, OwnFamilies, RequestValues, RefreshValues, FamilyValues;
      var record := new RefreshRecord(h, value);
      RefreshPlus(refresh, h, record);
      refresh := refresh[h := record];
    }

    method AddPairLocked(now: Time, info: Info, familyID: string, accessID: string, token: string)
      requires Linked() && familyID in families && info.clientID in cfg.clients
      modifies this, families[familyID]
      ensures Linked() && familyID in old(Abs()).families
      ensures Abs() == AddPair(cfg, old(Abs()), now, info, familyID, accessID, token)
    {
      hide LinkedMaps, Abs;
      var audience, expires := cfg.clients[info.clientID].audiences, now + cfg.accessTTL;
      IndexToken(familyID, Sha256(token));
      AddRefreshLocked(Sha256(token),
        Refresh(familyID, info.clientID, info.subject, audience, info.scopes, info.amr, info.authTime, false,
                accessID));
      AddAccessLocked(
        Access(accessID, info.clientID, info.subject, audience, info.scopes, expires, now, info.authTime, info.amr,
               familyID));
    }

    /** The branch for a presented refresh token: its family, after consuming the token's record. */
    method RotateForLocked(now: Time, clientID: string, current: string) returns (r: Result<string>)
      requires Linked()
      modifies this, refresh.Values, families.Values
      ensures Linked()
      ensures var q, h := old(Abs()), Sha256(current);
        if h !in q.refresh then Abs() == q && r == Err(InvalidGrant)
        else
          var prior := q.refresh[h];
          if prior.consumed then Abs() == Revoke(q, {prior.familyID}) && r == Err(InvalidGrant)
          else if prior.familyID !in q.families || q.families[prior.familyID].revoked
                  || q.families[prior.familyID].expires <= now || prior.clientID != clientID
          then Abs() == q && r == Err(InvalidGrant)
          else Abs() == Rotate(q, h) && r == Ok(prior.familyID)
      ensures r.Ok? ==> r.value in families && families[r.value] in old(families.Values)
    {
      hide LinkedMaps, Submap, Abs, Revoke, Rotate;
      var h := Sha256(current);
      Keys();
      if h !in refresh { return Err(InvalidGrant); }
      var prior := refresh[h];
      HoldsRefresh(h);
      var familyID := prior.familyID;
      if prior.consumed {
        RevokeFamilyLocked(familyID);
        return Err(InvalidGrant);
      }
      if familyID !in families { return Err(InvalidGrant); }
      HoldsFamily(familyID);
      if families[familyID].revoked || families[familyID].expires <= now || prior.clientID != clientID {
        return Err(InvalidGrant);
      }
      RotateLocked(h);
      r := Ok(familyID);
    }

    method CreateAccessAndRefreshTokens(now: Time, holder: Holder, current: string, newToken: Option<string>,
                                        accessID: Option<string>, newFamily: Option<string>)
      returns (r: Result<TokenGrant>)
      requires Linked() && holder.ClientID() in cfg.clients
      modifies this, refresh.Values, families.Values
      ensures Linked()
      ensures (Abs(), r) == StoreSpec.CreateAccessAndRefreshTokens(
        cfg, old(Abs()), now, old(Requested(holder)), current, newToken, accessID, newFamily)
    {
      hide LinkedMaps, Prune, Submap, Abs, InfoOf, Reserve, Requested, Revoke, AddPair, Rotate;
      var info := TokenRequestInfo(holder);
      if newToken.None? || accessID.None? { return Err(RandomFailed); }
      PruneLocked(now);
      SubmapValues(old(refresh), refresh);
      SubmapValues(old(families), families);
      StaleAfterPrune(holder);
      StaleIsRefused(Abs(), old(Requested(holder)));
      var reserved := ReserveAuthorizationCodeLocked(holder);
      if reserved.Err? { return Err(reserved.error); }
      var familyID;
      if current == "" {
        if newFamily.None? { return Err(RandomFailed); }
        familyID := newFamily.value;
        StartFamily(familyID, info, now + cfg.refreshTTL);
      } else {
        var rotated := RotateForLocked(now, info.clientID, current);
        if rotated.Err? { return Err(rotated.error); }
        familyID := rotated.value;
      }
      AddPairLocked(now, info, familyID, accessID.value, newToken.value);
      r := Ok(TokenGrant(accessID.value, newToken.value, now + cfg.accessTTL, familyID));
    }

    method TokenRequestByRefreshToken(now: Time, token: string) returns (r: Result<RefreshRequest>)
      requires Linked()
      modifies this, refresh.Values, families.Values
      ensures Linked()
      ensures var (s, result) := StoreSpec.TokenRequestByRefreshToken(old(Abs()), now, token);
        && Abs() == s
        && if result.Ok? then r.Ok? && fresh(r.value) && r.value.Value() == result.value else r == Err(result.error)
    {
      hide LinkedMaps, Prune, Submap, Abs, Revoke;
      PruneLocked(now);
      SubmapValues(old(refresh), refresh);
      SubmapValues(old(families), families);
      var h := Sha256(token);
      Keys();
      if h !in refresh { return Err(InvalidRefreshToken); }
      var record := refresh[h];
      HoldsRefresh(h);
      if record.consumed {
        RevokeFamilyLocked(record.familyID);
        return Err(InvalidGrant);
      }
      if record.familyID !in families { return Err(InvalidGrant); }
      var family := families[record.familyID];
      HoldsFamily(record.familyID);
      if family.revoked || family.expires <= now { return Err(InvalidGrant); }
      var grant := RefreshGrant(record.clientID, record.subject, record.audience, record.scopes, record.amr,
                                record.authTime, record.familyID);
      var request := new RefreshRequest(grant);
      r := Ok(request);
    }

    method GetRefreshTokenInfo(now: Time, clientID: string, token: string) returns (r: Result<string>)
      requires Linked()
      modifies this
      ensures Linked()
      ensures (Abs(), r) == StoreSpec.GetRefreshTokenInfo(old(Abs()), now, clientID, token)
    {
      hide LinkedMaps, Prune, Submap, Abs;
      PruneLocked(now);
      var h := Sha256(token);
      Keys();
      if h !in refresh { return Err(InvalidRefreshToken); }
      var record := refresh[h];
      HoldsRefresh(h);
      if record.clientID != clientID || record.consumed || record.familyID !in families {
        return Err(InvalidRefreshToken);
      }
      HoldsFamily(record.familyID);
      if families[record.familyID].revoked { return Err(InvalidRefreshToken); }
      r := Ok(record.subject);
    }

    // ---- Claims and introspection ----

    method SetUserinfoFromToken(now: Time, tokenID: string, subject: string, origin: string) returns (r: Result<Claims>)
      requires Linked()
      modifies this
      ensures Linked()
      ensures (Abs(), r) == UserinfoFromToken(cfg, old(Abs()), now, tokenID, subject, origin)
    {
      hide Prune;
      PruneLocked(now);
      if tokenID !in access || access[tokenID].subject != subject { return Err(InvalidToken); }
      var record := access[tokenID];
      if origin != "" {
        if record.clientID !in cfg.clients || origin !in cfg.clients[record.clientID].origins {
          return Err(InvalidToken);
        }
      }
      r := SetUserinfo(record.subject, record.scopes);
    }

    method SetUserinfo(subject: string, scopes: seq<string>) returns (r: Result<Claims>)
      ensures r == if subject in cfg.users then Ok(UserClaims(cfg.users[subject], scopes)) else Err(UserNotFound)
    {
      if subject !in cfg.users { return Err(UserNotFound); }
      var user := cfg.users[subject];
      var info := Claims(user.id, "", "", "", false);
      if "profile" in scopes {
        info := info.(name := user.name, preferredUsername := user.username);
      }
      if "email" in scopes {
        info := info.(email := user.email, emailVerified := user.emailVerified);
      }
      r := Ok(info);
    }

    method SetIntrospectionFromToken(now: Time, tokenID: string, subject: string,
                                     clientID: string) returns (r: Result<Access>)
      requires Linked()
      modifies this
      ensures Linked()
      ensures (Abs(), r) == Introspect(old(Abs()), now, tokenID, subject, clientID)
    {
      hide Prune;
      PruneLocked(now);
      if tokenID !in access || access[tokenID].subject != subject || access[tokenID].clientID != clientID {
        return Err(Inactive);
      }
      r := Ok(access[tokenID]);
    }

    method ClientCredentialsTokenRequest(id: string, scopes: seq<string>) returns (r: Result<TokenRequest>)
      ensures r == StoreSpec.ClientCredentialsTokenRequest(cfg, id, scopes)
    {
      if id !in cfg.clients || !cfg.clients[id].kind.Service? { return Err(InvalidClient); }
      var client := cfg.clients[id];
      if |scopes| == 0 { return Err(InvalidScope); }
      for i := 0 to |scopes|
        invariant forall k | 0 <= k < i :: scopes[k] in client.allowedScopes && scopes[k] in client.permissions
      {
        if scopes[i] !in client.allowedScopes || scopes[i] !in client.permissions {
          assert scopes[i] in scopes;
          return Err(InvalidScope);
        }
      }
      r := Ok(ForService(id, id, scopes));
    }
  }

  lemma StaleIsRefused(p: State, request: TokenRequest)
    ensures request.ForStale? ==> Reserve(p, request) == Err(InvalidGrant)
  {
  }

  lemma ScanParts(s: State, now: Time, requests: map<string, Request>, codes: map<string, Code>,
                  access: map<string, Access>,
                  refresh: map<Digest, Refresh>, families: map<string, Family>, next: Time)
    requires requests == s.requests - ExpiredRequests(s.requests, now)
    requires codes == s.codes - CodesOf(s.requests, ExpiredRequests(s.requests, now))
                      - ExpiredCodes(s.codes - CodesOf(s.requests, ExpiredRequests(s.requests, now)), now)
    requires access == s.access - ExpiredAccess(s.access, now)
    requires refresh == s.refresh - DeadConsumed(s.refresh, s.families, now)
                                  - TokensOf(s.families, ExpiredFamilies(s.families, now))
    requires families == s.families - ExpiredFamilies(s.families, now)
    requires next == Earliest(RequestTimes(s.requests, s.requests.Keys - ExpiredRequests(s.requests, now))
               + CodeTimes(codes) + AccessTimes(access)
               + FamilyTimes(s.families, s.families.Keys - ExpiredFamilies(s.families, now)))
    ensures State(requests, codes, access, refresh, families, next) == Scan(s, now)
  {
    KeptTimes(s.requests, s.families, now);
  }

  ghost predicate Submap<K, V>(m: map<K, V>, n: map<K, V>) {
    forall k | k in n :: k in m && m[k] == n[k]
  }

  lemma SubmapSame<K, V>(m: map<K, V>)
    ensures Submap(m, m)
  {
  }

  lemma SubmapAt<K, V>(m: map<K, V>, n: map<K, V>, k: K)
    requires Submap(m, n) && k in n
    ensures n[k] in m.Values
  {
    assert k in m;
  }

  lemma SubmapValues<K, V>(m: map<K, V>, n: map<K, V>)
    requires Submap(m, n)
    ensures n.Values <= m.Values
  {
    forall v | v in n.Values ensures v in m.Values {
      var k :| k in n && n[k] == v;
      assert k in m && m[k] == v;
    }
  }

  lemma SubmapTwice<K, V>(m: map<K, V>, n: map<K, V>, o: map<K, V>)
    requires Submap(m, n) && Submap(n, o)
    ensures Submap(m, o)
  {
  }

  // ---- Revoking one family after another ----

  lemma RevokeNone(s: State)
    ensures Revoke(s, {}) == s
  {
    assert {} * s.families.Keys == {};
    assert AccessOf(s.refresh, {}) == {} && MembersOf(s.refresh, {}) == {};
    assert s.access - {} == s.access && s.refresh - {} == s.refresh && s.families - {} == s.families;
  }

  lemma NothingRevoked(s: State, id: string)
    requires id !in s.families
    ensures Revoke(s, {id}) == s
  {
    assert {id} * s.families.Keys == {};
    RevokeNone(s);
    assert {} * s.families.Keys == {};
  }

  lemma OneRevoked(s: State, id: string)
    requires id in s.families
    ensures Revoke(s, {id}) == s.(access := s.access - AccessOf(s.refresh, {id}),
                                  refresh := s.refresh - MembersOf(s.refresh, {id}), families := s.families - {id})
  {
    assert {id} * s.families.Keys == {id};
  }

  lemma AccessOfMore(all: map<Digest, Refresh>, rest: map<Digest, Refresh>, ids: set<string>, id: string)
    requires id !in ids && rest == all - MembersOf(all, ids)
    ensures AccessOf(all, ids + {id}) == AccessOf(all, ids) + AccessOf(rest, {id})
  {
    forall a | a in AccessOf(all, ids + {id}) ensures a in AccessOf(all, ids) + AccessOf(rest, {id}) {
      var h :| h in all && all[h].familyID in ids + {id} && !all[h].consumed && all[h].accessID == a;
      assert all[h].familyID == id ==> h in rest;
    }
  }

  lemma RevokeTwice(s: State, ids: set<string>, id: string)
    ensures Revoke(Revoke(s, ids), {id}) == Revoke(s, ids + {id})
  {
    var r, stored := Revoke(s, ids), ids * s.families.Keys;
    if id in r.families {
      OneRevoked(r, id);
      assert (ids + {id}) * s.families.Keys == stored + {id};
      assert MembersOf(s.refresh, stored + {id}) == MembersOf(s.refresh, stored) + MembersOf(r.refresh, {id});
      AccessOfMore(s.refresh, r.refresh, stored, id);
      MinusTwice(s.access, AccessOf(s.refresh, stored), AccessOf(r.refresh, {id}));
      MinusTwice(s.refresh, MembersOf(s.refresh, stored), MembersOf(r.refresh, {id}));
      MinusTwice(s.families, stored, {id});
    } else {
      NothingRevoked(r, id);
      assert (ids + {id}) * s.families.Keys == stored;
    }
  }

  // ---- Set algebra of the loops that visit the keys of a map in any order ----

  lemma MinusTwice<K, V>(m: map<K, V>, a: set<K>, b: set<K>)
    ensures m - a - b == m - (a + b)
  {
  }

  lemma NothingDone<K, V>(all: map<K, V>, expired: set<K>)
    ensures all.Keys == all.Keys - {} && expired * {} == {} && {} - expired == {} && all == all - {}
  {
  }

  lemma StillThere<K, V>(all: map<K, V>, expired: set<K>, done: set<K>, k: K)
    requires k in all.Keys - done
    ensures k in all - expired * done
  {
  }

  lemma OneMore<K, V>(all: map<K, V>, expired: set<K>, done: set<K>, k: K)
    requires k in all.Keys - done
    ensures all.Keys - (done + {k}) == all.Keys - done - {k}
    ensures k in expired ==> expired * (done + {k}) == expired * done + {k} && (done + {k}) - expired == done - expired
    ensures k in expired ==> all - expired * done - {k} == all - expired * (done + {k})
    ensures k !in expired ==> expired * (done + {k}) == expired * done && (done + {k}) - expired == done - expired + {k}
  {
  }

  lemma AllDone<K, V>(all: map<K, V>, expired: set<K>, done: set<K>)
    requires all.Keys - done == {} && expired <= all.Keys && done <= all.Keys
    ensures expired * done == expired && done - expired == all.Keys - expired && done == all.Keys
  {
    forall k | k in all.Keys ensures k in done { assert k !in all.Keys - done; }
  }

  lemma NoTimes(requests: map<string, Request>, families: map<string, Family>)
    ensures RequestTimes(requests, {}) == {} && FamilyTimes(families, {}) == {}
    ensures Earliest({}) == 0 && CodesOf(requests, {}) == {} && TokensOf(families, {}) == {}
  {
  }

  lemma MoreRequestTimes(requests: map<string, Request>, ids: set<string>, id: string)
    requires id in requests
    ensures Earliest(RequestTimes(requests, ids + {id}))
      == Schedule(Earliest(RequestTimes(requests, ids)), requests[id].expires)
  {
    EarliestOfMore(RequestTimes(requests, ids), requests[id].expires);
    assert RequestTimes(requests, ids + {id}) == RequestTimes(requests, ids) + {requests[id].expires};
  }

  lemma MoreFamilyTimes(families: map<string, Family>, times: set<Time>, ids: set<string>, id: string)
    requires id in families
    ensures Earliest(times + FamilyTimes(families, ids + {id}))
         == Schedule(Earliest(times + FamilyTimes(families, ids)), families[id].expires)
  {
    EarliestOfMore(times + FamilyTimes(families, ids), families[id].expires);
    assert FamilyTimes(families, ids + {id}) == FamilyTimes(families, ids) + {families[id].expires};
    assert times + (FamilyTimes(families, ids) + {families[id].expires})
      == times + FamilyTimes(families, ids) + {families[id].expires};
  }

  lemma MoreCodeTimes(all: map<string, Code>, times: set<Time>, expired: set<string>, done: set<string>, code: string)
    requires code in all && code !in expired && code !in done
    ensures Earliest(times + CodeTimes(all - (expired + (all.Keys - (done + {code})))))
         == Schedule(Earliest(times + CodeTimes(all - (expired + (all.Keys - done)))), all[code].expires)
  {
    var before, after := all - (expired + (all.Keys - done)), all - (expired + (all.Keys - (done + {code})));
    EarliestOfMore(times + CodeTimes(before), all[code].expires);
    assert after == before[code := all[code]];
    forall e | e in CodeTimes(before) + {all[code].expires} ensures e in CodeTimes(after) {
      if e == all[code].expires {
        assert after[code].expires == e;
      } else {
        var k :| k in before && before[k].expires == e;
        assert after[k].expires == e;
      }
    }
    assert CodeTimes(after) == CodeTimes(before) + {all[code].expires};
    assert times + CodeTimes(after) == times + CodeTimes(before) + {all[code].expires};
  }

  lemma MoreAccessTimes(all: map<string, Access>, times: set<Time>, expired: set<string>, done: set<string>, id: string)
    requires id in all && id !in expired && id !in done
    ensures Earliest(times + AccessTimes(all - (expired + (all.Keys - (done + {id})))))
         == Schedule(Earliest(times + AccessTimes(all - (expired + (all.Keys - done)))), all[id].expires)
  {
    var before, after := all - (expired + (all.Keys - done)), all - (expired + (all.Keys - (done + {id})));
    EarliestOfMore(times + AccessTimes(before), all[id].expires);
    assert after == before[id := all[id]];
    forall e | e in AccessTimes(before) + {all[id].expires} ensures e in AccessTimes(after) {
      if e == all[id].expires {
        assert after[id].expires == e;
      } else {
        var k :| k in before && before[k].expires == e;
        assert after[k].expires == e;
      }
    }
    assert AccessTimes(after) == AccessTimes(before) + {all[id].expires};
    assert times + AccessTimes(after) == times + AccessTimes(before) + {all[id].expires};
  }

  function CodeNamed(code: string): set<string> {
    if code != "" then {code} else {}
  }

  lemma MoreCodes(requests: map<string, Request>, ids: set<string>, id: string)
    requires id in requests
    ensures CodesOf(requests, ids + {id})
      == CodesOf(requests, ids) + CodeNamed(requests[id].code)
  {
  }

  /** One more request of the loop over requests. */
  lemma PrunedOneMore(requests: map<string, Request>, codes: map<string, Code>, expired: set<string>, done: set<string>,
                      id: string)
    requires id in requests && id !in done
    ensures id in expired ==>
      && (done + {id}) - expired == done - expired
      && codes - CodesOf(requests, expired * (done + {id}))
         == codes - CodesOf(requests, expired * done) - CodeNamed(requests[id].code)
    ensures id !in expired ==>
      && codes - CodesOf(requests, expired * (done + {id})) == codes - CodesOf(requests, expired * done)
      && Earliest(RequestTimes(requests, (done + {id}) - expired))
         == Schedule(Earliest(RequestTimes(requests, done - expired)), requests[id].expires)
  {
    hide CodesOf, RequestTimes, Earliest;
    if id in expired {
      assert expired * (done + {id}) == expired * done + {id} && (done + {id}) - expired == done - expired;
      MoreCodes(requests, expired * done, id);
      MinusTwice(codes, CodesOf(requests, expired * done), CodeNamed(requests[id].code));
    } else {
      assert expired * (done + {id}) == expired * done && (done + {id}) - expired == (done - expired) + {id};
      MoreRequestTimes(requests, done - expired, id);
    }
  }

  /** One more family of the loop over families. */
  lemma DroppedOneMore<V>(stored: map<string, Family>, records: map<Digest, V>, times: set<Time>, expired: set<string>,
                          done: set<string>, id: string)
    requires id in stored && id !in done
    ensures id in expired ==>
      && (done + {id}) - expired == done - expired
      && records - TokensOf(stored, expired * (done + {id}))
         == records - TokensOf(stored, expired * done) - (set h | h in stored[id].tokens)
    ensures id !in expired ==>
      && records - TokensOf(stored, expired * (done + {id})) == records - TokensOf(stored, expired * done)
      && Earliest(times + FamilyTimes(stored, (done + {id}) - expired))
         == Schedule(Earliest(times + FamilyTimes(stored, done - expired)), stored[id].expires)
  {
    hide TokensOf, FamilyTimes, Earliest;
    if id in expired {
      assert expired * (done + {id}) == expired * done + {id} && (done + {id}) - expired == done - expired;
      MoreTokens(stored, expired * done, id);
      MinusTwice(records, TokensOf(stored, expired * done), set h | h in stored[id].tokens);
    } else {
      assert expired * (done + {id}) == expired * done && (done + {id}) - expired == (done - expired) + {id};
      MoreFamilyTimes(stored, times, done - expired, id);
    }
  }

  /** One more refresh record of the loop over a family's records. */
  lemma RevokedOneMore(records: map<Digest, Refresh>, accounts: map<string, Access>, members: set<Digest>,
                       done: set<Digest>, h: Digest)
    requires h in records && h !in done
    ensures accounts - AccessAt(records, members * (done + {h}))
         == accounts - AccessAt(records, members * done)
            - if h !in members then {} else AccessNamed(records[h])
  {
    hide AccessAt;
    if h in members {
      assert members * (done + {h}) == members * done + {h};
      MoreAccess(records, members * done, h);
      MinusTwice(accounts, AccessAt(records, members * done),
                 if records[h].consumed then {} else {records[h].accessID});
    } else {
      assert members * (done + {h}) == members * done;
      MinusTwice(accounts, AccessAt(records, members * done), {});
    }
  }

  function AccessNamed(record: Refresh): set<string> {
    if record.consumed then {} else {record.accessID}
  }

  ghost function AccessAt(records: map<Digest, Refresh>, hashes: set<Digest>): set<string> {
    set h | h in hashes && h in records && !records[h].consumed :: records[h].accessID
  }

  lemma AccessOfMembers(records: map<Digest, Refresh>, ids: set<string>)
    ensures AccessAt(records, MembersOf(records, ids)) == AccessOf(records, ids) && AccessAt(records, {}) == {}
  {
  }

  lemma MemberAt(records: map<Digest, Refresh>, h: Digest, id: string)
    requires h in records
    ensures h in MembersOf(records, {id}) <==> records[h].familyID == id
  {
  }

  lemma MoreAccess(records: map<Digest, Refresh>, hashes: set<Digest>, h: Digest)
    requires h in records
    ensures AccessAt(records, hashes + {h})
      == AccessAt(records, hashes) + if records[h].consumed then {} else {records[h].accessID}
  {
  }

  lemma MoreFamiliesBehind(access: map<string, Access>, ids: set<string>, id: string)
    requires id in access
    ensures FamiliesBehind(access, ids + {id})
         == FamiliesBehind(access, ids) + if access[id].familyID != "" then {access[id].familyID} else {}
  {
  }

  lemma MoreTokens(families: map<string, Family>, ids: set<string>, id: string)
    requires id in families
    ensures TokensOf(families, ids + {id}) == TokensOf(families, ids) + (set h | h in families[id].tokens)
  {
  }

  /** The times of the records that stay, read before and after the scan. */
  lemma KeptTimes(requests: map<string, Request>, families: map<string, Family>, now: Time)
    ensures var kept := requests - ExpiredRequests(requests, now);
      RequestTimes(kept, kept.Keys) == RequestTimes(requests, requests.Keys - ExpiredRequests(requests, now))
    ensures var kept := families - ExpiredFamilies(families, now);
      FamilyTimes(kept, kept.Keys) == FamilyTimes(families, families.Keys - ExpiredFamilies(families, now))
  {
  }
}
