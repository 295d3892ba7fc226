/** The life of authorization requests over any run: how many there are, who can log one in, and when one is deleted.
    The two halves of a password login are separate events with anything in between; the second is told here from the
    first and from the state. */
module StoreRequests {
  import opened Realm
  import opened StoreSpec
  import opened StoreInvariant
  import opened StoreRuns
  import opened StoreGuarantees
  import opened StoreExact

  // ---- How many ----

  lemma NewRequestIsAuthorized(cfg: Settings, y: System, e: Event)
    requires Inv(y.store, y.used) && !e.Authorize?
    ensures After(cfg, y.store, e).requests.Keys <= y.store.requests.Keys
  {
    hide After, Inv;
    forall id | id in After(cfg, y.store, e).requests ensures id in y.store.requests {
      EventChange(cfg, y, e, id);
    }
  }

  lemma SubsetIsSmaller<T>(a: set<T>, b: set<T>)
    requires a <= b
    ensures |a| <= |b|
  {
    assert b == a + (b - a);
  }

  lemma AuthorizeKeepsBound(cfg: Settings, y: System, e: Event)
    requires Inv(y.store, y.used) && e.Authorize? && |y.store.requests.Keys| <= 1024
    ensures |After(cfg, y.store, e).requests.Keys| <= 1024
  {
    hide CreateAuthRequest, Inv, Eager;
    var live := Eager(y.store, e.now);
    CreateRequestIsExact(cfg, y.store, y.used, e.now, e.promptNone, e.drawn, e.clientID, e.scopes, e.userID, e.details);
    LiveRequests(y.store, e.now);
    SubsetIsSmaller(live.requests.Keys, y.store.requests.Keys);
    assert |live.requests| == |live.requests.Keys|;
  }

  lemma LiveRequests(s: State, now: Time)
    ensures Eager(s, now).requests.Keys <= s.requests.Keys
  {
  }

  lemma StepKeepsBound(cfg: Settings, y: System, e: Event, y': System)
    requires SystemInv(cfg, y) && Next(cfg, y, e, y') && |y.store.requests| <= 1024
    ensures |y'.store.requests| <= 1024
  {
    hide Inv, After, ScopesOK, LentOK, AttemptOK, Permitted;
    var before, after := y.store.requests, y'.store.requests;
    assert |before| == |before.Keys| && |after| == |after.Keys|;
    if e.Authorize? {
      AuthorizeKeepsBound(cfg, y, e);
    } else {
      NewRequestIsAuthorized(cfg, y, e);
      SubsetIsSmaller(after.Keys, before.Keys);
    }
  }

  /** However authorization requests arrive, no state of a run holds more than 1024 of them. */
  lemma {:induction false} PendingBound(cfg: Settings, ys: seq<System>, es: seq<Event>, j: nat)
    requires IsRun(cfg, ys, es) && j < |ys|
    ensures |ys[j].store.requests| <= 1024
  {
    hide SystemInv, Next, WellFormed;
    if j == 0 {
      EmptyAtStart(cfg, ys, es);
    } else {
      PendingBound(cfg, ys, es, j - 1);
      RunInv(cfg, ys, es, j - 1);
      StepOf(cfg, ys, es, j - 1);
      StepKeepsBound(cfg, ys[j - 1], es[j - 1], ys[j]);
    }
  }

  // ---- Login ----

  /** What the second half is called with comes from a first half for the same request. */
  lemma {:induction false} AttemptOrigin(cfg: Settings, ys: seq<System>, es: seq<Event>, j: nat, a: Attempt)
    returns (k: nat)
    requires IsRun(cfg, ys, es) && j < |ys| && a in ys[j].attempts
    ensures k < j && es[k].LoginBegin? && es[k].id == a.id
    ensures AuthenticateBegin(cfg, ys[k].store, es[k].now, es[k].id, es[k].username).1 == Ok(a.candidate)
  {
    hide AuthenticateBegin, After, Permitted, WellFormed;
    assert j != 0;
    StepOf(cfg, ys, es, j - 1);
    if a in ys[j - 1].attempts {
      k := AttemptOrigin(cfg, ys, es, j - 1, a);
    } else {
      k := j - 1;
    }
  }

  lemma EndsWhatBegan(cfg: Settings, ys: seq<System>, es: seq<Event>, j: nat) returns (k: nat)
    requires IsRun(cfg, ys, es) && j < |es| && es[j].LoginEnd?
    ensures k < j && es[k].LoginBegin? && es[k].id == es[j].id
    ensures AuthenticateBegin(cfg, ys[k].store, es[k].now, es[k].id, es[k].username).1 == Ok(es[j].candidate)
  {
    hide AuthenticateBegin, After, WellFormed, IsRun, FreshDraws;
    RunLength(cfg, ys, es);
    StepOf(cfg, ys, es, j);
    k := AttemptOrigin(cfg, ys, es, j, Attempt(es[j].id, es[j].candidate));
  }

  /** The state holds the request, unexpired at the given time. */
  ghost predicate Holds(y: System, id: string, now: Time) {
    id in y.store.requests && now < y.store.requests[id].expires
  }

  lemma StoredIsLive(y: System, id: string, now: Time)
    ensures id in Eager(y.store, now).requests <==> Holds(y, id, now)
    ensures Holds(y, id, now) ==> Eager(y.store, now).requests[id] == y.store.requests[id]
  {
  }

  /** A password login goes through exactly when its first half found the request and a user of the name given there,
      the password was right, and the request is still stored, unexpired and waiting. Then the request is that user's,
      with the granted scopes, from the second reading of the clock, by password. */
  lemma PasswordLoginIff(cfg: Settings, ys: seq<System>, es: seq<Event>, j: nat) returns (k: nat)
    requires IsRun(cfg, ys, es) && j < |es| && es[j].LoginEnd?
    ensures k < j && es[k].LoginBegin? && es[k].id == es[j].id && |ys| == |es| + 1
    ensures var e, id, name, y := es[j], es[j].id, es[k].username, ys[j];
      var passes := e.passwordOK && name in cfg.usernames && Holds(ys[k], id, es[k].now)
                    && Holds(y, id, e.now) && !y.store.requests[id].done;
      && (AuthenticateEnd(cfg, y.store, e.now, id, e.candidate, e.passwordOK).1.Ok? <==> passes)
      && (passes ==>
            && name in cfg.usernames && cfg.usernames[name] in cfg.users && y.store.requests[id].clientID in cfg.clients
            && id in ys[j + 1].store.requests
            && ys[j + 1].store.requests[id]
               == LoggedInAs(cfg, y.store.requests[id], cfg.users[cfg.usernames[name]], e.now, "pwd"))
  {
    hide AuthenticateBegin, AuthenticateEnd, IsRun, Eager, LoggedInAs, LentOK, AttemptOK, ScopesOK, Inv, FreshDraws;
    hide WellFormed;
    k := EndsWhatBegan(cfg, ys, es, j);
    RunLength(cfg, ys, es);
    RunInv(cfg, ys, es, k);
    RunInv(cfg, ys, es, j);
    StepOf(cfg, ys, es, j);
    var e, id := es[j], es[j].id;
    StoredIsLive(ys[k], id, es[k].now);
    StoredIsLive(ys[j], id, e.now);
    LoginBeginIsExact(cfg, ys[k].store, ys[k].used, es[k].now, id, es[k].username);
    LoginEndIsExact(cfg, ys[j].store, ys[j].used, e.now, id, e.candidate, e.passwordOK);
    NamesAreUsers(cfg);
    ClientsAreRegistered(cfg, ys[j].store);
  }

  lemma NamesAreUsers(cfg: Settings)
    requires WellFormed(cfg)
    ensures forall name | name in cfg.usernames :: cfg.usernames[name] in cfg.users
  {
  }

  lemma ClientsAreRegistered(cfg: Settings, s: State)
    requires ScopesOK(cfg, s)
    ensures forall id | id in s.requests :: s.requests[id].clientID in cfg.clients
  {
  }

  lemma SelectionIff(cfg: Settings, ys: seq<System>, es: seq<Event>, j: nat)
    requires IsRun(cfg, ys, es) && j < |es| && es[j].Select?
    ensures |ys| == |es| + 1
    ensures var e, id, y := es[j], es[j].id, ys[j];
      var passes := e.userID in cfg.users && Holds(y, id, e.now) && !y.store.requests[id].done;
      && (SelectIdentity(cfg, y.store, e.now, id, e.userID).1.Ok? <==> passes)
      && (passes ==>
            && y.store.requests[id].clientID in cfg.clients && id in ys[j + 1].store.requests
            && ys[j + 1].store.requests[id]
               == LoggedInAs(cfg, y.store.requests[id], cfg.users[e.userID], e.now, "dev-select"))
  {
    hide SelectIdentity, IsRun, Eager, LoggedInAs, LentOK, AttemptOK, ScopesOK, Inv, FreshDraws, WellFormed;
    RunLength(cfg, ys, es);
    RunInv(cfg, ys, es, j);
    StepOf(cfg, ys, es, j);
    StoredIsLive(ys[j], es[j].id, es[j].now);
    SelectIsExact(cfg, ys[j].store, ys[j].used, es[j].now, es[j].id, es[j].userID);
    ClientsAreRegistered(cfg, ys[j].store);
  }

  lemma {:induction false} BecomesDone(cfg: Settings, ys: seq<System>, es: seq<Event>, j: nat, id: string)
    requires IsRun(cfg, ys, es) && |ys| == |es| + 1 && j < |es|
    requires id in ys[j].store.requests && id in ys[j + 1].store.requests
    requires !ys[j].store.requests[id].done && ys[j + 1].store.requests[id].done
    ensures (es[j].LoginEnd? || es[j].Select?) && es[j].id == id && LoginSucceeds(cfg, ys[j].store, es[j], id)
  {
    hide AuthenticateEnd, SelectIdentity, IsRun, Inv, ScopesOK, LentOK, AttemptOK, After, Permitted, WellFormed;
    RunLength(cfg, ys, es);
    RunInv(cfg, ys, es, j);
    StepOf(cfg, ys, es, j);
    EventChange(cfg, ys[j], es[j], id);
  }

  /** Nothing else logs a request in: one that becomes done does so by the selection of a registered user, or by the
      right password for a registered name that an earlier attempt on the same request gave; and it is that user's. */
  lemma {:induction false} LoginNeedsPassword(cfg: Settings, ys: seq<System>, es: seq<Event>, j: nat, id: string)
    requires IsRun(cfg, ys, es) && |ys| == |es| + 1 && j < |es|
    requires id in ys[j].store.requests && id in ys[j + 1].store.requests
    requires !ys[j].store.requests[id].done && ys[j + 1].store.requests[id].done
    ensures es[j].Select? || es[j].LoginEnd?
    ensures es[j].Select? ==>
      && es[j].id == id && es[j].userID in cfg.users && ys[j + 1].store.requests[id].subject == es[j].userID
      && ys[j + 1].store.requests[id].amr == ["dev-select"] && ys[j + 1].store.requests[id].authTime == es[j].now
    ensures es[j].LoginEnd? ==>
      && es[j].id == id && es[j].passwordOK
      && ys[j + 1].store.requests[id].amr == ["pwd"] && ys[j + 1].store.requests[id].authTime == es[j].now
      && exists k | 0 <= k < j ::
           && es[k].LoginBegin? && es[k].id == id && es[k].username in cfg.usernames
           && ys[j + 1].store.requests[id].subject == cfg.usernames[es[k].username]
  {
    hide AuthenticateEnd, SelectIdentity, IsRun, Inv, ScopesOK, LentOK, AttemptOK, After, Permitted;
    BecomesDone(cfg, ys, es, j, id);
    StepOf(cfg, ys, es, j);
    if es[j].Select? {
      SelectionIff(cfg, ys, es, j);
    } else {
      var k := PasswordLoginIff(cfg, ys, es, j);
      NamesAreUsers(cfg);
    }
  }

  // ---- Deletion ----

  /** The request has a code that is taken. */
  ghost predicate Redeemed(s: State, id: string) {
    && id in s.requests && s.requests[id].code != "" && s.requests[id].code in s.codes
    && s.codes[s.requests[id].code].requestID == id && s.codes[s.requests[id].code].reserved
  }

  /** Every taken code of `t` was one of `s` already. */
  ghost predicate TakesNone(s: State, t: State) {
    forall code | code in t.codes && t.codes[code].reserved :: code in s.codes && s.codes[code] == t.codes[code]
  }

  lemma KeepsCodes(cfg: Settings, s: State, e: Event)
    requires e.Authorize? || e.LoginEnd? || e.Select? || e.Issue? || e.Callback?
    ensures After(cfg, s, e).codes in {s.codes, Prune(s, e.now).codes}
  {
    hide Prune, Granted;
  }

  lemma LogoutKeepsCodes(cfg: Settings, s: State, e: Event)
    requires e.Lookup? || e.Terminate? || e.Revocation?
    ensures After(cfg, s, e).codes in {s.codes, Prune(s, e.now).codes}
  {
    hide Prune, AccessOf, MembersOf, SessionAccess, SessionFamilies;
  }

  lemma SavesFree(cfg: Settings, s: State, e: Event)
    requires e.SaveCode? && TakesNone(s, Prune(s, e.now))
    ensures TakesNone(s, After(cfg, s, e))
  {
    hide Prune;
  }

  lemma OthersTakeNone(cfg: Settings, s: State, used: set<string>, e: Event)
    requires Inv(s, used) && !e.CreateAccess? && !e.CreatePair?
    ensures TakesNone(s, After(cfg, s, e))
  {
    hide Prune, Inv, After;
    if e.Delete? {
      DeletionTakesNone(cfg, s, e);
    } else {
      PrunedCodes(s, used, e.now);
      if e.SaveCode? {
        SavesFree(cfg, s, e);
      } else if e.ByID? || e.ByCode? || e.LoginBegin? || e.Info? || e.TokenInfo? || e.Userinfo? || e.Introspection? {
        ReaderPrunes(cfg, s, e);
      } else if e.Lookup? || e.Terminate? || e.Revocation? {
        LogoutKeepsCodes(cfg, s, e);
      } else {
        KeepsCodes(cfg, s, e);
      }
    }
  }

  lemma DeletionTakesNone(cfg: Settings, s: State, e: Event)
    requires e.Delete?
    ensures TakesNone(s, After(cfg, s, e))
  {
  }

  lemma CodeIsSaved(s: State, used: set<string>, code: string)
    requires Inv(s, used) && code in s.codes
    ensures s.codes[code].requestID in s.requests && s.requests[s.codes[code].requestID].code == code
  {
    assert CodeOK(s, code);
  }

  lemma TakenBefore(s: State, used: set<string>, t: State, id: string)
    requires Inv(s, used) && TakesNone(s, t) && Redeemed(t, id)
    ensures Redeemed(s, id)
  {
    hide Inv;
    CodeIsSaved(s, used, t.requests[id].code);
  }

  lemma ReservationTakes(s: State, used: set<string>, p: State, request: TokenRequest, id: string)
    requires Inv(s, used) && TakesNone(s, p) && Reserve(p, request).Ok? && Redeemed(Reserve(p, request).value, id)
    ensures Redeemed(s, id) || request == ForCode(id)
  {
    hide Inv;
    var code := Reserve(p, request).value.requests[id].code;
    if request != ForCode(id) {
      assert p.codes[code].reserved;
      CodeIsSaved(s, used, code);
    }
  }

  /** A code that an event takes is that of the request it names. */
  lemma CreationTakes(cfg: Settings, s: State, used: set<string>, e: Event, id: string)
    requires Inv(s, used) && (e.CreateAccess? || e.CreatePair?)
    requires Redeemed(After(cfg, s, e), id)
    ensures Redeemed(s, id) || Redeems(cfg, s, e, id)
  {
    hide Prune, Inv, After, Reserve, Redeemed;
    var t, p, reserved := After(cfg, s, e), Prune(s, e.now), Reserve(Prune(s, e.now), e.request);
    PrunedCodes(s, used, e.now);
    CreationCodes(cfg, s, e);
    if (t.requests, t.codes) == (s.requests, s.codes) || (t.requests, t.codes) == (p.requests, p.codes) {
      SameRedeemed(t, if t.codes == s.codes && t.requests == s.requests then s else p, id);
      TakenBefore(s, used, if t.codes == s.codes && t.requests == s.requests then s else p, id);
    } else {
      SameRedeemed(t, reserved.value, id);
      ReservationTakes(s, used, p, e.request, id);
    }
  }

  lemma SameRedeemed(t: State, u: State, id: string)
    requires (t.requests, t.codes) == (u.requests, u.codes)
    ensures Redeemed(t, id) == Redeemed(u, id)
  {
  }

  lemma CreationCodes(cfg: Settings, s: State, e: Event)
    requires e.CreateAccess? || e.CreatePair?
    ensures var t, p, reserved := After(cfg, s, e), Prune(s, e.now), Reserve(Prune(s, e.now), e.request);
      || (t.requests, t.codes) == (s.requests, s.codes)
      || (t.requests, t.codes) == (p.requests, p.codes)
      || (reserved.Ok? && (t.requests, t.codes) == (reserved.value.requests, reserved.value.codes)
          && (e.CreateAccess? ==> e.drawn.Some?) && (e.CreatePair? ==> e.drawnToken.Some? && e.drawnAccess.Some?))
  {
    hide Prune, Reserve, InfoOf, AudienceOf, Compact;
  }

  lemma RedeemedBefore(cfg: Settings, y: System, e: Event, y': System, id: string)
    requires SystemInv(cfg, y) && Next(cfg, y, e, y') && Redeemed(y'.store, id)
    ensures Redeemed(y.store, id) || Redeems(cfg, y.store, e, id)
  {
    hide Inv, After, ScopesOK, LentOK, AttemptOK, Permitted, Redeems;
    if e.CreateAccess? || e.CreatePair? {
      CreationTakes(cfg, y.store, y.used, e, id);
    } else {
      OthersTakeNone(cfg, y.store, y.used, e);
      TakenBefore(y.store, y.used, y'.store, id);
    }
  }

  /** A code is taken only by a redemption of its request. */
  lemma {:induction false} RedemptionOf(cfg: Settings, ys: seq<System>, es: seq<Event>, j: nat, id: string)
    returns (i: nat)
    requires IsRun(cfg, ys, es) && j < |ys| && Redeemed(ys[j].store, id)
    ensures i < j && Redeems(cfg, ys[i].store, es[i], id)
  {
    hide SystemInv, Next, WellFormed, Redeems, Redeemed;
    assert j != 0 by { NothingRedeemed(cfg, ys, es, id); }
    RunInv(cfg, ys, es, j - 1);
    StepOf(cfg, ys, es, j - 1);
    RedeemedBefore(cfg, ys[j - 1], es[j - 1], ys[j], id);
    if Redeemed(ys[j - 1].store, id) {
      i := RedemptionOf(cfg, ys, es, j - 1, id);
    } else {
      i := j - 1;
    }
  }

  lemma NothingRedeemed(cfg: Settings, ys: seq<System>, es: seq<Event>, id: string)
    requires IsRun(cfg, ys, es)
    ensures !Redeemed(ys[0].store, id)
  {
  }

  lemma RedemptionLasts(cfg: Settings, ys: seq<System>, es: seq<Event>, i: nat, j: nat, id: string)
    requires IsRun(cfg, ys, es) && i < j < |ys| && Redeems(cfg, ys[i].store, es[i], id) && id in ys[j].store.requests
    ensures Redeemed(ys[j].store, id)
  {
    hide Inv, IsRun, Next, ScopesOK, LentOK, AttemptOK, Redeems, Evolves, Spent;
    RunLength(cfg, ys, es);
    RunEvolves(cfg, ys, es, i + 1, j);
    RunInv(cfg, ys, es, i);
    StepOf(cfg, ys, es, i);
    RedemptionSpends(cfg, ys[i], es[i], ys[i + 1], id);
    SpentStays(ys[i + 1].store, ys[i + 1].used, ys[j].store, ys[j].used, id);
    SpentIsRedeemed(ys[j].store, ys[j].used, id);
  }

  lemma SpentIsRedeemed(s: State, used: set<string>, id: string)
    requires Inv(s, used) && Spent(s, used, id) && id in s.requests
    ensures Redeemed(s, id)
  {
    hide FamilyLinks, AccessLinks, ExpiryBound, Known;
    assert RequestOK(s, id);
  }

  /** In any run a deletion succeeds exactly when the request is still stored and an earlier event has redeemed its
      code. */
  lemma DeletionFollowsRedemption(cfg: Settings, ys: seq<System>, es: seq<Event>, j: nat)
    requires IsRun(cfg, ys, es) && |ys| == |es| + 1 && j < |es| && es[j].Delete?
    ensures DeleteAuthRequest(ys[j].store, es[j].id).1.Ok? <==>
      && es[j].id in ys[j].store.requests
      && exists i | 0 <= i < j :: Redeems(cfg, ys[i].store, es[i], es[j].id)
  {
    hide IsRun, Redeems;
    var s, id := ys[j].store, es[j].id;
    DeleteIsExact(cfg, s, id, 0);
    if Redeemed(s, id) {
      var i := RedemptionOf(cfg, ys, es, j, id);
    } else if id in s.requests {
      forall i | 0 <= i < j ensures !Redeems(cfg, ys[i].store, es[i], id) {
        if Redeems(cfg, ys[i].store, es[i], id) { RedemptionLasts(cfg, ys, es, i, j, id); }
      }
    }
  }
}
