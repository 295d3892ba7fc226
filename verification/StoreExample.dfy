/** Short runs that do what the guarantees speak of: a login with its callback, the redemption of its code, a rotation
    and a replay within the life of the family; the same replay after it; and a code that would be lost if no family id
    could be drawn. */
module StoreExample {
  import opened Realm
  import opened StoreSpec
  import opened StoreInvariant
  import opened StoreRuns
  import opened StoreOperations
  import opened StoreGuarantees

  const SCOPES := ["openid", "offline_access"]

  const CLIENT := Client("c", SPA, "", "", ["https://a.example/"], [], ["https://a.example"], ["api"], SCOPES, [], [])

  const USER := User("u", "user", "", "", "", false, [], [])

  /** Access tokens may live longer than refresh tokens. */
  const CFG := Settings(map["u" := USER], map["user" := "u"], map["c" := CLIENT], 100, 50)

  const DETAILS := Details("https://a.example/", "state", "nonce", "challenge", "S256", "code", "")

  const LOGIN := [
    Authorize(1, false, Some("r"), "c", SCOPES, "", DETAILS), Select(2, "r", "u"), Issue(3, "r", Some("secret")),
    Callback(4, "r", "secret"), SaveCode(5, "r", "code")]

  lemma ConfigFits()
    ensures WellFormed(CFG)
  {
  }

  lemma GrantedMore(scopes: seq<string>, last: string, client: Client, user: User)
    requires last in client.allowedScopes && OIDCScope(last)
    ensures Granted(scopes + [last], client, user) == Granted(scopes, client, user) + [last]
    ensures Granted([], client, user) == []
  {
    assert (scopes + [last])[..|scopes|] == scopes;
  }

  lemma AllGranted()
    ensures Granted(SCOPES, CLIENT, USER) == SCOPES
  {
    assert SCOPES[0] in SCOPES && SCOPES[1] in SCOPES;
    hide Granted;
    GrantedMore([], SCOPES[0], CLIENT, USER);
    GrantedMore([SCOPES[0]], SCOPES[1], CLIENT, USER);
    assert [] + [SCOPES[0]] == [SCOPES[0]] && [SCOPES[0]] + [SCOPES[1]] == SCOPES;
  }

  // ---- The login ----

  const REQUEST := Request(AskedOf(DETAILS), "c", "", SCOPES, ["api"], "", 1, 300_000_000_001, 0, [],
                           false, false, NoDigest)
  const DONE := REQUEST.(subject := "u", authTime := 2, amr := ["dev-select"], done := true)
  const SECRET := DONE.(completion := Sha256("secret"))
  const SAVED := DONE.(codeSaved := true, code := "code")
  const CODE := Code("r", 300_000_000_001, false)

  function Requested(request: Request, codes: map<string, Code>): State {
    State(map["r" := request], codes, map[], map[], map[], 300_000_000_001)
  }

  ghost function Logging(request: Request, codes: map<string, Code>, used: set<string>, logins: set<string>): System {
    System(Requested(request, codes), used, {}, {}, logins)
  }

  ghost function LoginStates(): seq<System> {
    [START, Logging(REQUEST, map[], {"r"}, {}), Logging(DONE, map[], {"r"}, {"r"}),
     Logging(SECRET, map[], {"r", "secret"}, {}), Logging(DONE, map[], {"r", "secret"}, {}),
     Logging(SAVED, map["code" := CODE], {"r", "secret"}, {})]
  }

  lemma NothingToScan(now: Time)
    ensures Prune(EMPTY, now) == EMPTY
  {
    var s := Scan(EMPTY, now);
    assert s.requests == map[] && s.codes == map[] && s.access == map[] && s.refresh == map[] && s.families == map[];
    assert Expiries(s.(nextExpiry := 0)) == {};
    assert IsEarliest({}, s.nextExpiry);
  }

  /** An event after which the callers hold what they held before. */
  lemma PlainStep(cfg: Settings, y: System, e: Event, t: State, used: set<string>)
    requires Permitted(cfg, y, e) && t == After(cfg, y.store, e) && used == y.used + Draws(e)
    requires !e.LoginBegin? && !e.LoginEnd? && !e.Select? && !e.Issue?
    requires e.Lookup? ==> TokenRequestByRefreshToken(y.store, e.now, e.token).1.Err?
    ensures Next(cfg, y, e, y.(store := t, used := used))
  {
    hide After, Permitted, TokenRequestByRefreshToken;
    assert y.lent + {} == y.lent && y.attempts + {} == y.attempts;
  }

  lemma RequestMade()
    ensures CreateAuthRequest(CFG, EMPTY, 1, false, Some("r"), "c", SCOPES, "", DETAILS)
         == (Requested(REQUEST, map[]), Ok("r"))
  {
    NothingToScan(1);
    hide Prune, Scan;
    assert EMPTY.requests["r" := REQUEST] == map["r" := REQUEST];
  }

  lemma Authorized()
    ensures Next(CFG, START, LOGIN[0], LoginStates()[1])
  {
    RequestMade();
    hide CreateAuthRequest, Next;
    assert {} + Draws(LOGIN[0]) == {"r"};
    PlainStep(CFG, START, LOGIN[0], Requested(REQUEST, map[]), {"r"});
  }

  lemma Selected()
    ensures Next(CFG, LoginStates()[1], LOGIN[1], LoginStates()[2])
    ensures LoginSucceeds(CFG, LoginStates()[1].store, LOGIN[1], "r")
  {
    hide Scan, Granted;
    AllGranted();
    assert After(CFG, LoginStates()[1].store, LOGIN[1]).requests == map["r" := DONE];
    assert {"r"} + {} == {"r"} && {} + {"r"} == {"r"};
  }

  lemma Issued()
    ensures Next(CFG, LoginStates()[2], LOGIN[2], LoginStates()[3])
  {
    hide Scan;
    assert After(CFG, LoginStates()[2].store, LOGIN[2]).requests == map["r" := SECRET];
    assert {"r"} + Draws(LOGIN[2]) == {"r", "secret"} && {"r"} - {"r"} == {};
  }

  lemma CalledBack()
    ensures Next(CFG, LoginStates()[3], LOGIN[3], LoginStates()[4])
    ensures CallbackPasses(LoginStates()[3].store, LOGIN[3])
  {
    hide Scan;
    assert After(CFG, LoginStates()[3].store, LOGIN[3]).requests == map["r" := DONE];
    assert {"r", "secret"} + {} == {"r", "secret"};
  }

  lemma CodeSaved()
    ensures Next(CFG, LoginStates()[4], LOGIN[4], LoginStates()[5])
  {
    hide Scan;
    var t := After(CFG, LoginStates()[4].store, LOGIN[4]);
    assert t.requests == map["r" := SAVED] && t.codes == map["code" := CODE];
    assert {"r", "secret"} + {} == {"r", "secret"};
  }

  lemma LoginRuns()
    ensures IsRun(CFG, LoginStates(), LOGIN)
  {
    ConfigFits();
    Authorized();
    Selected();
    Issued();
    CalledBack();
    CodeSaved();
    hide Next, WellFormed;
    forall i | 0 <= i < |LOGIN| ensures StepAt(CFG, LoginStates(), LOGIN, i) {
    }
  }

  /** A run goes on with one more step. */
  lemma RunMore(cfg: Settings, ys: seq<System>, es: seq<Event>, e: Event, y: System)
    requires IsRun(cfg, ys, es) && Next(cfg, ys[|es|], e, y)
    ensures IsRun(cfg, ys + [y], es + [e])
  {
    hide Next, WellFormed;
    var states, events := ys + [y], es + [e];
    forall i | 0 <= i < |events| ensures StepAt(cfg, states, events, i) {
      if i < |es| {
        assert StepAt(cfg, ys, es, i);
      }
    }
  }

  // ---- The code is lost ----

  const UNNAMED := CreatePair(6, ForCode("r"), "", Some("t1"), Some("a1"), None)
  const RETRY := CreatePair(7, ForCode("r"), "", Some("t2"), Some("a2"), Some("f2"))

  const LOST := Requested(SAVED, map["code" := CODE.(reserved := true)])

  ghost function Lost(): System {
    LoginStates()[5].(store := LOST, used := {"r", "secret", "t1", "a1"})
  }

  ghost function Retried(): System {
    Lost().(store := After(CFG, LOST, RETRY), used := Lost().used + Draws(RETRY))
  }

  lemma Unnamed()
    ensures Next(CFG, LoginStates()[5], UNNAMED, Lost())
    ensures PairOutcome(CFG, LoginStates()[5].store, UNNAMED).1 == Err(RandomFailed)
    ensures NewlyReserved(LoginStates()[5].store, LOST, "r")
  {
    hide Scan;
    var s := LoginStates()[5].store;
    assert Prune(s, 6) == s;
    assert After(CFG, s, UNNAMED).codes == map["code" := CODE.(reserved := true)];
    assert {"r", "secret"} + Draws(UNNAMED) == {"r", "secret", "t1", "a1"};
    assert "code" in s.codes;
  }

  lemma Retry()
    ensures Next(CFG, Lost(), RETRY, Retried())
  {
    hide After, Next;
    assert Draws(RETRY) == {"t2", "a2", "f2"};
    PlainStep(CFG, Lost(), RETRY, After(CFG, LOST, RETRY), Lost().used + Draws(RETRY));
  }

  ghost function LostStates(): seq<System> {
    LoginStates() + [Lost()] + [Retried()]
  }

  const LOST_EVENTS := LOGIN + [UNNAMED] + [RETRY]

  lemma LostRuns()
    ensures IsRun(CFG, LostStates(), LOST_EVENTS)
  {
    LoginRuns();
    Unnamed();
    Retry();
    hide IsRun, Next, NewlyReserved, PairOutcome;
    RunMore(CFG, LoginStates(), LOGIN, UNNAMED, Lost());
    RunMore(CFG, LoginStates() + [Lost()], LOGIN + [UNNAMED], RETRY, Retried());
  }

  lemma LostAt()
    ensures |LostStates()| == 8 && LostStates()[5] == LoginStates()[5] && LostStates()[6] == Lost()
    ensures |LOST_EVENTS| == 7 && LOST_EVENTS[5] == UNNAMED && LOST_EVENTS[6] == RETRY
  {
  }

  /** A code is lost when the family id cannot be drawn: the creation fails, and the retry fails too. */
  lemma CodeIsLost()
    ensures IsRun(CFG, LostStates(), LOST_EVENTS)
    ensures PairOutcome(CFG, LoginStates()[5].store, UNNAMED).1 == Err(RandomFailed)
    ensures NewlyReserved(LoginStates()[5].store, Lost().store, "r")
    ensures PairOutcome(CFG, Lost().store, RETRY).1.Err?
  {
    Unnamed();
    LostRuns();
    LostAt();
    hide IsRun, Next, NewlyReserved, PairOutcome, LostStates, LoginStates, Retried;
    LostForever(CFG, LostStates(), LOST_EVENTS, 5, 6, "r");
  }

  // ---- The first pair ----

  const FIRST := CreatePair(6, ForCode("r"), "", Some("t1"), Some("a1"), Some("f"))
  const LOOKUP := Lookup(7, "t1")
  const ROTATION := CreatePair(8, ForRefresh("c", "u", SCOPES, ["dev-select"], 2), "t1", Some("t2"), Some("a2"), None)

  const GRANT := RefreshGrant("c", "u", ["api"], SCOPES, ["dev-select"], 2, "f")

  const RECORD := Refresh("f", "c", "u", ["api"], SCOPES, ["dev-select"], 2, false, "a1")
  const ACCESS := Access("a1", "c", "u", ["api"], SCOPES, 106, 6, 2, ["dev-select"], "f")

  const OPENED := LOST.(access := map["a1" := ACCESS], refresh := map[Sha256("t1") := RECORD],
                        families := map["f" := Family("c", "u", 56, false, [Sha256("t1")])], nextExpiry := 56)

  const DRAWN := {"r", "secret", "t1", "a1", "f"}

  ghost function Opened(): System {
    System(OPENED, DRAWN, {}, {}, {})
  }

  lemma FirstPairDone()
    ensures PairOutcome(CFG, LoginStates()[5].store, FIRST) == (OPENED, Ok(TokenGrant("a1", "t1", 106, "f")))
  {
    hide Scan;
    var s := LoginStates()[5].store;
    assert Prune(s, 6) == s;
    assert [] + [Sha256("t1")] == [Sha256("t1")];
    var t := PairOutcome(CFG, s, FIRST).0;
    assert t.codes == OPENED.codes;
    assert t.families == OPENED.families;
    assert t.refresh == OPENED.refresh;
    assert t.access == OPENED.access;
  }

  lemma FirstPair()
    ensures Next(CFG, LoginStates()[5], FIRST, Opened())
    ensures Issues(CFG, LoginStates()[5].store, FIRST, "t1", "a1", "f")
      && CreatesFor(CFG, LoginStates()[5].store, FIRST, "r")
  {
    FirstPairDone();
    hide PairOutcome, Next, CreateAccessToken;
    assert {"r", "secret"} + Draws(FIRST) == DRAWN;
    PlainStep(CFG, LoginStates()[5], FIRST, OPENED, DRAWN);
  }

  ghost function Looked(): System {
    System(OPENED, DRAWN, {Lent("t1", GRANT)}, {}, {})
  }

  lemma FirstLookup()
    ensures Next(CFG, Opened(), LOOKUP, Looked())
  {
    hide Scan;
    assert Prune(OPENED, 7) == OPENED;
    assert DRAWN + {} == DRAWN;
  }

  // ---- The rotation ----

  const ROTATED := LOST.(
    access := map["a2" := Access("a2", "c", "u", ["api"], SCOPES, 108, 8, 2, ["dev-select"], "f")],
    refresh := map[Sha256("t1") := Consumed(RECORD),
                   Sha256("t2") := Refresh("f", "c", "u", ["api"], SCOPES, ["dev-select"], 2, false, "a2")],
    families := map["f" := Family("c", "u", 56, false, [Sha256("t2")])], nextExpiry := 56)

  ghost function Rotated(): System {
    System(ROTATED, DRAWN + {"t2", "a2"}, {Lent("t1", GRANT)}, {}, {})
  }

  lemma RotationAllowed()
    ensures Permitted(CFG, Looked(), ROTATION)
  {
    assert From(ROTATION.request, Lent("t1", GRANT)) && Lent("t1", GRANT) in Looked().lent;
  }

  /** Between the halves of the rotation. */
  const TURNED := OPENED.(access := map[], refresh := map[Sha256("t1") := Consumed(RECORD)],
                          families := map["f" := Family("c", "u", 56, false, [])])

  lemma Turned()
    ensures Rotate(OPENED, Sha256("t1")) == TURNED
  {
    var t := Rotate(OPENED, Sha256("t1"));
    assert [Sha256("t1")][..0] == [];
    assert Compact([Sha256("t1")], t.refresh) == [];
    assert t.families == TURNED.families;
    assert t.refresh == TURNED.refresh;
    assert t.access == TURNED.access;
  }

  lemma PairAdded()
    ensures AddPair(CFG, TURNED, 8, StoreSpec.Info("c", "u", SCOPES, ["dev-select"], 2), "f", "a2", "t2") == ROTATED
  {
    var t := AddPair(CFG, TURNED, 8, StoreSpec.Info("c", "u", SCOPES, ["dev-select"], 2), "f", "a2", "t2");
    assert [] + [Sha256("t2")] == [Sha256("t2")];
    assert t.families == ROTATED.families;
    assert t.refresh == ROTATED.refresh;
    assert t.access == ROTATED.access;
  }

  lemma RotationDone()
    ensures PairOutcome(CFG, OPENED, ROTATION) == (ROTATED, Ok(TokenGrant("a2", "t2", 108, "f")))
  {
    hide Scan, Rotate, AddPair;
    assert Prune(OPENED, 8) == OPENED;
    Turned();
    PairAdded();
  }

  lemma Rotation()
    ensures Next(CFG, Looked(), ROTATION, Rotated())
    ensures Rotates(CFG, OPENED, ROTATION, "t1", "f") && Issues(CFG, OPENED, ROTATION, "t2", "a2", "f")
  {
    RotationAllowed();
    RotationDone();
    hide PairOutcome, Permitted, Next;
    assert DRAWN + Draws(ROTATION) == DRAWN + {"t2", "a2"};
    PlainStep(CFG, Looked(), ROTATION, ROTATED, DRAWN + {"t2", "a2"});
  }

  const SESSION := LOGIN + [FIRST] + [LOOKUP] + [ROTATION]

  ghost function SessionStates(): seq<System> {
    LoginStates() + [Opened()] + [Looked()] + [Rotated()]
  }

  lemma SessionRuns()
    ensures IsRun(CFG, SessionStates(), SESSION)
  {
    LoginRuns();
    FirstPair();
    FirstLookup();
    Rotation();
    hide IsRun, Next;
    RunMore(CFG, LoginStates(), LOGIN, FIRST, Opened());
    RunMore(CFG, LoginStates() + [Opened()], LOGIN + [FIRST], LOOKUP, Looked());
    RunMore(CFG, LoginStates() + [Opened()] + [Looked()], LOGIN + [FIRST] + [LOOKUP], ROTATION, Rotated());
  }

  // ---- A replay and what comes after it ----

  ghost function Replayed(now: Time): System {
    Rotated().(store := After(CFG, ROTATED, Lookup(now, "t1")))
  }

  lemma RotatedInv()
    ensures Inv(ROTATED, DRAWN + {"t2", "a2"})
  {
    SessionRuns();
    hide IsRun, Inv, ScopesOK, LentOK, AttemptOK;
    RunInv(CFG, SessionStates(), SESSION, 8);
    assert SessionStates()[8] == Rotated();
  }

  lemma Replay(now: Time)
    ensures Next(CFG, Rotated(), Lookup(now, "t1"), Replayed(now)) && Presents(Lookup(now, "t1"), "t1")
  {
    hide After, Next, Inv, TokenRequestByRefreshToken;
    RotatedInv();
    ReplayRefused(Rotated(), now);
    assert DRAWN + {"t2", "a2"} + {} == DRAWN + {"t2", "a2"};
    PlainStep(CFG, Rotated(), Lookup(now, "t1"), After(CFG, ROTATED, Lookup(now, "t1")), DRAWN + {"t2", "a2"});
  }

  lemma ReplayRefused(y: System, now: Time)
    requires Inv(y.store, y.used) && Sha256("t1") in y.store.refresh && y.store.refresh[Sha256("t1")].consumed
    ensures TokenRequestByRefreshToken(y.store, now, "t1").1.Err?
  {
    hide Prune, Inv;
    PruneIsEager(y.store, y.used, now);
  }

  ghost function Last(now: Time, e: Event): System {
    Replayed(now).(store := After(CFG, Replayed(now).store, e))
  }

  const PROBE := Introspection(61, "a2", "u", "c")

  lemma Probed(now: Time)
    ensures Next(CFG, Replayed(now), PROBE, Last(now, PROBE))
  {
    hide After;
    assert Replayed(now).used + {} == Replayed(now).used;
  }

  ghost function States(now: Time): seq<System> {
    SessionStates() + [Replayed(now)] + [Last(now, PROBE)]
  }

  function Events(now: Time): seq<Event> {
    SESSION + [Lookup(now, "t1")] + [PROBE]
  }

  lemma ReplayRuns(now: Time)
    ensures IsRun(CFG, States(now), Events(now))
    ensures |States(now)| == 11 && |Events(now)| == 10
    ensures States(now)[5] == LoginStates()[5] && States(now)[7] == Looked() && States(now)[8] == Rotated()
    ensures States(now)[9] == Replayed(now) && Events(now)[5] == FIRST && Events(now)[7] == ROTATION
    ensures Events(now)[8] == Lookup(now, "t1") && Events(now)[9] == PROBE
  {
    SessionRuns();
    Replay(now);
    Probed(now);
    hide IsRun, Next, Presents, Replayed, Last;
    RunMore(CFG, SessionStates(), SESSION, Lookup(now, "t1"), Replayed(now));
    RunMore(CFG, SessionStates() + [Replayed(now)], SESSION + [Lookup(now, "t1")], PROBE, Last(now, PROBE));
  }

  lemma Redeemed()
    ensures CreatesFor(CFG, LoginStates()[5].store, FIRST, "r")
    ensures Issues(CFG, LoginStates()[5].store, FIRST, "t1", "a1", "f")
    ensures Rotates(CFG, OPENED, ROTATION, "t1", "f") && Issues(CFG, OPENED, ROTATION, "t2", "a2", "f")
  {
    FirstPair();
    Rotation();
  }

  /** A replay within the family's life: this run meets the hypotheses of ReplayKillsFamily, TokensAtMostOnce and
      LoginIsSingleShot, and the rotated pair is dead at its end. */
  lemma ReplayHappens()
    ensures IsRun(CFG, States(9), Events(9))
    ensures LoginSucceeds(CFG, LoginStates()[1].store, LOGIN[1], "r")
      && CallbackPasses(LoginStates()[3].store, LOGIN[3])
    ensures CreatesFor(CFG, States(9)[5].store, Events(9)[5], "r")
    ensures Rotates(CFG, States(9)[7].store, Events(9)[7], "t1", "f") && Presents(Events(9)[8], "t1")
    ensures Ended(States(9)[9].store, States(9)[9].used, "f") && !Accepts(CFG, States(9)[9].store, Events(9)[9], "t2")
    ensures Introspect(States(9)[9].store, 61, "a2", "u", "c").1.Err?
  {
    ReplayRuns(9);
    Redeemed();
    Selected();
    CalledBack();
    Replay(9);
    StillAlive();
    hide IsRun, Next, Rotates, Issues, Presents, Accepts, Ended, Introspect, States, Events, CreatesFor, Outlives,
      Erased, StoredFor;
    hide LoginSucceeds, CallbackPasses, Prune;
    ReplayKillsFamily(CFG, States(9), Events(9), 7, 8, 7, 9, "t1", "f", "t2", "a2");
    Dead(States(9)[9]);
  }

  lemma Dead(y: System)
    requires "a2" !in y.store.access
    ensures Introspect(y.store, 61, "a2", "u", "c").1.Err?
  {
  }

  lemma StillAlive()
    ensures "f" in Prune(ROTATED, 9).families
  {
  }

  /** The same replay after the family's deadline: the access record of the rotated pair has outlived the family, the
      replay leaves it, and it is active afterwards. */
  lemma AccessOutlivesFamily()
    ensures IsRun(CFG, States(60), Events(60))
    ensures Rotates(CFG, States(60)[7].store, Events(60)[7], "t1", "f") && Presents(Events(60)[8], "t1")
    ensures Outlives(States(60)[8].store, "a2", "f", Events(60)[8].now)
    ensures StoredFor(States(60)[9].store, "a2", "f") && "f" !in States(60)[9].store.families
    ensures Introspect(States(60)[9].store, 61, "a2", "u", "c").1.Ok?
  {
    ReplayRuns(60);
    Redeemed();
    Replay(60);
    Outlived();
    hide IsRun, Next, Rotates, Issues, Presents, Accepts, Introspect, States, Events, Outlives, StoredFor, Prune;
    ReplayKillsFamily(CFG, States(60), Events(60), 7, 8, 7, 9, "t1", "f", "t2", "a2");
    LateReplay();
  }

  lemma Outlived()
    ensures Outlives(ROTATED, "a2", "f", 60)
  {
  }

  lemma LatePrune()
    ensures var p := Prune(ROTATED, 60);
      && Inv(p, DRAWN + {"t2", "a2"}) && p.families == map[] && Sha256("t1") !in p.refresh
      && "a2" in p.access && p.access["a2"] == ROTATED.access["a2"]
  {
    RotatedInv();
    hide Prune, Inv;
    PruneIsEager(ROTATED, DRAWN + {"t2", "a2"}, 60);
    PruneInv(ROTATED, DRAWN + {"t2", "a2"}, 60);
  }

  lemma LateReplay()
    ensures "f" !in Replayed(60).store.families && Introspect(Replayed(60).store, 61, "a2", "u", "c").1.Ok?
  {
    LatePrune();
    hide Prune, Inv, Introspect;
    assert Replayed(60).store == Prune(ROTATED, 60);
    TokenReadersAreExact(CFG, Prune(ROTATED, 60), DRAWN + {"t2", "a2"}, 61, "c", "t1", "a2", "u");
  }
}
