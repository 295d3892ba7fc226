/** Realm configuration: the records behind `Config.Validate` and the rules for users and clients. The syntax of bcrypt
    hashes, redirect URIs and origins is a parameter. */
module Realm {

  datatype User = User(
    id: string, username: string, passwordHash: string, name: string, email: string, emailVerified: bool,
    roles: seq<string>, permissions: seq<string>)

  datatype ClientKind = SPA | Service | UnknownKind

  datatype Client = Client(
    id: string, kind: ClientKind, secretHash: string, name: string,
    redirects: seq<string>, logoutRedirects: seq<string>, origins: seq<string>,
    audiences: seq<string>, allowedScopes: seq<string>, roles: seq<string>, permissions: seq<string>)

  /** The user names are compared after trimming and Unicode case folding; folding is a parameter. */
  type Fold = string -> string

  type Check = string -> bool

  /** `validBcrypt`, `validateRedirect` and `validateOrigin`. */
  datatype Syntax = Syntax(fold: Fold, hash: Check, redirect: Check, origin: Check)

  /** `unicode.IsSpace`, which is what `strings.TrimSpace` removes. */
  predicate IsSpace(c: char) {
    '\t' <= c <= '\r' || c == ' ' || c == '\U{85}' || c == '\U{A0}' || c == '\U{1680}' ||
    '\U{2000}' <= c <= '\U{200A}' || c == '\U{2028}' || c == '\U{2029}' || c == '\U{202F}' ||
    c == '\U{205F}' || c == '\U{3000}'
  }

  /** Neither empty nor changed by `strings.TrimSpace`. */
  predicate Solid(value: string) {
    value != "" && !IsSpace(value[0]) && !IsSpace(value[|value| - 1])
  }

  predicate OIDCScope(scope: string) {
    scope in {"openid", "profile", "email", "offline_access"}
  }

  predicate ReservedScope(scope: string) {
    OIDCScope(scope) || UnsupportedScope(scope)
  }

  predicate ScopeToken(value: string) {
    forall i | 0 <= i < |value| :: '\U{21}' <= value[i] <= '\U{7E}' && value[i] != '\"' && value[i] != '\\'
  }

  predicate UnsupportedScope(scope: string) {
    scope in {"phone", "address"}
  }

  ghost predicate Distinct<T>(values: seq<T>) {
    forall i, j | 0 <= i < j < |values| :: values[i] != values[j]
  }

  ghost predicate SolidDistinct(values: seq<string>) {
    Distinct(values) && forall value | value in values :: Solid(value)
  }

  ghost predicate ValidPermissions(values: seq<string>) {
    SolidDistinct(values) && forall value | value in values :: !ReservedScope(value) && ScopeToken(value)
  }

  function Names(users: seq<User>, fold: Fold): (names: seq<string>)
    ensures |names| == |users| && forall i | 0 <= i < |users| :: names[i] == fold(users[i].username)
  {
    seq(|users|, i requires 0 <= i < |users| => fold(users[i].username))
  }

  function UserIDs(users: seq<User>): (ids: seq<string>)
    ensures |ids| == |users| && forall i | 0 <= i < |users| :: ids[i] == users[i].id
  {
    seq(|users|, i requires 0 <= i < |users| => users[i].id)
  }

  function ClientIDs(clients: seq<Client>): (ids: seq<string>)
    ensures |ids| == |clients| && forall i | 0 <= i < |clients| :: ids[i] == clients[i].id
  {
    seq(|clients|, i requires 0 <= i < |clients| => clients[i].id)
  }

  ghost predicate ValidUser(user: User, syntax: Syntax) {
    && Solid(user.id) && syntax.fold(user.username) != ""
    && (user.username == "" || Solid(user.username))
    && (user.passwordHash == "" || syntax.hash(user.passwordHash))
    && ValidPermissions(user.permissions) && SolidDistinct(user.roles)
  }

  predicate AllPass(values: seq<string>, check: Check) {
    forall value | value in values :: check(value)
  }

  ghost predicate ValidSPA(client: Client, syntax: Syntax) {
    && client.secretHash == "" && "openid" in client.allowedScopes && client.redirects != [] && client.origins != []
    && AllPass(client.redirects + client.logoutRedirects, syntax.redirect) && AllPass(client.origins, syntax.origin)
  }

  ghost predicate ValidService(client: Client, syntax: Syntax) {
    && syntax.hash(client.secretHash)
    && client.redirects == [] && client.logoutRedirects == [] && client.origins == []
    && forall scope | scope in client.allowedScopes :: !ReservedScope(scope) && scope in client.permissions
  }

  ghost predicate ValidClient(client: Client, syntax: Syntax) {
    && Solid(client.id)
    && SolidDistinct(client.audiences) && client.audiences != []
    && SolidDistinct(client.allowedScopes) && client.allowedScopes != []
    && (forall scope | scope in client.allowedScopes :: ScopeToken(scope))
    && (forall scope | scope in client.allowedScopes :: !UnsupportedScope(scope))
    && ValidPermissions(client.permissions) && SolidDistinct(client.roles)
    && match client.kind
       case SPA => ValidSPA(client, syntax)
       case Service => ValidService(client, syntax)
       case UnknownKind => false
  }

  ghost predicate ValidRealm(users: seq<User>, clients: seq<Client>, syntax: Syntax) {
    && (forall user | user in users :: ValidUser(user, syntax))
    && (forall client | client in clients :: ValidClient(client, syntax))
    && Distinct(Names(users, syntax.fold)) && Distinct(UserIDs(users) + ClientIDs(clients))
  }

  datatype RealmError =
    | BadID | DuplicateID | BadUsername | DuplicateUsername | BadValue | DuplicateValue | ReservedPermission
    | BadScopeToken | EmptyAudiences | EmptyScopes | UnsupportedScopeName | BadHash | BadRedirect | BadOrigin
    | SpaRules | ServiceRules | BadKind

  datatype Verdict = Accepted | Rejected(error: RealmError)

  method ValidateNonemptyUnique(values: seq<string>) returns (v: Verdict)
    ensures v.Accepted? <==> SolidDistinct(values)
  {
    var seen: set<string> := {};
    for i := 0 to |values|
      invariant forall value :: value in seen <==> value in values[..i]
      invariant SolidDistinct(values[..i])
    {
      if !Solid(values[i]) {
        assert values[i] in values;
        return Rejected(BadValue);
      }
      if values[i] in seen { return Rejected(DuplicateValue); }
      seen := seen + {values[i]};
      assert values[..i + 1] == values[..i] + [values[i]];
    }
    assert values[..|values|] == values;
    v := Accepted;
  }

  method ValidateScopeTokens(values: seq<string>) returns (v: Verdict)
    ensures v.Accepted? <==> forall value | value in values :: ScopeToken(value)
  {
    for i := 0 to |values|
      invariant forall value | value in values[..i] :: ScopeToken(value)
    {
      if !ScopeToken(values[i]) { return Rejected(BadScopeToken); }
    }
    assert values[..|values|] == values;
    v := Accepted;
  }

  method ValidatePermissions(values: seq<string>) returns (v: Verdict)
    ensures v.Accepted? <==> ValidPermissions(values)
  {
    v := ValidateNonemptyUnique(values);
    if v.Rejected? { return; }
    for i := 0 to |values|
      invariant forall value | value in values[..i] :: !ReservedScope(value)
    {
      if ReservedScope(values[i]) { return Rejected(ReservedPermission); }
    }
    assert values[..|values|] == values;
    v := ValidateScopeTokens(values);
  }

  /** A user, given the ids and folded names of those before. */
  method ValidateUser(user: User, syntax: Syntax, ids: set<string>, names: set<string>) returns (v: Verdict)
    ensures v.Accepted? <==> ValidUser(user, syntax) && user.id !in ids && syntax.fold(user.username) !in names
  {
    if !Solid(user.id) { return Rejected(BadID); }
    if user.id in ids { return Rejected(DuplicateID); }
    if syntax.fold(user.username) == "" { return Rejected(BadUsername); }
    if user.username != "" && !Solid(user.username) { return Rejected(BadUsername); }
    if syntax.fold(user.username) in names { return Rejected(DuplicateUsername); }
    if user.passwordHash != "" && !syntax.hash(user.passwordHash) { return Rejected(BadHash); }
    v := ValidatePermissions(user.permissions);
    if v.Accepted? {
      v := ValidateNonemptyUnique(user.roles);
    }
  }

  method ValidateAll(values: seq<string>, check: Check, error: RealmError) returns (v: Verdict)
    ensures v.Accepted? <==> AllPass(values, check)
  {
    for i := 0 to |values|
      invariant AllPass(values[..i], check)
    {
      if !check(values[i]) { return Rejected(error); }
    }
    assert values[..|values|] == values;
    v := Accepted;
  }

  method ValidateSPA(client: Client, syntax: Syntax) returns (v: Verdict)
    ensures v.Accepted? <==> ValidSPA(client, syntax)
  {
    if client.secretHash != "" || "openid" !in client.allowedScopes { return Rejected(SpaRules); }
    if client.redirects == [] || client.origins == [] { return Rejected(SpaRules); }
    v := ValidateAll(client.redirects + client.logoutRedirects, syntax.redirect, BadRedirect);
    if v.Accepted? {
      v := ValidateAll(client.origins, syntax.origin, BadOrigin);
    }
  }

  method ValidateService(client: Client, syntax: Syntax) returns (v: Verdict)
    ensures v.Accepted? <==> ValidService(client, syntax)
  {
    if !syntax.hash(client.secretHash) { return Rejected(BadHash); }
    if client.redirects != [] || client.logoutRedirects != [] || client.origins != [] { return Rejected(ServiceRules); }
    var scopes := client.allowedScopes;
    for i := 0 to |scopes|
      invariant forall scope | scope in scopes[..i] :: !ReservedScope(scope) && scope in client.permissions
    {
      if ReservedScope(scopes[i]) || scopes[i] !in client.permissions { return Rejected(ServiceRules); }
    }
    assert scopes[..|scopes|] == scopes;
    v := Accepted;
  }

  method ValidateScopes(scopes: seq<string>) returns (v: Verdict)
    ensures v.Accepted? <==>
      && SolidDistinct(scopes) && scopes != []
      && forall scope | scope in scopes :: ScopeToken(scope) && !UnsupportedScope(scope)
  {
    v := ValidateNonemptyUnique(scopes);
    if v.Rejected? { return; }
    if scopes == [] { return Rejected(EmptyScopes); }
    v := ValidateScopeTokens(scopes);
    if v.Rejected? { return; }
    for i := 0 to |scopes|
      invariant forall scope | scope in scopes[..i] :: !UnsupportedScope(scope)
    {
      if UnsupportedScope(scopes[i]) { return Rejected(UnsupportedScopeName); }
    }
    assert scopes[..|scopes|] == scopes;
    v := Accepted;
  }

  method ValidateClient(client: Client, syntax: Syntax, ids: set<string>) returns (v: Verdict)
    ensures v.Accepted? <==> ValidClient(client, syntax) && client.id !in ids
  {
    hide SolidDistinct, ValidPermissions, ValidSPA, ValidService, Solid, ScopeToken, UnsupportedScope;
    if !Solid(client.id) { return Rejected(BadID); }
    if client.id in ids { return Rejected(DuplicateID); }
    v := ValidateNonemptyUnique(client.audiences);
    if v.Rejected? { return; }
    if client.audiences == [] { return Rejected(EmptyAudiences); }
    v := ValidateScopes(client.allowedScopes);
    if v.Rejected? { return; }
    v := ValidatePermissions(client.permissions);
    if v.Rejected? { return; }
    v := ValidateNonemptyUnique(client.roles);
    if v.Rejected? { return; }
    match client.kind {
      case SPA => v := ValidateSPA(client, syntax);
      case Service => v := ValidateService(client, syntax);
      case UnknownKind => v := Rejected(BadKind);
    }
  }

  /** The ids handed out so far, and that they are distinct. */
  ghost predicate Seen(seen: set<string>, values: seq<string>) {
    Distinct(values) && forall value :: value in seen <==> value in values
  }

  lemma SeenSnoc(seen: set<string>, values: seq<string>, value: string)
    requires Seen(seen, values)
    ensures value !in seen ==> Seen(seen + {value}, values + [value])
    ensures value in seen ==> !Distinct(values + [value])
  {
    if value in seen {
      var i :| 0 <= i < |values| && values[i] == value;
      assert (values + [value])[i] == (values + [value])[|values|];
    }
  }

  lemma DistinctPrefix(values: seq<string>, n: nat)
    requires n <= |values| && !Distinct(values[..n])
    ensures !Distinct(values)
  {
    var i, j :| 0 <= i < j < n && values[..n][i] == values[..n][j];
    assert values[i] == values[j];
  }

  /** One more value: whether it repeats is seen from the set. */
  lemma SeenNext(seen: set<string>, all: seq<string>, i: nat)
    requires i < |all| && Seen(seen, all[..i])
    ensures all[i] !in seen ==> Seen(seen + {all[i]}, all[..i + 1])
    ensures all[i] in seen ==> !Distinct(all)
  {
    hide Seen, Distinct;
    assert all[..i + 1] == all[..i] + [all[i]];
    SeenSnoc(seen, all[..i], all[i]);
    if all[i] in seen { DistinctPrefix(all, i + 1); }
  }

  /** The users before the i-th are valid and accounted for. */
  ghost predicate UsersSeen(users: seq<User>, syntax: Syntax, i: nat, ids: set<string>, names: set<string>)
    requires i <= |users|
  {
    && Seen(ids, UserIDs(users)[..i]) && Seen(names, Names(users, syntax.fold)[..i])
    && forall user | user in users[..i] :: ValidUser(user, syntax)
  }

  /** What `ValidateUsers` asks. */
  ghost predicate UsersFine(users: seq<User>, syntax: Syntax) {
    && (forall user | user in users :: ValidUser(user, syntax))
    && Distinct(Names(users, syntax.fold)) && Distinct(UserIDs(users))
  }

  lemma UserNext(users: seq<User>, syntax: Syntax, i: nat, ids: set<string>, names: set<string>)
    requires i < |users| && UsersSeen(users, syntax, i, ids, names)
    ensures var user := users[i];
      if ValidUser(user, syntax) && user.id !in ids && syntax.fold(user.username) !in names
      then UsersSeen(users, syntax, i + 1, ids + {user.id}, names + {syntax.fold(user.username)})
      else !UsersFine(users, syntax)
  {
    hide Seen, Distinct, ValidUser;
    SeenNext(ids, UserIDs(users), i);
    SeenNext(names, Names(users, syntax.fold), i);
    assert users[..i + 1] == users[..i] + [users[i]] && users[i] in users;
  }

  lemma AllUsersSeen(users: seq<User>, syntax: Syntax, ids: set<string>, names: set<string>)
    requires UsersSeen(users, syntax, |users|, ids, names)
    ensures UsersFine(users, syntax) && Seen(ids, UserIDs(users))
  {
    hide ValidUser;
    assert users[..|users|] == users && UserIDs(users)[..|users|] == UserIDs(users);
    assert Names(users, syntax.fold)[..|users|] == Names(users, syntax.fold);
  }

  lemma NoUsersSeen(users: seq<User>, syntax: Syntax)
    ensures UsersSeen(users, syntax, 0, {}, {})
  {
  }

  method ValidateUsers(users: seq<User>, syntax: Syntax) returns (v: Verdict, ids: set<string>)
    ensures v.Accepted? <==>
      && (forall user | user in users :: ValidUser(user, syntax))
      && Distinct(Names(users, syntax.fold)) && Distinct(UserIDs(users))
    ensures v.Accepted? ==> Seen(ids, UserIDs(users))
  {
    hide Seen, Distinct, ValidUser, UsersSeen;
    var names: set<string> := {};
    ids := {};
    NoUsersSeen(users, syntax);
    for i := 0 to |users|
      invariant UsersSeen(users, syntax, i, ids, names)
    {
      var user := users[i];
      UserNext(users, syntax, i, ids, names);
      v := ValidateUser(user, syntax, ids, names);
      if v.Rejected? { return; }
      ids, names := ids + {user.id}, names + {syntax.fold(user.username)};
    }
    AllUsersSeen(users, syntax, ids, names);
    v := Accepted;
  }

  ghost predicate ClientsSeen(clients: seq<Client>, syntax: Syntax, before: seq<string>, i: nat, ids: set<string>)
    requires i <= |clients|
  {
    && Seen(ids, (before + ClientIDs(clients))[..|before| + i])
    && forall client | client in clients[..i] :: ValidClient(client, syntax)
  }

  ghost predicate ClientsFine(clients: seq<Client>, syntax: Syntax, before: seq<string>) {
    && (forall client | client in clients :: ValidClient(client, syntax))
    && Distinct(before + ClientIDs(clients))
  }

  lemma ClientNext(clients: seq<Client>, syntax: Syntax, before: seq<string>, i: nat, ids: set<string>)
    requires i < |clients| && ClientsSeen(clients, syntax, before, i, ids)
    ensures var client := clients[i];
      if ValidClient(client, syntax) && client.id !in ids
      then ClientsSeen(clients, syntax, before, i + 1, ids + {client.id})
      else !ClientsFine(clients, syntax, before)
  {
    hide Seen, Distinct, ValidClient;
    var all := before + ClientIDs(clients);
    assert all[|before| + i] == clients[i].id;
    SeenNext(ids, all, |before| + i);
    assert clients[..i + 1] == clients[..i] + [clients[i]] && clients[i] in clients;
  }

  lemma AllClientsSeen(clients: seq<Client>, syntax: Syntax, before: seq<string>, ids: set<string>)
    requires ClientsSeen(clients, syntax, before, |clients|, ids)
    ensures ClientsFine(clients, syntax, before)
  {
    hide ValidClient;
    var all := before + ClientIDs(clients);
    assert clients[..|clients|] == clients && all[..|all|] == all;
  }

  lemma NoClientsSeen(clients: seq<Client>, syntax: Syntax, before: seq<string>, ids: set<string>)
    requires Seen(ids, before)
    ensures ClientsSeen(clients, syntax, before, 0, ids)
  {
    assert (before + ClientIDs(clients))[..|before|] == before;
  }

  method ValidateClients(clients: seq<Client>, syntax: Syntax, userIDs: set<string>, ghost before: seq<string>)
    returns (v: Verdict)
    requires Seen(userIDs, before)
    ensures v.Accepted? <==>
      && (forall client | client in clients :: ValidClient(client, syntax))
      && Distinct(before + ClientIDs(clients))
  {
    hide Seen, Distinct, ValidClient, ClientsSeen;
    var ids := userIDs;
    NoClientsSeen(clients, syntax, before, ids);
    for i := 0 to |clients|
      invariant ClientsSeen(clients, syntax, before, i, ids)
    {
      var client := clients[i];
      ClientNext(clients, syntax, before, i, ids);
      v := ValidateClient(client, syntax, ids);
      if v.Rejected? { return; }
      ids := ids + {client.id};
    }
    AllClientsSeen(clients, syntax, before, ids);
    v := Accepted;
  }

  /** The realm part of `Validate`: one namespace for user and client ids, one for folded user names. */
  method Validate(users: seq<User>, clients: seq<Client>, syntax: Syntax) returns (v: Verdict)
    ensures v.Accepted? <==> ValidRealm(users, clients, syntax)
  {
    hide ValidUser, ValidClient, Seen;
    var ids;
    v, ids := ValidateUsers(users, syntax);
    if v.Rejected? {
      ghost var all := UserIDs(users) + ClientIDs(clients);
      assert all[..|users|] == UserIDs(users);
      if !Distinct(all[..|users|]) { DistinctPrefix(all, |users|); }
      return;
    }
    v := ValidateClients(clients, syntax, ids, UserIDs(users));
  }

  /** What the store keeps of a realm, and the token lifetimes. */
  datatype Settings = Settings(
    users: map<string, User>, usernames: map<string, string>, clients: map<string, Client>,
    accessTTL: nat, refreshTTL: nat)

  function UserMap(users: seq<User>): map<string, User> {
    if users == [] then map[] else UserMap(users[..|users| - 1])[users[|users| - 1].id := users[|users| - 1]]
  }

  function UsernameMap(users: seq<User>, fold: Fold): map<string, string> {
    if users == [] then map[]
    else UsernameMap(users[..|users| - 1], fold)[fold(users[|users| - 1].username) := users[|users| - 1].id]
  }

  function ClientMap(clients: seq<Client>): map<string, Client> {
    if clients == [] then map[]
    else ClientMap(clients[..|clients| - 1])[clients[|clients| - 1].id := clients[|clients| - 1]]
  }

  function FromRealm(users: seq<User>, clients: seq<Client>, fold: Fold, accessTTL: nat, refreshTTL: nat): Settings {
    Settings(UserMap(users), UsernameMap(users, fold), ClientMap(clients), accessTTL, refreshTTL)
  }

  /** What a validated configuration gives the store. */
  ghost predicate WellFormed(cfg: Settings) {
    && cfg.accessTTL > 0 && cfg.refreshTTL > 0
    && (forall id | id in cfg.users :: cfg.users[id].id == id && id != "" && id !in cfg.clients)
    && (forall id | id in cfg.clients :: cfg.clients[id].id == id && id != "")
    && (forall name | name in cfg.usernames :: cfg.usernames[name] in cfg.users)
    && (forall id | id in cfg.users :: forall p | p in cfg.users[id].permissions :: !ReservedScope(p))
    && (forall id | id in cfg.clients ::
          forall scope | scope in cfg.clients[id].allowedScopes :: !UnsupportedScope(scope))
    && (forall id | id in cfg.clients :: cfg.clients[id].kind.Service? ==>
          forall scope | scope in cfg.clients[id].allowedScopes ::
            !ReservedScope(scope) && scope in cfg.clients[id].permissions)
  }

  lemma {:induction false} UserMapEntries(users: seq<User>, fold: Fold)
    ensures forall id | id in UserMap(users) :: UserMap(users)[id] in users && UserMap(users)[id].id == id
    ensures forall user | user in users :: user.id in UserMap(users)
    ensures forall name | name in UsernameMap(users, fold) ::
      exists user :: user in users && fold(user.username) == name && UsernameMap(users, fold)[name] == user.id
  {
    if users != [] {
      var front, last := users[..|users| - 1], users[|users| - 1];
      UserMapEntries(front, fold);
      assert users == front + [last];
      assert last in users;
    }
  }

  lemma {:induction false} ClientMapEntries(clients: seq<Client>)
    ensures forall id | id in ClientMap(clients) :: ClientMap(clients)[id] in clients && ClientMap(clients)[id].id == id
  {
    if clients != [] {
      ClientMapEntries(clients[..|clients| - 1]);
    }
  }

  lemma SharedID(users: seq<User>, clients: seq<Client>, user: User, client: Client)
    requires user in users && client in clients && user.id == client.id
    ensures !Distinct(UserIDs(users) + ClientIDs(clients))
  {
    var i :| 0 <= i < |users| && users[i] == user;
    var j :| 0 <= j < |clients| && clients[j] == client;
    var all := UserIDs(users) + ClientIDs(clients);
    assert all[i] == all[|users| + j];
  }

  /** Validation is what makes the store's settings well formed; in particular no client id is a user id. */
  lemma ValidRealmIsWellFormed(users: seq<User>, clients: seq<Client>, syntax: Syntax, accessTTL: nat, refreshTTL: nat)
    requires ValidRealm(users, clients, syntax) && accessTTL > 0 && refreshTTL > 0
    ensures WellFormed(FromRealm(users, clients, syntax.fold, accessTTL, refreshTTL))
  {
    UserMapEntries(users, syntax.fold);
    ClientMapEntries(clients);
    forall id | id in UserMap(users) && id in ClientMap(clients)
      ensures false
    {
      SharedID(users, clients, UserMap(users)[id], ClientMap(clients)[id]);
    }
  }

  lemma {:induction false} UsersFound(users: seq<User>, fold: Fold, i: nat)
    requires i < |users| && Distinct(UserIDs(users)) && Distinct(Names(users, fold))
    ensures users[i].id in UserMap(users) && UserMap(users)[users[i].id] == users[i]
    ensures fold(users[i].username) in UsernameMap(users, fold)
      && UsernameMap(users, fold)[fold(users[i].username)] == users[i].id
    decreases |users|
  {
    if i < |users| - 1 {
      var front := users[..|users| - 1];
      assert UserIDs(users)[i] != UserIDs(users)[|users| - 1];
      assert Names(users, fold)[i] != Names(users, fold)[|users| - 1];
      DistinctFront(users, fold);
      UsersFound(front, fold, i);
    }
  }

  lemma DistinctFront(users: seq<User>, fold: Fold)
    requires users != [] && Distinct(UserIDs(users)) && Distinct(Names(users, fold))
    ensures Distinct(UserIDs(users[..|users| - 1])) && Distinct(Names(users[..|users| - 1], fold))
  {
    var front := users[..|users| - 1];
    assert forall i | 0 <= i < |front| :: UserIDs(front)[i] == UserIDs(users)[i];
    assert forall i | 0 <= i < |front| :: Names(front, fold)[i] == Names(users, fold)[i];
  }

  lemma {:induction false} ClientsFound(clients: seq<Client>, i: nat)
    requires i < |clients| && Distinct(ClientIDs(clients))
    ensures clients[i].id in ClientMap(clients) && ClientMap(clients)[clients[i].id] == clients[i]
    decreases |clients|
  {
    if i < |clients| - 1 {
      var front := clients[..|clients| - 1];
      assert ClientIDs(clients)[i] != ClientIDs(clients)[|clients| - 1];
      assert forall k | 0 <= k < |front| :: ClientIDs(front)[k] == ClientIDs(clients)[k];
      ClientsFound(front, i);
    }
  }

  lemma DistinctParts(a: seq<string>, b: seq<string>)
    requires Distinct(a + b)
    ensures Distinct(a) && Distinct(b)
  {
    forall i, j | 0 <= i < j < |a| ensures a[i] != a[j] { assert (a + b)[i] != (a + b)[j]; }
    forall i, j | 0 <= i < j < |b| ensures b[i] != b[j] { assert (a + b)[|a| + i] != (a + b)[|a| + j]; }
  }

  /** The store's maps hold the validated realm and nothing else: each user under its id and its folded name, each
      client under its id. */
  lemma SettingsHoldTheRealm(users: seq<User>, clients: seq<Client>, syntax: Syntax, accessTTL: nat, refreshTTL: nat)
    requires ValidRealm(users, clients, syntax)
    ensures var cfg, fold := FromRealm(users, clients, syntax.fold, accessTTL, refreshTTL), syntax.fold;
      && cfg.accessTTL == accessTTL && cfg.refreshTTL == refreshTTL
      && (forall user | user in users ::
            && user.id in cfg.users && cfg.users[user.id] == user
            && fold(user.username) in cfg.usernames && cfg.usernames[fold(user.username)] == user.id)
      && (forall client | client in clients :: client.id in cfg.clients && cfg.clients[client.id] == client)
      && (forall id | id in cfg.users :: cfg.users[id] in users)
      && (forall id | id in cfg.clients :: cfg.clients[id] in clients)
      && (forall name | name in cfg.usernames :: exists user :: user in users && fold(user.username) == name)
  {
    hide UserMap, UsernameMap, ClientMap, Distinct;
    UserMapEntries(users, syntax.fold);
    ClientMapEntries(clients);
    DistinctParts(UserIDs(users), ClientIDs(clients));
    forall i | 0 <= i < |users|
      ensures users[i].id in UserMap(users) && UserMap(users)[users[i].id] == users[i]
      ensures syntax.fold(users[i].username) in UsernameMap(users, syntax.fold)
      ensures UsernameMap(users, syntax.fold)[syntax.fold(users[i].username)] == users[i].id
    {
      UsersFound(users, syntax.fold, i);
    }
    forall i | 0 <= i < |clients|
      ensures clients[i].id in ClientMap(clients) && ClientMap(clients)[clients[i].id] == clients[i]
    {
      ClientsFound(clients, i);
    }
  }
}
