# Verification of the identity provider's protocol core

A Dafny model of the parts of the local OpenID provider where correctness rests on state or on parsing, with proofs of
what those parts promise. `dafny verify dfyconfig.toml` checks the whole project.

## What is modelled

**The token store** (`internal/idp/storage.go`). `Store.dfy` has the store as the object it is: a class with the five
maps and `nextExpiry`, whose records are objects that the methods overwrite in place, with the loops over maps visiting
keys in any order. Every method is proved to take the store to what a function in `StoreSpec.dfy` says, together with
its result. Everything else is proved about those functions, and so holds of the methods:

- `StoreInvariant.dfy`: the links between the five maps and `nextExpiry`, and that the lazy prune, early return
  included, leaves exactly what an eager filter leaves.
- `StoreSteps.dfy`, `StoreRuns.dfy`: every operation keeps the invariant; runs are sequences of locked sections of any
  number of callers, `Authenticate` being two sections with the password check between them.
- `StoreOperations.dfy`, `StoreRoundTrips.dfy`: what one operation means: exact readers, exact logout and revocation,
  and that what was stored is given back until its deadline.
- `StoreExact.dfy`, `StoreIssued.dfy`: each operation told record by record from the unexpired records before it: when
  it succeeds, the error otherwise, and the whole state after it. The record behind a granted token is written out from
  the request it was granted for.
- `StoreRequests.dfy`: authorization requests over whole runs: never more than 1024 of them, who can log one in, and
  that one is deleted only after its code was redeemed.
- `StoreGuarantees.dfy`: properties of whole runs: tokens once per code, replay ends the family, single-shot login, a
  deadline that does not slide, scopes that never widen; that a creation of tokens for a code fails only when the code
  cannot be reserved; and exactly when an access record outlives its family. `StoreExample.dfy` has runs that do these
  things, from the login on.

**Realm validation** (`internal/config/config.go`). `Realm.dfy` has the rules of `Validate` for users and clients, from
which the store's scope properties start; the syntax of hashes, redirect URIs and origins is a parameter of it.

**Theme checks** (`internal/idp/server.go`). `HTMLWalker.dfy` has the namespace stack, `LoginPage.dfy` the fold of
`validateLoginHTML` and `LoginChecker.dfy` its loops, `RealmURLs.dfy` the other checker, `AttributeNames.dfy` the raw
attribute scanner with a printer of tag texts. `LoginAcceptance.dfy` and `LoginOptions.dfy` say exactly which pages are
accepted, told by observers of the token stream; `LoginTemplates.dfy` that inert templates never matter. The test for
disabled controls is set against the document tree:

- `LoginTree.dfy`: documents with their namespaces and live shadow roots, the positions in them, and the controls that
  the HTML Standard disables.
- `LoginPile.dfy`: the element and fieldset stacks as one pile of open elements, and what each part of a document leaves
  on it.
- `LoginDisabled.dfy`: the condition on documents under which the test agrees with the tree at every position, and that
  it is exact. `LoginReadings.dfy` computes what a part leaves open from the part alone and says in these terms what the
  condition asks; `LoginClean.dfy` has the families of documents that always meet it.
- `LoginJudged.dfy`, `LoginWitnesses.dfy`: what follows for the verdict on a page, and five pages judged wrong.
  `LoginWalked.dfy` says which token streams such documents come from.

**Hosts** (`internal/config/config.go`). `IPv4.dfy`, `IPv6.dfy` and `OriginHost.dfy` have the WHATWG host parsers and
serializers on top of `Numerals.dfy`. `HostSpellings.dfy` has a printer of IPv4 addresses in all their spellings, and
says from it what every ASCII name without a colon canonicalises to.

**The allocation lock** (`playwright.config.ts`). `AllocationLock.dfy` is a step system over any number of processes.

## What is assumed

- `randomID` never repeats a value. It returns an error, so the model lets it fail, although with the Go version of
  `go.mod` (1.26.9) `crypto/rand.Read` ends the process instead. SHA-256 is injective and never all zero. Random values,
  clock readings and the password check are parameters.
- Events carry any clock readings, in any order. No theorem needs a monotone clock: "before the deadline" is about the
  reading the operation itself took. `CreateAuthRequest`, `Authenticate` and `SelectIdentity` read the clock before they
  lock, which is covered because the reading is a parameter.
- Callers pass to token creation what earlier calls returned: a refresh request comes from a lookup of the same token
  and `SetCurrentScopes` has at most narrowed it; a client-credentials request comes from
  `ClientCredentialsTokenRequest`; a completion secret is issued only after a login that succeeded, once per success,
  which is the order of `loginPOST` (server.go 1530-1560). Only the theorems over runs use this.
- Callers of token creation name a registered client, as the source dereferences it. The fields of a request object are
  read at the locked section; `LoginIsFrozen` is why reading them just before makes no difference.
- HTML tokens carry decoded, validated names and attribute maps. Case folding is modelled as far as it can meet ASCII
  names: U+017F and U+212A fold to `s` and `k`; lowering also takes U+0130 to `i`. The scanner of raw attribute names
  takes lowercasing as a parameter.
- Times are natural numbers, 0 being Go's zero time.

## What turned out false of the code

- **Disabled fieldsets.** `validateLoginHTML` refuses a sensitive control inside a disabled fieldset, unless in its first
  legend. What it finds on its stacks is not always what the document says:
  - It pushes every non-void tag on `elements`, also one that foreign content leaves self-closing and no end tag closes.
    `RefusesEnabledControl` is a page refused for a control that is enabled; `AcceptsDisabledControl` is a complete login
    page that is accepted although its password control is disabled.
  - It does not ask for the namespace of a `fieldset`, which its own walker knows. `RefusesForeignFieldset` is a page
    refused for a control below an SVG `fieldset`, which disables nothing.
  - It shares the stacks with live shadow roots. `RefusesShadowRoot` is a page refused for a control in the shadow tree
    of an element of a disabled fieldset.

  `VerdictRightIff` says exactly when the test is right at every position of a document. A part of a document leaves on
  the stacks the self-closing elements that no later end tag of an enclosing element takes away; an element with an end
  tag leaves nothing unless its own name is among what its children left (`Residue`, `ResidueIsLeft`). The condition,
  `RightDocument`, is that what was left before, after and between the parts disables what the tree disables and nothing
  else. For a disabled fieldset this means that nothing is left open before its first legend (`LegendNeedsNoResidue`)
  and that the legend's children leave no `legend` open (`LegendNeedsItsEnd`); where nothing disables, what is left open
  is harmless without a `fieldset` in it (`NoFieldsetLeft`) and a self-closing disabled `fieldset` makes the document
  wrong (`FieldsetLeftIsWrong`). The condition holds of every document without disabled fieldsets
  (`UndisabledDocumentIsRight`), of every document without `svg`, `math` and shadow roots (`PlainDocumentIsRight`), and
  of those with foreign content whose tags leave nothing open (`HonestDocumentIsRight`). `StackIsPathIffClean` says when
  the element stack is the path from the root.
- **Access records outlive families.** A family's deadline can pass before its last access token's. A replay then ends
  the family but leaves exactly the unexpired access records that carry its id: `ReplayEndsFamily` and
  `ReplayKillsFamily` say which, and `AccessOutlivesFamily` is a run in which such a token is active after the replay.
- **Foreign templates.** The checker takes every `template` for an inert one, also an SVG or MathML element of that name,
  whose content is live. `IgnoresForeignTemplate` is a login page that is accepted with a second `csrf` control of its
  form inside `<svg><template><foreignObject>`. The documents of the theorems above have no such elements.
- **Canonical IPv6 hosts.** `canonicalOriginHost` gives an IPv6 host in brackets, and refuses it in brackets.
  `CanonicalTwice` says that canonicalising a result gives it back exactly for hosts without a colon;
  `CanonicalAsURLHost` that with the brackets taken off, as `Hostname()` does, it always does.

## An error branch

`CreateAccessAndRefreshTokens` draws the family id after it has reserved the authorization code. If that draw could
fail, the code would stay reserved: `FailedPairReservesIff` says that a failed pair creation loses the code in exactly
this case, `LostForever` that no later event of the run would create tokens for the request, and `CodeIsLost` is such a
run of the model. The built program does not take the branch, because `crypto/rand.Read` returns no error since Go 1.24.
What holds of it is `FailureKeepsCode`: with every draw succeeding, a failed creation reserves no code; and
`CreatesIffReserves`: it fails exactly when the code cannot be reserved.

## Model

| member | source | states |
|---|---|---|
| Realm.ValidateNonemptyUnique | internal/config/config.go:361-373 | accepts exactly lists of distinct values that are nonempty and free of surrounding whitespace |
| Realm.ValidateScopeTokens | internal/config/config.go:349-359 | accepts exactly lists of RFC 6749 scope tokens |
| Realm.ValidatePermissions | internal/config/config.go:337-347 | accepts exactly distinct solid values that are scope tokens and not reserved OIDC scopes |
| Realm.ValidateUsers | internal/config/config.go:195-224 | accepts exactly users who are valid, hash syntax included, and whose ids and folded names are pairwise distinct, and hands on their ids |
| Realm.ValidateClients | internal/config/config.go:225-296 | accepts exactly clients that are valid by the rules of their kind, secret hashes, redirect URIs and origins included, and whose ids are distinct from each other and from the user ids |
| Realm.Validate | internal/config/config.go:191-299 | accepts exactly the users and clients that satisfy the declarative rules: one namespace for user and client ids, distinct folded names, the rules of both client kinds |
| Realm.ValidRealmIsWellFormed | internal/idp/storage.go:123-143 | the maps built from a validated realm have the facts the store's scope properties need; no client id is a user id |
| Realm.SettingsHoldTheRealm | internal/idp/storage.go:123-143 | of a validated realm the store finds every user under its id and its folded name and every client under its id, and nothing else |
| Store.AuthRequest.constructor | internal/idp/storage.go:231-246 | a new request keeps what was asked for, expires five minutes after its creation and is not done |
| Store.RefreshRequest.SetCurrentScopes | internal/idp/storage.go:940-944 | replaces the scopes and nothing else |
| Store.Store.constructor | internal/idp/storage.go:123-143 | the store starts empty, with the realm's users, user names and clients by id |
| Store.Store.ScheduleExpiryLocked | internal/idp/storage.go:155-162 | `nextExpiry` becomes the earlier of itself and a nonzero expiry |
| Store.Store.PruneRequests | internal/idp/storage.go:175-184 | drops exactly the expired requests and their codes; the candidate expiry is the least of those that stay |
| Store.Store.PruneConsumed | internal/idp/storage.go:201-210 | drops exactly the consumed refresh records whose family is gone or expired |
| Store.Store.PruneFamilies | internal/idp/storage.go:211-220 | drops exactly the expired families and the tokens they index |
| Store.Store.PruneLocked | internal/idp/storage.go:164-221 | the whole prune refines the specification function; objects that stay are the ones that were stored |
| StoreSpec.EarliestOfMore | internal/idp/storage.go:155-173 | what scheduling computes is the least nonzero expiry of all records considered so far |
| StoreInvariant.PruneIsEager | internal/idp/storage.go:164-221 | in every state the invariant allows, pruning leaves exactly the unexpired records and the refresh records of unexpired families, whether or not it returns early |
| StoreInvariant.PruneInv | internal/idp/storage.go:164-221 | pruning keeps the invariant and leaves nothing expired |
| StoreInvariant.EvolvesTransitively | internal/idp/storage.go:67-104 | the two-state relation that every step obeys composes |
| Store.Store.CreateAuthRequest | internal/idp/storage.go:223-255 | refines the specification, an empty code challenge being none, and returns the very object it stored |
| Store.Store.AuthRequestByID | internal/idp/storage.go:257-267 | refines the specification and returns the stored object |
| Store.Store.AuthRequestByCode | internal/idp/storage.go:269-283 | refines the specification and returns the stored object; the code is not consumed |
| Store.Store.SaveAuthCode | internal/idp/storage.go:285-302 | refines the specification: one code per completed, unexpired request, bound to its deadline |
| Store.Store.DeleteAuthRequest | internal/idp/storage.go:304-318 | refines the specification: only a request whose code is reserved goes, and its code with it; the exact effect is stated in DeleteIsExact |
| Store.Store.AuthenticateBegin | internal/idp/storage.go:320-338 | first locked section: refuses a completed request, looks up the user |
| Store.Store.AuthenticateEnd | internal/idp/storage.go:343-355 | the rest: completes with the user found in the first section if the password matched; what this means is stated in PasswordLoginIff and LoginNeedsPassword |
| Store.Store.SelectIdentity | internal/idp/storage.go:357-367 | completes with the selected user |
| Store.GrantedScopes | internal/idp/storage.go:381-394 | the loop keeps, in order, the scopes the client allows that are OIDC's own or permitted to the user |
| Store.Store.CompleteAuthenticationLocked | internal/idp/storage.go:369-399 | refines the specification: sets subject, scopes, time, method and done of a request that was not done |
| Store.Store.IssueCompletionSecret | internal/idp/storage.go:404-420 | binds the digest of a fresh secret to a completed request |
| Store.Store.ConsumeCompletionSecret | internal/idp/storage.go:424-440 | passes for the bound secret only and clears it |
| Store.Store.LoginInfo | internal/idp/storage.go:442-459 | the client's display name, or its id |
| Store.Store.ReserveAuthorizationCodeLocked | internal/idp/storage.go:461-477 | reserves the code of a stored request object once; a stale object is refused |
| Store.Store.TokenRequestInfo | internal/idp/storage.go:955-966 | client, subject, scopes, method and time of each kind of token request |
| Store.Store.CreateAccessToken | internal/idp/storage.go:479-506 | refines the specification: reserves, stores the access record, schedules; the record is written out in AccessForCode, AccessForService and AccessForRefresh |
| Store.Store.CompactFamilyTokensLocked | internal/idp/storage.go:602-610 | keeps, in order, the tokens whose record is unconsumed |
| Store.ConsumeRefreshRecord | internal/idp/storage.go:591-597 | wipes all but the family, the client and the consumed mark, and returns the access id |
| Store.Store.RotateLocked | internal/idp/storage.go:548-551 | consumes the record, drops its access record and compacts the index |
| Store.Store.AddPairLocked | internal/idp/storage.go:552-567 | stores the new refresh and access record and indexes the token |
| Store.Store.CreateAccessAndRefreshTokens | internal/idp/storage.go:508-568 | refines the specification on every path: random failure, stale or reserved code, new family, replay, rotation |
| Store.Store.TokenRequestByRefreshToken | internal/idp/storage.go:570-589 | refines the specification: a consumed token revokes its family; the request returned is a new object |
| Store.Store.RevokeFamilyLocked | internal/idp/storage.go:612-630 | removes the family, all its refresh records and the access record of the live one; objects that stay are untouched |
| Store.Store.TerminateSession | internal/idp/storage.go:632-657 | its three loops refine the specification |
| Store.Store.GetRefreshTokenInfo | internal/idp/storage.go:659-673 | refines the specification |
| Store.Store.RevokeToken | internal/idp/storage.go:675-694 | refines the specification: an access id first, then a refresh token; owner only |
| Store.Store.SetUserinfoFromToken | internal/idp/storage.go:754-784 | refines the specification: the token, subject, origin and user checks with their errors, and the claims that the scopes ask for |
| Store.Store.SetIntrospectionFromToken | internal/idp/storage.go:786-804 | refines the specification: active only for the record's subject and client |
| Store.Store.ClientCredentialsTokenRequest | internal/idp/storage.go:732-746 | grants exactly when the client is a service and every requested scope is allowed and permitted |
| Store.ApplicationScopes | internal/idp/storage.go:830-840 | the scopes that are not OIDC's own, in order |
| StoreSteps.RevokeErases | internal/idp/storage.go:612-630 | under the invariant, revoking families leaves no record of any kind with their ids, and every other record |
| StoreSteps.OpenNew | internal/idp/storage.go:526-537 | opening a family keeps the links, up to the pair that is still to be added |
| StoreSteps.OpenByRotation | internal/idp/storage.go:538-551 | consuming the live record keeps the links, up to the pair that is still to be added |
| StoreSteps.ClosePair | internal/idp/storage.go:552-567 | adding the pair restores the invariant |
| StoreRuns.EventGood | internal/idp/storage.go:223-804 | every locked section of every operation keeps the invariant and the two-state relation |
| StoreRuns.RunInv | internal/idp/storage.go:223-804 | every state of every run satisfies the invariant, the scope bounds and the agreement with what callers hold |
| StoreRuns.RunEvolves | internal/idp/storage.go:223-804 | any two states of a run are related: requests stay frozen once done, reservations stay, consumed records stay, ids are not reused |
| StoreRuns.InfoWithin | internal/idp/storage.go:553-554 | what a permitted token request asks for lies within the client's allow-list and the principal's permissions |
| StoreOperations.RequestReadersAreExact | internal/idp/storage.go:257-283 | readers of requests and codes accept exactly the unexpired records, though they test no time, and return the id of the request asked for or behind the code |
| StoreOperations.TokenReadersAreExact | internal/idp/storage.go:570-804 | readers of tokens accept exactly unexpired access records and unconsumed refresh records of unexpired families, and return the record or its subject |
| StoreOperations.UserinfoIsExact | internal/idp/storage.go:754-784 | userinfo is given exactly for an unexpired token of the named registered subject and, with an origin, for one that the token's registered client lists; name and user name only with `profile`, mail only with `email` |
| StoreOperations.PruneIsInvisible | internal/idp/storage.go:164-221 | an earlier prune changes no later one |
| StoreOperations.LookupsDoNotConsume | internal/idp/storage.go:269-283 | any number of code lookups changes no later lookup or reservation |
| StoreOperations.TerminateIsExact | internal/idp/storage.go:632-657 | a logout leaves exactly the unexpired records of all other subject and client pairs, and without a user or a client it is refused |
| StoreOperations.RevokeIsExact | internal/idp/storage.go:675-694 | revocation by the owner removes the named token and its family and nothing else; by others, nothing but expired records |
| StoreRoundTrips.IssuedRefreshToken | internal/idp/storage.go:508-589 | a granted refresh token gives back exactly what it was granted for, before its family's deadline and never after |
| StoreRoundTrips.IssuedAccessToken | internal/idp/storage.go:786-804 | a granted access token introspects as its record strictly before its deadline and is inactive from then on |
| StoreRoundTrips.RotationIsExact | internal/idp/storage.go:538-567 | a rotation replaces one refresh and one access record of its family, re-indexes it and touches nothing else |
| StoreRoundTrips.SavedCode | internal/idp/storage.go:269-302 | a saved code stands for its request strictly before the request's deadline |
| StoreRoundTrips.ReservedCode | internal/idp/storage.go:269-283 | a code taken by token creation stands for nothing, at any time |
| StoreRoundTrips.IssuedSecret | internal/idp/storage.go:404-440 | exactly the issued secret passes, strictly before the request's deadline |
| StoreRoundTrips.ConsumedSecret | internal/idp/storage.go:424-440 | after a secret passed no secret passes |
| StoreExact.CreateRequestIsExact | internal/idp/storage.go:223-255 | a request is stored exactly for a registered client that does not ask for no prompt, while fewer than 1024 are pending; what is stored is written out, and each refusal has its error |
| StoreExact.SaveCodeIsExact | internal/idp/storage.go:285-302 | a code is saved exactly for a logged-in request without one, under a name no unexpired code has, with the request's deadline and not taken |
| StoreExact.DeleteIsExact | internal/idp/storage.go:304-318 | deletion succeeds exactly when the request's code is stored for it and taken; it removes the two records and nothing else, nobody finds the request or the code again, and a refusal changes nothing |
| StoreExact.GrantedAreKept | internal/idp/storage.go:381-394 | the scopes granted at login are those of the request, in order and as often, that the client allows and that are among OpenID's four or the user's permissions |
| StoreExact.ApplicationScopesAreOthers | internal/idp/storage.go:830-840 | the permission claim has the other scopes, in order and as often as they were asked for |
| StoreExact.LoginBeginIsExact | internal/idp/storage.go:320-338 | the first half of a login changes nothing, refuses exactly a logged-in request, and finds exactly the user of the folded name |
| StoreExact.LoginEndIsExact | internal/idp/storage.go:343-356 | the second half logs in exactly a waiting request, for the user found, with the right password; every refusal has its error and leaves every request as it was |
| StoreExact.SelectIsExact | internal/idp/storage.go:357-367 | a selection logs in exactly a waiting request, for a registered user; subject, scopes, time and method are written out |
| StoreExact.IssueIsExact | internal/idp/storage.go:404-420 | a secret is bound exactly to a logged-in request, in place of any before it, and nothing else changes |
| StoreExact.ConsumeIsExact | internal/idp/storage.go:424-440 | a callback passes exactly with the bound secret, which it unbinds, and changes nothing else |
| StoreExact.LoginInfoIsExact | internal/idp/storage.go:442-459 | the login page gets the client's name, or its id when it has none, and the error otherwise |
| StoreIssued.AccessForCode | internal/idp/storage.go:479-506 | an access token for a code is granted exactly when the code is stored and not taken; its record has the stored request's client, subject, scopes, time and method, the client's audiences and no family, and introspects as such exactly for the access lifetime |
| StoreIssued.AccessForService | internal/idp/storage.go:479-506 | the same for client credentials, where the client is its own subject |
| StoreIssued.AccessForRefresh | internal/idp/storage.go:479-506 | the same for a refresh request |
| StoreIssued.PairForCode | internal/idp/storage.go:508-568 | a pair for a code is granted exactly when the code is stored and not taken; the new family, the refresh record and the access record are written out, each with its own deadline |
| StoreIssued.PairForService | internal/idp/storage.go:508-568 | the same for client credentials |
| StoreIssued.RotationIff | internal/idp/storage.go:538-568 | a rotation succeeds exactly for a stored, unexpired, unconsumed token; the state after it is written out, with the old record wiped and the family's deadline kept; a consumed token ends its family, and any other changes nothing |
| StoreIssued.LookupIff | internal/idp/storage.go:570-589 | a refresh token gives back its record's fields exactly while that is stored, unexpired and unconsumed; a consumed one ends its family |
| StoreIssued.NothingForStale | internal/idp/storage.go:461-530 | a request object that is not the stored one gets no token, and nobody gets one while nothing can be drawn |
| StoreIssued.ServiceRequestIff | internal/idp/storage.go:732-746 | client credentials are granted exactly to registered services, for at least one scope, all allowed and permitted |
| StoreRequests.PendingBound | internal/idp/storage.go:248-251 | however requests arrive, no state of a run holds more than 1024 of them |
| StoreRequests.PasswordLoginIff | internal/idp/storage.go:320-356 | over any interleaving a password login goes through exactly when its first half found the request and a user of the given name, the password was right and the request is still stored, unexpired and waiting; the request is then that user's, by password, from the second clock reading |
| StoreRequests.SelectionIff | internal/idp/storage.go:357-367 | a selection goes through exactly for a registered user and a stored, unexpired, waiting request |
| StoreRequests.LoginNeedsPassword | internal/idp/storage.go:320-399 | a request that becomes done does so by a selection, or by the right password for a registered name that an earlier first half on the same request gave, and is that user's |
| StoreRequests.DeletionFollowsRedemption | internal/idp/storage.go:304-318 | in any run a deletion succeeds exactly when the request is still stored and an earlier event took its code |
| StoreGuarantees.RequestOrigin | internal/idp/storage.go:223-255 | every stored request was made by an authorization event five minutes before its deadline and still has that event's client, redirect URI, state, nonce and code challenge, and the client's audiences |
| StoreGuarantees.TokensNeedRedemption | internal/idp/storage.go:483-530 | no token creation for a code succeeds without taking the code |
| StoreGuarantees.RedeemedAtMostOnce | internal/idp/storage.go:461-530 | over any interleaving at most one token creation takes a request's code, within five minutes of the authorization request |
| StoreGuarantees.TokensAtMostOnce | internal/idp/storage.go:461-568 | when tokens have been created for a request, every later creation for it fails, over any interleaving |
| StoreGuarantees.CreatesIffReserves | internal/idp/storage.go:479-568 | with every draw succeeding, creating tokens for a code fails exactly when the code cannot be reserved |
| StoreGuarantees.FailureKeepsCode | internal/idp/storage.go:479-530 | with every draw succeeding, a creation that fails newly reserves no code |
| StoreGuarantees.FailedAccessReservesNothing | internal/idp/storage.go:479-500 | an access-token creation that fails newly reserves no code, whatever was drawn |
| StoreGuarantees.FailedPairReservesIff | internal/idp/storage.go:508-530 | a failed pair creation leaves the code newly reserved exactly when all went well but for drawing the family id, an error branch that the built program cannot take |
| StoreGuarantees.LostForever | internal/idp/storage.go:526-530 | after that no event of the run would create tokens for the request |
| StoreExample.CodeIsLost | internal/idp/storage.go:526-530 | a run of the model in which this happens and the retry fails |
| StoreGuarantees.LoginIsSingleShot | internal/idp/server.go:1130-1143 | over any interleaving each request has at most one successful login, one secret issued and one callback that passes |
| StoreGuarantees.LoginIsFrozen | internal/idp/storage.go:369-399 | subject, scopes, time and method of a completed request never change |
| StoreGuarantees.CallbackSecretWasIssued | internal/idp/storage.go:404-440 | a callback that passes presents a secret issued earlier for that very request |
| StoreGuarantees.ReplayEndsFamily | internal/idp/storage.go:543-558 | presenting a consumed token is refused and leaves nothing of its family but exactly the unexpired access records of a family that is over |
| StoreGuarantees.ReplayKillsFamily | internal/idp/storage.go:538-589 | over whole runs, for chains of any length, after any consumed ancestor was presented no refresh token ever issued in the family is accepted; its access records are gone except exactly those that had outlived it, and where there are none no access id ever issued in it is stored again |
| StoreExample.ReplayHappens | internal/idp/storage.go:508-589 | a run with a login, its callback, the redemption of its code, a rotation and a replay meets the hypotheses of the guarantees, and the rotated pair is dead after it |
| StoreExample.AccessOutlivesFamily | internal/idp/storage.go:570-589 | the same run with the replay after the family's deadline: the rotated access token stays active |
| StoreGuarantees.DeadlineDoesNotSlide | internal/idp/storage.go:526-537 | through any number of rotations a family's deadline is its creation plus the refresh lifetime, and acceptance is strictly before it |
| StoreGuarantees.FamiliesAreWellFormed | internal/idp/storage.go:508-630 | in every reachable state a family is unrevoked, has one unconsumed record, indexes exactly it, and no other access record carries its id |
| StoreGuarantees.ClaimsWithinPermissions | internal/idp/storage.go:809-840 | the permission claim of any token request is within the principal's permissions and the client's allow-list |
| StoreGuarantees.RotationNarrows | internal/idp/storage.go:552-567 | a rotation asks for no scope that the consumed record lacked |
| StoreGuarantees.ScopesNeverWiden | internal/idp/storage.go:508-568 | whatever bounds a family's scopes at one point of a run bounds them at every later one |
| HTMLWalker.BrowserHTMLWalker.NextToken | internal/idp/server.go:391-436 | the walker refines the specification of stack and token |
| HTMLWalker.BrowserHTMLWalker.CloseElement | internal/idp/server.go:382-389 | an end tag pops to its innermost match, or nothing |
| HTMLWalker.TagInForeign | internal/idp/server.go:341-436 | in foreign content exactly the listed tags empty the stack and are read as HTML; any other keeps its slash and opens an element of its namespace, with the integration points listed |
| HTMLWalker.TagInHTML | internal/idp/server.go:391-436 | in HTML content exactly `svg` and `math` open foreign content, and exactly they and the listed void elements keep a slash |
| HTMLWalker.WalkRooted | internal/idp/server.go:408-431 | every foreign element on the stack hangs under an `svg` or `math` root, anew below each integration point |
| HTMLWalker.SlashNeedsForeignRoot | internal/idp/server.go:413-431 | without `svg` and `math` tags the stack stays empty and no non-void tag stays self-closing |
| HTMLWalker.WalkKeepsTags | internal/idp/server.go:391-436 | the walker changes at most the slash of a tag |
| LoginChecker.FindLast | internal/idp/server.go:541-547 | the innermost open element of a name |
| LoginChecker.CloseElement | internal/idp/server.go:541-562 | the loops of an end tag refine the specification of the nesting |
| LoginChecker.CheckControl | internal/idp/server.go:661-701 | the loops over fieldsets and recorded names refine the specification of a control's complaint, which ComplaintIsReason states |
| LoginChecker.CheckOverrides | internal/idp/server.go:714-736 | the first override of the POST form by a submit control decides |
| LoginChecker.ValidateLoginHTML | internal/idp/server.go:468-771 | the whole checker, complaint included, refines the fold; which pages pass is stated in AcceptedIff |
| LoginAcceptance.InPostIffPostForm | internal/idp/server.go:563-571 | after any stream a scope is in the POST form exactly when its form stack is the page's one POST form |
| LoginAcceptance.LoginName | internal/idp/server.go:641-645 | the sensitive names are the five, letter by letter in any case |
| LoginAcceptance.SentAlone | internal/idp/server.go:682-700 | a control suits exactly when it is no button, no input of the six types, no unchecked radio button and no select of many values |
| LoginAcceptance.ComplaintIsReason | internal/idp/server.go:661-701 | a control passes exactly when no listed reason speaks against it, and the complaint names the first that does |
| LoginAcceptance.LoopPassesIff | internal/idp/server.go:494-712 | the token loop refuses nothing exactly when every live tag is sound, no sensitive name of the POST form repeats ignoring case, and there is at most one POST form; soundness, names and method are spelled out on the tag and its attributes; that a tag is barred by a fieldset has its tree meaning in right documents only |
| LoginAcceptance.OverridesPassIff | internal/idp/server.go:714-736 | an override is refused exactly when some live submit control, by its form or its `form` attribute, belongs to the POST form |
| LoginOptions.StockedIff | internal/idp/server.go:481-492 | no recorded select for the user's name lacks options exactly when each has an option that is enabled, by itself and its optgroup, and not empty, by its value or its text outside scripts |
| LoginOptions.AcceptedIff | internal/idp/server.go:468-771 | a page is accepted exactly when its live tags make one sound POST form to the base path's login, with both hidden values, the mode's fields, no override, and an enabled nonempty option in each select for the user's name; barred by a fieldset as in LoopPassesIff |
| LoginPile.PushStacks | internal/idp/server.go:574-591 | a start tag takes the two stacks of a pile to those of the pile with the element on it |
| LoginPile.PopStacks | internal/idp/server.go:541-562 | an end tag takes the two stacks of a pile to those of the pile cut at the innermost element of its name |
| LoginPile.StacksArePile | internal/idp/server.go:541-591 | at every position of every document the stacks are the path from the root with what the parts before it left in between |
| LoginTree.VerdictIsTreeDisabled | internal/idp/server.go:661-668 | going down the path step by step finds what the HTML Standard disables: controls below a disabled HTML fieldset of the same tree, not through its first legend |
| LoginDisabled.TestIsStanding | internal/idp/server.go:661-668 | the loop over the fieldset stack finds a disabled fieldset on the pile without its first legend right above |
| LoginDisabled.VerdictRightIff | internal/idp/server.go:541-711 | the fieldset test agrees with the tree at every position of a document exactly when the document is right |
| LoginDisabled.LegendNeedsNoneLeft | internal/idp/server.go:574-586 | the first legend of a disabled fieldset is taken for one exactly when nothing was left open before it |
| LoginReadings.ResidueIsLeft | internal/idp/server.go:541-561 | what a part of a document leaves on the element stack is its residue: self-closing names, less what the end tags of enclosing elements take back |
| LoginReadings.RightReads | internal/idp/server.go:541-711 | a part is right exactly when every gap between its nodes and every node is |
| LoginReadings.LegendNeedsNoResidue | internal/idp/server.go:574-586 | the first legend of a disabled fieldset is taken for one exactly when the residue before it is empty |
| LoginReadings.LegendNeedsItsEnd | internal/idp/server.go:549-557 | after its first legend the fieldset disables again exactly when the residue of the legend's children has no `legend` |
| LoginReadings.NoFieldsetLeft | internal/idp/server.go:662-668 | where nothing disables, a residue without `fieldset` disables nothing |
| LoginReadings.FieldsetLeftIsWrong | internal/idp/server.go:588-591 | where nothing disables, a self-closing disabled `fieldset` makes the part wrong |
| LoginJudged.JudgedByTree | internal/idp/server.go:661-675 | in a right document a sensitive control, with or without a slash, is refused as disabled exactly when the tree disables it or it has the attribute |
| LoginJudged.AcceptedControlIsEnabled | internal/idp/server.go:661-675 | no accepted page has, anywhere in a right document, a sensitive control that the tree disables, however its tag is written |
| LoginWitnesses.RefusesEnabledControl | internal/idp/server.go:709-711 | a raw page that is refused for an enabled control, because of a self-closing `svg` |
| LoginWitnesses.AcceptsDisabledControl | internal/idp/server.go:709-711 | a raw login page that is accepted with a password control that its tree disables |
| LoginWitnesses.RefusesForeignFieldset | internal/idp/server.go:588-591 | a raw page that is refused for a control below an SVG fieldset |
| LoginWitnesses.RefusesShadowRoot | internal/idp/server.go:510-527 | a raw page that is refused for a control in a shadow tree below a disabled fieldset |
| LoginWitnesses.IgnoresForeignTemplate | internal/idp/server.go:510-521 | a raw login page that is accepted with a live second control of a sensitive name inside an SVG `template` |
| LoginClean.StackIsPathIffClean | internal/idp/server.go:709-711 | the element stack is the path at every position exactly when no non-void tag but `template` is self-closing |
| LoginClean.PlainDocumentIsRight | internal/idp/server.go:413-431 | documents without `svg`, `math` and shadow roots are right, and their stack is the path |
| LoginClean.HonestDocumentIsRight | internal/idp/server.go:541-711 | so are documents with foreign content whose tags leave nothing open, without disabled foreign fieldsets and without shadow roots below disabled ones |
| LoginClean.UndisabledDocumentIsRight | internal/idp/server.go:541-711 | so are all documents without a disabled fieldset, whatever their tags leave open |
| LoginWalked.DocumentIsHandedOn | internal/idp/server.go:391-436 | the walker hands on a document as it is written when no HTML element has the name of a foreign element around it |
| LoginTemplates.InertTemplateErased | internal/idp/server.go:504-527 | deleting an inert template subtree, whatever it holds, from any stream keeps the verdict and the complaint |
| LoginTemplates.TemplateInSelectErased | internal/idp/server.go:516-521 | inside a tracked select this holds even for templates that ask for a shadow root |
| RealmURLs.ValidateRealmRelativeURLs | internal/idp/server.go:861-911 | the checker refines its fold |
| RealmURLs.AcceptsIffNoLiveBadTag | internal/idp/server.go:861-911 | a document is accepted exactly when no tag outside inert templates has a bad URL |
| RealmURLs.InertTemplateErased | internal/idp/server.go:876-889 | deleting an inert template subtree from any stream keeps the verdict |
| AttributeNames.ValidateRawHTMLAttributeNames | internal/idp/server.go:795-850 | the nested loops refine the scan, and end on every text, for any lowercasing |
| AttributeNames.PrintedVerdict | internal/idp/server.go:795-850 | the text of a tag is refused for a repetition exactly when two of its lowercased names are equal, and otherwise judged by what stands after its last complete attribute: the end, a nameless equals sign, a missing value or an open quote |
| AttributeNames.EveryTextIsTag | internal/idp/server.go:795-850 | every nonempty text is such a text, so that this is the verdict on every input |
| IPv6.FindRun | internal/config/config.go:527-543 | the run found is the first among the longest runs of at least two zero pieces, and -1 exactly when there is none |
| IPv6.SerializeIPv6 | internal/config/config.go:521-560 | the text is the pieces in hexadecimal with the first longest run of at least two zeros written as two colons |
| IPv6.RoundTrip | internal/config/config.go:544-560 | reading the text by the RFC 4291 rules gives back the eight pieces |
| IPv6.TextsDiffer | internal/config/config.go:521-560 | distinct addresses have distinct texts |
| IPv6.OneBestRun | internal/config/config.go:527-543 | the compressed run is determined by the address |
| IPv6.OneText | internal/config/config.go:521-560 | so the text is too |
| IPv4.ParseBrowserIPv4Number | internal/config/config.go:613-646 | the 64-bit accumulator never wraps; success is the positional value of the digits, at most 32 bits; which texts these are is stated in NumberIff |
| IPv4.ParseBrowserIPv4Host | internal/config/config.go:581-611 | success yields the four bytes of the parts' value; failure exactly when a label or a part is out of range, as EveryNameCanonicalises says in terms of how addresses are written |
| IPv4.AddressBounded | internal/config/config.go:597-607 | every parsed address is below 2^32 |
| IPv4.AddressInjective | internal/config/config.go:600-607 | for a fixed number of parts different parts give different addresses |
| IPv4.FormatFixpoint | internal/config/config.go:581-611 | dotted decimal text of an address parses back to it |
| HostSpellings.NumberIff | internal/config/config.go:613-646 | a label reads as a number exactly when it is one of the spellings of it, in any letter case, and the number has at most 32 bits |
| HostSpellings.RadicesRead | internal/config/config.go:613-646 | a number of at most 32 bits reads as itself in decimal, after `0` in octal and after `0x` or `0X` in hexadecimal, and a larger one in none of them |
| HostSpellings.SpelledIff | internal/config/config.go:545-556 | the spelling of a number is the one text of lower-case digits of that value without a leading zero |
| OriginHost.IsRadixDigits | internal/config/config.go:648-663 | nonempty and all digits of the radix |
| OriginHost.CanonicalIPv6Host | internal/config/config.go:507-516 | succeeds exactly on unzoned eight-piece literals, and then gives the canonical text of the address in brackets |
| OriginHost.CanonicalOriginHost | internal/config/config.go:463-478 | on hosts with a colon succeeds exactly as above with the canonical text; on others it agrees with the specification of names and IPv4 spellings, which SpellingsCanonicalise and EveryNameCanonicalises state |
| HostSpellings.SpellingsCanonicalise | internal/config/config.go:463-505 | one to four dotted labels in range, in any mix of spellings and letter cases, with root dots or without, canonicalise to the dotted decimal text of the address they denote |
| HostSpellings.EveryNameCanonicalises | internal/config/config.go:463-579 | any ASCII name without a colon: only dots are refused as empty, a name whose last label is no number comes back in lower case without its root dots, and any other is accepted exactly when it can be written as an address |
| HostSpellings.ConvertedCanonicalises | internal/config/config.go:485-505 | a name outside ASCII canonicalises as what IDNA conversion makes of it, or is refused |
| OriginHost.CanonicalTwice | internal/config/config.go:463-516 | canonicalising a result gives it back exactly when the host had no colon |
| OriginHost.CanonicalAsURLHost | internal/config/config.go:437-450 | with brackets taken off, canonicalising a result gives it back and nothing else, for names, IPv4 and IPv6 |
| OriginHost.StandardReader | internal/config/config.go:511-514 | the reader of RFC 4291 literals meets what the theorems on IPv6 hosts ask of the literal parser |
| AllocationLock.StepInv | playwright.config.ts:96-237 | every file-system call, error, crash or operator action keeps the lock's invariant |
| AllocationLock.MutualExclusion | playwright.config.ts:99-157 | in every run at most one process is between its successful create and its unlink |
| AllocationLock.PublishedTokenIsHolders | playwright.config.ts:159-178 | while a process holds the lock the metadata is complete and carries its token, which no other process has |
| AllocationLock.OnlyOwnerUnlinks | playwright.config.ts:179-187 | the lock file disappears only by its owner's hand, or by the operator's once the owner is dead |
| AllocationLock.HandoverNeedsUnlink | playwright.config.ts:99-157 | between two owners lies an unlink by the first or the operator's after its death |
| AllocationLock.OwnedFilesAreLeftAlone | playwright.config.ts:159-198 | while a process owns the lock nobody else changes the lock file or the metadata |
| AllocationLock.CleanRelease | playwright.config.ts:214-237 | a release without errors passes the token check and leaves neither file |
| AllocationLock.DeadOwnerKeepsLock | playwright.config.ts:57-62 | from its owner's death on the lock stays, and nobody else acquires it, for as long as the operator does not remove it |

## Left out

- HTTP handlers, cookies, CSRF tokens, headers, CORS, CSP, template rendering and the OIDC library: plumbing or foreign code.
- JWT signing, bcrypt and constant-time comparison: the password check is a parameter of the second half of `Authenticate`.
- `GetAudience` of a request returning its audience only once, and the request's own mutex: not part of this model.
- Realm.ValidateUsers: which of several errors is reported is not stated; bcrypt syntax is a parameter.
- Realm.ValidateClients: which of several errors is reported is not stated; bcrypt, redirect and origin syntax are parameters.
- Realm.Validate: the rules outside users and clients (names of realms, token lifetimes, addresses, login mode) and which error is reported are not stated.
- The HTML tokenizer, raw-text elements and tokenizer errors: the checks start from valid tokens. Documents are trees whose end tags are all there.
- LoginPile.StacksArePile: HTML templates without a shadow root stand for nothing in a document; erasing them changes no verdict (`InertTemplateErased`). A shadow root inside a tracked select is inert too, which `JudgedByTree` excludes. Foreign elements of the name `template`, which the checker erases although they are live (`IgnoresForeignTemplate`), are not among the documents' elements.
- LoginWalked.DocumentIsHandedOn: where an HTML element has the name of a foreign element around it, its end tag closes that one in the walker; documents are then what the walker hands on, not what is written.
- `srcsetCandidates`, `isRootRelativeLoginURL` and the list of URL attributes: one predicate on a tag's attributes.
- `url.Parse`, IDNA, `netip.ParseAddr`, ports and schemes of origins: parameters or not part of this model. The theorems about IPv6 hosts ask of the literal parser that it reads canonical texts back and refuses brackets, which the reader of RFC 4291 does (`StandardReader`); those about names that IDNA gives ASCII names.
- Waiting, timeouts, leases, heartbeats and signals of the allocation lock: they never change the files. A process that acquires again counts as another process.
- The allocation lock is modelled on values, one event for each file-system call, because its point is interleaving; the retry loop and the release closure are not methods.
