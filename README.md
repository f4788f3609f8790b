# Platform registry record, modelled in Dafny

This project models the `Platform` class of an LTI tool provider (`src/Utils/Platform.js`).
A `Platform` is the in-memory handle of one registered platform. It is identified by its
URL and the client id the platform issued, and by its key id (`kid`). It keeps a name, three
endpoints and an authentication configuration in private fields. It mirrors them in a
`platform` record of a key-value store. It also reads the platform's status, its keypair and
its cached access tokens from that store.

The model has these modules:

- `Wrappers` (`wrappers.dfy`): `Option` and `Result`.
- `Records` (`records.dfy`): one datatype per stored record, and what a partial update
  (`Modify`) does to a platform record.
- `Persistence` (`database.dfy`): the store as a class with one map per collection. The store
  may reject a write: `rejecting` names the collections whose writes throw for this store. The set is fixed
  for the store's lifetime, so a failure that comes and goes between calls is not expressed.
  A rejected write changes nothing.
- `TokenGrant` (`auth.dfy`): the token-acquisition collaborator as an oracle. `grant` gives
  its answer for each platform and scope string. `requests` logs every call.
- `PlatformRules` (`platform_rules.dfy`): the decisions the class makes on values alone, and
  lemmas about them over many calls.
- `Platforms` (`platform.dfy`): the class `Platform`.
- `PlatformScenario` (`scenario.dfy`): client code that uses only the class contracts.

The modelling choices are these:

- Each of the four field setters and `platformAuthConfig` has two modes. An omitted or
  empty argument (JavaScript falsy) makes it a getter that writes nothing. (`platformActive`
  is a getter only for `undefined`, so `platformActive(false)` writes.) A given argument makes it write the store first and the field
  second. So when the store rejects the write, the field keeps its old value. The ghost
  predicate `Platform.InSync()` says the stored record equals the in-memory fields. Every
  setter preserves it.
- `Date.now()` is the parameter `now` (milliseconds).
- The encryption key is an opaque field: the store is plain maps.
- A store lookup that finds nothing matches the source's `false` and is an `Option`.
  Reading `key[0].key` on a missing key record is the error `KeyNotFound`.

Three behaviours of the code that the model keeps as they are:

- **Freshness.** A cached token is served until strictly more than `expires_in` seconds
  have passed since it was stored, because the staleness test at
  `src/Utils/Platform.js:186` is `>`. A token whose lifetime has exactly elapsed is still
  served. A token stored without `expires_in` is never stale, because a number compared
  with `undefined` is never greater; it is served at every later time. `PlatformRules.Stale`
  is this test on integers, with the lifetime optional. `StaleMatchesSource` proves it
  equal to the source's division.
- **Delete.** `delete` is not transactional. A failed removal throws after the earlier
  removals have already happened. `Delete` models exactly that: `StoreRejected(collection)`
  names the first rejected removal.
- **Empty lookups.** `Database.Get` answers `false` when nothing matches, and the code tests
  this with `!result`. The model returns `None` for such a lookup.

## Model

| member | source | states |
|---|---|---|
| `Records.ApplyPatch` | src/Utils/Platform.js:74 | a partial update sets exactly the patched field to the given value, leaves every other field as it was, and never changes the URL, client id or key id |
| `Records.ModifyOne` | src/Utils/Platform.js:74 | `Modify` on the platform collection updates only the record with that (URL, client id), creates no record, and leaves every other record as it was |
| `Persistence.Database.GetStatus` | src/Utils/Platform.js:100 | the status lookup by id finds the stored record exactly when one exists |
| `Persistence.Database.GetPublicKey` | src/Utils/Platform.js:113 | the public-key lookup by kid finds the stored key exactly when one exists |
| `Persistence.Database.GetPrivateKey` | src/Utils/Platform.js:122 | the private-key lookup by kid finds the stored key exactly when one exists |
| `Persistence.Database.GetAccessToken` | src/Utils/Platform.js:184 | the token-cache lookup matches the (URL, client id, scopes) key exactly |
| `Persistence.Database.ModifyPlatform` | src/Utils/Platform.js:74 | a write to the platform collection succeeds exactly when the collection accepts writes; it then applies the patch, and otherwise changes nothing |
| `Persistence.Database.ReplaceStatus` | src/Utils/Platform.js:104 | the status write replaces the whole record under the id (upsert) or, when rejected, changes nothing |
| `Persistence.Database.DeletePlatform` | src/Utils/Platform.js:222 | removes exactly the record with this (URL, client id), or nothing when rejected |
| `Persistence.Database.DeleteStatus` | src/Utils/Platform.js:223 | removes exactly the status record of this kid, or nothing when rejected |
| `Persistence.Database.DeletePublicKey` | src/Utils/Platform.js:224 | removes exactly the public key of this kid, or nothing when rejected |
| `Persistence.Database.DeletePrivateKey` | src/Utils/Platform.js:225 | removes exactly the private key of this kid, or nothing when rejected |
| `TokenGrant.TokenAuthority.GetAccessToken` | src/Utils/Platform.js:190 | each acquisition is logged once and answers with the authority's grant for that key, or nothing when the grant fails |
| `PlatformRules.MergeAuthConfig` | src/Utils/Platform.js:131-139 | fails with `InvalidMethod` exactly when a method outside RSA_KEY, JWK_KEY, JWK_SET is given; otherwise each field is the given value or else the current one; a valid method stays valid |
| `PlatformRules.AuthConfigFieldsAreLastWritten` | src/Utils/Platform.js:136-139 | after any sequence of calls, method and key each hold the value of the last accepted call that supplied that field; refused calls leave no trace |
| `PlatformRules.AuthConfigStaysValid` | src/Utils/Platform.js:134-139 | once the method is valid, no sequence of calls makes it invalid |
| `PlatformRules.AuthConfigCallIdempotent` | src/Utils/Platform.js:136-139 | repeating the same call changes nothing more |
| `PlatformRules.StatusReadsBackWrite` | src/Utils/Platform.js:100-104 | a written status reads back as written, other platforms' statuses do not move, and a platform with no record reads as active |
| `PlatformRules.EffectiveAuthorizationServer` | src/Utils/Platform.js:173 | the authorization server if set, else the access-token endpoint; empty only when both are empty |
| `PlatformRules.StaleMatchesSource` | src/Utils/Platform.js:186 | the integer test `now − createdAt > 1000·expires_in` equals the source's division test, including the case of a token without `expires_in` |
| `PlatformRules.NoLifetimeNeverStale` | src/Utils/Platform.js:186 | a token stored without `expires_in` is never stale, so it is served at every later time |
| `PlatformRules.StaleIsMonotone` | src/Utils/Platform.js:186 | a stale token stays stale at every later time |
| `PlatformRules.UpperChar` | src/Utils/Platform.js:195 | an ASCII lower-case letter becomes the capital letter of the same position in the alphabet; every other character is unchanged |
| `PlatformRules.Capitalize` | src/Utils/Platform.js:195 | same length; only the first character may change; a lower-case first letter becomes its own capital; afterwards the first character is never lower case; an already capitalised string is unchanged |
| `PlatformRules.CapitalizeIdempotent` | src/Utils/Platform.js:195 | capitalising twice is capitalising once |
| `PlatformRules.CapitalizeBearer` | src/Utils/Platform.js:195 | "bearer" becomes "Bearer", and "Bearer" stays as it is |
| `Platforms.Platform.constructor` | src/Utils/Platform.js:41-52 | every field holds its argument; nothing is written to the store |
| `Platforms.Platform.ScopeStringsAreExactKeys` | src/Utils/Platform.js:184 | two scope strings share a cache entry exactly when they are equal strings, so "a b" and "b a" are separate entries |
| `Platforms.Platform.PlatformName` | src/Utils/Platform.js:72-77 | without a name it returns the field and writes nothing; with one it writes the store, then the field, and returns the name; a rejected write changes neither; keeps `InSync` |
| `Platforms.Platform.PlatformAuthenticationEndpoint` | src/Utils/Platform.js:150-155 | same two modes for the authentication endpoint |
| `Platforms.Platform.PlatformAccessTokenEndpoint` | src/Utils/Platform.js:161-166 | same two modes for the access-token endpoint |
| `Platforms.Platform.PlatformAuthorizationServer` | src/Utils/Platform.js:172-177 | same two modes; the getter falls back to the access-token endpoint |
| `Platforms.Platform.PlatformAuthConfig` | src/Utils/Platform.js:131-144 | without arguments it returns the config and writes nothing; an invalid method writes nothing and keeps the config; otherwise the merged config is written, then kept and returned; keeps `InSync` |
| `Platforms.Platform.Status` | src/Utils/Platform.js:98-102 | active when no status record exists, else the stored flag |
| `Platforms.Platform.PlatformActive` | src/Utils/Platform.js:97-106 | without an argument it reports `Status` and writes nothing; with `b` it replaces the record by exactly `{id: kid, active: b}` and returns `b` |
| `Platforms.Platform.PlatformPublicKey` | src/Utils/Platform.js:112-115 | the stored public key of this kid, or `KeyNotFound` exactly when there is none |
| `Platforms.Platform.PlatformPrivateKey` | src/Utils/Platform.js:121-124 | the stored private key of this kid, or `KeyNotFound` exactly when there is none |
| `Platforms.Platform.PlatformAccessToken` | src/Utils/Platform.js:183-197 | a cached entry that is not stale is returned without calling the authority; otherwise the authority is called exactly once and its token is returned (or `TokenAcquisitionError`); the returned type is capitalised on both paths |
| `Platforms.Platform.PlatformJSON` | src/Utils/Platform.js:202-216 | the projection has id, url, client id, name, endpoints, the authorization server as its getter reports it, the config, the public key and the status; there is no private key in it; `KeyNotFound` when no public key is stored |
| `Platforms.Platform.Delete` | src/Utils/Platform.js:221-227 | removes the platform record, status and both keys in that order, stopping at the first rejected removal; on success none of the four records remains, it returns true, and other platforms' records are unchanged |

## Left out

- The store's own implementation (`Database.js`, the document database, encryption at rest) is not part of this model. The store is one map per collection, keyed by the filter the platform uses, so a filter matches at most one record. Only the behaviour the platform relies on is modelled: lookups that may find nothing, partial update without upsert, upsert, removal, and writes that may be rejected. Reads never fail in the model.
- `Auth.getAccessToken` is an oracle whose answer is a fixed function of (URL, client id, scopes). So two refreshes of the same key return the same token. The answer does not depend on what the real call reads from the platform: its access-token endpoint, its authorization server (the audience) and its private key. Its JWT signing, its HTTP exchange and the cache write it performs are not modelled, so in the model a refresh does not refill the cache.
- Asynchrony and concurrent calls are not modelled: every method runs to completion alone. The code has no single-flight coordination of token refreshes, so none is modelled or claimed. `PlatformScenario.RejectedWritesAndHandles` shows that two handles of one platform diverge in memory after one of them writes.
- Debug logging and the deprecated aliases `remove` and `platformAuthEndpoint` are left out. The trivial getters `platformUrl`, `platformClientId`, `platformId` and `platformKid` are the constant fields `url`, `clientId` and `kid`.
- Registration of a new platform happens outside this class, so it is not modelled.
- A store failure that affects one call and not the next is not modelled: the set of collections whose writes are rejected is fixed for each store. The store's initial contents are constructor arguments of `Database`.
- JavaScript dynamic typing is left out. `platformActive(null)` and a non-boolean stored status are outside the model. An unset endpoint or name is the empty string. The configuration always exists, so the source's crash on merging into an undefined configuration is not modelled.
- `PlatformRules.Capitalize`: upper-cases only ASCII `a`–`z`, because the rest of Unicode case mapping (including one character becoming two) is not modelled.
- The configuration is a value here. In the code, the constructor, `platformAuthConfig` and `platformJSON` share the private `#authConfig` object with the caller (`src/Utils/Platform.js:42`, `132`, `142-143`, `211`). A caller that mutates it changes the in-memory configuration without a store write, so memory and the stored record then disagree. The model cannot express this aliasing, and `InSync` holds only for callers that do not mutate the objects they receive.
- `PlatformRules.StaleMatchesSource`: relates the integer test to an exact real-number division, not to IEEE-754 double arithmetic. The two agree for all realistic timestamps and lifetimes.
