# Northstar master server: the game-server registry

This project models the server registry of the Northstar master server
(`server/gameserver.js`). Game servers register with the master list,
send heartbeats, patch the values the list shows, and deregister. The
registry maps server ids to server records. Four request handlers change it:

- **add_server** first calls back the registrant's auth port. It goes on only
  when the reply is exactly `I am a northstar server!`. It then fingerprints
  and parses each mod's `pdiff`, cleans the name and description, and inserts
  a record whose `ip` is the caller's transport address.
- **heartbeat** sets `lastHeartbeat` and `playerCount`.
- **update_values** overwrites each existing property of the record that the
  query names, except `id`. Properties the query does not name, and names the
  record lacks, are left alone. `playerCount` and `maxPlayers` go through
  `parseInt`.
- **remove_server** deletes the record.

The last three act only when the caller's address equals the record's `ip`.
Otherwise they do nothing and report nothing.

The model has three modules:

- `js.dfy` (module `Js`): the JavaScript values the handlers handle. It covers
  truthiness, property reads that throw on null and undefined, and the global
  `parseInt`, with lemmas that it reads decimal numerals back.
- `pdiff.dfy` (module `Pdiff`): the mod loop of add_server. It has one
  function per level (one pdiff, one mod, the list, the whole payload) and the
  in-place loop over an array of mods.
- `gameserver.dfy` (module `GameServers`): the records, the verification gate,
  the ownership check, one pure step function per handler, and the class
  `Registry`. Each method of `Registry` is proved to leave the registry equal
  to its step function applied to the old registry. Two of the lemmas at the
  end (`RunPreservesWellFormed`, `OthersCannotTouch`) follow any sequence of
  requests; the others state facts about one or two steps.

The collaborators are parameters, bundled in `Collaborators`: the profanity
filter's `clean`, the sha1 hex digest, and `ParseDefinitionDiffs`. The
parser's `None` result stands for a throw. The auth endpoint's reply is an
`Option<string>`, where `None` means no reply came. The clock reading `now`,
the caller's address and the new server id are arguments.

## Behaviour that follows the code

Several things one would expect of a registry like this do not hold of the
code. In each case the model follows the code:

- A record's `ip` is not immutable. update_values treats `ip` like any other
  existing property, so the owner can move the record to another address
  (`UpdateValuesMovesOwnership`).
- heartbeat stores `request.playerCount`, a property of the request object.
  It does not store the query's `playerCount`. The model takes that value as
  the argument `playerCount` of `Registry.Heartbeat`. On a plain Fastify
  request it is `undefined`.
- When a `pdiff` fails to parse, the hash already computed is thrown away
  along with the parse result. The stored `pdiff` is `null` and carries no
  digest.
- The counts are not coerced to integers in general. `parseInt` yields NaN for
  text with no digits. It reads a `0x` prefix as hexadecimal and stops at the
  first non-digit.
- `lastHeartbeat` is simply set to the current clock reading, so nothing
  keeps it monotonic.
- After verification succeeds, add_server can still throw: a mod that is null
  or undefined, or a truthy `Mods` that cannot be iterated. The reply is then
  an error (`ServerError`) and no record is created.

## Model

| member | source | states |
|---|---|---|
| `Js.GetProperty` | server/gameserver.js:61-65 | reading `modInfo.Mods` or `mod.pdiff` throws exactly on null and undefined; an object yields its own property or undefined, and any other value yields undefined |
| `Js.FalsyValues` | server/gameserver.js:61-65 | the tests `modInfo && modInfo.Mods` and `!!mod.pdiff` fail exactly on undefined, null, false, 0, NaN and the empty string (`Truthy`) |
| `Js.ParseInt` | server/gameserver.js:132 | `parseInt` of any query text is a number or NaN |
| `Js.ParseIntReadsDecimal` | server/gameserver.js:132 | `parseInt` reads a decimal numeral back and stops at the first non-digit; a lone `0` followed by `x` is the one exception |
| `Js.ParseIntReadsNegative` | server/gameserver.js:132 | a minus sign before a decimal numeral gives the negative number |
| `Js.ParseIntWithoutDigits` | server/gameserver.js:132 | text that contains no decimal digit gives NaN |
| `Pdiff.ProcessPdiff` | server/gameserver.js:67-76 | a truthy pdiff becomes null exactly when it is not a string or the parser rejects it; otherwise it becomes the parsed diff: exactly the parsed properties plus `hash`, every parsed property other than `hash` kept, and `hash` equal to the sha1 of the original raw text |
| `Pdiff.ProcessMod` | server/gameserver.js:65-77 | the loop body throws exactly on a null or undefined mod; a mod without a truthy pdiff is unchanged; otherwise only its `pdiff` property changes |
| `Pdiff.ProcessModList` | server/gameserver.js:63-78 | the loop over an array completes exactly when no element is null or undefined, and then every element is processed and the length is unchanged |
| `Pdiff.ProcessModInfo` | server/gameserver.js:61-79 | a falsy payload is stored as it came; the handler throws exactly when the payload is an object whose `Mods` is truthy and is either neither a string nor an array, or an array holding null or undefined; otherwise no property but `Mods` changes, an array `Mods` becomes the processed list, and a payload whose `Mods` is falsy or a string is stored as it came |
| `Pdiff.StoredModIsFingerprinted` | server/gameserver.js:61-79 | after a registration, each mod either has no truthy pdiff and is unchanged, or holds null, or holds a diff whose `hash` is the sha1 of its original raw text |
| `Pdiff.ProcessModsInPlace` | server/gameserver.js:63-78 | the in-place loop returns false exactly where the handler throws; otherwise the array ends as the processed list |
| `GameServers.OwnsAtMostOne` | server/gameserver.js:104-106 | the ownership check `Owns` (`!server \|\| request.ip != server.ip` negated) never passes for a missing id and passes for at most one address per record |
| `GameServers.AuthAccepted` | server/gameserver.js:57-58 | registration passes the gate exactly when the reply is present and equals `VERIFY_STRING` (line 9) |
| `GameServers.NewGameServerShape` | server/gameserver.js:81-83 | the record `NewGameServer` builds has the constructor's property set, its own id, `ip` equal to the caller's address, `playerCount` 0, `lastHeartbeat` now, the cleaned name and description, the query's `maxPlayers`, `map`, `playlist`, `port`, `authPort` and `password`, and the given mod info |
| `GameServers.PatchValue` | server/gameserver.js:131-134 | `playerCount` and `maxPlayers` get `parseInt` of the query text, which is a number or NaN; every other key gets the raw query text |
| `GameServers.Patched` | server/gameserver.js:126-135 | patching keeps the record's key set and its `id`; keys absent from the query keep their values; every other existing key gets its patch value |
| `GameServers.PatchedWellFormed` | server/gameserver.js:126-135 | a patched record is still stored under its own id and still has a string `ip` |
| `GameServers.RegisterStep` | server/gameserver.js:50-89 | rejected exactly when the gate fails; an error exactly when the gate passes and the mod loop throws; both leave the registry unchanged. On success exactly one record is added under the returned id; the caller owns it; it starts with 0 players, the cleaned strings, the current time and the query's other values, and holds the payload as the mod loop left it (`ProcessModInfo`); all other records are unchanged |
| `GameServers.HeartbeatStep` | server/gameserver.js:104-111 | a no-op unless the caller owns the id; otherwise only that record's `lastHeartbeat` (set to now) and `playerCount` (set to the request's value) change |
| `GameServers.UpdateValuesStep` | server/gameserver.js:118-135 | a no-op without an `id` key or without ownership; otherwise only that record changes, and it becomes the patched record |
| `GameServers.RemoveStep` | server/gameserver.js:151-157 | a no-op unless the caller owns the id; otherwise exactly that id is deleted and every other record is unchanged |
| `GameServers.Registry.Register` | server/gameserver.js:33-90 | the handler leaves the registry and the reply that `RegisterStep` describes, and keeps the invariant |
| `GameServers.Registry.Heartbeat` | server/gameserver.js:103-112 | the handler leaves the registry that `HeartbeatStep` describes, and keeps the invariant |
| `GameServers.Registry.UpdateValues` | server/gameserver.js:117-138 | the patch loop leaves the registry that `UpdateValuesStep` describes, and keeps the invariant |
| `GameServers.Registry.RemoveServer` | server/gameserver.js:150-158 | the handler leaves the registry that `RemoveStep` describes, and keeps the invariant |
| `GameServers.RunPreservesWellFormed` | server/gameserver.js:81-157 | no sequence of requests breaks the invariant: every record is stored under its own id and has a string `ip` |
| `GameServers.OthersCannotTouch` | server/gameserver.js:104-154 | requests whose caller is never the record's `ip` leave that record present and unchanged, over any number of requests |
| `GameServers.RegistrantOwnsNewServer` | server/gameserver.js:83-110 | after a successful registration, the registrant's heartbeat takes effect and the same heartbeat from another address changes nothing |
| `GameServers.UpdateValuesMovesOwnership` | server/gameserver.js:121-134 | the owner can rewrite `ip` through update_values; the new address then owns the record and the old one does not |
| `GameServers.UpdateValuesParsesCount` | server/gameserver.js:131-132 | patching `playerCount` or `maxPlayers` with a decimal numeral stores that number |
| `GameServers.UpdateValuesStoresNaN` | server/gameserver.js:131-132 | patching `playerCount` or `maxPlayers` with text that has no digit stores NaN |
| `GameServers.RemoveDeletesOwnId` | server/gameserver.js:151-156 | remove_server deletes the record by its own `id` (`RemoveGameServer(server)`); in a well-formed registry that is exactly the id it was looked up under |
| `GameServers.RemoveIsIdempotent` | server/gameserver.js:151-156 | removing the same id twice has the same effect as removing it once |

## Left out

- Fastify routing, the querystring schemas and plugin registration (server/gameserver.js:11-32, 94-102, 142-149, 160) are transport plumbing. The add_server query comes in already typed as its schema declares, with every parameter present. Absent parameters are not modelled, and neither is a repeated query key, which turns a value into an array.
- An absent `id` in heartbeat or remove_server is not modelled. JavaScript would look up the key `"undefined"`. The model takes `id` as a string.
- Multipart decoding and `JSON.parse` of the mod-info payload (server/gameserver.js:37-48), including the unused `hasValidModInfo`, are left out. The decoded payload is an input `Value`, and `Undefined` stands for "no payload" or "unparseable payload".
- The HTTP call to the auth port (server/gameserver.js:50-55) is network I/O. Its result is an `Option<string>`. shared/asynchttp.js is not part of this model, so a call that rejects rather than resolving empty is not told apart. Both leave the registry unchanged.
- `bad-words`, sha1 and `ParseDefinitionDiffs` are foreign code and appear as function parameters. The parser either throws or returns an object. A parser that returns a primitive is not modelled.
- shared/gameserver.js is not part of this model. Its effects are assumed as follows:
  - The `GameServer` constructor stores its arguments under the property names in `ServerFields`.
  - It draws a fresh id, which the model passes in as `freshId`.
  - It sets `lastHeartbeat` to the current time.
  - `AddGameServer` and `RemoveGameServer` insert and delete by id.
- The 30-second expiry sweep is mentioned at server/gameserver.js:93 but not implemented in this file.
- Async interleaving and concurrency between requests are left out. `Date.now()` is the argument `now`.
- Numbers are exact integers and NaN. Fractions, `-0`, and the rounding of numerals beyond 2^53 are not modelled.
- `key in server` is also true for names inherited from `Object.prototype`, such as `toString`. The model looks only at the record's own properties, so a patch of such a name, which JavaScript would add as a new own property, is not modelled.
- Registry.UpdateValues: the loop edits a local copy of the record and stores it back when the loop ends, instead of writing into the shared object on each pass. No other request runs in between, so the outcome is the same. The loop also visits the query's keys in an unspecified order where JavaScript uses `Object.keys` order. Each key writes a different property, so the order does not change the result.
