/** The game-server registry of the master server (server/gameserver.js):
    a map from server id to server record, changed by four request
    handlers. Registration is gated by a callback to the registrant's auth
    port; heartbeat, update_values and remove_server act only when the
    caller's address equals the record's `ip`, and otherwise do nothing.

    Each handler is a method of `Registry` whose postcondition ties the new
    map to a pure step function of the old one; the properties of the
    protocol are stated on those step functions and in the lemmas at the
    end. Two of them (`RunPreservesWellFormed`, `OthersCannotTouch`) follow
    any sequence of requests; the others state facts about one or two steps.
 */
module GameServers {
  import opened Js
  import opened Pdiff

  /** The reply the registrant's `/verify` endpoint must give, character for character. */
  const VERIFY_STRING: string := "I am a northstar server!"

  /** A server record: a JavaScript object, whose properties update_values
      addresses by name. */
  datatype GameServer = GameServer(fields: map<string, Value>)

  type Servers = map<string, GameServer>

  /** The properties a record is created with. */
  const ServerFields: set<string> := {"id", "name", "description", "playerCount", "maxPlayers",
    "map", "playlist", "ip", "port", "authPort", "password", "modInfo", "lastHeartbeat"}

  /** The query of add_server, as its schema types it. */
  datatype RegisterQuery = RegisterQuery(port: int, authPort: int, name: string, description: string,
    mapName: string, playlist: string, maxPlayers: int, password: string)

  /** What add_server answers: `{success: false}`, `{success: true, id}`,
      or an error response when the handler throws. */
  datatype RegisterReply = Rejected | Registered(id: string) | ServerError

  /** The libraries the handlers call: the profanity filter's `clean`, the
      sha1 hex digest, and the definition-diff parser (None where it throws). */
  datatype Collaborators = Collaborators(clean: string -> string, sha1: string -> string,
    parseDiffs: string -> Option<map<string, Value>>)

  /** The registry's invariant: each record is stored under its own id
      and has a string `ip`. */
  predicate RecordWellFormed(id: string, rec: GameServer) {
    "id" in rec.fields && rec.fields["id"] == Str(id) && "ip" in rec.fields && rec.fields["ip"].Str?
  }

  predicate WellFormed(s: Servers) {
    forall id | id in s :: RecordWellFormed(id, s[id])
  }

  // ---------------------------------------------------------------------
  // The pure parts of the handlers

  /** The verification gate: a missing reply or any text other than the
      verification string rejects the registration. */
  predicate AuthAccepted(authReply: Option<string>)
    ensures AuthAccepted(authReply) <==> authReply == Some(VERIFY_STRING)
  {
    !(authReply.None? || authReply.value != VERIFY_STRING)
  }

  /** The ownership check shared by heartbeat, update_values and
      remove_server: the record exists and the caller's address equals its
      `ip`. (On a well-formed registry `ip` is a string, where JavaScript's
      `!=` is plain string inequality.) */
  predicate Owns(s: Servers, id: string, callerIp: string) {
    id in s && "ip" in s[id].fields && s[id].fields["ip"] == Str(callerIp)
  }

  /** A record has at most one owner, and a missing id has none. */
  lemma OwnsAtMostOne(s: Servers, id: string, a: string, b: string)
    ensures id !in s ==> !Owns(s, id, a)
    ensures Owns(s, id, a) && Owns(s, id, b) ==> a == b
  {
  }

  /** The record the GameServer constructor builds for a registration. */
  function NewGameServer(id: string, q: RegisterQuery, callerIp: string, modInfo: Value,
                         now: int, clean: string -> string): (r: GameServer)
  {
    GameServer(map[
      "id" := Str(id), "name" := Str(clean(q.name)), "description" := Str(clean(q.description)),
      "playerCount" := Num(0), "maxPlayers" := Num(q.maxPlayers), "map" := Str(q.mapName),
      "playlist" := Str(q.playlist), "ip" := Str(callerIp), "port" := Num(q.port),
      "authPort" := Num(q.authPort), "password" := Str(q.password), "modInfo" := modInfo,
      "lastHeartbeat" := Num(now)])
  }

  /** The value update_values stores for `key`: the two counts go through
      parseInt, every other property takes the query text as it is. */
  function PatchValue(key: string, raw: string): (v: Value)
    ensures key == "playerCount" || key == "maxPlayers" ==> v == ParseInt(raw)
    ensures key != "playerCount" && key != "maxPlayers" ==> v == Str(raw)
  {
    if key == "playerCount" || key == "maxPlayers" then ParseInt(raw) else Str(raw)
  }

  /** A record after update_values has gone over the query's keys: `id`
      and every key the record lacks are skipped. */
  function Patched(rec: GameServer, query: map<string, string>): (r: GameServer)
    ensures r.fields.Keys == rec.fields.Keys
    ensures "id" in rec.fields ==> r.fields["id"] == rec.fields["id"]
    ensures forall k | k in rec.fields && k !in query :: r.fields[k] == rec.fields[k]
    ensures forall k | k in rec.fields && k in query && k != "id" :: r.fields[k] == PatchValue(k, query[k])
  {
    GameServer(map k | k in rec.fields :: if k != "id" && k in query then PatchValue(k, query[k]) else rec.fields[k])
  }

  // ---------------------------------------------------------------------
  // The handlers as functions of the registry

  /** The record a registration creates is well formed, belongs to the
      registrant's address and starts with no players. */
  lemma NewGameServerShape(id: string, q: RegisterQuery, callerIp: string, modInfo: Value,
                           now: int, clean: string -> string)
    ensures var rec := NewGameServer(id, q, callerIp, modInfo, now, clean);
      && rec.fields.Keys == ServerFields && RecordWellFormed(id, rec) && rec.fields["ip"] == Str(callerIp)
      && rec.fields["playerCount"] == Num(0) && rec.fields["lastHeartbeat"] == Num(now)
      && rec.fields["name"] == Str(clean(q.name)) && rec.fields["description"] == Str(clean(q.description))
      && rec.fields["maxPlayers"] == Num(q.maxPlayers) && rec.fields["map"] == Str(q.mapName)
      && rec.fields["playlist"] == Str(q.playlist) && rec.fields["port"] == Num(q.port)
      && rec.fields["authPort"] == Num(q.authPort) && rec.fields["password"] == Str(q.password)
      && rec.fields["modInfo"] == modInfo
  {
  }

  /** Patching keeps a record well formed: its keys stay, `id` is skipped
      and `ip` receives query text, which is a string. */
  lemma PatchedWellFormed(id: string, rec: GameServer, query: map<string, string>)
    requires RecordWellFormed(id, rec)
    ensures RecordWellFormed(id, Patched(rec, query))
  {
    var r := Patched(rec, query);
    assert "ip" in rec.fields;
    if "ip" in query {
      assert r.fields["ip"] == PatchValue("ip", query["ip"]) == Str(query["ip"]);
    }
  }

  /** One more key of the query handled by the update_values loop. */
  lemma PatchedOneMore(rec: GameServer, query: map<string, string>, pending: set<string>, key: string)
    requires key in pending && pending <= query.Keys
    ensures var before := Patched(rec, query - pending);
      Patched(rec, query - (pending - {key})) ==
        if key == "id" || key !in rec.fields then before
        else GameServer(before.fields[key := PatchValue(key, query[key])])
  {
    var before := Patched(rec, query - pending);
    var after := Patched(rec, query - (pending - {key}));
    if !(key == "id" || key !in rec.fields) {
      assert after.fields == before.fields[key := PatchValue(key, query[key])];
    } else {
      assert after.fields == before.fields;
    }
  }

  /** What update_values stores under one key of the record: one instance
      of the last postcondition of `Patched`, stated as a lemma so that a
      proof can name the key it needs. */
  lemma PatchedField(rec: GameServer, query: map<string, string>, key: string)
    requires key in rec.fields && key in query && key != "id"
    ensures Patched(rec, query).fields[key] == PatchValue(key, query[key])
  {
  }

  /** Inserting a well-formed record under a new id adds exactly that id
      and keeps the registry well formed. */
  lemma InsertRecord(s: Servers, id: string, rec: GameServer)
    requires RecordWellFormed(id, rec)
    ensures s[id := rec].Keys == s.Keys + {id}
    ensures forall k | k in s && k != id :: s[id := rec][k] == s[k]
    ensures id !in s ==> |s[id := rec]| == |s| + 1
    ensures WellFormed(s) ==> WellFormed(s[id := rec])
  {
  }

  /** add_server: verify, process the mods, insert the record. */
  function RegisterStep(s: Servers, q: RegisterQuery, callerIp: string, authReply: Option<string>,
                        modInfo: Value, freshId: string, now: int, env: Collaborators): (r: (Servers, RegisterReply))
    ensures r.1.Rejected? <==> !AuthAccepted(authReply)
    ensures !r.1.Registered? ==> r.0 == s
    ensures r.1.ServerError? <==> AuthAccepted(authReply) && ProcessModInfo(modInfo, env.sha1, env.parseDiffs).None?
    ensures r.1.Registered? ==> r.1.id == freshId && r.0.Keys == s.Keys + {freshId}
    ensures r.1.Registered? ==> forall k | k in s && k != freshId :: r.0[k] == s[k]
    ensures r.1.Registered? ==> Owns(r.0, freshId, callerIp) && RecordWellFormed(freshId, r.0[freshId])
    ensures r.1.Registered? ==> r.0[freshId].fields.Keys == ServerFields
    ensures r.1.Registered? ==>
      (&& r.0[freshId].fields["playerCount"] == Num(0)
       && r.0[freshId].fields["name"] == Str(env.clean(q.name))
       && r.0[freshId].fields["description"] == Str(env.clean(q.description))
       && r.0[freshId].fields["lastHeartbeat"] == Num(now))
    ensures r.1.Registered? ==>
      r.0[freshId] == NewGameServer(freshId, q, callerIp, ProcessModInfo(modInfo, env.sha1, env.parseDiffs).value,
                                    now, env.clean)
    ensures r.1.Registered? ==>
      r.0[freshId].fields["modInfo"] == ProcessModInfo(modInfo, env.sha1, env.parseDiffs).value
    ensures r.1.Registered? && freshId !in s ==> |r.0| == |s| + 1
    ensures WellFormed(s) ==> WellFormed(r.0)
  {
    if !AuthAccepted(authReply) then (s, Rejected)
    else
      match ProcessModInfo(modInfo, env.sha1, env.parseDiffs)
      case None => (s, ServerError)
      case Some(info) =>
        var rec := NewGameServer(freshId, q, callerIp, info, now, env.clean);
        NewGameServerShape(freshId, q, callerIp, info, now, env.clean);
        InsertRecord(s, freshId, rec);
        (s[freshId := rec], Registered(freshId))
  }

  /** heartbeat: the owner's record gets the current time and the request's
      player count; nothing else changes. */
  function HeartbeatStep(s: Servers, id: string, callerIp: string, playerCount: Value, now: int): (r: Servers)
    ensures r.Keys == s.Keys
    ensures forall k | k in s && k != id :: r[k] == s[k]
    ensures !Owns(s, id, callerIp) ==> r == s
    ensures Owns(s, id, callerIp) ==>
      (&& r[id].fields.Keys == s[id].fields.Keys + {"lastHeartbeat", "playerCount"}
       && r[id].fields["lastHeartbeat"] == Num(now) && r[id].fields["playerCount"] == playerCount
       && forall f | f in s[id].fields && f != "lastHeartbeat" && f != "playerCount" ::
            r[id].fields[f] == s[id].fields[f])
    ensures WellFormed(s) ==> WellFormed(r)
  {
    if !Owns(s, id, callerIp) then s
    else s[id := GameServer(s[id].fields["lastHeartbeat" := Num(now)]["playerCount" := playerCount])]
  }

  /** update_values: a query without `id` is ignored; otherwise the owner's
      record is patched. The `ip` property is patched like any other. */
  function UpdateValuesStep(s: Servers, query: map<string, string>, callerIp: string): (r: Servers)
    ensures r.Keys == s.Keys
    ensures "id" !in query || !Owns(s, query["id"], callerIp) ==> r == s
    ensures "id" in query ==> forall k | k in s && k != query["id"] :: r[k] == s[k]
    ensures "id" in query && Owns(s, query["id"], callerIp) ==> r[query["id"]] == Patched(s[query["id"]], query)
    ensures WellFormed(s) ==> WellFormed(r)
  {
    if "id" !in query || !Owns(s, query["id"], callerIp) then s
    else
      var id := query["id"];
      if WellFormed(s) then PatchedWellFormed(id, s[id], query); s[id := Patched(s[id], query)]
      else s[id := Patched(s[id], query)]
  }

  /** remove_server: the owner's record is deleted. */
  function RemoveStep(s: Servers, id: string, callerIp: string): (r: Servers)
    ensures !Owns(s, id, callerIp) ==> r == s
    ensures Owns(s, id, callerIp) ==> r.Keys == s.Keys - {id} && |r| == |s| - 1
    ensures forall k | k in s && k != id :: k in r && r[k] == s[k]
    ensures WellFormed(s) ==> WellFormed(r)
  {
    if !Owns(s, id, callerIp) then s else s - {id}
  }

  // ---------------------------------------------------------------------
  // The registry

  class Registry {
    var servers: Servers

    ghost predicate Valid()
      reads this
    {
      WellFormed(servers)
    }

    constructor ()
      ensures Valid() && servers == map[]
    {
      servers := map[];
    }

    /** POST /server/add_server. The registrant's address comes from the
        transport, the auth endpoint's reply and the clock are inputs, and
        `freshId` is the id the GameServer constructor draws. */
    method Register(query: RegisterQuery, callerIp: string, authReply: Option<string>, modInfo: Value,
                    freshId: string, now: int, env: Collaborators) returns (reply: RegisterReply)
      requires Valid() && freshId !in servers
      modifies this
      ensures Valid()
      ensures (servers, reply) == RegisterStep(old(servers), query, callerIp, authReply, modInfo, freshId, now, env)
    {
      ghost var expected := RegisterStep(servers, query, callerIp, authReply, modInfo, freshId, now, env);
      if !AuthAccepted(authReply) {
        return Rejected;
      }
      var info := modInfo;
      if Truthy(info) {
        var mods := GetProperty(info, "Mods").value;
        if Truthy(mods) {
          match mods {
            case Arr(items) =>
              var a := new Value[|items|](i requires 0 <= i < |items| => items[i]);
              assert a[..] == items;
              var ok := ProcessModsInPlace(a, env.sha1, env.parseDiffs);
              if !ok {
                return ServerError;
              }
              info := Obj(info.props["Mods" := Arr(a[..])]);
            case Str(_) =>
            case _ =>
              return ServerError;
          }
        }
      }
      assert ProcessModInfo(modInfo, env.sha1, env.parseDiffs) == Some(info);
      var server := NewGameServer(freshId, query, callerIp, info, now, env.clean);
      servers := servers[freshId := server];
      reply := Registered(freshId);
      assert (servers, reply) == expected;
    }

    /** POST /server/heartbeat. `playerCount` is the value the handler reads
        from the request object itself, not from its query. */
    method Heartbeat(id: string, callerIp: string, playerCount: Value, now: int)
      requires Valid()
      modifies this
      ensures Valid()
      ensures servers == HeartbeatStep(old(servers), id, callerIp, playerCount, now)
    {
      if !Owns(servers, id, callerIp) {
        assert servers == HeartbeatStep(servers, id, callerIp, playerCount, now);
        return;
      }
      var server := servers[id];
      server := GameServer(server.fields["lastHeartbeat" := Num(now)]);
      server := GameServer(server.fields["playerCount" := playerCount]);
      ghost var expected := HeartbeatStep(servers, id, callerIp, playerCount, now);
      servers := servers[id := server];
      assert servers == expected;
    }

    /** POST /server/update_values. The loop visits the query's keys in
        some order; each key writes a property of its own, so the order
        does not change the outcome. */
    method UpdateValues(query: map<string, string>, callerIp: string)
      requires Valid()
      modifies this
      ensures Valid()
      ensures servers == UpdateValuesStep(old(servers), query, callerIp)
    {
      if "id" !in query {
        return;
      }
      var id := query["id"];
      if !Owns(servers, id, callerIp) {
        return;
      }
      // `server` is the record the handler holds; it goes back into the
      // registry when the loop ends, and no other request runs meanwhile.
      var server := servers[id];
      var pending := query.Keys;
      assert Patched(servers[id], query - pending) == server;
      while pending != {}
        invariant pending <= query.Keys && servers == old(servers)
        invariant server == Patched(old(servers)[id], query - pending)
        decreases pending
      {
        var key :| key in pending;
        PatchedOneMore(old(servers)[id], query, pending, key);
        pending := pending - {key};
        if key == "id" || key !in server.fields {
          continue;
        }
        server := GameServer(server.fields[key := PatchValue(key, query[key])]);
      }
      assert query - pending == query;
      ghost var expected := UpdateValuesStep(servers, query, callerIp);
      servers := servers[id := server];
      assert servers == expected;
    }

    /** DELETE /server/remove_server. */
    method RemoveServer(id: string, callerIp: string)
      requires Valid()
      modifies this
      ensures Valid()
      ensures servers == RemoveStep(old(servers), id, callerIp)
    {
      if !Owns(servers, id, callerIp) {
        return;
      }
      servers := servers - {id};
    }
  }

  // ---------------------------------------------------------------------
  // Properties of the protocol

  /** A request to one of the four handlers, with the caller's address
      from the transport and the inputs the model takes from outside. */
  datatype Request =
    | AddServerRequest(callerIp: string, query: RegisterQuery, authReply: Option<string>,
                       modInfo: Value, freshId: string, now: int)
    | HeartbeatRequest(callerIp: string, id: string, playerCount: Value, now: int)
    | UpdateValuesRequest(callerIp: string, values: map<string, string>)
    | RemoveServerRequest(callerIp: string, id: string)

  function Step(s: Servers, req: Request, env: Collaborators): (r: Servers) {
    match req
    case AddServerRequest(ip, q, reply, info, id, now) => RegisterStep(s, q, ip, reply, info, id, now, env).0
    case HeartbeatRequest(ip, id, pc, now) => HeartbeatStep(s, id, ip, pc, now)
    case UpdateValuesRequest(ip, values) => UpdateValuesStep(s, values, ip)
    case RemoveServerRequest(ip, id) => RemoveStep(s, id, ip)
  }

  /** The registry after the requests have been handled one after another. */
  function Run(s: Servers, reqs: seq<Request>, env: Collaborators): (r: Servers)
    decreases |reqs|
  {
    if reqs == [] then s else Run(Step(s, reqs[0], env), reqs[1..], env)
  }

  /** No sequence of requests breaks the registry's invariant. */
  lemma {:induction false} RunPreservesWellFormed(s: Servers, reqs: seq<Request>, env: Collaborators)
    requires WellFormed(s)
    ensures WellFormed(Run(s, reqs, env))
    decreases |reqs|
  {
    if reqs != [] {
      RunPreservesWellFormed(Step(s, reqs[0], env), reqs[1..], env);
    }
  }

  /** Ownership: however many heartbeats, patches, removals and
      registrations arrive from addresses other than a record's `ip`, that
      record stays in the registry exactly as it was (registrations insert
      under ids of their own). */
  lemma {:induction false} OthersCannotTouch(s: Servers, reqs: seq<Request>, env: Collaborators,
                                             id: string, owner: string)
    requires Owns(s, id, owner)
    requires forall i | 0 <= i < |reqs| :: reqs[i].callerIp != owner
    requires forall i | 0 <= i < |reqs| :: reqs[i].AddServerRequest? ==> reqs[i].freshId != id
    ensures id in Run(s, reqs, env) && Run(s, reqs, env)[id] == s[id]
    decreases |reqs|
  {
    if reqs != [] {
      var next := Step(s, reqs[0], env);
      assert id in next && next[id] == s[id];
      OthersCannotTouch(next, reqs[1..], env, id, owner);
    }
  }

  /** The caller that registered a server owns it: its heartbeat takes
      effect right away, and the same heartbeat from any other address
      does nothing. */
  lemma RegistrantOwnsNewServer(s: Servers, q: RegisterQuery, callerIp: string, modInfo: Value,
                                freshId: string, now: int, env: Collaborators,
                                otherIp: string, playerCount: Value, later: int)
    requires RegisterStep(s, q, callerIp, Some(VERIFY_STRING), modInfo, freshId, now, env).1.Registered?
    requires otherIp != callerIp
    ensures var s' := RegisterStep(s, q, callerIp, Some(VERIFY_STRING), modInfo, freshId, now, env).0;
      && HeartbeatStep(s', freshId, callerIp, playerCount, later)[freshId].fields["lastHeartbeat"] == Num(later)
      && HeartbeatStep(s', freshId, otherIp, playerCount, later) == s'
  {
  }

  /** update_values does not protect `ip`: the owner can hand the record to
      another address, which then owns it, and the old address no longer
      does. */
  lemma {:induction false} UpdateValuesMovesOwnership(s: Servers, id: string, owner: string, newIp: string)
    requires Owns(s, id, owner) && newIp != owner
    ensures var s' := UpdateValuesStep(s, map["id" := id, "ip" := newIp], owner);
      Owns(s', id, newIp) && !Owns(s', id, owner)
  {
    var query := map["id" := id, "ip" := newIp];
    assert "ip" in query && "ip" != "id";
    assert PatchValue("ip", newIp) == Str(newIp);
  }

  /** A server reporting `playerCount=7` (or `maxPlayers=7`) through
      update_values has the number 7 stored. */
  lemma {:induction false} UpdateValuesParsesCount(s: Servers, id: string, owner: string, key: string, n: nat)
    requires key == "playerCount" || key == "maxPlayers"
    requires Owns(s, id, owner) && key in s[id].fields
    ensures UpdateValuesStep(s, map["id" := id, key := DecimalString(n)], owner)[id].fields[key] == Num(n)
  {
    var text := DecimalString(n);
    var query := map["id" := id, key := text];
    assert "id" in query && query["id"] == id;
    assert key in query && query[key] == text;
    assert PatchValue(key, text) == Num(n) by {
      ParseIntReadsDecimal(n, []);
      assert text + [] == text;
    }
    PatchedField(s[id], query, key);
    assert UpdateValuesStep(s, query, owner)[id] == Patched(s[id], query);
  }

  /** A count with no digit in it is stored as NaN: update_values does not
      validate what parseInt returns. */
  lemma {:induction false} UpdateValuesStoresNaN(s: Servers, id: string, owner: string, key: string, junk: string)
    requires key == "playerCount" || key == "maxPlayers"
    requires Owns(s, id, owner) && key in s[id].fields
    requires forall i | 0 <= i < |junk| :: !IsDigit(junk[i], 10)
    ensures UpdateValuesStep(s, map["id" := id, key := junk], owner)[id].fields[key] == NaN
  {
    var query := map["id" := id, key := junk];
    assert "id" in query && query["id"] == id;
    assert key in query && query[key] == junk;
    assert PatchValue(key, junk) == NaN by {
      ParseIntWithoutDigits(junk);
    }
    PatchedField(s[id], query, key);
    assert UpdateValuesStep(s, query, owner)[id] == Patched(s[id], query);
  }

  /** remove_server hands the record itself to the registry, which deletes
      it by its own `id`; in a well-formed registry that is the id the
      record was looked up under. */
  lemma RemoveDeletesOwnId(s: Servers, id: string, callerIp: string)
    requires WellFormed(s) && Owns(s, id, callerIp)
    ensures RemoveStep(s, id, callerIp) == s - {s[id].fields["id"].s}
  {
  }

  /** A removal that took effect cannot be repeated: the second one does nothing. */
  lemma RemoveIsIdempotent(s: Servers, id: string, callerIp: string)
    ensures RemoveStep(RemoveStep(s, id, callerIp), id, callerIp) == RemoveStep(s, id, callerIp)
  {
  }
}
