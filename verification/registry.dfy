/** The relay-node registry canister (`finalVER_backend`).

    Relay servers register under their caller principal, report liveness with
    heartbeats, accumulate a reputation score, and are matched to clients by
    name.  The canister keeps one aggregate, the registry: a map from
    principal to server record and a map from server name to the public key
    of the client that is waiting to be handed to that server.

    Every operation loads the whole registry, applies one transition and
    saves it back; calls never interleave.  Each transition is given here
    twice: as a pure function from the old snapshot to the new snapshot and
    the reply (`RegisterStep`, `UpdateReputationStep`, `HeartbeatStep`,
    `SelectServerStep`), whose contracts state what the canister promises,
    and as a method of the class `ServerRegistry` that updates the two maps
    in place and is proved to agree with that function.

    The caller principal and the current time (in whole seconds) are
    parameters: the host supplies them. */
module Registry {

  /** Rust's `u64`, used for timestamps in seconds. */
  newtype u64 = x: int | 0 <= x < 0x1_0000_0000_0000_0000

  /** True when `x` is representable as an `i32`. */
  predicate InI32(x: int) {
    -0x8000_0000 <= x < 0x8000_0000
  }

  /** Rust's `i32`, used for the reputation score. */
  newtype i32 = x: int | InI32(x)

  /** An opaque caller identity, compared by its bytes. */
  type Principal = seq<bv8>

  type ServerName = string
  type PublicKey = string
  type IPAddress = string

  /** A server counts as active while at most this many seconds have passed
      since its last heartbeat (inclusive). */
  const LivenessWindow: u64 := 30

  /** One registered relay server. */
  datatype ServerInfo = ServerInfo(
    serverName: ServerName,
    publicKey: PublicKey,
    ipAddress: IPAddress,
    lastActive: u64,
    reputation: i32)

  /** The whole registry as it is saved between calls. */
  datatype Snapshot = Snapshot(
    servers: map<Principal, ServerInfo>,
    clientAssignments: map<ServerName, PublicKey>)

  /** Replies.  The canister answers with formatted strings (or, for
      `select_server`, a `Result`); only the case each string stands for is
      kept. */
  datatype RegisterOutcome = Registered | AlreadyRegistered

  datatype ReputationOutcome =
    | ReputationUpdated(serverName: ServerName, reputation: i32)
    | UnknownPrincipal

  datatype HeartbeatOutcome =
    | Delivered(clientPublicKey: PublicKey)
    | LivenessRecorded
    | UnknownCaller

  datatype SelectOutcome =
    | Selected(publicKey: PublicKey, ipAddress: IPAddress)
    | UnknownName

  /** One entry of the directory: `(name, public key, IP, reputation)`. */
  datatype ActiveServer = ActiveServer(
    serverName: ServerName,
    publicKey: PublicKey,
    ipAddress: IPAddress,
    reputation: i32)

  // ---------------------------------------------------------------------
  // Registration

  /** `register_server`: create-only registration keyed by the caller. */
  function RegisterStep(
    s: Snapshot, caller: Principal, serverName: ServerName,
    publicKey: PublicKey, ipAddress: IPAddress, now: u64
  ): (r: (Snapshot, RegisterOutcome))
    ensures r.1 == AlreadyRegistered <==> caller in s.servers
    ensures caller in s.servers ==> r.0 == s
    ensures caller !in s.servers ==>
      && r.0.servers.Keys == s.servers.Keys + {caller}
      && |r.0.servers| == |s.servers| + 1
      && r.0.servers[caller] == ServerInfo(serverName, publicKey, ipAddress, now, 0)
      && (forall p :: p in s.servers ==> r.0.servers[p] == s.servers[p])
      && r.0.clientAssignments == s.clientAssignments
  {
    if caller in s.servers then
      (s, AlreadyRegistered)
    else
      var info := ServerInfo(serverName, publicKey, ipAddress, now, 0);
      (s.(servers := s.servers[caller := info]), Registered)
  }

  // ---------------------------------------------------------------------
  // Reputation

  /** `update_reputation`: add a signed delta to one record's score.  The
      new score must fit in an `i32`. */
  function UpdateReputationStep(
    s: Snapshot, principalId: Principal, delta: i32
  ): (r: (Snapshot, ReputationOutcome))
    requires principalId in s.servers ==>
      InI32(s.servers[principalId].reputation as int + delta as int)
    ensures r.1 == UnknownPrincipal <==> principalId !in s.servers
    ensures principalId !in s.servers ==> r.0 == s
    ensures principalId in s.servers ==>
      var info := s.servers[principalId];
      && principalId in r.0.servers
      && r.0.servers[principalId].reputation as int == info.reputation as int + delta as int
      && r.0.servers[principalId] == info.(reputation := r.0.servers[principalId].reputation)
      && r.1 == ReputationUpdated(info.serverName, r.0.servers[principalId].reputation)
      && r.0.servers.Keys == s.servers.Keys
      && (forall p :: p in s.servers && p != principalId ==> r.0.servers[p] == s.servers[p])
      && r.0.clientAssignments == s.clientAssignments
  {
    if principalId in s.servers then
      var info := s.servers[principalId];
      var reputation := info.reputation + delta;
      (s.(servers := s.servers[principalId := info.(reputation := reputation)]),
       ReputationUpdated(info.serverName, reputation))
    else
      (s, UnknownPrincipal)
  }

  // ---------------------------------------------------------------------
  // Liveness and assignment

  /** `heartbeat`: hand over the client waiting under the caller's server
      name if there is one, and otherwise refresh the caller's liveness;
      never both. */
  function HeartbeatStep(
    s: Snapshot, caller: Principal, now: u64
  ): (r: (Snapshot, HeartbeatOutcome))
    ensures r.1 == UnknownCaller <==> caller !in s.servers
    ensures caller !in s.servers ==> r.0 == s
    ensures caller in s.servers && s.servers[caller].serverName in s.clientAssignments ==>
      var name := s.servers[caller].serverName;
      && r.1 == Delivered(s.clientAssignments[name])
      && r.0.servers == s.servers
      && r.0.clientAssignments.Keys == s.clientAssignments.Keys - {name}
      && (forall n :: n in r.0.clientAssignments ==>
            r.0.clientAssignments[n] == s.clientAssignments[n])
    ensures caller in s.servers && s.servers[caller].serverName !in s.clientAssignments ==>
      && r.1 == LivenessRecorded
      && r.0.servers.Keys == s.servers.Keys
      && r.0.servers[caller] == s.servers[caller].(lastActive := now)
      && (forall p :: p in s.servers && p != caller ==> r.0.servers[p] == s.servers[p])
      && r.0.clientAssignments == s.clientAssignments
  {
    if caller in s.servers then
      var info := s.servers[caller];
      if info.serverName in s.clientAssignments then
        (s.(clientAssignments := s.clientAssignments - {info.serverName}),
         Delivered(s.clientAssignments[info.serverName]))
      else
        (s.(servers := s.servers[caller := info.(lastActive := now)]), LivenessRecorded)
    else
      (s, UnknownCaller)
  }

  /** `p` holds a record registered under `serverName`. */
  predicate Owns(s: Snapshot, p: Principal, serverName: ServerName) {
    p in s.servers && s.servers[p].serverName == serverName
  }

  /** The record `select_server`'s search lands on.  Names are not unique,
      and the search follows the hash map's iteration order, so any record
      with the requested name may be the one found; `pick` stands for that
      choice.  When no record has the name, `pick` is irrelevant. */
  ghost predicate ValidPick(s: Snapshot, serverName: ServerName, pick: Principal) {
    (exists p :: Owns(s, p, serverName)) ==> Owns(s, pick, serverName)
  }

  /** `select_server`: find a record by name, queue the client's key for it
      and answer with that record's key and address. */
  function SelectServerStep(
    s: Snapshot, serverName: ServerName, clientPublicKey: PublicKey, pick: Principal
  ): (r: (Snapshot, SelectOutcome))
    requires ValidPick(s, serverName, pick)
    ensures r.1.Selected? <==> exists p :: Owns(s, p, serverName)
    ensures r.1.UnknownName? ==> r.0 == s
    ensures r.1.Selected? ==>
      && Owns(s, pick, serverName)
      && r.1 == Selected(s.servers[pick].publicKey, s.servers[pick].ipAddress)
      && r.0.servers == s.servers
      && serverName in r.0.clientAssignments
      && r.0.clientAssignments[serverName] == clientPublicKey
      && r.0.clientAssignments.Keys == s.clientAssignments.Keys + {serverName}
      && (forall n :: n in s.clientAssignments && n != serverName ==>
            r.0.clientAssignments[n] == s.clientAssignments[n])
  {
    if Owns(s, pick, serverName) then
      var info := s.servers[pick];
      (s.(clientAssignments := s.clientAssignments[serverName := clientPublicKey]),
       Selected(info.publicKey, info.ipAddress))
    else
      (s, UnknownName)
  }

  // ---------------------------------------------------------------------
  // Directory query

  /** Rust's `u64::saturating_sub`. */
  function SaturatingSub(a: u64, b: u64): u64 {
    if a >= b then a - b else 0
  }

  /** The liveness test of `get_active_servers`, on `u64` arithmetic. */
  predicate IsActive(info: ServerInfo, now: u64) {
    SaturatingSub(now, info.lastActive) <= LivenessWindow
  }

  /** The tuple `get_active_servers` reports for a record. */
  function Listing(info: ServerInfo): ActiveServer {
    ActiveServer(info.serverName, info.publicKey, info.ipAddress, info.reputation)
  }

  /** `get_active_servers`: one tuple per record heard from within the
      liveness window, keyed by the record's principal (the canister returns
      the tuples alone, in hash-map order).  A record whose last heartbeat
      lies in the future counts as active. */
  function ActiveServers(s: Snapshot, now: u64): (r: map<Principal, ActiveServer>)
    ensures forall p :: p in r <==>
      p in s.servers && now as int <= s.servers[p].lastActive as int + LivenessWindow as int
    ensures forall p :: p in r ==>
      && r[p].serverName == s.servers[p].serverName
      && r[p].publicKey == s.servers[p].publicKey
      && r[p].ipAddress == s.servers[p].ipAddress
      && r[p].reputation == s.servers[p].reputation
  {
    map p | p in s.servers && IsActive(s.servers[p], now) :: Listing(s.servers[p])
  }

  // ---------------------------------------------------------------------
  // The canister state, updated in place

  class ServerRegistry {
    var servers: map<Principal, ServerInfo>
    var clientAssignments: map<ServerName, PublicKey>

    /** The registry as a value. */
    function State(): Snapshot
      reads this
    {
      Snapshot(servers, clientAssignments)
    }

    /** The empty registry (`ServerRegistry::default()`). */
    constructor ()
      ensures servers == map[] && clientAssignments == map[]
    {
      servers := map[];
      clientAssignments := map[];
    }

    method RegisterServer(
      caller: Principal, serverName: ServerName,
      publicKey: PublicKey, ipAddress: IPAddress, now: u64
    ) returns (r: RegisterOutcome)
      modifies this
      ensures (State(), r) == RegisterStep(old(State()), caller, serverName, publicKey, ipAddress, now)
    {
      if caller in servers {
        return AlreadyRegistered;
      }
      servers := servers[caller := ServerInfo(serverName, publicKey, ipAddress, now, 0)];
      r := Registered;
    }

    method UpdateReputation(principalId: Principal, delta: i32) returns (r: ReputationOutcome)
      requires principalId in servers ==>
        InI32(servers[principalId].reputation as int + delta as int)
      modifies this
      ensures (State(), r) == UpdateReputationStep(old(State()), principalId, delta)
    {
      if principalId in servers {
        var info := servers[principalId];
        var reputation := info.reputation + delta;
        servers := servers[principalId := info.(reputation := reputation)];
        r := ReputationUpdated(info.serverName, reputation);
      } else {
        r := UnknownPrincipal;
      }
    }

    method Heartbeat(caller: Principal, now: u64) returns (r: HeartbeatOutcome)
      modifies this
      ensures (State(), r) == HeartbeatStep(old(State()), caller, now)
    {
      if caller in servers {
        var info := servers[caller];
        if info.serverName in clientAssignments {
          var clientPublicKey := clientAssignments[info.serverName];
          clientAssignments := clientAssignments - {info.serverName};
          return Delivered(clientPublicKey);
        }
        servers := servers[caller := info.(lastActive := now)];
        return LivenessRecorded;
      }
      r := UnknownCaller;
    }

    /** `pick` reports which record the search found. */
    method SelectServer(serverName: ServerName, clientPublicKey: PublicKey)
      returns (r: SelectOutcome, ghost pick: Principal)
      modifies this
      ensures ValidPick(old(State()), serverName, pick)
      ensures (State(), r) == SelectServerStep(old(State()), serverName, clientPublicKey, pick)
    {
      if p :| p in servers && servers[p].serverName == serverName {
        pick := p;
        clientAssignments := clientAssignments[serverName := clientPublicKey];
        r := Selected(servers[p].publicKey, servers[p].ipAddress);
      } else {
        pick := [];
        r := UnknownName;
      }
    }
  }
}
