/** What the registry promises across several calls: deduplicated
    registration, additive reputation, one-shot delivery of a pending
    client, the inclusive liveness window, and records that are never
    deleted or renamed. */
module RegistryProperties {
  import opened Registry

  // ---------------------------------------------------------------------
  // Runs of operations

  /** One call to the canister, with the inputs the host supplies.  For
      `select_server`, `pick` is the record the hash-map search lands on. */
  datatype Op =
    | RegisterOp(caller: Principal, serverName: ServerName,
                 publicKey: PublicKey, ipAddress: IPAddress, now: u64)
    | UpdateReputationOp(principalId: Principal, delta: i32)
    | HeartbeatOp(caller: Principal, now: u64)
    | SelectServerOp(serverName: ServerName, clientPublicKey: PublicKey, pick: Principal)

  /** The call can be taken in `s`: a reputation update does not overflow
      and a selection lands on a record with the requested name. */
  ghost predicate Enabled(s: Snapshot, op: Op) {
    match op
    case UpdateReputationOp(p, delta) =>
      p in s.servers ==> InI32(s.servers[p].reputation as int + delta as int)
    case SelectServerOp(name, _, pick) => ValidPick(s, name, pick)
    case _ => true
  }

  /** The registry after one call. */
  function Apply(s: Snapshot, op: Op): Snapshot
    requires Enabled(s, op)
  {
    match op
    case RegisterOp(caller, name, key, ip, now) => RegisterStep(s, caller, name, key, ip, now).0
    case UpdateReputationOp(p, delta) => UpdateReputationStep(s, p, delta).0
    case HeartbeatOp(caller, now) => HeartbeatStep(s, caller, now).0
    case SelectServerOp(name, key, pick) => SelectServerStep(s, name, key, pick).0
  }

  ghost predicate Runnable(s: Snapshot, ops: seq<Op>)
    decreases |ops|
  {
    ops == [] || (Enabled(s, ops[0]) && Runnable(Apply(s, ops[0]), ops[1..]))
  }

  /** The registry after the calls `ops`, one after the other. */
  function Run(s: Snapshot, ops: seq<Op>): Snapshot
    requires Runnable(s, ops)
    decreases |ops|
  {
    if ops == [] then s else Run(Apply(s, ops[0]), ops[1..])
  }

  /** The fields fixed at registration: name, key and address. */
  predicate SameRegistration(a: ServerInfo, b: ServerInfo) {
    a.serverName == b.serverName && a.publicKey == b.publicKey && a.ipAddress == b.ipAddress
  }

  // ---------------------------------------------------------------------
  // Registration

  /** Registering twice from the same principal succeeds once, fails the
      second time, and the second call changes nothing: the stored record
      is the one from the first call. */
  lemma RegisterTwiceKeepsFirst(
    s: Snapshot, caller: Principal,
    name1: ServerName, key1: PublicKey, ip1: IPAddress, now1: u64,
    name2: ServerName, key2: PublicKey, ip2: IPAddress, now2: u64)
    requires caller !in s.servers
    ensures
      var (s1, first) := RegisterStep(s, caller, name1, key1, ip1, now1);
      var (s2, second) := RegisterStep(s1, caller, name2, key2, ip2, now2);
      && first == Registered
      && second == AlreadyRegistered
      && s2 == s1
      && s2.servers[caller] == ServerInfo(name1, key1, ip1, now1, 0)
  {
  }

  /** No call deletes a record or changes the name, key or address it was
      registered with: registration is create-only and nothing else touches
      those fields. */
  lemma {:induction false} RecordsNeverDeleted(s: Snapshot, ops: seq<Op>)
    requires Runnable(s, ops)
    ensures forall p :: p in s.servers ==>
      p in Run(s, ops).servers && SameRegistration(Run(s, ops).servers[p], s.servers[p])
    decreases |ops|
  {
    if ops != [] {
      var s1 := Apply(s, ops[0]);
      assert forall p :: p in s.servers ==>
        p in s1.servers && SameRegistration(s1.servers[p], s.servers[p]);
      RecordsNeverDeleted(s1, ops[1..]);
    }
  }

  // ---------------------------------------------------------------------
  // Reputation

  /** The sum of a sequence of deltas, on unbounded integers. */
  function Sum(deltas: seq<i32>): int {
    if deltas == [] then 0 else deltas[0] as int + Sum(deltas[1..])
  }

  /** Starting from `start`, every running total of `deltas` fits in an `i32`. */
  predicate RunningTotalsFit(start: int, deltas: seq<i32>)
    decreases |deltas|
  {
    deltas == []
    || (InI32(start + deltas[0] as int) && RunningTotalsFit(start + deltas[0] as int, deltas[1..]))
  }

  /** `update_reputation(principalId, d)` for each `d` in `deltas`, in order. */
  function ApplyDeltas(s: Snapshot, principalId: Principal, deltas: seq<i32>): Snapshot
    requires principalId in s.servers ==>
      RunningTotalsFit(s.servers[principalId].reputation as int, deltas)
    decreases |deltas|
  {
    if deltas == [] then s
    else ApplyDeltas(UpdateReputationStep(s, principalId, deltas[0]).0, principalId, deltas[1..])
  }

  /** Reputation is additive: after a sequence of updates the score is the
      old score plus the sum of the deltas, negative totals included, and
      nothing else in the registry has changed. */
  lemma {:induction false} ReputationIsAdditive(s: Snapshot, principalId: Principal, deltas: seq<i32>)
    requires principalId in s.servers
    requires RunningTotalsFit(s.servers[principalId].reputation as int, deltas)
    ensures
      var r := ApplyDeltas(s, principalId, deltas);
      && principalId in r.servers
      && r.servers[principalId].reputation as int
         == s.servers[principalId].reputation as int + Sum(deltas)
      && r.servers[principalId]
         == s.servers[principalId].(reputation := r.servers[principalId].reputation)
      && r.servers.Keys == s.servers.Keys
      && (forall p :: p in s.servers && p != principalId ==> r.servers[p] == s.servers[p])
      && r.clientAssignments == s.clientAssignments
    decreases |deltas|
  {
    if deltas != [] {
      var s1 := UpdateReputationStep(s, principalId, deltas[0]).0;
      ReputationIsAdditive(s1, principalId, deltas[1..]);
    }
  }

  /** Updates for a principal that has no record change nothing, however many. */
  lemma {:induction false} UnknownPrincipalUnchanged(s: Snapshot, principalId: Principal, deltas: seq<i32>)
    requires principalId !in s.servers
    ensures ApplyDeltas(s, principalId, deltas) == s
    decreases |deltas|
  {
    if deltas != [] {
      UnknownPrincipalUnchanged(s, principalId, deltas[1..]);
    }
  }

  // ---------------------------------------------------------------------
  // Last-active times

  /** The host clock after `op`, when it was `t` before: registration and
      heartbeat read the clock, the other calls do not. */
  function ClockAfter(t: u64, op: Op): u64 {
    match op
    case RegisterOp(_, _, _, _, now) => now
    case HeartbeatOp(_, now) => now
    case _ => t
  }

  /** The clock readings of `ops`, starting from `t`, never go backwards. */
  predicate ClockForward(t: u64, ops: seq<Op>)
    decreases |ops|
  {
    ops == [] || (t <= ClockAfter(t, ops[0]) && ClockForward(ClockAfter(t, ops[0]), ops[1..]))
  }

  /** The last clock reading of `ops`, or `t` if none reads the clock. */
  function LastClock(t: u64, ops: seq<Op>): u64
    decreases |ops|
  {
    if ops == [] then t else LastClock(ClockAfter(t, ops[0]), ops[1..])
  }

  /** Every record was last active no later than `t`. */
  ghost predicate ActiveNoLaterThan(s: Snapshot, t: u64) {
    forall p :: p in s.servers ==> s.servers[p].lastActive <= t
  }

  /** Last-active times only move forward while the host clock does: no
      record present at the start is lost or has its last-active time
      lowered, and no record is ever active later than the last clock
      reading of the run. */
  lemma {:induction false} LastActiveNeverDecreases(s: Snapshot, ops: seq<Op>, t: u64)
    requires Runnable(s, ops)
    requires ActiveNoLaterThan(s, t)
    requires ClockForward(t, ops)
    ensures forall p :: p in s.servers ==>
      p in Run(s, ops).servers && s.servers[p].lastActive <= Run(s, ops).servers[p].lastActive
    ensures ActiveNoLaterThan(Run(s, ops), LastClock(t, ops))
    decreases |ops|
  {
    if ops != [] {
      var s1 := Apply(s, ops[0]);
      var t1 := ClockAfter(t, ops[0]);
      assert forall p :: p in s.servers ==>
        p in s1.servers && s.servers[p].lastActive <= s1.servers[p].lastActive;
      assert ActiveNoLaterThan(s1, t1);
      LastActiveNeverDecreases(s1, ops[1..], t1);
    }
  }

  // ---------------------------------------------------------------------
  // Liveness and assignment

  /** After a successful selection, the next heartbeat from any server
      registered under that name receives the client's key, leaves its
      last-active time alone, and consumes the assignment; the heartbeat
      after that only records liveness. */
  lemma AssignmentDeliveredOnce(
    s: Snapshot, name: ServerName, clientPublicKey: PublicKey, pick: Principal,
    owner: Principal, now1: u64, now2: u64)
    requires ValidPick(s, name, pick)
    requires Owns(s, owner, name)
    ensures
      var (s1, selected) := SelectServerStep(s, name, clientPublicKey, pick);
      var (s2, first) := HeartbeatStep(s1, owner, now1);
      var (s3, second) := HeartbeatStep(s2, owner, now2);
      && selected == Selected(s.servers[pick].publicKey, s.servers[pick].ipAddress)
      && first == Delivered(clientPublicKey)
      && s2.servers == s.servers
      && name !in s2.clientAssignments
      && second == LivenessRecorded
      && s3.servers[owner].lastActive == now2
  {
  }

  /** Server names are not unique and pending clients are keyed by name,
      so when two servers share a name the client can be handed to the one
      the selection did not return: here the client is given server `a`'s
      key and address, and server `b`'s heartbeat takes the client. */
  lemma SharedNameHandsClientToOther()
    ensures
      var a: Principal := [1];
      var b: Principal := [2];
      var s := Snapshot(map[a := ServerInfo("srv1", "pubA", "10.0.0.5", 1000, 0),
                            b := ServerInfo("srv1", "pubB", "10.0.0.6", 1000, 0)], map[]);
      var (s1, selected) := SelectServerStep(s, "srv1", "pubClientX", a);
      var (s2, delivered) := HeartbeatStep(s1, b, 1010);
      && selected == Selected("pubA", "10.0.0.5")
      && delivered == Delivered("pubClientX")
      && HeartbeatStep(s2, a, 1010).1 == LivenessRecorded
  {
  }

  /** Only `select_server` for a name creates a pending assignment under
      that name: any run of calls without one leaves the name without a
      pending client. */
  lemma {:induction false} NoAssignmentWithoutSelect(s: Snapshot, ops: seq<Op>, name: ServerName)
    requires Runnable(s, ops)
    requires name !in s.clientAssignments
    requires forall i :: 0 <= i < |ops| ==>
      !(ops[i].SelectServerOp? && ops[i].serverName == name)
    ensures name !in Run(s, ops).clientAssignments
    decreases |ops|
  {
    if ops != [] {
      var s1 := Apply(s, ops[0]);
      assert name !in s1.clientAssignments;
      NoAssignmentWithoutSelect(s1, ops[1..], name);
    }
  }

  /** A delivered client is never delivered again unless it is selected
      anew: after a delivering heartbeat and any calls that do not select
      the name, a heartbeat from a server under that name only records
      liveness. */
  lemma NoRedelivery(
    s: Snapshot, owner: Principal, now: u64, ops: seq<Op>, later: Principal, laterNow: u64)
    requires owner in s.servers
    requires HeartbeatStep(s, owner, now).1.Delivered?
    requires Runnable(HeartbeatStep(s, owner, now).0, ops)
    requires forall i :: 0 <= i < |ops| ==>
      !(ops[i].SelectServerOp? && ops[i].serverName == s.servers[owner].serverName)
    requires Owns(Run(HeartbeatStep(s, owner, now).0, ops), later, s.servers[owner].serverName)
    ensures HeartbeatStep(Run(HeartbeatStep(s, owner, now).0, ops), later, laterNow).1 == LivenessRecorded
  {
    NoAssignmentWithoutSelect(HeartbeatStep(s, owner, now).0, ops, s.servers[owner].serverName);
  }

  // ---------------------------------------------------------------------
  // Directory query

  /** The liveness window is inclusive: a record is listed exactly 30
      seconds after its last heartbeat and dropped at 31; a last heartbeat
      in the future still counts as active. */
  lemma LivenessWindowBoundary(s: Snapshot, p: Principal, now: u64)
    requires p in s.servers
    ensures now as int == s.servers[p].lastActive as int + 30 ==> p in ActiveServers(s, now)
    ensures now as int == s.servers[p].lastActive as int + 31 ==> p !in ActiveServers(s, now)
    ensures now < s.servers[p].lastActive ==> p in ActiveServers(s, now)
  {
  }

  /** How a heartbeat moves the directory: one that records liveness lists
      the caller at that moment; one that delivers a client (or comes from
      an unknown caller) leaves the directory as it was at every time, so
      an assigned server ages out of it. */
  lemma HeartbeatAndDirectory(s: Snapshot, caller: Principal, now: u64, t: u64)
    ensures HeartbeatStep(s, caller, now).1 == LivenessRecorded ==>
      caller in ActiveServers(HeartbeatStep(s, caller, now).0, now)
    ensures !HeartbeatStep(s, caller, now).1.LivenessRecorded? ==>
      ActiveServers(HeartbeatStep(s, caller, now).0, t) == ActiveServers(s, t)
  {
  }

  /** A selection does not touch any record, so the directory is the same
      before and after it at every time. */
  lemma SelectLeavesDirectory(
    s: Snapshot, name: ServerName, clientPublicKey: PublicKey, pick: Principal, t: u64)
    requires ValidPick(s, name, pick)
    ensures ActiveServers(SelectServerStep(s, name, clientPublicKey, pick).0, t) == ActiveServers(s, t)
  {
  }

  // ---------------------------------------------------------------------
  // A session from registration to hand-over

  /** A server registers at t = 1000, is listed at 1010 and not at 1032; a
      client selects it and the server's next heartbeat picks the client
      up without refreshing its liveness; selecting an unknown name fails
      and changes nothing; two reputation updates of +5 and -2 leave the
      score at 3. */
  lemma Session()
    ensures
      var alpha: Principal := [1];
      var s0 := Snapshot(map[], map[]);
      var (s1, registered) := RegisterStep(s0, alpha, "srv1", "pubA", "10.0.0.5", 1000);
      var (s2, selected) := SelectServerStep(s1, "srv1", "pubClientX", alpha);
      var (s3, delivered) := HeartbeatStep(s2, alpha, 1005);
      var (s4, missing) := SelectServerStep(s3, "ghost", "pubY", alpha);
      var s5 := ApplyDeltas(s3, alpha, [5, -2]);
      && registered == Registered
      && ActiveServers(s1, 1010) == map[alpha := ActiveServer("srv1", "pubA", "10.0.0.5", 0)]
      && ActiveServers(s1, 1032) == map[]
      && selected == Selected("pubA", "10.0.0.5")
      && s2.clientAssignments == map["srv1" := "pubClientX"]
      && delivered == Delivered("pubClientX")
      && s3.clientAssignments == map[]
      && s3.servers[alpha].lastActive == 1000
      && missing == UnknownName
      && s4 == s3
      && s5.servers[alpha].reputation == 3
  {
    var alpha: Principal := [1];
    var s1 := RegisterStep(Snapshot(map[], map[]), alpha, "srv1", "pubA", "10.0.0.5", 1000).0;
    assert ActiveServers(s1, 1010).Keys == {alpha};
    assert ActiveServers(s1, 1032).Keys == {};
    var s3 := HeartbeatStep(SelectServerStep(s1, "srv1", "pubClientX", alpha).0, alpha, 1005).0;
    assert s3.clientAssignments.Keys == {};
    ReputationIsAdditive(s3, alpha, [5, -2]);
    assert Sum([5, -2]) == 3;
  }
}
