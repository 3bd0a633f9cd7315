/**
 Which DPDK worker a received frame belongs to: client ports are claimed once and for all by
 the worker that opened them, listener ports are placed on sets of workers, and everything
 else follows a hash of the flow or the queue it arrived on.
 */
module FlowSteering {
  import opened Bits

  type Byte = x: int | 0 <= x < 256

  const PORTS: nat := 65536
  const CLIENT_FIRST: nat := 32768
  const CLIENT_LAST: nat := 60999
  const LISTENER: nat := 0xffff_ffff
  const MAX_WORKERS: nat := 1023
  const WORD: nat := 0x1_0000_0000

  /** The tables steering depends on: placements are fixed before the workers start. */
  datatype Tables = Tables(workers: nat, rss: bool, placements: map<nat, seq<nat>>, owners: seq<nat>)

  // ---------------------------------------------------------------- client ports

  /** How many ports of the ephemeral range belong to a worker. */
  function Stripe(workers: nat, id: nat): nat
    requires id < workers <= MAX_WORKERS
  {
    (CLIENT_LAST - CLIENT_FIRST - id) / workers + 1
  }

  function PortAt(workers: nat, id: nat, k: nat): nat { CLIENT_FIRST + id + k * workers }

  ghost predicate InStripe(workers: nat, id: nat, port: nat)
    requires id < workers <= MAX_WORKERS
  {
    exists k: nat :: k < Stripe(workers, id) && port == PortAt(workers, id, k)
  }

  lemma DivMulBelow(a: nat, c: nat)
    requires 0 < c
    ensures a / c * c <= a
  {
  }

  /** A worker's ports lie in the ephemeral range. */
  lemma StripeInRange(workers: nat, id: nat, k: nat)
    requires id < workers <= MAX_WORKERS && k < Stripe(workers, id)
    ensures CLIENT_FIRST <= PortAt(workers, id, k) <= CLIENT_LAST
  {
    var span := CLIENT_LAST - CLIENT_FIRST - id;
    MulMono(k, span / workers, workers);
    DivMulBelow(span, workers);
  }

  /** No two workers have a port in common. */
  lemma StripesDisjoint(workers: nat, id: nat, other: nat, k: nat, m: nat)
    requires id < workers && other < workers && PortAt(workers, id, k) == PortAt(workers, other, m)
    ensures id == other && k == m
  {
    if k < m { MulMono(k + 1, m, workers); }
    if m < k { MulMono(m + 1, k, workers); }
  }

  /** Every ephemeral port belongs to a worker. */
  lemma StripesCover(workers: nat, port: nat)
    requires 0 < workers <= MAX_WORKERS && CLIENT_FIRST <= port <= CLIENT_LAST
    ensures InStripe(workers, (port - CLIENT_FIRST) % workers, port)
  {
    var id, k := (port - CLIENT_FIRST) % workers, (port - CLIENT_FIRST) / workers;
    Split(port - CLIENT_FIRST, workers);
    assert port == PortAt(workers, id, k);
    DivBound(CLIENT_LAST - CLIENT_FIRST - id, k, workers);
  }

  lemma DivBound(a: nat, k: nat, c: nat)
    requires 0 < c && k * c <= a
    ensures k <= a / c
  {
    if a / c < k { MulMono(a / c + 1, k, c); }
  }

  // ---------------------------------------------------------------- where a frame goes

  const ALL_WORKERS := -2
  const DROP := -1

  function Read16(frame: seq<Byte>, at: nat): nat
    requires at + 2 <= |frame|
  {
    var high: int, low: int := frame[at], frame[at + 1];
    256 * high + low
  }

  /** Fowler-Noll-Vo steps over some bytes, in 32 bits. */
  function Fnv(hash: bv32, bytes: seq<Byte>): bv32
    decreases |bytes|
  {
    if bytes == [] then hash else Fnv((hash ^ (bytes[0] as bv32)) * 16777619, bytes[1..])
  }

  function Mixed(hash: bv32): bv32 { hash ^ (hash >> 16) }

  function HeaderLength(frame: seq<Byte>): nat
    requires 15 <= |frame|
  {
    frame[14] % 16 * 4
  }

  predicate IsIpv4(frame: seq<Byte>) {
    && 34 <= |frame| && Read16(frame, 12) == 0x0800 && frame[14] / 16 == 4
    && 20 <= HeaderLength(frame) && 14 + HeaderLength(frame) <= |frame| && Read16(frame, 20) % 0x4000 == 0
  }

  /** An unfragmented TCP segment with a complete header. */
  predicate IsTcp(frame: seq<Byte>) {
    IsIpv4(frame) && frame[23] == 6 && 14 + HeaderLength(frame) + 20 <= |frame|
  }

  /** Source and destination address. */
  function Addresses(frame: seq<Byte>): seq<Byte>
    requires IsTcp(frame)
  {
    frame[26..34]
  }

  /** Source and destination port. */
  function Ports(frame: seq<Byte>): seq<Byte>
    requires IsTcp(frame)
  {
    frame[14 + HeaderLength(frame)..18 + HeaderLength(frame)]
  }

  function DestinationPort(frame: seq<Byte>): nat
    requires IsTcp(frame)
  {
    Read16(frame, 16 + HeaderLength(frame))
  }

  /** The hash of a flow: both addresses, then both ports. */
  function FlowHash(frame: seq<Byte>): bv32
    requires IsTcp(frame)
  {
    Mixed(Fnv(Fnv(2166136261, Addresses(frame)), Ports(frame)))
  }

  function OwnerOf(t: Tables, port: nat): nat { if port < |t.owners| then t.owners[port] else 0 }

  function Destination(t: Tables, frame: seq<Byte>, rxOwner: nat): int
    requires TablesOk(t)
  {
    if |frame| < 14 then DROP
    else if Read16(frame, 12) == 0x0806 then ALL_WORKERS
    else if !IsIpv4(frame) then DROP
    else if frame[23] == 1 then ALL_WORKERS
    else if !IsTcp(frame) then DROP
    else
      var port := DestinationPort(frame);
      var placed := port in t.placements;
      var owner := OwnerOf(t, port);
      if !placed && owner != 0 && owner != LISTENER then owner - 1
      else if t.rss && (!placed || |t.placements[port]| == t.workers) then rxOwner
      else
        var hash := FlowHash(frame) as int;
        if placed then t.placements[port][hash % |t.placements[port]|] else hash % t.workers
  }

  predicate PlacementOk(workers: nat, ids: seq<nat>) { ids != [] && forall i | 0 <= i < |ids| :: ids[i] < workers }

  /** A client port is claimed from its own stripe, and never one that listeners are placed on. */
  ghost predicate OwnerOk(t: Tables, port: nat, owner: nat)
    requires 0 < t.workers <= MAX_WORKERS
  {
    owner == 0 || owner == LISTENER || (owner <= t.workers && InStripe(t.workers, owner - 1, port) && port !in t.placements)
  }

  ghost predicate TablesOk(t: Tables) {
    && 0 < t.workers <= MAX_WORKERS && |t.owners| == PORTS
    && (forall port | port in t.placements :: PlacementOk(t.workers, t.placements[port]))
    && (forall port | 0 <= port < PORTS :: OwnerOk(t, port, t.owners[port]))
  }

  /** A TCP frame goes to a worker that exists. */
  lemma TargetIsWorker(t: Tables, frame: seq<Byte>, rxOwner: nat)
    requires TablesOk(t) && IsTcp(frame) && rxOwner < t.workers
    ensures 0 <= Destination(t, frame, rxOwner) < t.workers
  {
    var port := DestinationPort(frame);
    PortBelow(frame);
    assert OwnerOk(t, port, t.owners[port]);
    if port in t.placements { assert PlacementOk(t.workers, t.placements[port]); }
  }

  lemma PortBelow(frame: seq<Byte>)
    requires IsTcp(frame)
    ensures DestinationPort(frame) < PORTS
  {
  }

  lemma SamePort(f: seq<Byte>, g: seq<Byte>)
    requires IsTcp(f) && IsTcp(g) && Ports(f) == Ports(g)
    ensures DestinationPort(f) == DestinationPort(g)
  {
    assert Ports(f)[2] == Ports(g)[2] && Ports(f)[3] == Ports(g)[3];
  }

  /** With fixed tables, two TCP frames of one flow go to the same worker: always when steering
      by hash, and when they arrived on the same queue when steering by RSS. */
  lemma TargetFixedByFlow(t: Tables, f: seq<Byte>, g: seq<Byte>, rf: nat, rg: nat)
    requires TablesOk(t) && IsTcp(f) && IsTcp(g)
    requires Addresses(f) == Addresses(g) && Ports(f) == Ports(g) && (t.rss ==> rf == rg)
    ensures Destination(t, f, rf) == Destination(t, g, rg)
  {
    SamePort(f, g);
  }

  /** Address resolution and ICMP concern every worker; what is neither that nor an unfragmented TCP
      segment concerns none. */
  lemma WhoIsConcerned(t: Tables, frame: seq<Byte>, rxOwner: nat)
    requires TablesOk(t) && rxOwner < t.workers
    ensures var arp, icmp := 14 <= |frame| && Read16(frame, 12) == 0x0806, IsIpv4(frame) && frame[23] == 1;
      && (Destination(t, frame, rxOwner) == ALL_WORKERS <==> arp || icmp)
      && (Destination(t, frame, rxOwner) == DROP <==> !arp && !icmp && !IsTcp(frame))
  {
    if IsTcp(frame) { TargetIsWorker(t, frame, rxOwner); }
  }

  /** A frame to a port that listeners are placed on goes to one of them, unless RSS steering takes
      the placement for the set of all workers and the receiving queue's worker is not in it. */
  lemma PlacedFrames(t: Tables, frame: seq<Byte>, rxOwner: nat)
    requires TablesOk(t) && IsTcp(frame) && DestinationPort(frame) in t.placements
    ensures var ids := t.placements[DestinationPort(frame)];
      (exists i :: 0 <= i < |ids| && ids[i] == Destination(t, frame, rxOwner)) <==>
        !t.rss || |ids| != t.workers || rxOwner in ids
  {
    var ids := t.placements[DestinationPort(frame)];
    assert PlacementOk(t.workers, ids);
    if !(t.rss && |ids| == t.workers) {
      var hash := FlowHash(frame) as int;
      assert ids[hash % |ids|] == Destination(t, frame, rxOwner);
    }
  }

  /** Frames that neither a client nor RSS claims are spread by the hash of their flow, over the
      placed workers or over all. */
  lemma HashedFrames(t: Tables, frame: seq<Byte>, rxOwner: nat)
    requires TablesOk(t) && IsTcp(frame) && !t.rss
    ensures var port, hash := DestinationPort(frame), FlowHash(frame) as int;
      if port in t.placements then
        var ids := t.placements[port]; ids != [] && Destination(t, frame, rxOwner) == ids[hash % |ids|]
      else port < |t.owners| && (t.owners[port] in {0, LISTENER} ==> Destination(t, frame, rxOwner) == hash % t.workers)
  {
    PortBelow(frame);
    if DestinationPort(frame) in t.placements { assert PlacementOk(t.workers, t.placements[DestinationPort(frame)]); }
  }

  /** That cannot happen if no worker is named twice. */
  lemma DistinctPlacementCovers(workers: nat, ids: seq<nat>, id: nat)
    requires PlacementOk(workers, ids) && |ids| == workers && id < workers
    requires forall i, j | 0 <= i < j < |ids| :: ids[i] != ids[j]
    ensures id in ids
  {
    if id !in ids { DistinctBelow(ids, workers, id); }
  }

  /** As many different numbers below n as there are, without one of them, is too many. */
  lemma {:induction false} DistinctBelow(ids: seq<nat>, n: nat, gap: nat)
    requires (forall i | 0 <= i < |ids| :: ids[i] < n && ids[i] != gap) && gap < n
    requires forall i, j | 0 <= i < j < |ids| :: ids[i] != ids[j]
    ensures |ids| < n
    decreases n
  {
    if n - 1 in ids {
      var k :| 0 <= k < |ids| && ids[k] == n - 1;
      var rest := ids[..k] + ids[k + 1..];
      assert forall i | 0 <= i < |rest| :: rest[i] == ids[if i < k then i else i + 1];
      DistinctBelow(rest, n - 1, gap);
    } else if gap < n - 1 {
      DistinctBelow(ids, n - 1, gap);
    } else if ids != [] {
      DistinctBelow(ids[1..], n - 1, ids[0]);
    }
  }

  /** It does if one is: with two workers, RSS and a listener placed twice on worker 0, every frame
      to it that arrives on worker 1's queue goes to worker 1. */
  lemma DoublePlacementLeaks(t: Tables, frame: seq<Byte>)
    requires TablesOk(t) && IsTcp(frame) && t.rss && t.workers == 2
    requires DestinationPort(frame) in t.placements && t.placements[DestinationPort(frame)] == [0, 0]
    ensures Destination(t, frame, 1) == 1 && 1 !in t.placements[DestinationPort(frame)]
  {
  }

  // ---------------------------------------------------------------- claiming ports

  /** Ports that are claimed stay claimed by the same owner. */
  predicate Extends(a: seq<nat>, b: seq<nat>) {
    |a| == |b| && forall port | 0 <= port < |a| && a[port] != 0 :: b[port] == a[port]
  }

  datatype Opened = Socket(port: nat) | InUse | Error

  /** What becomes of a socket on a claimed port: it is opened and owned, its address is in use,
      or it fails otherwise, be it in the TCP stack or for want of a free handle. */
  datatype Answer = Granted | AddressInUse | Denied

  class Fabric {
    const maxWorkers: nat
    var prepared: bool
    var tables: Tables

    ghost predicate Valid()
      reads this
    {
      && maxWorkers <= MAX_WORKERS && (prepared ==> TablesOk(tables))
      && (forall port | port in tables.placements :: tables.placements[port] != [])
    }

    constructor (supported: nat, rss: bool)
      requires supported <= MAX_WORKERS
      ensures Valid() && maxWorkers == supported && !prepared && tables == Tables(0, rss, map[], [])
    {
      maxWorkers, prepared, tables := supported, false, Tables(0, rss, map[], []);
    }

    method ConfigureListenerWorkers(port: nat, ids: seq<nat>) returns (ok: bool)
      requires Valid()
      modifies this
      ensures Valid() && prepared == old(prepared)
      ensures ok <==>
        !prepared && ids != [] && (port in old(tables).placements ==> old(tables).placements[port] == ids)
      ensures tables == if ok then old(tables).(placements := old(tables).placements[port := ids]) else old(tables)
    {
      if prepared || ids == [] { return false; }
      if port in tables.placements { return tables.placements[port] == ids; }
      tables := tables.(placements := tables.placements[port := ids]);
      ok := true;
    }

    /** Startup, given whether the TCP stack, the environment and the device can serve the workers. */
    method PrepareRuntime(workers: nat, served: bool) returns (ok: bool)
      requires Valid()
      modifies this
      ensures Valid() && prepared == (old(prepared) || ok)
      ensures tables == if ok then old(tables).(workers := workers, owners := seq(PORTS, _ => 0)) else old(tables)
      ensures ok <==>
        && !old(prepared) && 0 < workers <= maxWorkers && served
        && forall port | port in old(tables).placements :: PlacementOk(workers, old(tables).placements[port])
    {
      if exists port | port in tables.placements :: exists i | 0 <= i < |tables.placements[port]| ::
        workers <= tables.placements[port][i] {
        return false;
      }
      if prepared || workers == 0 || maxWorkers < workers || !served { return false; }
      tables := tables.(workers := workers, owners := seq(PORTS, _ => 0));
      prepared, ok := true, true;
    }

    /** One compare-and-swap from unused. */
    method Claim(port: nat, owner: nat) returns (previous: nat)
      requires Valid() && prepared && port < PORTS && owner != 0 && OwnerOk(tables, port, owner)
      modifies this
      ensures Valid() && prepared && previous == old(tables.owners[port])
      ensures tables == old(tables).(owners := if previous == 0 then old(tables.owners)[port := owner] else old(tables.owners))
    {
      previous := tables.owners[port];
      if previous == 0 {
        tables := tables.(owners := tables.owners[port := owner]);
      }
    }

    /** Whatever the other workers claim in the meantime. */
    method Others()
      requires Valid() && prepared
      modifies this
      ensures Valid() && prepared && Later(old(tables), tables)
    {
      var n: int := *;
      while 0 < n
        invariant Valid() && prepared && Later(old(tables), tables)
        decreases n
      {
        var id: int, k: int, port: int := *, *, *;
        if 0 <= port < PORTS {
          var previous := Claim(port, LISTENER);
        }
        if 0 <= id < tables.workers && 0 <= k < Stripe(tables.workers, id) {
          StripeInRange(tables.workers, id, k);
          if PortAt(tables.workers, id, k) !in tables.placements {
            var previous := Claim(PortAt(tables.workers, id, k), id + 1);
          }
        }
        n := n - 1;
      }
    }

    /** The claim comes first and stays, even if no listener can then be opened on the port. */
    method Listen(port: nat, answer: Answer) returns (ok: bool)
      requires Valid() && prepared && port < PORTS
      modifies this
      ensures Valid() && prepared && Later(old(tables), tables)
      ensures tables.owners[port] == if old(tables.owners[port]) == 0 then LISTENER else old(tables.owners[port])
      ensures ok <==> tables.owners[port] == LISTENER && answer.Granted?
    {
      var previous := Claim(port, LISTENER);
      if previous != 0 && previous != LISTENER { return false; }
      ok := answer.Granted?;
    }

    /** Claims one port of the stripe unless a listener is placed on it or somebody else has it. */
    method TryPort(id: nat, k: nat) returns (mine: bool)
      requires Valid() && prepared && id < tables.workers && k < Stripe(tables.workers, id)
      modifies this
      ensures Valid() && prepared && Later(old(tables), tables)
      ensures var port := PortAt(tables.workers, id, k);
        if mine then ClaimedBy(tables, port, id) else NotToBeHad(tables, port, id)
    {
      var port := PortAt(tables.workers, id, k);
      StripeInRange(tables.workers, id, k);
      if port in tables.placements { return false; }
      var previous := Claim(port, id + 1);
      mine := previous == 0 || previous == id + 1;
    }

    /** Tries the ports of the worker's stripe in turn, from where the last call stopped; answers(n)
        is what becomes of a socket on the n-th port tried. */
    method OpenClient(id: nat, next: nat, answers: nat -> Answer)
      returns (result: Opened, counter: nat, tried: seq<nat>)
      requires Valid() && prepared && id < tables.workers && next < WORD
      modifies this
      ensures Valid() && prepared && Later(old(tables), tables) && AllPassed(tables, id, tried, answers)
      ensures |tried| <= Stripe(tables.workers, id) && Candidates(tables.workers, id, next, tried)
      ensures |tried| == Stripe(tables.workers, id) <==> result.InUse?
      ensures counter == Count(next, if result.InUse? then |tried| else |tried| + 1)
      ensures !result.InUse? ==>
        ClaimedBy(tables, Candidate(tables.workers, id, next, |tried|), id) && !answers(|tried|).AddressInUse?
      ensures result == (if result.InUse? then InUse
                         else if answers(|tried|).Granted? then Socket(Candidate(tables.workers, id, next, |tried|))
                         else Error)
    {
      var workers, ports := tables.workers, Stripe(tables.workers, id);
      counter, tried := next, [];
      for n := 0 to ports
        invariant Valid() && prepared && Later(old(tables), tables) && AllPassed(tables, id, tried, answers)
        invariant counter == Count(next, n) && |tried| == n && Candidates(workers, id, next, tried)
      {
        var k := Rank(counter, ports);
        counter := Count(counter, 1);
        CountAgain(next, n);
        ghost var t := tables;
        var mine := TryPort(id, k);
        PassedStays(t, tables, id, tried, answers);
        var port := PortAt(workers, id, k);
        if mine && answers(n) != AddressInUse {
          result := if answers(n).Granted? then Socket(port) else Error;
          return;
        }
        tried := tried + [port];
        ghost var u := tables;
        Others();
        PassedStays(u, tables, id, tried, answers);
      }
      result := InUse;
    }
  }

  /** The 32-bit counter n steps later. */
  function Count(next: nat, n: nat): (r: nat)
    ensures r < WORD
  {
    (next + n) % WORD
  }

  function Rank(counter: nat, ports: nat): (k: nat)
    requires 0 < ports
    ensures k < ports
  {
    counter % ports
  }

  lemma CountAgain(next: nat, n: nat)
    ensures Count(Count(next, n), 1) == Count(next, n + 1)
  {
  }

  /** The n-th port a call tries. */
  function Candidate(workers: nat, id: nat, next: nat, n: nat): nat
    requires id < workers <= MAX_WORKERS
  {
    PortAt(workers, id, Rank(Count(next, n), Stripe(workers, id)))
  }

  /** The ports tried so far are those the counter selects, in order. */
  ghost predicate Candidates(workers: nat, id: nat, next: nat, tried: seq<nat>)
    requires id < workers <= MAX_WORKERS
  {
    forall n | 0 <= n < |tried| :: tried[n] == Candidate(workers, id, next, n)
  }

  /** The same runtime some claims later. */
  predicate Later(t: Tables, u: Tables) { t.(owners := []) == u.(owners := []) && Extends(t.owners, u.owners) }

  /** Every port tried was passed over for a reason. */
  ghost predicate AllPassed(t: Tables, id: nat, tried: seq<nat>, answers: nat -> Answer) {
    forall n | 0 <= n < |tried| :: PassedOver(t, tried[n], id, answers(n))
  }

  lemma PassedStays(t: Tables, u: Tables, id: nat, tried: seq<nat>, answers: nat -> Answer)
    requires AllPassed(t, id, tried, answers) && Later(t, u)
    ensures AllPassed(u, id, tried, answers)
  {
    forall n | 0 <= n < |tried| ensures PassedOver(u, tried[n], id, answers(n)) {
      assert PassedOver(t, tried[n], id, answers(n));
    }
  }

  /** The worker opened the port: nobody else will, and no listener is placed on it. */
  ghost predicate ClaimedBy(t: Tables, port: nat, id: nat) {
    id < t.workers && port < PORTS && port !in t.placements && OwnerOf(t, port) == id + 1
  }

  /** A listener is placed on the port, or somebody else has it. */
  predicate NotToBeHad(t: Tables, port: nat, id: nat) {
    port in t.placements || OwnerOf(t, port) !in {0, id + 1}
  }

  /** The port was not to be had, or was claimed and then found in use by the TCP stack. */
  ghost predicate PassedOver(t: Tables, port: nat, id: nat, answer: Answer) {
    NotToBeHad(t, port, id) || (ClaimedBy(t, port, id) && answer.AddressInUse?)
  }

  /** Every frame to a port a worker opened goes to that worker, by hash or by RSS, now and later. */
  lemma ClientFramesReachOpener(t: Tables, u: Tables, frame: seq<Byte>, rxOwner: nat, id: nat)
    requires TablesOk(t) && TablesOk(u) && Later(t, u) && IsTcp(frame) && ClaimedBy(t, DestinationPort(frame), id)
    ensures Destination(t, frame, rxOwner) == id && Destination(u, frame, rxOwner) == id
  {
    assert OwnerOf(u, DestinationPort(frame)) == OwnerOf(t, DestinationPort(frame));
  }

  // ---------------------------------------------------------------- does a call try every port?

  ghost predicate Tries(next: nat, ports: nat, k: nat)
    requires 0 < ports
  {
    exists n: nat :: n < ports && Rank(Count(next, n), ports) == k
  }

  /** The counter does not wrap around during the call, or wraps without a jump. */
  predicate NoJump(next: nat, ports: nat)
    requires 0 < ports
  {
    next + ports <= WORD || WORD % ports == 0
  }

  lemma AddWord(x: nat, d: nat)
    requires 0 < d && WORD % d == 0
    ensures (x + WORD) % d == x % d
  {
    Split(x, d);
    Split(WORD, d);
    var a, b := x / d, WORD / d;
    assert (a + b) * d == a * d + b * d;
    ModUnique(x + WORD, a + b, d, x % d);
  }

  /** Without a jump the ranks go around once, whatever the counter starts at. */
  lemma RanksWithoutJump(next: nat, ports: nat, n: nat)
    requires next < WORD && 0 < ports <= WORD && NoJump(next, ports) && n < ports
    ensures Rank(Count(next, n), ports) == (next + n) % ports
  {
    if WORD <= next + n {
      ModUnique(next + n, 1, WORD, next + n - WORD);
      AddWord(next + n - WORD, ports);
    }
  }

  /** The rank a call misses when its counter jumps: t0 tries before the wrap, m left over by 2^32. */
  function Missed(next: nat, ports: nat): int
    requires 0 < ports
  {
    var t0, m := WORD - next, WORD % ports;
    if m <= t0 then ports + m - t0 - 1 else ports - 1
  }

  lemma RankWithJump(next: nat, ports: nat, n: nat)
    requires next < WORD && 0 < ports <= WORD && !NoJump(next, ports) && n < ports
    ensures Rank(Count(next, n), ports) != Missed(next, ports)
  {
    var t0, m, w := WORD - next, WORD % ports, WORD / ports;
    Split(WORD, ports);
    if t0 <= n {
      assert Count(next, n) == n - t0;
      ModUnique(n - t0, 0, ports, n - t0);
    } else if 0 <= m - t0 + n {
      ModUnique(next + n, w, ports, m - t0 + n);
    } else {
      assert 1 <= w;
      assert next + n == (w - 1) * ports + (ports + m - t0 + n);
      ModUnique(next + n, w - 1, ports, ports + m - t0 + n);
    }
  }

  lemma TriesWithoutJump(next: nat, ports: nat, k: nat)
    requires next < WORD && 0 < ports <= WORD && NoJump(next, ports) && k < ports
    ensures Tries(next, ports, k)
  {
    var n := StepTo(next, ports, k);
    RanksWithoutJump(next, ports, n);
    assert Rank(Count(next, n), ports) == k;
  }

  lemma MissesWithJump(next: nat, ports: nat)
    requires next < WORD && 0 < ports <= WORD && !NoJump(next, ports)
    ensures 0 <= Missed(next, ports) < ports && !Tries(next, ports, Missed(next, ports))
  {
    forall n: nat | n < ports ensures Rank(Count(next, n), ports) != Missed(next, ports) {
      RankWithJump(next, ports, n);
    }
  }

  /** A call tries every port of the stripe exactly when its counter does not jump. */
  lemma TriesEveryPort(next: nat, ports: nat)
    requires next < WORD && 0 < ports <= WORD
    ensures NoJump(next, ports) <==> forall k: nat | k < ports :: Tries(next, ports, k)
  {
    if NoJump(next, ports) {
      forall k: nat | k < ports ensures Tries(next, ports, k) { TriesWithoutJump(next, ports, k); }
    } else {
      MissesWithJump(next, ports);
    }
  }

  /** If it does not, a failed call means that every port of the stripe is placed, owned by
      somebody else, or claimed by this worker and in use. */
  lemma InUseMeansFull(t: Tables, id: nat, next: nat, tried: seq<nat>, answers: nat -> Answer, k: nat)
    returns (n: nat)
    requires id < t.workers <= MAX_WORKERS && next < WORD && |tried| == Stripe(t.workers, id)
    requires Candidates(t.workers, id, next, tried) && AllPassed(t, id, tried, answers)
    requires NoJump(next, Stripe(t.workers, id)) && k < Stripe(t.workers, id)
    ensures n < |tried| && tried[n] == PortAt(t.workers, id, k) && PassedOver(t, tried[n], id, answers(n))
  {
    var ports := Stripe(t.workers, id);
    StripeInRange(t.workers, id, ports - 1);
    TriesEveryPort(next, ports);
    assert Tries(next, ports, k);
    n :| n < ports && Rank(Count(next, n), ports) == k;
    assert PassedOver(t, tried[n], id, answers(n));
  }

  /** So a single worker's call can miss a port: its 28232 ports do not divide 2^32, and from the
      last value of the counter it tries rank 4903 and then 0 to 28230, but never 28231. */
  lemma AJumpExists()
    ensures Stripe(1, 0) == 28232 && !Tries(0xffff_ffff, 28232, 28231)
  {
    forall n: nat | n < 28232 ensures Rank(Count(0xffff_ffff, n), 28232) != 28231 { RankWithJump(0xffff_ffff, 28232, n); }
  }
}
