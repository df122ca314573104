/** A node's scheduling thread and the producers of its input streams, interleaved
    at the granularity of the stream locks: whatever the interleaving, the node is
    handed the full outer join of its input streams. */
module InputSynchronisation {
  import opened Results
  import opened Timestamps
  import opened InputStreams
  import opened SyncSets

  /** One set of inputs: a missing packet is None, since the timestamp it carries
      depends on timing. */
  datatype InputSet = InputSet(t: Timestamp, slots: seq<Option<Packet>>)

  datatype Phase =
    | Idle
    | Reading(samples: seq<Sample>)
    | Filling(t: Timestamp, slots: seq<Option<Packet>>)
    | ReadyToClose

  datatype Node = Node(
    types: seq<PacketType>,
    streams: seq<StreamHistory>,
    processTimestamps: bool,
    phase: Phase,
    lastProcessed: Timestamp,
    handed: seq<InputSet>)

  datatype Event =
    | Produce(i: nat, op: Op)
    | BeginRead
    | ReadNext
    | DecideReadiness
    | PopNext

  /** A producer may act at any moment; the scheduling thread follows its phases. */
  predicate Possible(n: Node, e: Event) {
    match e
    case Produce(i, op) => i < |n.streams| && |n.types| == |n.streams| && IsProducerOp(op)
    case BeginRead => n.phase.Idle?
    case ReadNext => n.phase.Reading? && |n.phase.samples| < |n.streams|
    case DecideReadiness => n.phase.Reading? && |n.phase.samples| == |n.streams|
    case PopNext => n.phase.Filling? && |n.phase.slots| < |n.streams|
  }

  function AsOption(slot: Slot): Option<Packet> {
    if slot.Present? then Some(slot.packet) else None
  }

  function Next(n: Node, e: Event): Node
    requires Possible(n, e)
  {
    match e
    case Produce(i, op) => n.(streams := n.streams[i := Step(n.types[i], n.streams[i], op)])
    case BeginRead => n.(phase := Reading([]))
    case ReadNext =>
      var samples := n.phase.samples;
      n.(phase := Reading(samples + [n.streams[|samples|].s.View()]))
    case DecideReadiness =>
      var d := DecisionOf(n.phase.samples, n.processTimestamps, n.lastProcessed);
      n.(lastProcessed := d.lastProcessed,
         phase := match d.readiness
                  case NotReady => Idle
                  case ReadyForProcess => Filling(d.minStreamTimestamp, [])
                  case ReadyForClose => ReadyToClose)
    case PopNext =>
      var t, k := n.phase.t, |n.phase.slots|;
      var slots := n.phase.slots + [AsOption(Popped(n.streams[k].s, t).0)];
      var streams := n.streams[k := Step(AnyType, n.streams[k], Pop(t))];
      if |slots| < |n.streams| then n.(streams := streams, phase := Filling(t, slots))
      else n.(streams := streams, phase := Idle, handed := n.handed + [InputSet(t, slots)])
  }

  // ----- The full outer join -----

  /** The packet at `t` in a stream's history, if there is one. */
  function PacketAt(packets: seq<Packet>, t: Timestamp): Option<Packet> {
    if packets == [] then None
    else if packets[|packets| - 1].timestamp == t then Some(packets[|packets| - 1])
    else PacketAt(packets[..|packets| - 1], t)
  }

  ghost predicate Matches(histories: seq<seq<Packet>>, inputs: InputSet) {
    && |inputs.slots| == |histories|
    && (forall i :: 0 <= i < |histories| ==> inputs.slots[i] == PacketAt(histories[i], inputs.t))
  }

  ghost predicate Occurs(histories: seq<seq<Packet>>, t: Timestamp) {
    exists i :: 0 <= i < |histories| && PacketAt(histories[i], t).Some?
  }

  ghost predicate HasTime(sets: seq<InputSet>, t: Timestamp) {
    exists k :: 0 <= k < |sets| && sets[k].t == t
  }

  ghost predicate InOrder(sets: seq<InputSet>) {
    forall j, k :: 0 <= j < k < |sets| ==> sets[j].t < sets[k].t
  }

  /** One input set for exactly the timestamps at which some stream has a packet,
      in order, with each stream's packet at that timestamp. */
  ghost predicate IsJoin(histories: seq<seq<Packet>>, sets: seq<InputSet>) {
    && InOrder(sets)
    && (forall t: Timestamp :: HasTime(sets, t) <==> Occurs(histories, t))
    && (forall k :: 0 <= k < |sets| ==> Matches(histories, sets[k]))
  }

  lemma {:induction false} PacketAtFinds(packets: seq<Packet>, t: Timestamp)
    ensures match PacketAt(packets, t)
            case Some(p) => p in packets && p.timestamp == t
            case None => forall m :: 0 <= m < |packets| ==> packets[m].timestamp != t
  {
    if packets != [] {
      PacketAtFinds(packets[..|packets| - 1], t);
    }
  }

  /** On an ordered history, packets past `t` do not change the packet at `t`. */
  lemma {:induction false} PacketAtInPrefix(packets: seq<Packet>, m: nat, t: Timestamp)
    requires m <= |packets| && (forall k :: m <= k < |packets| ==> packets[k].timestamp > t)
    ensures PacketAt(packets, t) == PacketAt(packets[..m], t)
    decreases |packets|
  {
    if m < |packets| {
      PacketAtInPrefix(packets[..|packets| - 1], m, t);
      assert packets[..|packets| - 1][..m] == packets[..m];
    } else {
      assert packets[..m] == packets;
    }
  }

  ghost predicate PrefixUpTo(part: seq<Packet>, whole: seq<Packet>, cut: Timestamp) {
    && part <= whole
    && (forall m :: 0 <= m < |whole| ==> (m < |part| <==> whole[m].timestamp <= cut))
  }

  lemma PacketAtUpTo(part: seq<Packet>, whole: seq<Packet>, cut: Timestamp, t: Timestamp)
    requires PrefixUpTo(part, whole, cut)
    ensures PacketAt(part, t) == if t <= cut then PacketAt(whole, t) else None
  {
  }

  lemma {:induction false} TimesAgree(a: seq<InputSet>, b: seq<InputSet>, cut: Timestamp, k: nat)
    requires InOrder(a) && InOrder(b) && k <= |a|
    requires forall t: Timestamp :: HasTime(a, t) <==> HasTime(b, t) && t <= cut
    ensures k <= |b| && forall j :: 0 <= j < k ==> a[j].t == b[j].t
  {
    if k > 0 {
      TimesAgree(a, b, cut, k - 1);
      assert HasTime(a, a[k - 1].t);
      var l :| 0 <= l < |b| && b[l].t == a[k - 1].t;
      assert l >= k - 1;
      assert HasTime(b, b[k - 1].t);
      var l' :| 0 <= l' < |a| && a[l'].t == b[k - 1].t;
      assert l' >= k - 1;
    }
  }

  /** The join of the parts up to a cut is a prefix of the join of the wholes; with
      equal parts and wholes, the join is unique. */
  lemma JoinOfPrefixes(parts: seq<seq<Packet>>, a: seq<InputSet>, wholes: seq<seq<Packet>>, b: seq<InputSet>,
          cut: Timestamp)
    requires IsJoin(parts, a) && IsJoin(wholes, b) && |parts| == |wholes|
    requires forall i :: 0 <= i < |parts| ==> PrefixUpTo(parts[i], wholes[i], cut)
    ensures a <= b
  {
    forall i, t: Timestamp | 0 <= i < |parts|
      ensures PacketAt(parts[i], t) == if t <= cut then PacketAt(wholes[i], t) else None
    {
      PacketAtUpTo(parts[i], wholes[i], cut, t);
    }
    forall t: Timestamp ensures HasTime(a, t) <==> HasTime(b, t) && t <= cut {
      assert Occurs(parts, t) <==> Occurs(wholes, t) && t <= cut;
    }
    TimesAgree(a, b, cut, |a|);
    forall k | 0 <= k < |a| ensures a[k] == b[k] {
      assert Matches(parts, a[k]) && Matches(wholes, b[k]) && HasTime(a, a[k].t);
      assert a[k].slots == b[k].slots;
    }
  }

  /** A history without its last packet, if that packet is at `t`. */
  function Before(packets: seq<Packet>, t: Timestamp): seq<Packet> {
    if packets != [] && packets[|packets| - 1].timestamp == t then packets[..|packets| - 1] else packets
  }

  function AllBefore(histories: seq<seq<Packet>>, t: Timestamp): (r: seq<seq<Packet>>)
    ensures |r| == |histories|
    ensures forall i :: 0 <= i < |histories| ==> r[i] == Before(histories[i], t)
  {
    seq(|histories|, i requires 0 <= i < |histories| => Before(histories[i], t))
  }

  ghost predicate AllBelow(packets: seq<Packet>, t: Timestamp) {
    forall m :: 0 <= m < |packets| ==> packets[m].timestamp < t
  }

  lemma PacketAtLast(packets: seq<Packet>, t: Timestamp, u: Timestamp)
    requires AllBelow(Before(packets, t), t)
    ensures PacketAt(packets, t) == if Before(packets, t) == packets then None else Some(packets[|packets| - 1])
    ensures u != t ==> PacketAt(packets, u) == PacketAt(Before(packets, t), u)
    ensures PacketAt(Before(packets, t), t) == None
  {
    PacketAtFinds(Before(packets, t), t);
  }

  predicate HasPacket(inputs: InputSet) {
    exists i :: 0 <= i < |inputs.slots| && inputs.slots[i].Some?
  }

  /** Adding the packets at a new last timestamp adds one input set to the join,
      or none if there are no such packets. */
  lemma JoinGrows(histories: seq<seq<Packet>>, sets: seq<InputSet>, inputs: InputSet)
    requires Matches(histories, inputs)
    requires IsJoin(AllBefore(histories, inputs.t), sets)
    requires forall i :: 0 <= i < |histories| ==> AllBelow(Before(histories[i], inputs.t), inputs.t)
    requires forall k :: 0 <= k < |sets| ==> sets[k].t < inputs.t
    ensures IsJoin(histories, if HasPacket(inputs) then sets + [inputs] else sets)
  {
    var t, before := inputs.t, AllBefore(histories, inputs.t);
    var r := if HasPacket(inputs) then sets + [inputs] else sets;
    forall i, u: Timestamp | 0 <= i < |histories|
      ensures PacketAt(before[i], u) == if u == t then None else PacketAt(histories[i], u)
    {
      PacketAtLast(histories[i], t, u);
    }
    forall u: Timestamp ensures HasTime(r, u) <==> Occurs(histories, u) {
      TimesGrow(sets, inputs, u);
      assert u != t ==> (Occurs(before, u) <==> Occurs(histories, u));
      assert HasPacket(inputs) <==> Occurs(histories, t);
      assert !Occurs(before, t);
    }
    forall k | 0 <= k < |r| ensures Matches(histories, r[k]) {
      assert k < |sets| ==> r[k] == sets[k] && Matches(before, sets[k]);
    }
  }

  lemma TimesGrow(sets: seq<InputSet>, inputs: InputSet, u: Timestamp)
    ensures HasTime(sets + [inputs], u) <==> HasTime(sets, u) || u == inputs.t
  {
    if HasTime(sets, u) {
      var k :| 0 <= k < |sets| && sets[k].t == u;
      assert (sets + [inputs])[k].t == u;
    }
    assert (sets + [inputs])[|sets|].t == inputs.t;
  }

  // ----- Every ordered family of histories has a join -----

  function TotalLength(histories: seq<seq<Packet>>): nat {
    if histories == [] then 0 else |histories[|histories| - 1]| + TotalLength(histories[..|histories| - 1])
  }

  lemma {:induction false} TotalLengthDrops(long: seq<seq<Packet>>, short: seq<seq<Packet>>)
    requires |long| == |short| && forall i :: 0 <= i < |long| ==> |short[i]| <= |long[i]|
    ensures TotalLength(short) <= TotalLength(long)
    ensures TotalLength(short) == TotalLength(long) ==> forall i :: 0 <= i < |long| ==> |short[i]| == |long[i]|
    decreases |long|
  {
    if long != [] {
      TotalLengthDrops(long[..|long| - 1], short[..|short| - 1]);
      assert forall i :: 0 <= i < |long| - 1 ==>
            long[i] == long[..|long| - 1][i] && short[i] == short[..|short| - 1][i];
    }
  }

  /** The latest last timestamp of the histories, if any of them has a packet. */
  lemma {:induction false} LatestPacket(histories: seq<seq<Packet>>) returns (latest: Option<Timestamp>)
    ensures latest.None? ==> forall i :: 0 <= i < |histories| ==> histories[i] == []
    ensures latest.Some? ==> exists i :: 0 <= i < |histories| && EndsAt(histories[i], latest.value)
    ensures latest.Some? ==> forall i :: 0 <= i < |histories| && histories[i] != [] ==>
      histories[i][|histories[i]| - 1].timestamp <= latest.value
    decreases |histories|
  {
    latest := None;
    if histories != [] {
      var rest, h := histories[..|histories| - 1], histories[|histories| - 1];
      var l := LatestPacket(rest);
      assert forall i :: 0 <= i < |rest| ==> histories[i] == rest[i];
      latest := if h != [] && (l.None? || l.value < h[|h| - 1].timestamp) then Some(h[|h| - 1].timestamp) else l;
      assert h != [] ==> EndsAt(h, h[|h| - 1].timestamp);
    }
  }

  predicate EndsAt(packets: seq<Packet>, t: Timestamp) {
    packets != [] && packets[|packets| - 1].timestamp == t
  }

  lemma JoinTimesBelow(histories: seq<seq<Packet>>, sets: seq<InputSet>, t: Timestamp)
    requires IsJoin(histories, sets) && forall i :: 0 <= i < |histories| ==> AllBelow(histories[i], t)
    ensures forall k :: 0 <= k < |sets| ==> sets[k].t < t
  {
    forall k | 0 <= k < |sets| ensures sets[k].t < t {
      assert HasTime(sets, sets[k].t);
      var j :| 0 <= j < |histories| && PacketAt(histories[j], sets[k].t).Some?;
      PacketAtFinds(histories[j], sets[k].t);
    }
  }

  lemma LatestIsLast(packets: seq<Packet>, t: Timestamp)
    requires Increasing(packets) && (packets != [] ==> packets[|packets| - 1].timestamp <= t)
    ensures AllBelow(Before(packets, t), t) && Increasing(Before(packets, t))
    ensures |Before(packets, t)| <= |packets| && (EndsAt(packets, t) ==> |Before(packets, t)| < |packets|)
  {
  }

  lemma {:induction false} JoinExists(histories: seq<seq<Packet>>) returns (sets: seq<InputSet>)
    requires forall i :: 0 <= i < |histories| ==> Increasing(histories[i])
    ensures IsJoin(histories, sets)
    decreases TotalLength(histories)
  {
    var latest := LatestPacket(histories);
    if latest.None? {
      assert forall t: Timestamp :: !Occurs(histories, t) && !HasTime([], t);
      return [];
    }
    var t := latest.value;
    var before := AllBefore(histories, t);
    forall i | 0 <= i < |histories| {
      LatestIsLast(histories[i], t);
    }
    TotalLengthDrops(histories, before);
    var earlier := JoinExists(before);
    JoinTimesBelow(before, earlier, t);
    var inputs := InputSet(t, seq(|histories|, j requires 0 <= j < |histories| => PacketAt(histories[j], t)));
    JoinGrows(histories, earlier, inputs);
    sets := if HasPacket(inputs) then earlier + [inputs] else earlier;
  }

  // ----- The invariant of the interleaving -----

  function Removed(n: Node): (r: seq<seq<Packet>>)
    ensures |r| == |n.streams| && forall i :: 0 <= i < |r| ==> r[i] == n.streams[i].removed
  {
    seq(|n.streams|, i requires 0 <= i < |n.streams| => n.streams[i].removed)
  }

  function Accepted(n: Node): (r: seq<seq<Packet>>)
    ensures |r| == |n.streams| && forall i :: 0 <= i < |r| ==> r[i] == n.streams[i].accepted
  {
    seq(|n.streams|, i requires 0 <= i < |n.streams| => n.streams[i].accepted)
  }

  /** The timestamp of the last input set handed out. */
  function Cut(handed: seq<InputSet>): Timestamp {
    if handed == [] then UNSTARTED else handed[|handed| - 1].t
  }

  /** The input sets that hold at least one packet. */
  function WithPackets(sets: seq<InputSet>): seq<InputSet> {
    if sets == [] then []
    else WithPackets(sets[..|sets| - 1]) + (if HasPacket(sets[|sets| - 1]) then [sets[|sets| - 1]] else [])
  }

  /** A sample still bounds what its stream can show, however long ago it was read. */
  predicate SampleHolds(sample: Sample, s: StreamState) {
    if sample.empty then sample.timestamp <= s.MinTimestampOrBound() && sample.timestamp <= s.bound
    else s.queue != [] && s.queue[0].timestamp == sample.timestamp
  }

  predicate SettledAt(s: StreamState, t: Timestamp) {
    SampleSettledAt(s.View(), t)
  }

  ghost predicate StreamInv(phase: Phase, cut: Timestamp, i: nat, h: StreamHistory) {
    && h.Valid() && !h.s.closed
    && match phase
       case Idle => h.s.lastSelect == cut
       case Reading(samples) =>
         h.s.lastSelect == cut && (i < |samples| ==> SampleHolds(samples[i], h.s) && samples[i].timestamp > cut)
       case Filling(t, slots) =>
         if i < |slots| then h.s.lastSelect == t && slots[i] == PacketAt(h.removed, t)
           && AllBelow(Before(h.removed, t), t)
         else h.s.lastSelect == cut && SettledAt(h.s, t)
       case ReadyToClose => h.s.lastSelect == cut && h.s.queue == [] && h.s.bound >= ONE_OVER_POST_STREAM
  }

  /** In packet-driven mode, the stream whose packet made the node ready. */
  predicate BringsPacket(phase: Phase, i: nat, h: StreamHistory)
    requires phase.Filling?
  {
    if i < |phase.slots| then phase.slots[i].Some? else h.s.queue != [] && h.s.queue[0].timestamp == phase.t
  }

  /** What has been handed out completely: all that was removed, except for the
      packets of the input set being filled. */
  function Past(n: Node): seq<seq<Packet>> {
    if n.phase.Filling? then AllBefore(Removed(n), n.phase.t) else Removed(n)
  }

  ghost predicate StreamsInv(n: Node) {
    && |n.types| == |n.streams|
    && (forall i :: 0 <= i < |n.streams| ==> StreamInv(n.phase, Cut(n.handed), i, n.streams[i]))
  }

  ghost predicate HandedInv(past: seq<seq<Packet>>, handed: seq<InputSet>, processTimestamps: bool) {
    && InOrder(handed)
    && (forall k :: 0 <= k < |handed| ==> IsAllowedInStream(handed[k].t))
    && IsJoin(past, WithPackets(handed))
    && (!processTimestamps ==> forall k :: 0 <= k < |handed| ==> HasPacket(handed[k]))
  }

  ghost predicate PhaseInv(n: Node) {
    match n.phase
    case Idle => Max(n.lastProcessed, UNSTARTED) == Cut(n.handed)
    case Reading(samples) => |samples| <= |n.streams| && Max(n.lastProcessed, UNSTARTED) == Cut(n.handed)
    case Filling(t, slots) =>
      && |slots| < |n.streams| && Cut(n.handed) < t == n.lastProcessed && IsAllowedInStream(t)
      && (!n.processTimestamps ==> exists i :: 0 <= i < |n.streams| && BringsPacket(n.phase, i, n.streams[i]))
    case ReadyToClose => true
  }

  ghost predicate Inv(n: Node) {
    StreamsInv(n) && PhaseInv(n) && HandedInv(Past(n), n.handed, n.processTimestamps)
  }

  function Start(types: seq<PacketType>, sizes: seq<int>, processTimestamps: bool): Node
    requires |types| == |sizes|
  {
    Node(types,
         seq(|types|, i requires 0 <= i < |types| => StreamHistory(Prepared(sizes[i]), [], [])),
         processTimestamps, Idle, UNSET, [])
  }

  lemma StartSatisfiesInv(types: seq<PacketType>, sizes: seq<int>, processTimestamps: bool)
    requires |types| == |sizes|
    ensures Inv(Start(types, sizes, processTimestamps))
  {
  }

  lemma ProducerKeepsStreamInv(phase: Phase, cut: Timestamp, i: nat, h: StreamHistory, packetType: PacketType, op: Op)
    requires StreamInv(phase, cut, i, h) && IsProducerOp(op)
    ensures StreamInv(phase, cut, i, Step(packetType, h, op))
    ensures Step(packetType, h, op).removed == h.removed
    ensures phase.Filling? && BringsPacket(phase, i, h) ==> BringsPacket(phase, i, Step(packetType, h, op))
  {
    var r := Step(packetType, h, op);
    ProducerStep(packetType, h, op);
    StepKeepsValid(packetType, h, op);
    if phase.ReadyToClose? && op.Add? {
      EndedStreamTakesNothing(packetType, h.s, op.packets);
    }
  }

  /** Replacing one stream by what a producer made of it keeps the invariant. */
  lemma ReplacedStreamKeepsInv(n: Node, i: nat, h: StreamHistory)
    requires Inv(n) && i < |n.streams|
    requires StreamInv(n.phase, Cut(n.handed), i, h) && h.removed == n.streams[i].removed
    requires n.phase.Filling? && BringsPacket(n.phase, i, n.streams[i]) ==> BringsPacket(n.phase, i, h)
    ensures Inv(n.(streams := n.streams[i := h]))
  {
    hide StreamInv, HandedInv, BringsPacket;
    var r := n.(streams := n.streams[i := h]);
    assert Removed(r) == Removed(n);
    assert StreamsInv(r);
    if n.phase.Filling? && !n.processTimestamps {
      var j :| 0 <= j < |n.streams| && BringsPacket(n.phase, j, n.streams[j]);
      assert BringsPacket(r.phase, j, r.streams[j]);
    }
    assert PhaseInv(r);
    hide StreamsInv, PhaseInv, Removed;
  }

  lemma ProduceKeepsInv(n: Node, i: nat, op: Op)
    requires Inv(n) && Possible(n, Produce(i, op))
    ensures Inv(Next(n, Produce(i, op)))
  {
    assert StreamInv(n.phase, Cut(n.handed), i, n.streams[i]);
    ProducerKeepsStreamInv(n.phase, Cut(n.handed), i, n.streams[i], n.types[i], op);
    ReplacedStreamKeepsInv(n, i, Step(n.types[i], n.streams[i], op));
  }

  lemma ReadKeepsStreamInv(samples: seq<Sample>, sample: Sample, cut: Timestamp, i: nat, h: StreamHistory)
    requires StreamInv(Reading(samples), cut, i, h) && (i == |samples| ==> sample == h.s.View())
    ensures StreamInv(Reading(samples + [sample]), cut, i, h)
  {
  }

  lemma ReadNextKeepsInv(n: Node)
    requires Inv(n) && Possible(n, ReadNext)
    ensures Inv(Next(n, ReadNext))
  {
    hide StreamHistory.Valid, HandedInv, StreamInv;
    var r, k := Next(n, ReadNext), |n.phase.samples|;
    forall i | 0 <= i < |n.streams| ensures StreamInv(r.phase, Cut(r.handed), i, r.streams[i]) {
      ReadKeepsStreamInv(n.phase.samples, n.streams[k].s.View(), Cut(n.handed), i, n.streams[i]);
    }
    assert Removed(r) == Removed(n);
  }

  lemma DecideKeepsInv(n: Node)
    requires Inv(n) && Possible(n, DecideReadiness)
    ensures Inv(Next(n, DecideReadiness))
  {
    match DecisionOf(n.phase.samples, n.processTimestamps, n.lastProcessed).readiness
    case NotReady => NotReadyKeepsInv(n);
    case ReadyForProcess => ReadyKeepsInv(n);
    case ReadyForClose =>
      EndedSamples(n);
      hide HandedInv, StreamInv, DecisionOf;
      assert Removed(Next(n, DecideReadiness)) == Removed(n);
  }

  lemma NotReadyKeepsInv(n: Node)
    requires Inv(n) && Possible(n, DecideReadiness)
    requires DecisionOf(n.phase.samples, n.processTimestamps, n.lastProcessed).readiness == NotReady
    ensures Inv(Next(n, DecideReadiness))
  {
    hide StreamHistory.Valid, HandedInv;
    var r := Next(n, DecideReadiness);
    forall i | 0 <= i < |n.streams| ensures StreamInv(Idle, Cut(n.handed), i, n.streams[i]) {
      assert StreamInv(n.phase, Cut(n.handed), i, n.streams[i]);
    }
    assert r.lastProcessed == n.lastProcessed && r.phase == Idle && r.streams == n.streams && r.handed == n.handed;
    hide StreamInv, DecisionOf, Next;
    assert Removed(r) == Removed(n);
  }

  lemma ReadyKeepsInv(n: Node)
    requires Inv(n) && Possible(n, DecideReadiness)
    requires DecisionOf(n.phase.samples, n.processTimestamps, n.lastProcessed).readiness == ReadyForProcess
    ensures Inv(Next(n, DecideReadiness))
  {
    var r, samples, cut := Next(n, DecideReadiness), n.phase.samples, Cut(n.handed);
    forall i | 0 <= i < |samples|
      ensures PRE_STREAM <= samples[i].timestamp && cut < samples[i].timestamp
              && SampleHolds(samples[i], n.streams[i].s)
    {
      assert StreamInv(n.phase, cut, i, n.streams[i]);
    }
    ReadyMeansSettled(samples, n.processTimestamps, n.lastProcessed, cut);
    SettledSamples(n, r.phase.t);
    assert StreamsInv(r);
    NothingRemovedYet(n, r.phase.t);
    if !n.processTimestamps {
      PacketDrivenDecisionIsExact(samples, n.lastProcessed, r.phase.t);
      var i :| 0 <= i < |samples| && !samples[i].empty && samples[i].timestamp == r.phase.t;
      assert BringsPacket(r.phase, i, r.streams[i]);
    }
    assert PhaseInv(r);
  }

  lemma NothingRemovedYet(n: Node, t: Timestamp)
    requires StreamsInv(n) && n.phase.Reading? && Cut(n.handed) < t
    ensures AllBefore(Removed(n), t) == Removed(n)
  {
  }

  /** Although the streams were sampled one at a time, being settled at `t` in the
      samples is being settled at `t` now. */
  lemma SettledSamples(n: Node, t: Timestamp)
    requires n.phase.Reading? && |n.phase.samples| == |n.streams|
    requires forall i :: 0 <= i < |n.streams| ==> StreamInv(n.phase, Cut(n.handed), i, n.streams[i])
    requires forall i :: 0 <= i < |n.streams| ==> SampleSettledAt(n.phase.samples[i], t)
    ensures forall i :: 0 <= i < |n.streams| ==> StreamInv(Filling(t, []), Cut(n.handed), i, n.streams[i])
  {
  }

  lemma EndedSamples(n: Node)
    requires n.phase.Reading? && |n.phase.samples| == |n.streams|
    requires forall i :: 0 <= i < |n.streams| ==> StreamInv(n.phase, Cut(n.handed), i, n.streams[i])
    requires DecisionOf(n.phase.samples, n.processTimestamps, n.lastProcessed).readiness == ReadyForClose
    ensures forall i :: 0 <= i < |n.streams| ==> StreamInv(ReadyToClose, Cut(n.handed), i, n.streams[i])
  {
    var samples := n.phase.samples;
    forall i | 0 <= i < |n.streams| ensures n.streams[i].s.queue == [] && n.streams[i].s.bound >= ONE_OVER_POST_STREAM {
      assert StreamInv(n.phase, Cut(n.handed), i, n.streams[i]);
      MinimaAreLeast(samples, |samples|, i);
      QueueIsIncreasing(n.streams[i]);
    }
  }

  /** Advancing a queue that is settled at `t` removes the packet at `t`, if any, and no other. */
  lemma SettledReach(removed: seq<Packet>, queue: seq<Packet>, t: Timestamp)
    requires AllBelow(removed, t) && Increasing(queue) && (queue != [] ==> queue[0].timestamp >= t)
    ensures var n, found := Reached(queue, t), queue != [] && queue[0].timestamp == t;
            && n == (if found then 1 else 0)
            && Before(removed + queue[..n], t) == removed
            && PacketAt(removed + queue[..n], t) == if found then Some(queue[0]) else None
  {
    var n := Reached(queue, t);
    PacketAtFinds(removed, t);
    if n > 0 {
      assert |queue| > 1 ==> queue[0].timestamp < queue[1].timestamp;
      assert queue[..1] == [queue[0]];
    } else {
      assert removed + queue[..0] == removed;
    }
  }

  /** Popping a stream that is settled at `t` takes the packet at `t` if there is
      one, drops nothing, and leaves the bound alone. */
  lemma SettledPop(h: StreamHistory, cut: Timestamp, t: Timestamp)
    requires h.Valid() && !h.s.closed && h.s.lastSelect == cut < t && IsAllowedInStream(t) && SettledAt(h.s, t)
    ensures var r := Step(AnyType, h, Pop(t));
            && r.Valid() && !r.s.closed && r.s.lastSelect == t && r.s.bound == h.s.bound
            && Before(r.removed, t) == h.removed && AllBelow(h.removed, t)
            && AsOption(Popped(h.s, t).0) == PacketAt(r.removed, t)
            && (h.s.queue != [] && h.s.queue[0].timestamp == t ==> PacketAt(r.removed, t).Some?)
    ensures Enabled(h.s, Pop(t)) && Popped(h.s, t).1 == 0
  {
    hide *;
    StepKeepsValidIfEnabled(h, t);
    SettledIsAhead(h, t);
    SettledReach(h.removed, h.s.queue, t);
    StepPops(h, t);
    PoppedSettled(h.s, t);
  }

  lemma StepKeepsValidIfEnabled(h: StreamHistory, t: Timestamp)
    requires h.Valid() && h.s.lastSelect < t && IsAllowedInStream(t)
    ensures Step(AnyType, h, Pop(t)).Valid()
  {
    StepKeepsValid(AnyType, h, Pop(t));
  }

  lemma StepPops(h: StreamHistory, t: Timestamp)
    ensures var r := Step(AnyType, h, Pop(t));
            r.removed == h.removed + h.s.queue[..Reached(h.s.queue, t)] && r.s == Popping(h.s, t)
  {
  }

  lemma PoppedSettled(s: StreamState, t: Timestamp)
    requires s.bound > t && Reached(s.queue, t) == if s.queue != [] && s.queue[0].timestamp == t then 1 else 0
    ensures Popping(s, t).bound == s.bound && Popping(s, t).lastSelect == t && Popping(s, t).closed == s.closed
    ensures Popped(s, t).1 == 0
    ensures AsOption(Popped(s, t).0) == if s.queue != [] && s.queue[0].timestamp == t then Some(s.queue[0]) else None
  {
    hide Reached;
  }

  lemma SettledIsAhead(h: StreamHistory, t: Timestamp)
    requires h.Valid() && !h.s.closed && h.s.lastSelect < t && IsAllowedInStream(t) && SettledAt(h.s, t)
    ensures AllBelow(h.removed, t) && Enabled(h.s, Pop(t)) && h.s.bound > t
    ensures Increasing(h.s.queue) && (h.s.queue != [] ==> h.s.queue[0].timestamp >= t)
  {
    QueueIsIncreasing(h);
  }

  /** The state of the filling phase after one more pop, whether or not it was the last. */
  function AfterPop(n: Node): Node
    requires Possible(n, PopNext)
  {
    var k := |n.phase.slots|;
    WithSlot(n, Step(AnyType, n.streams[k], Pop(n.phase.t)), AsOption(Popped(n.streams[k].s, n.phase.t).0))
  }

  function WithSlot(n: Node, h: StreamHistory, slot: Option<Packet>): Node
    requires n.phase.Filling? && |n.phase.slots| < |n.streams|
  {
    n.(streams := n.streams[|n.phase.slots| := h], phase := Filling(n.phase.t, n.phase.slots + [slot]))
  }

  lemma WithSlotKeepsStreams(n: Node, h: StreamHistory, slot: Option<Packet>)
    requires Inv(n) && n.phase.Filling?
    requires StreamInv(WithSlot(n, h, slot).phase, Cut(n.handed), |n.phase.slots|, h)
    requires Before(h.removed, n.phase.t) == Before(n.streams[|n.phase.slots|].removed, n.phase.t)
    requires BringsPacket(n.phase, |n.phase.slots|, n.streams[|n.phase.slots|]) ==> slot.Some?
    ensures var r := WithSlot(n, h, slot);
            StreamsInv(r) && Past(r) == Past(n)
            && (!n.processTimestamps ==> exists i :: 0 <= i < |n.streams| && BringsPacket(r.phase, i, r.streams[i]))
  {
    hide StreamInv, HandedInv, BringsPacket, Before;
    var r, k := WithSlot(n, h, slot), |n.phase.slots|;
    forall i | 0 <= i < |n.streams| ensures StreamInv(r.phase, Cut(n.handed), i, r.streams[i]) {
      if i != k {
        OtherSlotKeepsStream(n.phase.t, n.phase.slots, slot, Cut(n.handed), i, n.streams[i]);
      }
    }
    assert AllBefore(Removed(r), n.phase.t) == AllBefore(Removed(n), n.phase.t);
    if !n.processTimestamps {
      var i :| 0 <= i < |n.streams| && BringsPacket(n.phase, i, n.streams[i]);
      SlotBringsPacket(n.phase.t, n.phase.slots, slot, i, n.streams[i], r.streams[i]);
    }
  }

  lemma OtherSlotKeepsStream(t: Timestamp, slots: seq<Option<Packet>>, slot: Option<Packet>, cut: Timestamp, i: nat,
                             h: StreamHistory)
    requires StreamInv(Filling(t, slots), cut, i, h) && i != |slots|
    ensures StreamInv(Filling(t, slots + [slot]), cut, i, h)
  {
    hide StreamHistory.Valid, SettledAt, AllBelow, PacketAt, Before;
  }

  lemma SlotBringsPacket(t: Timestamp, slots: seq<Option<Packet>>, slot: Option<Packet>, i: nat, h: StreamHistory,
                         r: StreamHistory)
    requires BringsPacket(Filling(t, slots), i, h)
    requires if i == |slots| then slot.Some? else h == r
    ensures BringsPacket(Filling(t, slots + [slot]), i, r)
  {
  }

  lemma AfterPopKeepsStreams(n: Node)
    requires Inv(n) && Possible(n, PopNext)
    ensures StreamsInv(AfterPop(n)) && Past(AfterPop(n)) == Past(n)
    ensures !n.processTimestamps ==>
            exists i :: 0 <= i < |n.streams| && BringsPacket(AfterPop(n).phase, i, AfterPop(n).streams[i])
  {
    hide StreamHistory.Valid, HandedInv;
    var t, k := n.phase.t, |n.phase.slots|;
    var h := n.streams[k];
    assert StreamInv(n.phase, Cut(n.handed), k, h);
    SettledPop(h, Cut(n.handed), t);
    PacketAtLast(h.removed, t, t);
    WithSlotKeepsStreams(n, Step(AnyType, h, Pop(t)), AsOption(Popped(h.s, t).0));
  }

  lemma {:induction false} WithPacketsAreHanded(sets: seq<InputSet>)
    ensures forall inputs :: inputs in WithPackets(sets) ==> inputs in sets
    ensures (forall k :: 0 <= k < |sets| ==> HasPacket(sets[k])) ==> WithPackets(sets) == sets
  {
    hide HasPacket;
    if sets != [] {
      WithPacketsAreHanded(sets[..|sets| - 1]);
      assert sets == sets[..|sets| - 1] + [sets[|sets| - 1]];
    }
  }

  lemma WithPacketsBelow(sets: seq<InputSet>, t: Timestamp)
    requires InOrder(sets) && Cut(sets) < t
    ensures forall k :: 0 <= k < |WithPackets(sets)| ==> WithPackets(sets)[k].t < t
  {
  }

  lemma WithPacketsGrows(sets: seq<InputSet>, inputs: InputSet)
    ensures WithPackets(sets + [inputs]) == if HasPacket(inputs) then WithPackets(sets) + [inputs]
                                            else WithPackets(sets)
  {
  }

  /** The join of what was removed grows by the input set handed out. */
  lemma HandedInvGrows(removed: seq<seq<Packet>>, handed: seq<InputSet>, inputs: InputSet, processTimestamps: bool)
    requires HandedInv(AllBefore(removed, inputs.t), handed, processTimestamps)
    requires Matches(removed, inputs) && Cut(handed) < inputs.t && IsAllowedInStream(inputs.t)
    requires forall i :: 0 <= i < |removed| ==> AllBelow(Before(removed[i], inputs.t), inputs.t)
    requires !processTimestamps ==> HasPacket(inputs)
    ensures HandedInv(removed, handed + [inputs], processTimestamps)
  {
    hide IsJoin, Matches, WithPackets, HasPacket, Before, AllBelow;
    assert IsJoin(removed, WithPackets(handed + [inputs])) by {
      WithPacketsBelow(handed, inputs.t);
      JoinGrows(removed, WithPackets(handed), inputs);
      WithPacketsGrows(handed, inputs);
    }
    OrderGrows(handed, inputs);
    hide InOrder;
  }

  lemma OrderGrows(sets: seq<InputSet>, inputs: InputSet)
    requires InOrder(sets) && Cut(sets) < inputs.t
    ensures InOrder(sets + [inputs])
  {
  }

  /** Once every stream is popped, the input set is handed out. */
  lemma HandingOutKeepsInv(m: Node)
    requires StreamsInv(m) && HandedInv(Past(m), m.handed, m.processTimestamps)
    requires m.phase.Filling? && |m.phase.slots| == |m.streams|
    requires Cut(m.handed) < m.phase.t == m.lastProcessed && IsAllowedInStream(m.phase.t)
    requires !m.processTimestamps ==> exists i :: 0 <= i < |m.streams| && BringsPacket(m.phase, i, m.streams[i])
    ensures Inv(m.(phase := Idle, handed := m.handed + [InputSet(m.phase.t, m.phase.slots)]))
  {
    hide StreamHistory.Valid, HandedInv;
    var t, inputs := m.phase.t, InputSet(m.phase.t, m.phase.slots);
    var r := m.(phase := Idle, handed := m.handed + [inputs]);
    forall i | 0 <= i < |m.streams|
      ensures inputs.slots[i] == PacketAt(Removed(m)[i], t) && AllBelow(Before(Removed(m)[i], t), t)
              && StreamInv(Idle, t, i, m.streams[i])
    {
      assert StreamInv(m.phase, Cut(m.handed), i, m.streams[i]);
    }
    assert Removed(r) == Removed(m);
    if !m.processTimestamps {
      var i :| 0 <= i < |m.streams| && BringsPacket(m.phase, i, m.streams[i]);
      assert inputs.slots[i].Some?;
    }
    HandedInvGrows(Removed(m), m.handed, inputs, m.processTimestamps);
  }

  lemma PopNextKeepsInv(n: Node)
    requires Inv(n) && Possible(n, PopNext)
    ensures Inv(Next(n, PopNext))
  {
    hide StreamInv, HandedInv;
    AfterPopKeepsStreams(n);
    if |n.phase.slots| + 1 == |n.streams| {
      HandingOutKeepsInv(AfterPop(n));
    }
  }

  lemma NextKeepsInv(n: Node, e: Event)
    requires Inv(n) && Possible(n, e)
    ensures Inv(Next(n, e))
  {
    match e
    case Produce(i, op) => ProduceKeepsInv(n, i, op);
    case BeginRead => BeginReadKeepsInv(n);
    case ReadNext => ReadNextKeepsInv(n);
    case DecideReadiness => DecideKeepsInv(n);
    case PopNext => PopNextKeepsInv(n);
  }

  lemma BeginReadKeepsInv(n: Node)
    requires Inv(n) && Possible(n, BeginRead)
    ensures Inv(Next(n, BeginRead))
  {
  }

  // ----- The guarantees -----

  ghost predicate Execution(n: Node, events: seq<Event>)
    decreases |events|
  {
    events == [] || (Possible(n, events[0]) && Execution(Next(n, events[0]), events[1..]))
  }

  ghost function End(n: Node, events: seq<Event>): Node
    requires Execution(n, events)
    decreases |events|
  {
    if events == [] then n else End(Next(n, events[0]), events[1..])
  }

  lemma {:induction false} ExecutionKeepsInv(n: Node, events: seq<Event>)
    requires Inv(n) && Execution(n, events)
    ensures Inv(End(n, events)) && |End(n, events).streams| == |n.streams|
            && End(n, events).processTimestamps == n.processTimestamps
    decreases |events|
  {
    if events != [] {
      NextKeepsInv(n, events[0]);
      assert |Next(n, events[0]).streams| == |n.streams| && Next(n, events[0]).processTimestamps == n.processTimestamps;
      hide Inv, Next, Possible;
      ExecutionKeepsInv(Next(n, events[0]), events[1..]);
    }
  }

  /** Whenever an input set is being filled, although the streams were read one by
      one while producers went on, the next pop drops nothing and no CHECK fails. */
  lemma FillNeverDrops(n: Node)
    requires Inv(n) && Possible(n, PopNext)
    ensures var h := n.streams[|n.phase.slots|];
            SettledAt(h.s, n.phase.t) && Enabled(h.s, Pop(n.phase.t)) && Popped(h.s, n.phase.t).1 == 0
  {
    var k := |n.phase.slots|;
    assert StreamInv(n.phase, Cut(n.handed), k, n.streams[k]);
    SettledPop(n.streams[k], Cut(n.handed), n.phase.t);
  }

  lemma RemovedIsUpToCut(n: Node)
    requires Inv(n) && !n.phase.Filling?
    ensures forall i :: 0 <= i < |n.streams| ==> PrefixUpTo(n.streams[i].removed, n.streams[i].accepted, Cut(n.handed))
    ensures forall i :: 0 <= i < |n.streams| ==> Increasing(n.streams[i].accepted)
  {
    hide PrefixUpTo, Increasing, HandedInv;
    forall i | 0 <= i < |n.streams|
      ensures PrefixUpTo(n.streams[i].removed, n.streams[i].accepted, Cut(n.handed))
              && Increasing(n.streams[i].accepted)
    {
      assert StreamInv(n.phase, Cut(n.handed), i, n.streams[i]);
      RemovedIsUpToSelected(n.streams[i]);
    }
  }

  lemma RemovedIsUpToSelected(h: StreamHistory)
    requires h.Valid() && !h.s.closed
    ensures PrefixUpTo(h.removed, h.accepted, h.s.lastSelect) && Increasing(h.accepted)
  {
    QueueIsIncreasing(h);
    forall m | 0 <= m < |h.accepted| ensures m < |h.removed| <==> h.accepted[m].timestamp <= h.s.lastSelect {
      assert h.accepted[m] == if m < |h.removed| then h.removed[m] else h.s.queue[m - |h.removed|];
    }
  }

  /** Between input sets, what was handed out is a prefix of the full outer join of
      all the streams ever accepted; in packet-driven mode nothing else is handed out. */
  lemma HandedIsPrefixOfJoin(n: Node, join: seq<InputSet>)
    requires Inv(n) && !n.phase.Filling? && IsJoin(Accepted(n), join)
    ensures WithPackets(n.handed) <= join
    ensures !n.processTimestamps ==> n.handed <= join
  {
    RemovedIsUpToCut(n);
    WithPacketsAreHanded(n.handed);
    JoinOfPrefixes(Removed(n), WithPackets(n.handed), Accepted(n), join, Cut(n.handed));
  }

  /** Determinism: any two executions whose streams accepted the same packets hand
      out the same input sets, up to how far each has come. */
  lemma HandedIsDeterministic(n: Node, m: Node)
    requires Inv(n) && Inv(m) && !n.phase.Filling? && !m.phase.Filling? && Accepted(n) == Accepted(m)
    ensures WithPackets(n.handed) <= WithPackets(m.handed) || WithPackets(m.handed) <= WithPackets(n.handed)
  {
    RemovedIsUpToCut(n);
    var join := JoinExists(Accepted(n));
    HandedIsPrefixOfJoin(n, join);
    HandedIsPrefixOfJoin(m, join);
  }

  /** When the node is ready to close, it has been handed the whole join, and no
      producer can add a packet any more. */
  lemma ClosingIsComplete(n: Node, i: nat, packets: seq<Packet>)
    requires Inv(n) && n.phase.ReadyToClose? && i < |n.streams|
    ensures IsJoin(Accepted(n), WithPackets(n.handed))
    ensures Step(n.types[i], n.streams[i], Add(packets)).accepted == n.streams[i].accepted
  {
    AllRemoved(n);
    assert StreamInv(n.phase, Cut(n.handed), i, n.streams[i]);
    EndedStreamTakesNothing(n.types[i], n.streams[i].s, packets);
  }

  /** Every packet handed out carries the timestamp of its input set. */
  lemma HandedPacketsFit(n: Node, k: nat, i: nat)
    requires Inv(n) && k < |n.handed| && i < |n.handed[k].slots|
    ensures n.handed[k].slots[i].Some? ==> n.handed[k].slots[i].value.timestamp == n.handed[k].t
  {
    if n.handed[k].slots[i].Some? {
      WithPacketsIncludes(n.handed, k);
      var l :| 0 <= l < |WithPackets(n.handed)| && WithPackets(n.handed)[l] == n.handed[k];
      assert Matches(Past(n), n.handed[k]);
      PacketAtFinds(Past(n)[i], n.handed[k].t);
    }
  }

  lemma {:induction false} WithPacketsIncludes(sets: seq<InputSet>, k: nat)
    requires k < |sets| && HasPacket(sets[k])
    ensures sets[k] in WithPackets(sets)
  {
    if k < |sets| - 1 {
      WithPacketsIncludes(sets[..|sets| - 1], k);
    }
  }

  /** What holds of the node at the end of every execution: input sets come in strictly
      increasing allowed timestamps and form a prefix of the join, and the whole join once
      the node is ready to close; in packet-driven mode nothing else is handed out. */
  ghost predicate Synchronised(n: Node) {
    && Inv(n) && InOrder(n.handed)
    && (forall k :: 0 <= k < |n.handed| ==> IsAllowedInStream(n.handed[k].t))
    && (!n.phase.Filling? ==> exists join :: IsJoin(Accepted(n), join) && WithPackets(n.handed) <= join)
    && (n.phase.ReadyToClose? ==> IsJoin(Accepted(n), WithPackets(n.handed)))
    && (!n.processTimestamps ==> WithPackets(n.handed) == n.handed)
  }

  lemma InvSynchronises(n: Node)
    requires Inv(n)
    ensures Synchronised(n)
  {
    hide IsJoin, HasPacket, StreamInv, PhaseInv;
    if !n.phase.Filling? {
      RemovedIsUpToCut(n);
      var join := JoinExists(Accepted(n));
      HandedIsPrefixOfJoin(n, join);
    }
    if n.phase.ReadyToClose? {
      AllRemoved(n);
    }
    WithPacketsAreHanded(n.handed);
  }

  lemma AllRemoved(n: Node)
    requires Inv(n) && n.phase.ReadyToClose?
    ensures IsJoin(Accepted(n), WithPackets(n.handed))
  {
    hide IsJoin;
    forall j | 0 <= j < |n.streams| ensures n.streams[j].removed == n.streams[j].accepted {
      assert StreamInv(n.phase, Cut(n.handed), j, n.streams[j]);
    }
    assert Removed(n) == Accepted(n);
  }

  /** The full outer join of a family of histories is unique. */
  lemma JoinIsUnique(histories: seq<seq<Packet>>, a: seq<InputSet>, b: seq<InputSet>)
    requires IsJoin(histories, a) && IsJoin(histories, b)
    ensures a == b
  {
    JoinOfPrefixes(histories, a, histories, b, DONE);
    JoinOfPrefixes(histories, b, histories, a, DONE);
  }

  /** The theorem over executions from the start of a run. Each is synchronised; and two
      whose streams accepted the same packets, whatever their interleavings and their
      maximum queue sizes, hand out the same input sets as far as each has come, and all
      the same ones once both are ready to close. */
  lemma SynchronisationIsDeterministic(types: seq<PacketType>, processTimestamps: bool,
                                       sizes: seq<int>, events: seq<Event>, otherSizes: seq<int>, others: seq<Event>)
    requires |types| == |sizes| == |otherSizes|
    requires Execution(Start(types, sizes, processTimestamps), events)
    requires Execution(Start(types, otherSizes, processTimestamps), others)
    ensures var n, m := End(Start(types, sizes, processTimestamps), events),
                        End(Start(types, otherSizes, processTimestamps), others);
            && Synchronised(n) && Synchronised(m)
            && (!n.phase.Filling? && !m.phase.Filling? && Accepted(n) == Accepted(m) ==>
                  WithPackets(n.handed) <= WithPackets(m.handed) || WithPackets(m.handed) <= WithPackets(n.handed))
            && (n.phase.ReadyToClose? && m.phase.ReadyToClose? && Accepted(n) == Accepted(m) ==>
                  WithPackets(n.handed) == WithPackets(m.handed))
  {
    hide Inv, IsJoin, WithPackets;
    StartSatisfiesInv(types, sizes, processTimestamps);
    StartSatisfiesInv(types, otherSizes, processTimestamps);
    ExecutionKeepsInv(Start(types, sizes, processTimestamps), events);
    ExecutionKeepsInv(Start(types, otherSizes, processTimestamps), others);
    var n, m :=
        End(Start(types, sizes, processTimestamps), events), End(Start(types, otherSizes, processTimestamps), others);
    InvSynchronises(n);
    InvSynchronises(m);
    if !n.phase.Filling? && !m.phase.Filling? && Accepted(n) == Accepted(m) {
      HandedIsDeterministic(n, m);
      if n.phase.ReadyToClose? && m.phase.ReadyToClose? {
        JoinIsUnique(Accepted(n), WithPackets(n.handed), WithPackets(m.handed));
      }
    }
  }
}
