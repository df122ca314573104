/** The readiness policy of one synchronised set of input streams, and the input
    sets it hands out while producers keep adding to the streams. */
module SyncSets {
  import opened Results
  import opened Timestamps
  import opened InputStreams

  datatype NodeReadiness = NotReady | ReadyForProcess | ReadyForClose

  datatype Decision = Decision(readiness: NodeReadiness, minStreamTimestamp: Timestamp, lastProcessed: Timestamp)

  /** The least bound of the empty streams among the first `n` sampled. */
  function MinBound(samples: seq<Sample>, n: nat): Timestamp
    requires n <= |samples|
  {
    if n == 0 then DONE
    else if samples[n - 1].empty then Min(MinBound(samples, n - 1), samples[n - 1].timestamp)
    else MinBound(samples, n - 1)
  }

  /** The least packet timestamp of the non-empty streams among the first `n` sampled. */
  function MinPacket(samples: seq<Sample>, n: nat): Timestamp
    requires n <= |samples|
  {
    if n == 0 then DONE
    else if samples[n - 1].empty then MinPacket(samples, n - 1)
    else Min(MinPacket(samples, n - 1), samples[n - 1].timestamp)
  }

  function Decide(minBound: Timestamp, minPacket: Timestamp, processTimestamps: bool, last: Timestamp): Decision {
    var least := Min(minPacket, minBound);
    if least >= ONE_OVER_POST_STREAM then
      Decision(ReadyForClose, DONE, PreviousAllowedInStream(DONE))
    else if !processTimestamps then
      if minBound > minPacket then Decision(ReadyForProcess, least, least)
      else Decision(NotReady, least, last)
    else
      var settled := if minPacket == POST_STREAM && minBound > minPacket then minPacket
                     else PreviousAllowedInStream(minBound);
      var input := Min(minPacket, settled);
      if input > Max(last, UNSTARTED) then Decision(ReadyForProcess, input, input)
      else Decision(NotReady, least, last)
  }

  function DecisionOf(samples: seq<Sample>, processTimestamps: bool, last: Timestamp): Decision {
    Decide(MinBound(samples, |samples|), MinPacket(samples, |samples|), processTimestamps, last)
  }

  class SyncSet {
    const processTimestamps: bool
    var lastProcessed: Timestamp

    constructor (processTimestamps: bool)
      ensures this.processTimestamps == processTimestamps && lastProcessed == UNSET
    {
      this.processTimestamps := processTimestamps;
      lastProcessed := UNSET;
    }

    /** `samples[i]` is what MinTimestampOrBound returned when the loop visited
        stream i; the streams are not locked together. */
    method GetReadiness(samples: seq<Sample>) returns (readiness: NodeReadiness, minStreamTimestamp: Timestamp)
      modifies this
      ensures Decision(readiness, minStreamTimestamp, lastProcessed) ==
              DecisionOf(samples, processTimestamps, old(lastProcessed))
    {
      var minBound, minPacket := DONE, DONE;
      for i := 0 to |samples|
        invariant minBound == MinBound(samples, i) && minPacket == MinPacket(samples, i)
      {
        if samples[i].empty {
          minBound := Min(minBound, samples[i].timestamp);
        } else {
          minPacket := Min(minPacket, samples[i].timestamp);
        }
      }
      minStreamTimestamp := Min(minPacket, minBound);
      if minStreamTimestamp >= ONE_OVER_POST_STREAM {
        minStreamTimestamp := DONE;
        lastProcessed := PreviousAllowedInStream(DONE);
        return ReadyForClose, minStreamTimestamp;
      }
      if !processTimestamps {
        if minBound > minPacket {
          lastProcessed := minStreamTimestamp;
          return ReadyForProcess, minStreamTimestamp;
        }
      } else {
        var settled := if minPacket == POST_STREAM && minBound > minPacket then minPacket
                       else PreviousAllowedInStream(minBound);
        var input := Min(minPacket, settled);
        if input > Max(lastProcessed, UNSTARTED) {
          lastProcessed := input;
          return ReadyForProcess, input;
        }
      }
      return NotReady, minStreamTimestamp;
    }

    /** Pops every stream at `t`. The source CHECKs that nothing is dropped. */
    method FillInputSet(t: Timestamp, streams: seq<InputStreamManager>) returns (slots: seq<Slot>)
      requires IsAllowedInStream(t)
      requires forall i, j :: 0 <= i < j < |streams| ==> streams[i] != streams[j]
      requires forall i :: 0 <= i < |streams| ==> streams[i].lastSelectTimestamp <= t
      requires forall i :: 0 <= i < |streams| ==> Popped(streams[i].State(), t).1 == 0
      modifies streams
      ensures |slots| == |streams|
      ensures forall i :: 0 <= i < |streams| ==>
        streams[i].State() == Popping(old(streams[i].State()), t) && slots[i] == Popped(old(streams[i].State()), t).0
    {
      slots := [];
      for i := 0 to |streams|
        invariant |slots| == i
        invariant forall j :: 0 <= j < i ==>
          streams[j].State() == Popping(old(streams[j].State()), t) && slots[j] == Popped(old(streams[j].State()), t).0
        invariant forall j :: i <= j < |streams| ==> streams[j].State() == old(streams[j].State())
      {
        var slot, dropped, streamIsDone, becameNonFull := streams[i].PopPacketAtTimestamp(t);
        assert dropped == 0;
        slots := slots + [slot];
      }
    }
  }

  // ----- What a decision means -----

  lemma {:induction false} MinimaAreLeast(samples: seq<Sample>, n: nat, i: nat)
    requires i < n <= |samples|
    ensures if samples[i].empty then MinBound(samples, n) <= samples[i].timestamp
            else MinPacket(samples, n) <= samples[i].timestamp
  {
    if i < n - 1 {
      MinimaAreLeast(samples, n - 1, i);
    }
  }

  lemma {:induction false} MinimaAreReached(samples: seq<Sample>, n: nat)
    requires n <= |samples|
    ensures MinBound(samples, n) < DONE ==>
            exists i :: 0 <= i < n && samples[i].empty && samples[i].timestamp == MinBound(samples, n)
    ensures MinPacket(samples, n) < DONE ==>
            exists i :: 0 <= i < n && !samples[i].empty && samples[i].timestamp == MinPacket(samples, n)
  {
    if n > 0 {
      MinimaAreReached(samples, n - 1);
    }
  }

  /** Every stream is settled at `t`: no packet before `t` waits, and no packet at
      or before `t` can still arrive on an empty stream. */
  predicate SampleSettledAt(sample: Sample, t: Timestamp) {
    if sample.empty then sample.timestamp > t else sample.timestamp >= t
  }

  /** In packet-driven mode the node is ready exactly at the least waiting packet,
      if every stream is settled there; it closes exactly when every stream ended. */
  lemma PacketDrivenDecisionIsExact(samples: seq<Sample>, last: Timestamp, t: Timestamp)
    ensures var d := DecisionOf(samples, false, last);
            (d.readiness == ReadyForProcess && d.minStreamTimestamp == t) <==>
            && t < ONE_OVER_POST_STREAM
            && (exists i :: 0 <= i < |samples| && !samples[i].empty && samples[i].timestamp == t)
            && (forall i :: 0 <= i < |samples| ==> SampleSettledAt(samples[i], t))
    ensures DecisionOf(samples, false, last).readiness == ReadyForClose <==>
            forall i :: 0 <= i < |samples| ==> samples[i].timestamp >= ONE_OVER_POST_STREAM
  {
    var n := |samples|;
    MinimaAreReached(samples, n);
    forall i | 0 <= i < n
      ensures if samples[i].empty then MinBound(samples, n) <= samples[i].timestamp
              else MinPacket(samples, n) <= samples[i].timestamp
    {
      MinimaAreLeast(samples, n, i);
    }
  }

  /** In either mode, ready at `t` means settled at `t` on every stream, at an
      allowed timestamp after the last processed one. */
  lemma ReadyMeansSettled(samples: seq<Sample>, processTimestamps: bool, last: Timestamp, cut: Timestamp)
    requires forall i :: 0 <= i < |samples| ==> PRE_STREAM <= samples[i].timestamp && cut < samples[i].timestamp
    requires cut == Max(last, UNSTARTED)
    ensures var d := DecisionOf(samples, processTimestamps, last);
            d.readiness == ReadyForProcess ==>
            && IsAllowedInStream(d.minStreamTimestamp) && cut < d.minStreamTimestamp == d.lastProcessed
            && (forall i :: 0 <= i < |samples| ==> SampleSettledAt(samples[i], d.minStreamTimestamp))
  {
    var n := |samples|;
    MinimaAreReached(samples, n);
    forall i | 0 <= i < n
      ensures if samples[i].empty then MinBound(samples, n) <= samples[i].timestamp
              else MinPacket(samples, n) <= samples[i].timestamp
    {
      MinimaAreLeast(samples, n, i);
    }
  }

  /** What a decision remembers, and what it reports: the timestamp to process; or that all
      is over; or, changing nothing, the least that the streams may still show. */
  lemma DecisionIsRemembered(samples: seq<Sample>, processTimestamps: bool, last: Timestamp)
    ensures var d := DecisionOf(samples, processTimestamps, last);
            match d.readiness
            case ReadyForProcess => d.lastProcessed == d.minStreamTimestamp
            case ReadyForClose => d.lastProcessed == MAX && d.minStreamTimestamp == DONE
            case NotReady =>
              && d.lastProcessed == last
              && (forall i :: 0 <= i < |samples| ==> d.minStreamTimestamp <= samples[i].timestamp)
              && (exists i :: 0 <= i < |samples| && samples[i].timestamp == d.minStreamTimestamp)
  {
    var n := |samples|;
    MinimaAreReached(samples, n);
    forall i | 0 <= i < n
      ensures Min(MinBound(samples, n), MinPacket(samples, n)) <= samples[i].timestamp
    {
      MinimaAreLeast(samples, n, i);
    }
  }

  ghost predicate AllSettledAt(samples: seq<Sample>, t: Timestamp) {
    IsAllowedInStream(t) && forall i :: 0 <= i < |samples| ==> SampleSettledAt(samples[i], t)
  }

  /** With timestamp bounds processed, the node is ready at the latest timestamp
      where every stream is settled, if that is new; but never while the least
      bound is Min or PostStream, whose previous timestamp is reported as Unstarted. */
  lemma BoundDrivenDecisionIsExact(samples: seq<Sample>, last: Timestamp, t: Timestamp)
    requires exists i :: 0 <= i < |samples| && samples[i].timestamp < ONE_OVER_POST_STREAM
    requires forall i :: 0 <= i < |samples| ==> PRE_STREAM <= samples[i].timestamp && (!samples[i].empty ==>
      samples[i].timestamp <= POST_STREAM)
    ensures var d := DecisionOf(samples, true, last);
            d.readiness == ReadyForProcess && d.minStreamTimestamp == t <==>
            && MinBound(samples, |samples|) !in {MIN, POST_STREAM}
            && t > Max(last, UNSTARTED)
            && AllSettledAt(samples, t)
            && !(t < INT64_MAX && AllSettledAt(samples, t + 1))
  {
    var n := |samples|;
    MinimaAreReached(samples, n);
    forall i | 0 <= i < n
      ensures if samples[i].empty then MinBound(samples, n) <= samples[i].timestamp
              else MinPacket(samples, n) <= samples[i].timestamp
    {
      MinimaAreLeast(samples, n, i);
    }
    forall u: Timestamp
      ensures AllSettledAt(samples, u) <==>
              IsAllowedInStream(u) && u <= MinPacket(samples, n) && u < MinBound(samples, n)
    {
    }
  }

  /** A waiting packet at 5 is settled, yet not processed, while the other stream's
      bound is PostStream. */
  lemma BoundDrivenReadinessLags()
    ensures var samples := [Sample(false, 5), Sample(true, POST_STREAM)];
            AllSettledAt(samples, 5) && DecisionOf(samples, true, UNSET).readiness == NotReady
  {
    var samples := [Sample(false, 5), Sample(true, POST_STREAM)];
    assert MinPacket(samples, 1) == 5 && MinBound(samples, 1) == DONE;
    assert MinPacket(samples, 2) == 5 && MinBound(samples, 2) == POST_STREAM;
  }
}
