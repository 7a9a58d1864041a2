/**
 * The cluster as the consumer sees it: one append-only log of messages per topic-partition, and
 * the offsets each consumer group has committed. Producing to a partition that does not exist yet
 * creates it, as topics are created on first use.
 */
module Broker {
  import opened Types
  import opened Headers

  /** Timestamps are abstract integers (milliseconds in the library). */
  type Timestamp = int

  datatype Message = Message(timestamp: Timestamp, key: Bytes, value: Bytes, headers: seq<Header>)

  type Logs = map<TopicPartition, seq<Message>>

  /** The log of `tp`; a partition nobody produced to reads as empty. */
  function LogOf(logs: Logs, tp: TopicPartition): (log: seq<Message>)
    ensures tp !in logs ==> log == []
  {
    if tp in logs then logs[tp] else []
  }

  /**
   * The offset a timestamp lookup answers: the first message stamped at or after `ts`, or the end
   * of the log when there is none.
   */
  function EarliestAtOrAfter(log: seq<Message>, ts: Timestamp): (o: Offset)
    ensures o <= |log|
    ensures forall i :: 0 <= i < o ==> log[i].timestamp < ts
    ensures o < |log| ==> log[o].timestamp >= ts
    decreases |log|
  {
    if log == [] then 0
    else if log[0].timestamp >= ts then 0
    else
      var rest := EarliestAtOrAfter(log[1..], ts);
      assert forall i :: 1 <= i < 1 + rest ==> log[i] == log[1..][i - 1];
      1 + rest
  }

  /** In a log whose timestamps never decrease, exactly the messages from the answer on are at or after `ts`. */
  lemma {:induction false} EarliestAtOrAfterSplits(log: seq<Message>, ts: Timestamp)
    requires forall i, j :: 0 <= i <= j < |log| ==> log[i].timestamp <= log[j].timestamp
    ensures forall i :: 0 <= i < |log| ==> (log[i].timestamp >= ts <==> i >= EarliestAtOrAfter(log, ts))
  {
    var o := EarliestAtOrAfter(log, ts);
    forall i | 0 <= i < |log|
      ensures log[i].timestamp >= ts <==> i >= o
    {
      if i >= o {
        assert log[o].timestamp <= log[i].timestamp;
      }
    }
  }

  /**
   * `offsetsForTime(tps, ts)`: partitions that do not exist are left out of the answer; when every
   * requested partition is unknown, the request fails with unknown-partition.
   */
  function OffsetsForTime(logs: Logs, tps: set<TopicPartition>, ts: Timestamp): (r: Result<TopicPartitionOffsets>)
    ensures r.Err? <==> tps != {} && forall tp :: tp in tps ==> tp !in logs
    ensures r.Err? ==> r.error == ErrUnknownPartition
    ensures r.Ok? ==> forall tp :: tp in r.value <==> tp in tps && tp in logs
    ensures r.Ok? ==> forall tp :: tp in r.value ==> r.value[tp] == EarliestAtOrAfter(logs[tp], ts)
  {
    var known := set tp | tp in tps && tp in logs;
    assert forall tp :: tp in tps && tp in logs ==> tp in known;
    if tps != {} && known == {} then Err(ErrUnknownPartition)
    else Ok(map tp | tp in known :: EarliestAtOrAfter(logs[tp], ts))
  }

  /** Dropping unknown partitions from a request does not change the answer for the known ones. */
  lemma UnknownPartitionsDropped(logs: Logs, tps: set<TopicPartition>, extra: set<TopicPartition>, ts: Timestamp)
    requires tps != {} && exists tp :: tp in tps && tp in logs
    requires forall tp :: tp in extra ==> tp !in logs
    ensures OffsetsForTime(logs, tps + extra, ts) == OffsetsForTime(logs, tps, ts)
  {
    var a := OffsetsForTime(logs, tps + extra, ts);
    var b := OffsetsForTime(logs, tps, ts);
    assert a.Ok? && b.Ok?;
    assert a.value.Keys == b.value.Keys;
  }

  /** A request of known partitions only is answered, for each of them, with its timestamp lookup. */
  lemma KnownPartitionsAnswered(logs: Logs, tps: set<TopicPartition>, ts: Timestamp, expected: TopicPartitionOffsets)
    requires forall tp :: tp in tps ==> tp in logs
    requires expected.Keys == tps && forall tp :: tp in expected ==> expected[tp] == EarliestAtOrAfter(logs[tp], ts)
    ensures OffsetsForTime(logs, tps, ts) == Ok(expected)
  {
    var r := OffsetsForTime(logs, tps, ts);
    if tps != {} {
      var tp :| tp in tps;
      assert tp in logs;
    }
    assert r.Ok?;
    assert r.value.Keys == expected.Keys;
    assert forall tp :: tp in expected ==> r.value[tp] == expected[tp];
    assert r.value == expected;
  }

  class Cluster {
    var logs: Logs
    /** Committed offsets per consumer group. */
    var committed: map<string, TopicPartitionOffsets>

    constructor ()
      ensures logs == map[] && committed == map[]
    {
      logs := map[];
      committed := map[];
    }

    function Log(tp: TopicPartition): seq<Message>
      reads this
    {
      LogOf(logs, tp)
    }

    /** What `group` has committed so far (nothing for a new group). */
    function Committed(group: string): TopicPartitionOffsets
      reads this
    {
      if group in committed then committed[group] else map[]
    }

    /** Appends `msg` to the log of `tp` and answers the offset it was stored at. */
    method Produce(tp: TopicPartition, msg: Message) returns (offset: Offset)
      modifies this
      ensures offset == |old(Log(tp))|
      ensures logs == old(logs)[tp := old(Log(tp)) + [msg]]
      ensures committed == old(committed)
    {
      offset := |Log(tp)|;
      logs := logs[tp := Log(tp) + [msg]];
    }

    /** Stores `offsets` for `group`, replacing earlier commits of the same partitions only. */
    method Commit(group: string, offsets: TopicPartitionOffsets)
      modifies this
      ensures committed == old(committed)[group := old(Committed(group)) + offsets]
      ensures logs == old(logs)
    {
      committed := committed[group := Committed(group) + offsets];
    }
  }
}
