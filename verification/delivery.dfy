/**
 * What one poll delivers: records of the partitions the consumer may fetch from, each partition's
 * records contiguous from its position on and in offset order, at most `max.poll.records` of them.
 */
module Delivery {
  import opened Types
  import opened Headers
  import opened Broker

  datatype ConsumerRecord = ConsumerRecord(tp: TopicPartition, offset: Offset, timestamp: Timestamp,
                                           key: Bytes, value: Bytes, headers: seq<Header>)

  /** The record a consumer receives for the message at offset `o` of `tp`'s log. */
  function RecordAt(tp: TopicPartition, log: seq<Message>, o: nat): (r: ConsumerRecord)
    requires o < |log|
    ensures r.tp == tp && r.offset == o
    ensures r.timestamp == log[o].timestamp
    ensures r.key == log[o].key && r.value == log[o].value && r.headers == log[o].headers
  {
    var m := log[o];
    ConsumerRecord(tp, o, m.timestamp, m.key, m.value, m.headers)
  }

  /** The records of `tp` from offset `from` up to, not including, `to`. */
  function Fetched(tp: TopicPartition, log: seq<Message>, from: nat, to: nat): (r: seq<ConsumerRecord>)
    requires from <= to && (from == to || to <= |log|)
    ensures |r| == to - from
    ensures forall i :: 0 <= i < |r| ==> r[i] == RecordAt(tp, log, from + i)
  {
    seq(to - from, i requires 0 <= i < to - from => RecordAt(tp, log, from + i))
  }

  /** Consecutive fetches deliver the same records as one fetch over both ranges. */
  lemma FetchedConcat(tp: TopicPartition, log: seq<Message>, from: nat, mid: nat, to: nat)
    requires from <= mid <= to <= |log|
    ensures Fetched(tp, log, from, mid) + Fetched(tp, log, mid, to) == Fetched(tp, log, from, to)
  {
  }

  /** The records of `tp`, in the order they were delivered. */
  function OfPartition(records: seq<ConsumerRecord>, tp: TopicPartition): (r: seq<ConsumerRecord>)
    ensures forall x :: x in r ==> x in records && x.tp == tp
    ensures |r| <= |records|
    decreases |records|
  {
    if records == [] then []
    else (if records[0].tp == tp then [records[0]] else []) + OfPartition(records[1..], tp)
  }

  lemma {:induction false} OfPartitionContains(records: seq<ConsumerRecord>, x: ConsumerRecord)
    requires x in records
    ensures x in OfPartition(records, x.tp)
    decreases |records|
  {
    if records[0] != x {
      assert x in records[1..];
      OfPartitionContains(records[1..], x);
    }
  }

  lemma {:induction false} OfPartitionAll(records: seq<ConsumerRecord>, tp: TopicPartition)
    requires forall x :: x in records ==> x.tp == tp
    ensures OfPartition(records, tp) == records
    decreases |records|
  {
    if records != [] {
      assert records[0] in records;
      assert forall x :: x in records[1..] ==> x in records;
      OfPartitionAll(records[1..], tp);
      assert records == [records[0]] + records[1..];
    }
  }

  /**
   * The outcome of one poll: `before` and `after` are the positions of the assigned partitions,
   * `fetchable` the assigned partitions that are not paused. Every fetchable partition delivers the
   * records between its two positions, the others deliver nothing and keep their position, and the
   * poll stops early only when `max` records were delivered.
   */
  ghost predicate PollOutcome(records: seq<ConsumerRecord>, before: map<TopicPartition, Offset>,
                              after: map<TopicPartition, Offset>, fetchable: set<TopicPartition>,
                              logs: Logs, max: nat)
  {
    && fetchable <= before.Keys
    && after.Keys == before.Keys
    && |records| <= max
    && (forall x :: x in records ==> x.tp in fetchable)
    && (forall tp :: tp in before && tp !in fetchable ==> after[tp] == before[tp])
    && (forall tp :: tp in fetchable ==>
          && before[tp] <= after[tp]
          && (before[tp] == after[tp] || after[tp] <= |LogOf(logs, tp)|)
          && OfPartition(records, tp) == Fetched(tp, LogOf(logs, tp), before[tp], after[tp]))
    && (|records| == max || forall tp :: tp in fetchable ==> after[tp] >= |LogOf(logs, tp)|)
  }

  /** After a poll the position of a partition is one past the last offset delivered from it. */
  lemma PositionFollowsLastRecord(records: seq<ConsumerRecord>, before: map<TopicPartition, Offset>,
                                  after: map<TopicPartition, Offset>, fetchable: set<TopicPartition>,
                                  logs: Logs, max: nat, tp: TopicPartition)
    requires PollOutcome(records, before, after, fetchable, logs, max)
    requires tp in fetchable && OfPartition(records, tp) != []
    ensures var own := OfPartition(records, tp); after[tp] == own[|own| - 1].offset + 1
    ensures OfPartition(records, tp)[0].offset == before[tp]
  {
  }

  /** A partition with nothing pending, or one that may not be fetched, delivers nothing. */
  lemma {:induction false} NothingPendingNothingDelivered(records: seq<ConsumerRecord>, before: map<TopicPartition, Offset>,
                                        after: map<TopicPartition, Offset>, fetchable: set<TopicPartition>,
                                        logs: Logs, max: nat)
    requires PollOutcome(records, before, after, fetchable, logs, max)
    requires forall tp :: tp in fetchable ==> before[tp] >= |LogOf(logs, tp)|
    ensures records == []
  {
    if records != [] {
      var x := records[0];
      OfPartitionContains(records, x);
      assert false;
    }
  }

  /**
   * When only one fetchable partition has records pending, the outcome is determined: the next
   * `max` records of that partition from its position on, or all the rest of its log when fewer
   * are left; every other position stays where it was.
   */
  lemma {:induction false} OnePendingPartitionPoll(records: seq<ConsumerRecord>, before: map<TopicPartition, Offset>,
                                                   after: map<TopicPartition, Offset>, fetchable: set<TopicPartition>,
                                                   logs: Logs, max: nat, tp: TopicPartition)
    requires PollOutcome(records, before, after, fetchable, logs, max)
    requires tp in fetchable && before[tp] <= |LogOf(logs, tp)|
    requires forall other :: other in fetchable && other != tp ==> before[other] >= |LogOf(logs, other)|
    ensures var to := if before[tp] + max <= |LogOf(logs, tp)| then before[tp] + max else |LogOf(logs, tp)|;
            after == before[tp := to] && records == Fetched(tp, LogOf(logs, tp), before[tp], to)
  {
    var log := LogOf(logs, tp);
    var to := if before[tp] + max <= |log| then before[tp] + max else |log|;
    forall x | x in records
      ensures x.tp == tp
    {
      OfPartitionContains(records, x);
      OthersStay(records, before, after, fetchable, logs, max, tp, x.tp);
    }
    OfPartitionAll(records, tp);
    assert records == Fetched(tp, log, before[tp], after[tp]);
    assert after[tp] == to;
    forall other | other in before
      ensures after[other] == before[tp := to][other]
    {
      OthersStay(records, before, after, fetchable, logs, max, tp, other);
    }
  }

  /** In a poll where only `tp` has records pending, every other partition delivers nothing and keeps its position. */
  lemma OthersStay(records: seq<ConsumerRecord>, before: map<TopicPartition, Offset>,
                   after: map<TopicPartition, Offset>, fetchable: set<TopicPartition>,
                   logs: Logs, max: nat, tp: TopicPartition, other: TopicPartition)
    requires PollOutcome(records, before, after, fetchable, logs, max)
    requires forall o :: o in fetchable && o != tp ==> before[o] >= |LogOf(logs, o)|
    requires other in before
    ensures other != tp ==> after[other] == before[other] && OfPartition(records, other) == []
  {
    if other != tp && other !in fetchable {
      OfPartitionNone(records, other);
    }
  }

  /** With `max.poll.records` at 1, a poll delivers at most one record, and the position moves past it. */
  lemma SingleRecordPoll(records: seq<ConsumerRecord>, before: map<TopicPartition, Offset>,
                         after: map<TopicPartition, Offset>, fetchable: set<TopicPartition>, logs: Logs)
    requires PollOutcome(records, before, after, fetchable, logs, 1)
    ensures |records| <= 1
    ensures records != [] ==> after[records[0].tp] == records[0].offset + 1
  {
    if records != [] {
      var x := records[0];
      OfPartitionContains(records, x);
      assert |OfPartition(records, x.tp)| <= 1;
      PositionFollowsLastRecord(records, before, after, fetchable, logs, 1, x.tp);
    }
  }

  // ---------------------------------------------------------------------------------------------
  // The poll loop: partitions are visited one at a time, in any order.

  /** Where a partition's chunk ends: everything pending from `from`, but no more than `room` records. */
  function ChunkEnd(from: nat, logLength: nat, room: nat): (to: nat)
    ensures from <= to && (from == to || to <= logLength)
    ensures to - from <= room
    ensures to >= logLength || to - from == room
  {
    if from >= logLength then from
    else if logLength - from <= room then logLength
    else from + room
  }

  /** What holds after the partitions outside `todo` were visited. */
  ghost predicate PollProgress(records: seq<ConsumerRecord>, before: map<TopicPartition, Offset>,
                               after: map<TopicPartition, Offset>, fetchable: set<TopicPartition>,
                               todo: set<TopicPartition>, logs: Logs, max: nat)
  {
    && todo <= fetchable <= before.Keys
    && after.Keys == before.Keys
    && |records| <= max
    && (forall x :: x in records ==> x.tp in fetchable - todo)
    && (forall tp :: tp in before && tp !in fetchable - todo ==> after[tp] == before[tp])
    && (forall tp :: tp in fetchable - todo ==>
          && before[tp] <= after[tp]
          && (before[tp] == after[tp] || after[tp] <= |LogOf(logs, tp)|)
          && OfPartition(records, tp) == Fetched(tp, LogOf(logs, tp), before[tp], after[tp])
          && (after[tp] >= |LogOf(logs, tp)| || |records| == max))
    && (forall tp :: tp in todo ==> OfPartition(records, tp) == [])
  }

  lemma PollProgressStart(before: map<TopicPartition, Offset>, fetchable: set<TopicPartition>, logs: Logs, max: nat)
    requires fetchable <= before.Keys
    ensures PollProgress([], before, before, fetchable, fetchable, logs, max)
  {
  }

  lemma PollProgressDone(records: seq<ConsumerRecord>, before: map<TopicPartition, Offset>,
                         after: map<TopicPartition, Offset>, fetchable: set<TopicPartition>,
                         todo: set<TopicPartition>, logs: Logs, max: nat)
    requires PollProgress(records, before, after, fetchable, todo, logs, max)
    requires todo == {} || |records| == max
    ensures PollOutcome(records, before, after, fetchable, logs, max)
  {
    forall tp | tp in todo
      ensures before[tp] <= after[tp]
      ensures OfPartition(records, tp) == Fetched(tp, LogOf(logs, tp), before[tp], after[tp])
    {
      assert after[tp] == before[tp];
    }
  }

  /** Visiting partition `tp`: its chunk is appended and its position moves to the chunk's end. */
  lemma PollProgressStep(records: seq<ConsumerRecord>, before: map<TopicPartition, Offset>,
                         after: map<TopicPartition, Offset>, fetchable: set<TopicPartition>,
                         todo: set<TopicPartition>, logs: Logs, max: nat, tp: TopicPartition)
    requires PollProgress(records, before, after, fetchable, todo, logs, max)
    requires tp in todo && |records| < max
    ensures var to := ChunkEnd(after[tp], |LogOf(logs, tp)|, max - |records|);
            PollProgress(records + Fetched(tp, LogOf(logs, tp), after[tp], to), before, after[tp := to],
                         fetchable, todo - {tp}, logs, max)
  {
    var log := LogOf(logs, tp);
    var to := ChunkEnd(after[tp], |log|, max - |records|);
    var chunk := Fetched(tp, log, after[tp], to);
    DeliverChunk(records, chunk, tp);
    StepRecords(records, chunk, fetchable, todo, tp);
    StepVisited(records, chunk, before, after, fetchable, todo, logs, max, tp, to);
    var records', after', todo' := records + chunk, after[tp := to], todo - {tp};
    assert after'.Keys == before.Keys;
    assert |records'| <= max;
    assert forall t :: t in before && t !in fetchable - todo' ==> after'[t] == before[t];
    assert forall t :: t in todo' ==> OfPartition(records', t) == [];
    assert PollProgress(records', before, after', fetchable, todo', logs, max);
  }

  lemma StepRecords(records: seq<ConsumerRecord>, chunk: seq<ConsumerRecord>, fetchable: set<TopicPartition>,
                    todo: set<TopicPartition>, tp: TopicPartition)
    requires tp in todo && todo <= fetchable
    requires forall x :: x in records ==> x.tp in fetchable - todo
    requires forall x :: x in chunk ==> x.tp == tp
    ensures forall x :: x in records + chunk ==> x.tp in fetchable - (todo - {tp})
  {
  }

  lemma StepVisited(records: seq<ConsumerRecord>, chunk: seq<ConsumerRecord>, before: map<TopicPartition, Offset>,
                    after: map<TopicPartition, Offset>, fetchable: set<TopicPartition>,
                    todo: set<TopicPartition>, logs: Logs, max: nat, tp: TopicPartition, to: nat)
    requires PollProgress(records, before, after, fetchable, todo, logs, max)
    requires tp in todo && |records| < max
    requires to == ChunkEnd(after[tp], |LogOf(logs, tp)|, max - |records|)
    requires chunk == Fetched(tp, LogOf(logs, tp), after[tp], to)
    requires OfPartition(records + chunk, tp) == OfPartition(records, tp) + chunk
    requires forall other :: other != tp ==> OfPartition(records + chunk, other) == OfPartition(records, other)
    ensures forall t :: t in fetchable - (todo - {tp}) ==>
          && before[t] <= after[tp := to][t]
          && (before[t] == after[tp := to][t] || after[tp := to][t] <= |LogOf(logs, t)|)
          && OfPartition(records + chunk, t) == Fetched(t, LogOf(logs, t), before[t], after[tp := to][t])
          && (after[tp := to][t] >= |LogOf(logs, t)| || |records + chunk| == max)
  {
    assert after[tp] == before[tp];
    assert OfPartition(records, tp) == [];
  }

  /** Appending one partition's chunk leaves every other partition's delivered records unchanged. */
  lemma DeliverChunk(records: seq<ConsumerRecord>, chunk: seq<ConsumerRecord>, tp: TopicPartition)
    requires forall x :: x in chunk ==> x.tp == tp
    ensures OfPartition(records + chunk, tp) == OfPartition(records, tp) + chunk
    ensures forall other :: other != tp ==> OfPartition(records + chunk, other) == OfPartition(records, other)
  {
    DeliverChunkOwn(records, chunk, tp);
    forall other | other != tp
      ensures OfPartition(records + chunk, other) == OfPartition(records, other)
    {
      DeliverChunkOther(records, chunk, tp, other);
    }
  }

  lemma {:induction false} DeliverChunkOwn(records: seq<ConsumerRecord>, chunk: seq<ConsumerRecord>, tp: TopicPartition)
    requires forall x :: x in chunk ==> x.tp == tp
    ensures OfPartition(records + chunk, tp) == OfPartition(records, tp) + chunk
    decreases |records|
  {
    if records == [] {
      assert records + chunk == chunk;
      OfPartitionAll(chunk, tp);
    } else {
      var head := if records[0].tp == tp then [records[0]] else [];
      assert (records + chunk)[0] == records[0];
      assert (records + chunk)[1..] == records[1..] + chunk;
      DeliverChunkOwn(records[1..], chunk, tp);
      calc {
        OfPartition(records + chunk, tp);
        head + OfPartition(records[1..] + chunk, tp);
        head + (OfPartition(records[1..], tp) + chunk);
        (head + OfPartition(records[1..], tp)) + chunk;
      }
    }
  }

  lemma {:induction false} DeliverChunkOther(records: seq<ConsumerRecord>, chunk: seq<ConsumerRecord>,
                                            tp: TopicPartition, other: TopicPartition)
    requires forall x :: x in chunk ==> x.tp == tp
    requires other != tp
    ensures OfPartition(records + chunk, other) == OfPartition(records, other)
    decreases |records|
  {
    if records == [] {
      assert records + chunk == chunk;
      OfPartitionNone(chunk, other);
    } else {
      assert (records + chunk)[0] == records[0];
      assert (records + chunk)[1..] == records[1..] + chunk;
      DeliverChunkOther(records[1..], chunk, tp, other);
    }
  }

  lemma {:induction false} OfPartitionNone(records: seq<ConsumerRecord>, tp: TopicPartition)
    requires forall x :: x in records ==> x.tp != tp
    ensures OfPartition(records, tp) == []
    decreases |records|
  {
    if records != [] {
      assert records[0] in records;
      assert forall x :: x in records[1..] ==> x in records;
      OfPartitionNone(records[1..], tp);
    }
  }
}
