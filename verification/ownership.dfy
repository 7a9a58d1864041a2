/**
 * Who decides which partitions a consumer reads: nobody yet, the group coordinator (after a
 * subscription to topics) or the application (after a manual assignment). The two ways of owning
 * partitions exclude each other; each is released by its own operation.
 */
module OwnershipRules {
  import opened Types

  datatype Ownership =
    | Unowned
      /** Subscribed to `topics`; `owned` is what the last rebalance handed out (empty until one). */
    | Subscribed(topics: set<Topic>, owned: set<TopicPartition>)
    | Assigned(partitions: set<TopicPartition>)

  /** `subscription()` */
  function Subscription(o: Ownership): set<Topic> {
    if o.Subscribed? then o.topics else {}
  }

  /** `assignment()` */
  function Assignment(o: Ownership): set<TopicPartition> {
    match o
    case Unowned => {}
    case Subscribed(_, owned) => owned
    case Assigned(partitions) => partitions
  }

  /** Non-empty subscriptions and assignments, and a rebalanced assignment within the subscribed topics. */
  predicate WellFormed(o: Ownership) {
    match o
    case Unowned => true
    case Subscribed(topics, owned) => topics != {} && forall tp :: tp in owned ==> tp.topic in topics
    case Assigned(partitions) => partitions != {}
  }

  /**
   * `subscribe(topics)`: refused with the generic failure while partitions are assigned manually.
   * Otherwise the subscription is replaced; partitions arrive with the next rebalance. An empty
   * subscription leaves the consumer unowned.
   */
  function Subscribe(o: Ownership, topics: set<Topic>): (r: Result<Ownership>)
    ensures r.Err? <==> o.Assigned?
    ensures r.Err? ==> r.error == ErrFail
    ensures r.Ok? ==> WellFormed(r.value) && Subscription(r.value) == topics && Assignment(r.value) == {}
  {
    if o.Assigned? then Err(ErrFail)
    else if topics == {} then Ok(Unowned)
    else Ok(Subscribed(topics, {}))
  }

  /** `unsubscribe()`: drops the subscription and its partitions; a manual assignment is kept. */
  function Unsubscribe(o: Ownership): (r: Ownership)
    ensures Subscription(r) == {}
    ensures o.Assigned? ==> r == o
    ensures !o.Assigned? ==> Assignment(r) == {}
    ensures WellFormed(o) ==> WellFormed(r)
  {
    if o.Subscribed? then Unowned else o
  }

  /**
   * `assign(partitions)`: refused with the generic failure while subscribed. Otherwise the
   * assignment is replaced; assigning nothing releases the manual assignment.
   */
  function Assign(o: Ownership, partitions: set<TopicPartition>): (r: Result<Ownership>)
    ensures r.Err? <==> o.Subscribed?
    ensures r.Err? ==> r.error == ErrFail
    ensures r.Ok? ==> WellFormed(r.value) && Assignment(r.value) == partitions && Subscription(r.value) == {}
  {
    if o.Subscribed? then Err(ErrFail)
    else if partitions == {} then Ok(Unowned)
    else Ok(Assigned(partitions))
  }

  /**
   * A rebalance of the group hands a subscribed consumer a new set of partitions; only those of
   * subscribed topics are kept.
   */
  function Rebalance(o: Ownership, partitions: set<TopicPartition>): (r: Ownership)
    requires o.Subscribed?
    ensures Subscription(r) == Subscription(o)
    ensures forall tp :: tp in Assignment(r) <==> tp in partitions && tp.topic in Subscription(o)
    ensures WellFormed(o) ==> WellFormed(r)
  {
    Subscribed(o.topics, set tp | tp in partitions && tp.topic in o.topics)
  }

  /** The application-level operations, for reasoning about sequences of them. */
  datatype Op =
    | OpSubscribe(topics: set<Topic>)
    | OpUnsubscribe
    | OpAssign(partitions: set<TopicPartition>)
    | OpRebalance(partitions: set<TopicPartition>)

  /** One operation; a refused one (or a rebalance of a consumer that is not subscribed) changes nothing. */
  function Step(o: Ownership, op: Op): (r: Ownership)
    ensures WellFormed(o) ==> WellFormed(r)
  {
    match op
    case OpSubscribe(topics) => (var res := Subscribe(o, topics); if res.Ok? then res.value else o)
    case OpUnsubscribe => Unsubscribe(o)
    case OpAssign(partitions) => (var res := Assign(o, partitions); if res.Ok? then res.value else o)
    case OpRebalance(partitions) => if o.Subscribed? then Rebalance(o, partitions) else o
  }

  function Run(o: Ownership, ops: seq<Op>): (r: Ownership)
    ensures WellFormed(o) ==> WellFormed(r)
    decreases |ops|
  {
    if ops == [] then o else Run(Step(o, ops[0]), ops[1..])
  }

  /** Neither mode is ever entered from the other directly: the consumer passes through Unowned. */
  lemma StepNeverSwitchesMode(o: Ownership, op: Op)
    ensures o.Assigned? ==> !Step(o, op).Subscribed?
    ensures o.Subscribed? ==> !Step(o, op).Assigned?
  {
  }

  /**
   * A manually assigned consumer becomes subscribed only after an assignment of nothing released
   * its partitions: a subscribe issued before that fails.
   */
  lemma {:induction false} SubscribeAfterAssignNeedsRelease(o: Ownership, ops: seq<Op>)
    requires o.Assigned?
    requires Run(o, ops).Subscribed?
    ensures exists i :: 0 <= i < |ops| && ops[i] == OpAssign({})
    decreases |ops|
  {
    if ops != [] {
      var next := Step(o, ops[0]);
      assert Run(o, ops) == Run(next, ops[1..]);
      if ops[0] == OpAssign({}) {
        assert ops[0] == OpAssign({});
      } else {
        assert next.Assigned? by {
          match ops[0]
          case OpAssign(ps) => assert ps != {};
          case _ =>
        }
        SubscribeAfterAssignNeedsRelease(next, ops[1..]);
        var i :| 0 <= i < |ops[1..]| && ops[1..][i] == OpAssign({});
        assert ops[i + 1] == OpAssign({});
      }
    }
  }

  /**
   * A subscribed consumer becomes manually assigned only after an unsubscribe or a subscription to
   * nothing released it: an assign issued before that fails.
   */
  lemma {:induction false} AssignAfterSubscribeNeedsRelease(o: Ownership, ops: seq<Op>)
    requires o.Subscribed?
    requires Run(o, ops).Assigned?
    ensures exists i :: 0 <= i < |ops| && (ops[i] == OpUnsubscribe || ops[i] == OpSubscribe({}))
    decreases |ops|
  {
    if ops != [] {
      var next := Step(o, ops[0]);
      assert Run(o, ops) == Run(next, ops[1..]);
      if ops[0] == OpUnsubscribe || ops[0] == OpSubscribe({}) {
        assert ops[0] == OpUnsubscribe || ops[0] == OpSubscribe({});
      } else {
        assert next.Subscribed? by {
          match ops[0]
          case OpSubscribe(ts) => assert ts != {};
          case _ =>
        }
        AssignAfterSubscribeNeedsRelease(next, ops[1..]);
        var i :| 0 <= i < |ops[1..]| && (ops[1..][i] == OpUnsubscribe || ops[1..][i] == OpSubscribe({}));
        assert ops[i + 1] == ops[1..][i];
      }
    }
  }
}
