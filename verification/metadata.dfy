/**
 * The broker-metadata snapshot of one topic: the nodes of the cluster and, per partition, its
 * leader, replicas and in-sync replicas. It is filled in by a builder and rendered as text; the
 * rendering tolerates partitions that mention nodes which were never added.
 */
module Metadata {
  import opened Types
  import opened Decimal

  type NodeId = int
  type Port = int

  datatype Node = Node(id: NodeId, host: string, port: Port) {
    /** `host:port/id` */
    function ToString(): string {
      host + ":" + IntToString(port) + "/" + IntToString(id)
    }
  }

  /** The text a node id renders as: the node itself when known, `-:-/id` otherwise. */
  function NodeDescription(id: NodeId, nodes: map<NodeId, Node>): string {
    if id in nodes then nodes[id].ToString() else "-:-/" + IntToString(id)
  }

  /** Every node is stored under its own id, as addNode does. */
  ghost predicate NodesKeyed(nodes: map<NodeId, Node>) {
    forall id :: id in nodes ==> nodes[id].id == id
  }

  // ---------------------------------------------------------------------------------------------
  // Ordered sets: replica sets and the partition map are iterated in ascending order.

  ghost predicate StrictlyIncreasing(s: seq<int>) {
    forall i, j :: 0 <= i < j < |s| ==> s[i] < s[j]
  }

  /**
   * Insertion into an ascending list without duplicates: the ordered container (`std::set`, the
   * keys of `std::map`) that the builders add to and the formatter iterates.
   */
  function Insert(s: seq<int>, x: int): (r: seq<int>)
    requires StrictlyIncreasing(s)
    ensures StrictlyIncreasing(r)
    ensures forall y :: y in r <==> y in s || y == x
    ensures |r| == if x in s then |s| else |s| + 1
    decreases |s|
  {
    if s == [] then [x]
    else if x < s[0] then
      assert forall y :: y in s ==> x < y;
      [x] + s
    else if x == s[0] then s
    else
      var rest := Insert(s[1..], x);
      InsertAfterHead(s, x, rest);
      [s[0]] + rest
  }

  /** The step of Insert that keeps the head: the head stays below everything inserted after it. */
  lemma InsertAfterHead(s: seq<int>, x: int, rest: seq<int>)
    requires StrictlyIncreasing(s) && s != [] && s[0] < x
    requires StrictlyIncreasing(rest)
    requires forall y :: y in rest <==> y in s[1..] || y == x
    requires |rest| == if x in s[1..] then |s| - 1 else |s|
    ensures StrictlyIncreasing([s[0]] + rest)
    ensures forall y :: y in [s[0]] + rest <==> y in s || y == x
    ensures |[s[0]] + rest| == if x in s then |s| else |s| + 1
  {
    assert s == [s[0]] + s[1..];
    assert forall y :: y in s[1..] ==> s[0] < y;
    forall j | 0 <= j < |rest|
      ensures s[0] < rest[j]
    {
      assert rest[j] in rest;
    }
    assert x in s <==> x in s[1..];
  }

  /** A set of ids has exactly one ascending listing. */
  lemma {:induction false} SortedUnique(a: seq<int>, b: seq<int>)
    requires StrictlyIncreasing(a) && StrictlyIncreasing(b)
    requires forall x :: x in a <==> x in b
    ensures a == b
    decreases |a|
  {
    assert |a| > 0 ==> a[0] in a;
    assert |b| > 0 ==> b[0] in b;
    if a != [] && b != [] {
      assert a[0] == b[0];
      forall x
        ensures x in a[1..] <==> x in b[1..]
      {
        assert x in a[1..] <==> x in a && x != a[0];
        assert x in b[1..] <==> x in b && x != b[0];
      }
      SortedUnique(a[1..], b[1..]);
      assert a == [a[0]] + a[1..];
      assert b == [b[0]] + b[1..];
    }
  }

  /** Inserting an id larger than every listed one appends it. */
  lemma {:induction false} InsertGreatest(s: seq<int>, x: int)
    requires StrictlyIncreasing(s)
    requires s == [] || s[|s| - 1] < x
    ensures Insert(s, x) == s + [x]
    decreases |s|
  {
    if s == [] {
      assert Insert(s, x) == [x];
    } else {
      var t := s[1..];
      assert t == [] || t[|t| - 1] == s[|s| - 1];
      InsertGreatest(t, x);
      InsertGreatestStep(s, x);
    }
  }

  lemma InsertGreatestStep(s: seq<int>, x: int)
    requires StrictlyIncreasing(s)
    requires s != [] && s[|s| - 1] < x
    requires Insert(s[1..], x) == s[1..] + [x]
    ensures Insert(s, x) == s + [x]
  {
    assert s[0] < x;
    assert [s[0]] + (s[1..] + [x]) == s + [x];
  }

  /** The listing after inserting `xs` one by one, as the builder loops do. */
  function InsertAll(s: seq<int>, xs: seq<int>): (r: seq<int>)
    requires StrictlyIncreasing(s)
    ensures StrictlyIncreasing(r)
    ensures forall y :: y in r <==> y in s || y in xs
    decreases |xs|
  {
    if xs == [] then s else InsertAll(Insert(s, xs[0]), xs[1..])
  }

  /** The rendered order of an ordered set depends on its elements only, not on insertion order. */
  lemma ListingIgnoresInsertionOrder(xs: seq<int>, ys: seq<int>)
    requires forall y :: y in xs <==> y in ys
    ensures InsertAll([], xs) == InsertAll([], ys)
  {
    SortedUnique(InsertAll([], xs), InsertAll([], ys));
  }

  // ---------------------------------------------------------------------------------------------
  // Rendering

  function Join(sep: string, parts: seq<string>): string
    decreases |parts|
  {
    if |parts| == 0 then ""
    else if |parts| == 1 then parts[0]
    else parts[0] + sep + Join(sep, parts[1..])
  }

  lemma JoinCons(sep: string, x: string, rest: seq<string>)
    requires rest != []
    ensures Join(sep, [x] + rest) == x + sep + Join(sep, rest)
  {
    assert ([x] + rest)[1..] == rest;
  }

  function Descriptions(ids: seq<NodeId>, nodes: map<NodeId, Node>): (r: seq<string>)
    ensures |r| == |ids|
    ensures forall i :: 0 <= i < |ids| ==> r[i] == NodeDescription(ids[i], nodes)
  {
    seq(|ids|, i requires 0 <= i < |ids| => NodeDescription(ids[i], nodes))
  }

  /** A partition's leader and its replica and in-sync-replica id lists, each kept ascending. */
  datatype PartitionState = PartitionState(leader: NodeId, replicas: seq<NodeId>, inSyncReplicas: seq<NodeId>)

  /** `<p>: leader[<node>], replicas[<nodes>], inSyncReplicas[<nodes>]`, node lists ascending by id. */
  function PartitionText(p: Partition, info: PartitionState, nodes: map<NodeId, Node>): string {
    IntToString(p) + ": leader[" + NodeDescription(info.leader, nodes)
    + "], replicas[" + Join(", ", Descriptions(info.replicas, nodes))
    + "], inSyncReplicas[" + Join(", ", Descriptions(info.inSyncReplicas, nodes)) + "]"
  }

  function PartitionTexts(ps: seq<Partition>, partitions: map<Partition, PartitionState>, nodes: map<NodeId, Node>): (r: seq<string>)
    requires forall i :: 0 <= i < |ps| ==> ps[i] in partitions
    ensures |r| == |ps|
    ensures forall i :: 0 <= i < |ps| ==> r[i] == PartitionText(ps[i], partitions[ps[i]], nodes)
  {
    seq(|ps|, i requires 0 <= i < |ps| => PartitionText(ps[i], partitions[ps[i]], nodes))
  }

  /**
   * The whole snapshot: `originatingNode[<orig>], topic[<topic>], partitions{<p>; <p>; ...}` with the
   * partitions in the order of `ids` (ascending in a BrokerMetadata). Nothing requires the ids a
   * partition mentions to have a node: those render as placeholders.
   */
  function MetadataText(orig: string, topic: Topic, nodes: map<NodeId, Node>,
                        ids: seq<Partition>, partitions: map<Partition, PartitionState>): string
    requires forall i :: 0 <= i < |ids| ==> ids[i] in partitions
  {
    "originatingNode[" + orig + "], topic[" + topic + "], partitions{"
    + Join("; ", PartitionTexts(ids, partitions, nodes)) + "}"
  }

  // ---------------------------------------------------------------------------------------------
  // Reading the lists back: the separators never occur inside a rendered element, so splitting the
  // text at them recovers the elements in order.

  /** The first `c` in `s`. */
  function FirstIndexOf(s: string, c: char): (r: Option<nat>)
    ensures r.Some? ==> r.value < |s| && s[r.value] == c && c !in s[..r.value]
    ensures r.None? ==> c !in s
    decreases |s|
  {
    if s == [] then None
    else if s[0] == c then Some(0)
    else
      var r := FirstIndexOf(s[1..], c);
      assert s == [s[0]] + s[1..];
      assert r.Some? ==> s[..r.value + 1] == [s[0]] + s[1..][..r.value];
      if r.None? then None else Some(r.value + 1)
  }

  /** Cuts `s` at every occurrence of `sep`, left to right. */
  function Split(sep: string, s: string): seq<string>
    requires sep != []
    decreases |s|
  {
    if s == [] then []
    else
      match FirstIndexOf(s, sep[0])
      case None => [s]
      case Some(k) =>
        if k + |sep| <= |s| && s[k..k + |sep|] == sep then [s[..k]] + Split(sep, s[k + |sep|..])
        else [s]
  }

  /** The first character of `sep` placed after a text free of it is found right there. */
  lemma FirstIndexOfSeparator(a: string, sep: string, t: string)
    requires sep != [] && sep[0] !in a
    ensures var s := a + sep + t;
            && FirstIndexOf(s, sep[0]) == Some(|a|)
            && s[..|a|] == a && s[|a|..|a| + |sep|] == sep && s[|a| + |sep|..] == t
  {
    var s := a + sep + t;
    var r := FirstIndexOf(s, sep[0]);
    assert s[|a|] == sep[0];
    assert forall i :: 0 <= i < |a| ==> s[i] == a[i];
    assert s[..|a|] == a && s[|a|..|a| + |sep|] == sep && s[|a| + |sep|..] == t;
  }

  /** A non-empty text free of the separator's first character is one piece. */
  lemma SplitWhole(sep: string, a: string)
    requires sep != [] && a != [] && sep[0] !in a
    ensures Split(sep, a) == [a]
  {
  }

  /** Splitting stops at the first separator when the text before it is free of the separator's first character. */
  lemma SplitAtFirst(sep: string, a: string, t: string)
    requires sep != [] && sep[0] !in a
    ensures Split(sep, a + sep + t) == [a] + Split(sep, t)
  {
    FirstIndexOfSeparator(a, sep, t);
  }

  /** Splitting a joined list gives back its parts, when none is empty or contains the separator's first character. */
  lemma {:induction false} SplitJoin(sep: string, parts: seq<string>)
    requires sep != []
    requires forall i :: 0 <= i < |parts| ==> parts[i] != [] && sep[0] !in parts[i]
    ensures Split(sep, Join(sep, parts)) == parts
    decreases |parts|
  {
    if |parts| > 1 {
      var rest := parts[1..];
      assert parts == [parts[0]] + rest;
      JoinCons(sep, parts[0], rest);
      SplitAtFirst(sep, parts[0], Join(sep, rest));
      SplitJoin(sep, rest);
    } else if |parts| == 1 {
      SplitWhole(sep, parts[0]);
    }
  }

  lemma {:induction false} JoinHasNo(sep: string, parts: seq<string>, c: char)
    requires c !in sep && forall i :: 0 <= i < |parts| ==> c !in parts[i]
    ensures c !in Join(sep, parts)
    decreases |parts|
  {
    if |parts| > 1 {
      JoinHasNo(sep, parts[1..], c);
    }
  }

  /** A node description never contains a list separator that no host contains. */
  lemma DescriptionHasNo(id: NodeId, nodes: map<NodeId, Node>, c: char)
    requires c == ',' || c == ';'
    requires forall n :: n in nodes ==> c !in nodes[n].host
    ensures c !in NodeDescription(id, nodes) && NodeDescription(id, nodes) != []
  {
    IntToStringHasNo(id, c);
    if id in nodes {
      IntToStringHasNo(nodes[id].port, c);
    }
  }

  /** The node a parsed description names. */
  function DescribedId(d: Described): NodeId {
    match d
    case Known(n) => n.id
    case Missing(id) => id
  }

  /**
   * A rendered node list (`replicas[...]`, `inSyncReplicas[...]`) splits back at ", " into one
   * description per id, in order, each parsing back to that id's node or to the id alone: the
   * text determines the ascending id list, provided no host contains a comma.
   */
  lemma NodeListRoundTrip(ids: seq<NodeId>, nodes: map<NodeId, Node>)
    requires NodesKeyed(nodes)
    requires forall n :: n in nodes ==> ',' !in nodes[n].host
    ensures var pieces := Split(", ", Join(", ", Descriptions(ids, nodes)));
            && |pieces| == |ids|
            && forall i :: 0 <= i < |ids| ==>
                 && ParseDescription(pieces[i]) == Some(if ids[i] in nodes then Known(nodes[ids[i]]) else Missing(ids[i]))
                 && DescribedId(ParseDescription(pieces[i]).value) == ids[i]
  {
    var d := Descriptions(ids, nodes);
    forall i | 0 <= i < |d|
      ensures d[i] != [] && ", "[0] !in d[i]
    {
      DescriptionHasNo(ids[i], nodes, ',');
    }
    SplitJoin(", ", d);
    forall i | 0 <= i < |ids|
      ensures ParseDescription(d[i]) == Some(if ids[i] in nodes then Known(nodes[ids[i]]) else Missing(ids[i]))
    {
      DescriptionRoundTrip(ids[i], nodes);
    }
  }

  lemma NodeListHasNo(ids: seq<NodeId>, nodes: map<NodeId, Node>, c: char)
    requires c == ';'
    requires forall n :: n in nodes ==> c !in nodes[n].host
    ensures c !in Join(", ", Descriptions(ids, nodes))
  {
    var d := Descriptions(ids, nodes);
    forall i | 0 <= i < |d|
      ensures c !in d[i]
    {
      DescriptionHasNo(ids[i], nodes, c);
    }
    JoinHasNo(", ", d, c);
  }

  lemma PartitionTextHasNoSemicolon(p: Partition, info: PartitionState, nodes: map<NodeId, Node>)
    requires forall n :: n in nodes ==> ';' !in nodes[n].host
    ensures ';' !in PartitionText(p, info, nodes) && PartitionText(p, info, nodes) != []
  {
    IntToStringHasNo(p, ';');
    DescriptionHasNo(info.leader, nodes, ';');
    NodeListHasNo(info.replicas, nodes, ';');
    NodeListHasNo(info.inSyncReplicas, nodes, ';');
    LabelsHaveNoSemicolon();
  }

  lemma LabelsHaveNoSemicolon()
    ensures ';' !in ": leader[" && ';' !in "], replicas[" && ';' !in "], inSyncReplicas[" && ';' !in "]"
  {
  }

  /**
   * The partition section of the snapshot text (`partitions{...}`) splits back at "; " into one
   * line per partition, in the order of the partition ids, provided no host contains a semicolon.
   */
  lemma MetadataTextPartitions(orig: string, topic: Topic, nodes: map<NodeId, Node>,
                               ids: seq<Partition>, partitions: map<Partition, PartitionState>)
    requires forall i :: 0 <= i < |ids| ==> ids[i] in partitions
    requires forall n :: n in nodes ==> ';' !in nodes[n].host
    ensures var head := "originatingNode[" + orig + "], topic[" + topic + "], partitions{";
            var text := MetadataText(orig, topic, nodes, ids, partitions);
            && |head| < |text| && text[..|head|] == head && text[|text| - 1] == '}'
            && Split("; ", text[|head|..|text| - 1]) == PartitionTexts(ids, partitions, nodes)
  {
    var head := "originatingNode[" + orig + "], topic[" + topic + "], partitions{";
    var lines := PartitionTexts(ids, partitions, nodes);
    forall i | 0 <= i < |lines|
      ensures lines[i] != [] && "; "[0] !in lines[i]
    {
      PartitionTextHasNoSemicolon(ids[i], partitions[ids[i]], nodes);
    }
    SplitJoin("; ", lines);
    var body := Join("; ", lines);
    var text := MetadataText(orig, topic, nodes, ids, partitions);
    assert text == head + body + "}";
    assert text[|head|..|text| - 1] == body;
  }

  // ---------------------------------------------------------------------------------------------
  // Reading a node description back: every description names its node id, and a known node
  // renders all of its fields, so the text can be parsed back to exactly what was stored.

  datatype Described = Known(node: Node) | Missing(id: NodeId)

  function LastIndexOf(s: string, c: char): (r: Option<nat>)
    ensures r.Some? ==> r.value < |s| && s[r.value] == c && c !in s[r.value + 1..]
    ensures r.None? ==> c !in s
    decreases |s|
  {
    if s == [] then None
    else if s[|s| - 1] == c then Some(|s| - 1)
    else
      var r := LastIndexOf(s[..|s| - 1], c);
      assert r.Some? ==> s[r.value + 1..] == s[..|s| - 1][r.value + 1..] + [s[|s| - 1]];
      assert s == s[..|s| - 1] + [s[|s| - 1]];
      r
  }

  function ParseDescription(s: string): Option<Described> {
    match LastIndexOf(s, '/')
    case None => None
    case Some(k) =>
      match ParseInt(s[k + 1..])
      case None => None
      case Some(id) => ParseAddress(s[..k], id)
  }

  /** The part before `/id`: the placeholder `-:-`, or `host:port`. */
  function ParseAddress(addr: string, id: NodeId): Option<Described> {
    if addr == "-:-" then Some(Missing(id))
    else
      match LastIndexOf(addr, ':')
      case None => None
      case Some(j) =>
        match ParseInt(addr[j + 1..])
        case None => None
        case Some(port) => Some(Known(Node(id, addr[..j], port)))
  }

  /** Splitting at the last `c` finds the separator placed before a `c`-free tail. */
  lemma LastIndexOfSeparator(s: string, c: char, t: string)
    requires c !in t
    ensures LastIndexOf(s + [c] + t, c) == Some(|s|)
    ensures (s + [c] + t)[..|s|] == s && (s + [c] + t)[|s| + 1..] == t
  {
    var u := s + [c] + t;
    assert u[|s|] == c;
    assert u[|s| + 1..] == t;
    assert u[..|s|] == s;
  }

  lemma IntToStringEndsWithDigit(i: int)
    ensures IsDigit(IntToString(i)[|IntToString(i)| - 1])
  {
    var n := NatToString(if i < 0 then -i else i);
    assert IntToString(i)[|IntToString(i)| - 1] == n[|n| - 1];
  }

  lemma KnownAddressRoundTrip(n: Node)
    ensures ParseAddress(n.host + ":" + IntToString(n.port), n.id) == Some(Known(n))
  {
    var portText := IntToString(n.port);
    var addr := n.host + ":" + portText;
    IntToStringEndsWithDigit(n.port);
    assert addr[|addr| - 1] == portText[|portText| - 1];
    IntToStringHasNo(n.port, ':');
    assert addr == n.host + [':'] + portText;
    LastIndexOfSeparator(n.host, ':', portText);
    IntToStringRoundTrip(n.port);
  }

  /** Each description parses back to the stored node, or to the id alone when no node was added. */
  lemma DescriptionRoundTrip(id: NodeId, nodes: map<NodeId, Node>)
    requires NodesKeyed(nodes)
    ensures ParseDescription(NodeDescription(id, nodes))
            == Some(if id in nodes then Known(nodes[id]) else Missing(id))
  {
    var idText := IntToString(id);
    var addr := if id in nodes then nodes[id].host + ":" + IntToString(nodes[id].port) else "-:-";
    assert NodeDescription(id, nodes) == addr + ['/'] + idText;
    IntToStringHasNo(id, '/');
    LastIndexOfSeparator(addr, '/', idText);
    IntToStringRoundTrip(id);
    if id in nodes {
      KnownAddressRoundTrip(nodes[id]);
    }
  }

  // ---------------------------------------------------------------------------------------------
  // The builders

  /** Per-partition information, filled in by the caller and then copied into a BrokerMetadata. */
  class PartitionInfo {
    var leader: NodeId
    var replicas: seq<NodeId>
    var inSyncReplicas: seq<NodeId>

    ghost predicate Valid()
      reads this
    {
      StrictlyIncreasing(replicas) && StrictlyIncreasing(inSyncReplicas)
    }

    constructor ()
      ensures Valid()
      ensures leader == 0 && replicas == [] && inSyncReplicas == []
    {
      leader := 0;
      replicas := [];
      inSyncReplicas := [];
    }

    method SetLeader(id: NodeId)
      requires Valid()
      modifies this
      ensures Valid()
      ensures leader == id
      ensures replicas == old(replicas) && inSyncReplicas == old(inSyncReplicas)
    {
      leader := id;
    }

    method AddReplica(id: NodeId)
      requires Valid()
      modifies this
      ensures Valid()
      ensures replicas == Insert(old(replicas), id)
      ensures forall y :: y in replicas <==> y in old(replicas) || y == id
      ensures |replicas| == if id in old(replicas) then |old(replicas)| else |old(replicas)| + 1
      ensures leader == old(leader) && inSyncReplicas == old(inSyncReplicas)
    {
      replicas := Insert(replicas, id);
    }

    method AddInSyncReplica(id: NodeId)
      requires Valid()
      modifies this
      ensures Valid()
      ensures inSyncReplicas == Insert(old(inSyncReplicas), id)
      ensures forall y :: y in inSyncReplicas <==> y in old(inSyncReplicas) || y == id
      ensures |inSyncReplicas| == if id in old(inSyncReplicas) then |old(inSyncReplicas)| else |old(inSyncReplicas)| + 1
      ensures leader == old(leader) && replicas == old(replicas)
    {
      inSyncReplicas := Insert(inSyncReplicas, id);
    }

    /** The value copied into the metadata: later changes to this object do not reach it. */
    function State(): PartitionState
      reads this
    {
      PartitionState(leader, replicas, inSyncReplicas)
    }
  }

  /**
   * The snapshot of one topic. The partition map is ordered: `partitionIds` lists its keys
   * ascending, `partitions` holds the value stored under each.
   */
  class BrokerMetadata {
    const topic: Topic
    var origNodeName: string
    var nodes: map<NodeId, Node>
    var partitionIds: seq<Partition>
    var partitions: map<Partition, PartitionState>

    ghost predicate Valid()
      reads this
    {
      && NodesKeyed(nodes)
      && StrictlyIncreasing(partitionIds)
      && (forall p :: p in partitionIds <==> p in partitions)
    }

    constructor (topic: Topic)
      ensures Valid()
      ensures this.topic == topic && origNodeName == ""
      ensures nodes == map[] && partitionIds == [] && partitions == map[]
    {
      this.topic := topic;
      origNodeName := "";
      nodes := map[];
      partitionIds := [];
      partitions := map[];
    }

    method SetOrigNodeName(name: string)
      requires Valid()
      modifies this
      ensures Valid()
      ensures origNodeName == name
      ensures nodes == old(nodes) && partitionIds == old(partitionIds) && partitions == old(partitions)
    {
      origNodeName := name;
    }

    method AddNode(id: NodeId, host: string, port: Port)
      requires Valid()
      modifies this
      ensures Valid()
      ensures nodes == old(nodes)[id := Node(id, host, port)]
      ensures |nodes| == if id in old(nodes) then |old(nodes)| else |old(nodes)| + 1
      ensures origNodeName == old(origNodeName)
      ensures partitionIds == old(partitionIds) && partitions == old(partitions)
    {
      nodes := nodes[id := Node(id, host, port)];
    }

    method AddPartitionInfo(partition: Partition, info: PartitionInfo)
      requires Valid()
      modifies this
      ensures Valid()
      ensures partitions == old(partitions)[partition := info.State()]
      ensures partitionIds == Insert(old(partitionIds), partition)
      ensures |partitions| == if partition in old(partitions) then |old(partitions)| else |old(partitions)| + 1
      ensures origNodeName == old(origNodeName) && nodes == old(nodes)
    {
      partitions := partitions[partition := info.State()];
      partitionIds := Insert(partitionIds, partition);
    }

    function ToString(): string
      reads this
      requires Valid()
    {
      assert forall i :: 0 <= i < |partitionIds| ==> partitionIds[i] in partitionIds;
      MetadataText(origNodeName, topic, nodes, partitionIds, partitions)
    }
  }
}
