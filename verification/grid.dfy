/** The grid's GraphQL view of the distributor: its public URL, its nodes,
    and the number of total and used session slots.

    The distributor's status is fetched once and memoized, so every query
    of one `Grid` reads the same snapshot; the model stores that snapshot. A
    node's stereotype map (stereotype to slot count) is its list of entries
    in iteration order; only the counts are summed, so the order is
    immaterial. Counts are mathematical integers. */
module Grid {
  import opened Results

  /** The capabilities a slot offers, as an opaque rendering. */
  datatype Stereotype = Stereotype(capabilities: string)

  datatype StereotypeCount = StereotypeCount(stereotype: Stereotype, count: int)

  datatype NodeSummary = NodeSummary(
    nodeId: string,
    uri: string,
    up: bool,
    maxSessionCount: int,
    stereotypes: seq<StereotypeCount>,
    usedStereotypes: seq<StereotypeCount>)

  datatype DistributorStatus = DistributorStatus(nodes: seq<NodeSummary>)

  /** A distributor, represented by the status it reports when first asked. */
  datatype Distributor = Distributor(status: DistributorStatus)

  datatype Grid = Grid(url: string, status: DistributorStatus)

  /** The GraphQL node type. */
  datatype Node = Node(id: string, uri: string, isUp: bool, maxSessionCount: int)

  /** The `IllegalArgumentException` ("<argument> must be set") that the
      null check on a required constructor argument throws, naming it. */
  datatype GridError = NullArgument(argument: string)

  /** Builds the grid: the distributor is checked first, then the URL. */
  function NewGrid(distributor: Option<Distributor>, url: Option<string>): (r: Result<Grid, GridError>)
    ensures distributor.None? ==> r == Failure(NullArgument("Distributor"))
    ensures distributor.Some? && url.None? ==> r == Failure(NullArgument("Grid's public URL"))
    ensures r.Success? <==> distributor.Some? && url.Some?
    ensures r.Success? ==> GetUrl(r.value) == url.value && r.value.status == distributor.value.status
  {
    if distributor.None? then
      Failure(NullArgument("Distributor"))
    else if url.None? then
      Failure(NullArgument("Grid's public URL"))
    else
      Success(Grid(url.value, distributor.value.status))
  }

  function GetUrl(g: Grid): string {
    g.url
  }

  // ---------------------------------------------------------------------
  // Nodes

  /** One summary, seen as a GraphQL node. */
  function NodeOf(s: NodeSummary): Node {
    Node(s.nodeId, s.uri, s.up, s.maxSessionCount)
  }

  /** The node listing: one node per summary, in the same order, copying
      id, URI, up-flag and maximum session count. */
  function Nodes(summaries: seq<NodeSummary>): (r: seq<Node>)
    ensures |r| == |summaries|
    ensures forall i :: 0 <= i < |r| ==>
      && r[i].id == summaries[i].nodeId
      && r[i].uri == summaries[i].uri
      && r[i].isUp == summaries[i].up
      && r[i].maxSessionCount == summaries[i].maxSessionCount
  {
    if |summaries| == 0 then [] else [NodeOf(summaries[0])] + Nodes(summaries[1..])
  }

  function GetNodes(g: Grid): seq<Node> {
    Nodes(g.status.nodes)
  }

  // ---------------------------------------------------------------------
  // Slot accounting: reference definitions

  /** The sum of the counts of a stereotype map. */
  function SlotSum(entries: seq<StereotypeCount>): int {
    if |entries| == 0 then 0 else entries[0].count + SlotSum(entries[1..])
  }

  /** A node offers at most as many slots as it may run sessions. */
  function Contribution(s: NodeSummary): (r: int)
    ensures r <= s.maxSessionCount && r <= SlotSum(s.stereotypes)
    ensures r == s.maxSessionCount || r == SlotSum(s.stereotypes)
  {
    var slotCount := SlotSum(s.stereotypes);
    if s.maxSessionCount <= slotCount then s.maxSessionCount else slotCount
  }

  function TotalSlots(summaries: seq<NodeSummary>): int {
    if |summaries| == 0 then 0 else Contribution(summaries[0]) + TotalSlots(summaries[1..])
  }

  function UsedSlots(summaries: seq<NodeSummary>): int {
    if |summaries| == 0 then 0 else SlotSum(summaries[0].usedStereotypes) + UsedSlots(summaries[1..])
  }

  /** The sum of the maximum session counts of a node listing. */
  function SessionCapacity(nodes: seq<Node>): int {
    if |nodes| == 0 then 0 else nodes[0].maxSessionCount + SessionCapacity(nodes[1..])
  }

  /** The sum of the stereotype slot counts over all nodes. */
  function StereotypeCapacity(summaries: seq<NodeSummary>): int {
    if |summaries| == 0 then 0 else SlotSum(summaries[0].stereotypes) + StereotypeCapacity(summaries[1..])
  }

  lemma {:induction false} TotalSlotsAppend(a: seq<NodeSummary>, b: seq<NodeSummary>)
    ensures TotalSlots(a + b) == TotalSlots(a) + TotalSlots(b)
  {
    if |a| == 0 {
      assert a + b == b;
    } else {
      assert (a + b)[1..] == a[1..] + b;
      TotalSlotsAppend(a[1..], b);
    }
  }

  lemma {:induction false} UsedSlotsAppend(a: seq<NodeSummary>, b: seq<NodeSummary>)
    ensures UsedSlots(a + b) == UsedSlots(a) + UsedSlots(b)
  {
    if |a| == 0 {
      assert a + b == b;
    } else {
      assert (a + b)[1..] == a[1..] + b;
      UsedSlotsAppend(a[1..], b);
    }
  }

  /** Total slots never exceed the sessions the listed nodes allow, nor the
      slots their stereotypes declare. */
  lemma {:induction false} TotalSlotsBounded(summaries: seq<NodeSummary>)
    ensures TotalSlots(summaries) <= SessionCapacity(Nodes(summaries))
    ensures TotalSlots(summaries) <= StereotypeCapacity(summaries)
  {
    if |summaries| > 0 {
      TotalSlotsBounded(summaries[1..]);
      assert Nodes(summaries)[1..] == Nodes(summaries[1..]);
    }
  }

  /** With non-negative counts, a stereotype map's sum is non-negative. */
  lemma {:induction false} SlotSumNonNegative(entries: seq<StereotypeCount>)
    requires forall i :: 0 <= i < |entries| ==> entries[i].count >= 0
    ensures SlotSum(entries) >= 0
  {
    if |entries| > 0 {
      SlotSumNonNegative(entries[1..]);
    }
  }

  /** Counts and session limits that are non-negative give non-negative
      totals. */
  lemma {:induction false} SlotsNonNegative(summaries: seq<NodeSummary>)
    requires forall i :: 0 <= i < |summaries| ==> WellFormed(summaries[i])
    ensures TotalSlots(summaries) >= 0
    ensures UsedSlots(summaries) >= 0
  {
    if |summaries| > 0 {
      SlotSumNonNegative(summaries[0].stereotypes);
      SlotSumNonNegative(summaries[0].usedStereotypes);
      SlotsNonNegative(summaries[1..]);
    }
  }

  /** A summary whose counts are all non-negative. */
  predicate WellFormed(s: NodeSummary) {
    && s.maxSessionCount >= 0
    && (forall i :: 0 <= i < |s.stereotypes| ==> s.stereotypes[i].count >= 0)
    && (forall i :: 0 <= i < |s.usedStereotypes| ==> s.usedStereotypes[i].count >= 0)
  }

  // ---------------------------------------------------------------------
  // Slot accounting: the stream pipelines

  /** `getTotalSlots`: each node's contribution, summed node by node. */
  method GetTotalSlots(g: Grid) returns (total: int)
    ensures total == TotalSlots(g.status.nodes)
  {
    var summaries := g.status.nodes;
    total := 0;
    var i := 0;
    while i < |summaries|
      invariant 0 <= i <= |summaries|
      invariant total == TotalSlots(summaries[..i])
    {
      assert summaries[..i + 1] == summaries[..i] + [summaries[i]];
      TotalSlotsAppend(summaries[..i], [summaries[i]]);
      total := total + Contribution(summaries[i]);
      i := i + 1;
    }
    assert summaries[..i] == summaries;
  }

  /** `getUsedSlots`: each node's used-stereotype sum, summed node by node. */
  method GetUsedSlots(g: Grid) returns (used: int)
    ensures used == UsedSlots(g.status.nodes)
  {
    var summaries := g.status.nodes;
    used := 0;
    var i := 0;
    while i < |summaries|
      invariant 0 <= i <= |summaries|
      invariant used == UsedSlots(summaries[..i])
    {
      assert summaries[..i + 1] == summaries[..i] + [summaries[i]];
      UsedSlotsAppend(summaries[..i], [summaries[i]]);
      used := used + SlotSum(summaries[i].usedStereotypes);
      i := i + 1;
    }
    assert summaries[..i] == summaries;
  }
}
