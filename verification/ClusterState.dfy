/** Node-level resource feasibility and pod usage accounting (app/dispatch/k8s_state_collector.py). */
module ClusterState {
  import opened Prelude

  // ---- Nodes and snapshots ----

  datatype Node = Node(name: string, ready: bool, allocatable: Resources, used: Resources)
  {
    function Free(): Resources {
      Resources(MaxReal(0.0, allocatable.cpu - used.cpu), MaxReal(0.0, allocatable.mem - used.mem),
                Max(0, allocatable.gpus - used.gpus))
    }

    predicate CanFit(r: Resources) {
      ready && Covers(Free(), r)
    }

    predicate Overcommitted() {
      used.cpu > allocatable.cpu || used.mem > allocatable.mem || used.gpus > allocatable.gpus
    }
  }

  /** Enough of everything; GPUs are looked at only when some are requested. */
  predicate Covers(free: Resources, r: Resources) {
    && !(free.cpu < r.cpu)
    && !(free.mem < r.mem)
    && !(r.gpus > 0 && free.gpus < r.gpus)
  }

  datatype Health = Healthy | Degraded | Simulated | Disconnected

  datatype Snapshot = Snapshot(connected: bool, health: Health, free: Resources, nodes: seq<Node>)
  {
    predicate Observed() { connected || health == Simulated }
  }

  function Fitting(nodes: seq<Node>, r: Resources): (s: seq<Node>)
    ensures forall n :: n in s <==> n in nodes && n.CanFit(r)
  {
    if nodes == [] then []
    else
      assert nodes == [nodes[0]] + nodes[1..];
      (if nodes[0].CanFit(r) then [nodes[0]] else []) + Fitting(nodes[1..], r)
  }

  predicate IsResourceFeasible(s: Snapshot, r: Resources) {
    if !s.Observed() then true
    else if s.nodes == [] then Covers(s.free, r)
    else Covers(s.free, r) && Fitting(s.nodes, r) != []
  }

  /** The first node with the most free CPU. */
  function MostFreeCpu(nodes: seq<Node>): (best: Node)
    requires nodes != []
    ensures best in nodes
    ensures forall n :: n in nodes ==> n.Free().cpu <= best.Free().cpu
  {
    if |nodes| == 1 then nodes[0]
    else
      assert nodes == [nodes[0]] + nodes[1..];
      var rest := MostFreeCpu(nodes[1..]);
      if nodes[0].Free().cpu >= rest.Free().cpu then nodes[0] else rest
  }

  /** Of equally empty nodes it is the first. */
  lemma {:induction false} MostFreeCpuIsFirst(nodes: seq<Node>) returns (i: nat)
    requires nodes != []
    ensures i < |nodes| && nodes[i] == MostFreeCpu(nodes)
    ensures forall j :: 0 <= j < i ==> nodes[j].Free().cpu < nodes[i].Free().cpu
  {
    i := 0;
    if |nodes| > 1 && nodes[0].Free().cpu < MostFreeCpu(nodes[1..]).Free().cpu {
      var k := MostFreeCpuIsFirst(nodes[1..]);
      i := k + 1;
      forall j | 0 <= j < i ensures nodes[j].Free().cpu < nodes[i].Free().cpu {
        assert j > 0 ==> nodes[j] == nodes[1..][j - 1];
      }
    }
  }

  function FindBestNode(s: Snapshot, r: Resources): Option<Node> {
    if Fitting(s.nodes, r) == [] then None else Some(MostFreeCpu(Fitting(s.nodes, r)))
  }

  /** The two searches agree: feasibility on an observed node inventory hands back the emptiest fitting Ready node. */
  lemma FeasibleFindsBestNode(s: Snapshot, r: Resources)
    requires s.Observed() && s.nodes != [] && IsResourceFeasible(s, r)
    ensures FindBestNode(s, r).Some?
    ensures var best := FindBestNode(s, r).value;
            && best in s.nodes && best.ready && Covers(best.Free(), r)
            && forall n :: n in s.nodes && n.CanFit(r) ==> n.Free().cpu <= best.Free().cpu
  {
  }

  /** Some Ready node can take the request, whatever the cluster totals say. */
  ghost predicate FitsSomewhere(s: Snapshot, r: Resources) {
    exists n :: n in s.nodes && n.CanFit(r)
  }

  /** The aggregate test turns away no request that some Ready node fits. */
  ghost predicate NeverFalselyRejects(s: Snapshot) {
    forall r: Resources :: FitsSomewhere(s, r) ==> IsResourceFeasible(s, r)
  }

  /** The cluster-wide free figures are at least those of every Ready node. */
  ghost predicate TotalsDominateNodes(s: Snapshot) {
    forall n :: n in s.nodes && n.ready ==> Covers(s.free, n.Free())
  }

  /** The fail-fast totals are harmless exactly when they dominate every Ready node. */
  lemma FailFastHarmlessIff(s: Snapshot)
    requires s.Observed() && s.nodes != []
    ensures NeverFalselyRejects(s) <==> TotalsDominateNodes(s)
  {
    if NeverFalselyRejects(s) {
      forall n | n in s.nodes && n.ready ensures Covers(s.free, n.Free()) {
        assert n.CanFit(n.Free());
        assert FitsSomewhere(s, n.Free());
      }
    }
    if TotalsDominateNodes(s) {
      forall r: Resources | FitsSomewhere(s, r) ensures IsResourceFeasible(s, r) {
        var n :| n in s.nodes && n.CanFit(r);
        assert n in Fitting(s.nodes, r);
      }
    }
  }

  // ---- Collecting usage from running pods ----

  datatype Pod = Pod(nodeName: Option<string>, containers: seq<Resources>)

  function Total(rs: seq<Resources>): Resources {
    if rs == [] then NOTHING else Total(rs[..|rs| - 1]).Add(rs[|rs| - 1])
  }

  /** node_by_name keeps the last node of a name. */
  predicate IsNamed(nodes: seq<Node>, i: nat, name: Option<string>)
    requires i < |nodes|
  {
    name == Some(nodes[i].name) && forall j :: i < j < |nodes| ==> nodes[j].name != nodes[i].name
  }

  function UsageOn(nodes: seq<Node>, i: nat, pods: seq<Pod>): Resources
    requires i < |nodes|
  {
    if pods == [] then NOTHING
    else
      var last := pods[|pods| - 1];
      var before := UsageOn(nodes, i, pods[..|pods| - 1]);
      if IsNamed(nodes, i, last.nodeName) then before.Add(Total(last.containers)) else before
  }

  function TotalUsage(pods: seq<Pod>): Resources {
    if pods == [] then NOTHING else TotalUsage(pods[..|pods| - 1]).Add(Total(pods[|pods| - 1].containers))
  }

  method IndexByName(nodes: seq<Node>) returns (byName: map<string, nat>)
    ensures forall name :: name in byName ==> byName[name] < |nodes| && IsNamed(nodes, byName[name], Some(name))
    ensures forall i :: 0 <= i < |nodes| ==> nodes[i].name in byName
  {
    byName := map[];
    for k := 0 to |nodes|
      invariant forall name :: name in byName ==>
                  byName[name] < k && nodes[byName[name]].name == name
                  && forall j :: byName[name] < j < k ==> nodes[j].name != name
      invariant forall i :: 0 <= i < k ==> nodes[i].name in byName
    {
      byName := byName[nodes[k].name := k];
    }
  }

  /** The container loop of one pod: the cluster total always moves, a listed node's usage moves with it. */
  method AddContainers(containers: seq<Resources>, total: Resources, used: seq<Resources>, target: Option<nat>)
    returns (total': Resources, used': seq<Resources>)
    requires target.Some? ==> target.value < |used|
    ensures total' == total.Add(Total(containers))
    ensures |used'| == |used|
    ensures forall i :: 0 <= i < |used| ==>
              used'[i] == if target == Some(i) then used[i].Add(Total(containers)) else used[i]
  {
    total', used' := total, used;
    for c := 0 to |containers|
      invariant total' == total.Add(Total(containers[..c]))
      invariant |used'| == |used|
      invariant forall i :: 0 <= i < |used| ==>
                  used'[i] == if target == Some(i) then used[i].Add(Total(containers[..c])) else used[i]
    {
      assert containers[..c + 1][..c] == containers[..c];
      total' := total'.Add(containers[c]);
      if target.Some? {
        used' := used'[target.value := used'[target.value].Add(containers[c])];
      }
    }
    assert containers[..|containers|] == containers;
  }

  /** Per-node and cluster-wide usage of the running pods; nodes start out unused. */
  method AccumulateUsage(nodes: seq<Node>, pods: seq<Pod>) returns (total: Resources, used: seq<Resources>)
    ensures total == TotalUsage(pods)
    ensures |used| == |nodes| && forall i :: 0 <= i < |nodes| ==> used[i] == UsageOn(nodes, i, pods)
  {
    var byName := IndexByName(nodes);
    total, used := NOTHING, seq(|nodes|, _ => NOTHING);
    for p := 0 to |pods|
      invariant total == TotalUsage(pods[..p])
      invariant |used| == |nodes| && forall i :: 0 <= i < |nodes| ==> used[i] == UsageOn(nodes, i, pods[..p])
    {
      assert pods[..p + 1][..p] == pods[..p];
      var name := pods[p].nodeName;
      var target := if name.Some? && name.value in byName then Some(byName[name.value]) else None;
      assert forall i: nat :: i < |nodes| ==> (IsNamed(nodes, i, name) <==> target == Some(i));
      total, used := AddContainers(pods[p].containers, total, used, target);
    }
    assert pods[..|pods|] == pods;
  }

  // ---- Conservation of usage ----

  predicate Listed(nodes: seq<Node>, k: nat, name: Option<string>)
    requires k <= |nodes|
  {
    exists i: nat :: i < k && IsNamed(nodes, i, name)
  }

  /** Usage charged to the first k listed nodes. */
  function ListedUsage(nodes: seq<Node>, k: nat, pods: seq<Pod>): Resources
    requires k <= |nodes|
  {
    if k == 0 then NOTHING else ListedUsage(nodes, k - 1, pods).Add(UsageOn(nodes, k - 1, pods))
  }

  /** Usage of running pods that no listed node is charged for. */
  function Unattributed(nodes: seq<Node>, pods: seq<Pod>): Resources {
    if pods == [] then NOTHING
    else
      var last := pods[|pods| - 1];
      var before := Unattributed(nodes, pods[..|pods| - 1]);
      if Listed(nodes, |nodes|, last.nodeName) then before else before.Add(Total(last.containers))
  }

  lemma {:induction false} IdleNodes(nodes: seq<Node>, k: nat)
    requires k <= |nodes|
    ensures ListedUsage(nodes, k, []) == NOTHING
  {
    if k > 0 {
      IdleNodes(nodes, k - 1);
    }
  }

  lemma AddRearranges(a: Resources, b: Resources, extra: Resources)
    ensures a.Add(b).Add(extra) == a.Add(extra).Add(b) == a.Add(b.Add(extra))
  {
  }

  /** At most one node is charged for a pod: the last of its name. */
  lemma {:induction false} UsageOfLastPod(nodes: seq<Node>, k: nat, pods: seq<Pod>)
    requires k <= |nodes| && pods != []
    ensures var last, before := pods[|pods| - 1], ListedUsage(nodes, k, pods[..|pods| - 1]);
            ListedUsage(nodes, k, pods)
            == if Listed(nodes, k, last.nodeName) then before.Add(Total(last.containers)) else before
  {
    if k > 0 {
      var last, rest := pods[|pods| - 1], pods[..|pods| - 1];
      UsageOfLastPod(nodes, k - 1, pods);
      AddRearranges(ListedUsage(nodes, k - 1, rest), UsageOn(nodes, k - 1, rest), Total(last.containers));
      if IsNamed(nodes, k - 1, last.nodeName) {
        assert !Listed(nodes, k - 1, last.nodeName);
      }
    }
  }

  lemma ConservationStep(total: Resources, listed: Resources, rest: Resources,
                         total': Resources, listed': Resources, rest': Resources, extra: Resources, isListed: bool)
    requires total == listed.Add(rest) && total' == total.Add(extra)
    requires if isListed then listed' == listed.Add(extra) && rest' == rest
             else listed' == listed && rest' == rest.Add(extra)
    ensures total' == listed'.Add(rest')
  {
  }

  lemma UsageOfLastPodConserved(nodes: seq<Node>, pods: seq<Pod>, rest: seq<Pod>)
    requires pods != [] && rest == pods[..|pods| - 1]
    requires TotalUsage(rest) == ListedUsage(nodes, |nodes|, rest).Add(Unattributed(nodes, rest))
    ensures TotalUsage(pods) == ListedUsage(nodes, |nodes|, pods).Add(Unattributed(nodes, pods))
  {
    var last := pods[|pods| - 1];
    UsageOfLastPod(nodes, |nodes|, pods);
    ConservationStep(TotalUsage(rest), ListedUsage(nodes, |nodes|, rest), Unattributed(nodes, rest),
                     TotalUsage(pods), ListedUsage(nodes, |nodes|, pods), Unattributed(nodes, pods),
                     Total(last.containers), Listed(nodes, |nodes|, last.nodeName));
  }

  lemma NoPodsConserved(nodes: seq<Node>, pods: seq<Pod>)
    requires |pods| == 0
    ensures TotalUsage(pods) == ListedUsage(nodes, |nodes|, pods).Add(Unattributed(nodes, pods))
  {
    assert pods == [];
    IdleNodes(nodes, |nodes|);
    assert TotalUsage(pods) == NOTHING && Unattributed(nodes, pods) == NOTHING;
  }

  /** Every core, MiB and GPU in use is charged to exactly one listed node or is unattributed. */
  lemma {:induction false} UsageConserved(nodes: seq<Node>, pods: seq<Pod>)
    ensures TotalUsage(pods) == ListedUsage(nodes, |nodes|, pods).Add(Unattributed(nodes, pods))
  {
    if |pods| == 0 {
      NoPodsConserved(nodes, pods);
    } else {
      UsageConserved(nodes, pods[..|pods| - 1]);
      UsageOfLastPodConserved(nodes, pods, pods[..|pods| - 1]);
    }
  }

  // ---- The collected snapshot and its fail-fast test ----

  function Capacity(nodes: seq<Node>, k: nat): Resources
    requires k <= |nodes|
  {
    if k == 0 then NOTHING else Capacity(nodes, k - 1).Add(nodes[k - 1].allocatable)
  }

  function Measured(nodes: seq<Node>, i: nat, pods: seq<Pod>): Node
    requires i < |nodes|
  {
    nodes[i].(used := UsageOn(nodes, i, pods))
  }

  function Collect(nodes: seq<Node>, pods: seq<Pod>, health: Health): Snapshot {
    var capacity, used := Capacity(nodes, |nodes|), TotalUsage(pods);
    Snapshot(true, health,
             Resources(MaxReal(0.0, capacity.cpu - used.cpu), MaxReal(0.0, capacity.mem - used.mem),
                       Max(0, capacity.gpus - used.gpus)),
             seq(|nodes|, i requires 0 <= i < |nodes| => Measured(nodes, i, pods)))
  }

  method CollectClusterState(nodes: seq<Node>, pods: seq<Pod>, health: Health) returns (s: Snapshot)
    ensures s == Collect(nodes, pods, health)
  {
    var capacity := NOTHING;
    for k := 0 to |nodes|
      invariant capacity == Capacity(nodes, k)
    {
      capacity := capacity.Add(nodes[k].allocatable);
    }
    var total, used := AccumulateUsage(nodes, pods);
    s := Snapshot(true, health,
                  Resources(MaxReal(0.0, capacity.cpu - total.cpu), MaxReal(0.0, capacity.mem - total.mem),
                            Max(0, capacity.gpus - total.gpus)),
                  seq(|nodes|, i requires 0 <= i < |nodes| => nodes[i].(used := used[i])));
  }

  predicate AtMost(a: Resources, b: Resources) {
    a.cpu <= b.cpu && a.mem <= b.mem && a.gpus <= b.gpus
  }

  function Minus(a: Resources, b: Resources): Resources {
    Resources(a.cpu - b.cpu, a.mem - b.mem, a.gpus - b.gpus)
  }

  lemma {:induction false} SlackAddsUp(nodes: seq<Node>, k: nat, pods: seq<Pod>, i: nat)
    requires k <= |nodes|
    requires forall j: nat :: j < k ==> !Measured(nodes, j, pods).Overcommitted()
    ensures AtMost(NOTHING, Minus(Capacity(nodes, k), ListedUsage(nodes, k, pods)))
    ensures i < k ==> AtMost(Minus(nodes[i].allocatable, UsageOn(nodes, i, pods)),
                             Minus(Capacity(nodes, k), ListedUsage(nodes, k, pods)))
  {
    if k > 0 {
      SlackAddsUp(nodes, k - 1, pods, i);
      assert !Measured(nodes, k - 1, pods).Overcommitted();
    }
  }

  /** With every pod on a listed node and no node over-committed, the totals reject nothing a node could take. */
  lemma CollectedTotalsDominate(nodes: seq<Node>, pods: seq<Pod>, health: Health)
    requires nodes != []
    requires Unattributed(nodes, pods) == NOTHING
    requires forall i: nat :: i < |nodes| ==> !Measured(nodes, i, pods).Overcommitted()
    ensures NeverFalselyRejects(Collect(nodes, pods, health))
  {
    var s := Collect(nodes, pods, health);
    forall n | n in s.nodes ensures Covers(s.free, n.Free()) {
      var i: nat :| i < |nodes| && n == Measured(nodes, i, pods);
      NodeWithinTotals(nodes, pods, health, i);
    }
    FailFastHarmlessIff(s);
  }

  lemma NodeWithinTotals(nodes: seq<Node>, pods: seq<Pod>, health: Health, i: nat)
    requires i < |nodes| && Unattributed(nodes, pods) == NOTHING
    requires forall j: nat :: j < |nodes| ==> !Measured(nodes, j, pods).Overcommitted()
    ensures Covers(Collect(nodes, pods, health).free, Measured(nodes, i, pods).Free())
  {
    SlackAddsUp(nodes, |nodes|, pods, i);
    AllAttributed(nodes, pods);
  }

  lemma AllAttributed(nodes: seq<Node>, pods: seq<Pod>)
    requires Unattributed(nodes, pods) == NOTHING
    ensures TotalUsage(pods) == ListedUsage(nodes, |nodes|, pods)
  {
    UsageConserved(nodes, pods);
  }

  /**
   * One over-committed node is enough to break that: a pod that asks the busy node for twice its cores eats the
   * idle node's cores in the totals, and a one-core job the idle node fits is turned away.
   */
  lemma OvercommittedNodeHidesCapacity(nodes: seq<Node>, pods: seq<Pod>, health: Health)
    requires |nodes| == 2 && nodes[1].ready && nodes[0].name != nodes[1].name
    requires nodes[0].allocatable == nodes[1].allocatable == Resources(4.0, 4.0, 0)
    requires |pods| == 1 && pods[0].nodeName == Some(nodes[0].name)
    requires |pods[0].containers| == 1 && pods[0].containers[0] == Resources(8.0, 1.0, 0)
    ensures var s, job := Collect(nodes, pods, health), Resources(1.0, 1.0, 0);
            FitsSomewhere(s, job) && !IsResourceFeasible(s, job)
  {
    BusyTotals(nodes, pods);
    IdleNodeRemains(nodes, pods, health);
  }

  lemma BusyTotals(nodes: seq<Node>, pods: seq<Pod>)
    requires |nodes| == 2 && nodes[0].name != nodes[1].name
    requires nodes[0].allocatable == nodes[1].allocatable == Resources(4.0, 4.0, 0)
    requires |pods| == 1 && pods[0].nodeName == Some(nodes[0].name)
    requires |pods[0].containers| == 1 && pods[0].containers[0] == Resources(8.0, 1.0, 0)
    ensures UsageOn(nodes, 1, pods) == NOTHING
    ensures TotalUsage(pods).cpu == Capacity(nodes, 2).cpu
  {
    OnePod(nodes, 1, pods);
    OneTotal(pods[0].containers);
    TwoNodes(nodes);
  }

  lemma IdleNodeRemains(nodes: seq<Node>, pods: seq<Pod>, health: Health)
    requires |nodes| == 2 && nodes[1].ready && nodes[1].allocatable == Resources(4.0, 4.0, 0)
    requires UsageOn(nodes, 1, pods) == NOTHING && TotalUsage(pods).cpu == Capacity(nodes, 2).cpu
    ensures var s, job := Collect(nodes, pods, health), Resources(1.0, 1.0, 0);
            FitsSomewhere(s, job) && !IsResourceFeasible(s, job)
  {
    var s := Collect(nodes, pods, health);
    assert s.nodes[1] in s.nodes && s.nodes[1].CanFit(Resources(1.0, 1.0, 0));
  }

  lemma OnePod(nodes: seq<Node>, i: nat, pods: seq<Pod>)
    requires i < |nodes| && |pods| == 1
    ensures TotalUsage(pods) == Total(pods[0].containers)
    ensures UsageOn(nodes, i, pods)
         == if IsNamed(nodes, i, pods[0].nodeName) then Total(pods[0].containers) else NOTHING
  {
    var none := pods[..0];
    assert TotalUsage(none) == NOTHING && UsageOn(nodes, i, none) == NOTHING;
  }

  lemma OneTotal(rs: seq<Resources>)
    requires |rs| == 1
    ensures Total(rs) == rs[0]
  {
    var none := rs[..0];
    assert Total(none) == NOTHING;
  }

  lemma TwoNodes(nodes: seq<Node>)
    requires |nodes| == 2
    ensures Capacity(nodes, 2) == nodes[0].allocatable.Add(nodes[1].allocatable)
  {
    assert Capacity(nodes, 1) == nodes[0].allocatable;
  }

  // ---- Fitting in plain terms ----

  /** What a node looks like with one more request on it. */
  function With(n: Node, r: Resources): Node {
    n.(used := n.used.Add(r))
  }

  /** A Ready node that is not over-committed fits a request exactly when the request would not over-commit it. */
  lemma FitsIffNotOvercommitted(n: Node, r: Resources)
    requires n.ready && !n.Overcommitted() && r.gpus >= 0
    ensures n.CanFit(r) <==> !With(n, r).Overcommitted()
  {
  }

  /** A node that is not Ready fits nothing, and nothing positive fits where none of it is left. */
  lemma NothingFits(n: Node, r: Resources)
    ensures !n.ready ==> !n.CanFit(r)
    ensures n.used.cpu >= n.allocatable.cpu && r.cpu > 0.0 ==> !n.CanFit(r)
    ensures n.used.mem >= n.allocatable.mem && r.mem > 0.0 ==> !n.CanFit(r)
    ensures n.used.gpus >= n.allocatable.gpus && r.gpus > 0 ==> !n.CanFit(r)
  {
  }

  /** An unobserved cluster refuses nothing; without an inventory the totals decide; else some node must fit too. */
  lemma FeasibleExact(s: Snapshot, r: Resources)
    ensures !s.connected && s.health != Simulated ==> IsResourceFeasible(s, r)
    ensures s.connected || s.health == Simulated ==>
              (IsResourceFeasible(s, r) <==>
                 && s.free.cpu >= r.cpu && s.free.mem >= r.mem && (r.gpus > 0 ==> s.free.gpus >= r.gpus)
                 && (s.nodes == [] || FitsSomewhere(s, r)))
  {
    FittingIff(s, r);
  }

  lemma FittingIff(s: Snapshot, r: Resources)
    ensures Fitting(s.nodes, r) != [] <==> FitsSomewhere(s, r)
  {
    var fitting := Fitting(s.nodes, r);
    if fitting != [] {
      assert fitting[0] in fitting;
    }
  }

  function FreeInAll(nodes: seq<Node>, k: nat, pods: seq<Pod>): Resources
    requires k <= |nodes|
  {
    if k == 0 then NOTHING else FreeInAll(nodes, k - 1, pods).Add(Measured(nodes, k - 1, pods).Free())
  }

  lemma {:induction false} FreeAddsUp(nodes: seq<Node>, k: nat, pods: seq<Pod>)
    requires k <= |nodes| && forall j: nat :: j < k ==> !Measured(nodes, j, pods).Overcommitted()
    ensures FreeInAll(nodes, k, pods) == Minus(Capacity(nodes, k), ListedUsage(nodes, k, pods))
  {
    if k > 0 {
      FreeAddsUp(nodes, k - 1, pods);
      assert !Measured(nodes, k - 1, pods).Overcommitted();
    }
  }

  /** With every pod on a listed node and no node over-committed the free totals are the nodes' added up. */
  lemma FreeTotalsAddUp(nodes: seq<Node>, pods: seq<Pod>, health: Health)
    requires Unattributed(nodes, pods) == NOTHING
    requires forall j: nat :: j < |nodes| ==> !Measured(nodes, j, pods).Overcommitted()
    ensures Collect(nodes, pods, health).free == FreeInAll(nodes, |nodes|, pods)
    ensures Collect(nodes, pods, health).connected && Collect(nodes, pods, health).health == health
  {
    FreeAddsUp(nodes, |nodes|, pods);
    AllAttributed(nodes, pods);
    SlackAddsUp(nodes, |nodes|, pods, 0);
  }
}
