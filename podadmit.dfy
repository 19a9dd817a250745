/**
 * Pod admission for memory bandwidth: when kubelet allocates a
 * dedicated-cores container with a NUMA hint, the hinted nodes not yet in
 * use are preempted in the domain manager, one call per node, and the
 * controller is asked to re-plan at once.
 */
module PodAdmit {
  import opened Common
  import opened Tasks

  /**
   * The domain manager's preemption state, abstractly: the set of preempted
   * NUMA nodes and the log of PreemptNodes calls made so far.
   */
  class DomainManager {
    var preempted: set<int>
    var preemptCalls: seq<seq<int>>

    constructor ()
      ensures preempted == {} && preemptCalls == []
    {
      preempted := {};
      preemptCalls := [];
    }

    /** Marks the nodes preempted; a node already preempted stays so. */
    method PreemptNodes(nodes: seq<int>)
      modifies this
      ensures preempted == old(preempted) + Elems(nodes)
      ensures preemptCalls == old(preemptCalls) + [nodes]
    {
      preempted := preempted + Elems(nodes);
      preemptCalls := preemptCalls + [nodes];
    }
  }

  /** The MB controller, abstractly: how many immediate re-plans were requested. */
  class Controller {
    var adjustRequests: nat

    constructor ()
      ensures adjustRequests == 0
    {
      adjustRequests := 0;
    }

    /** ReqToAdjustMB: asks the planning loop to run as soon as possible. */
    method ReqToAdjustMB()
      modifies this
      ensures adjustRequests == old(adjustRequests) + 1
    {
      adjustRequests := adjustRequests + 1;
    }
  }

  function Elems(s: seq<int>): set<int> {
    set x | x in s
  }

  datatype ContainerType = Main | Sidecar | Init | Ephemeral

  /** A topology hint: the NUMA nodes kubelet proposes for the container. */
  datatype TopologyHint = TopologyHint(nodes: seq<nat>)

  datatype ResourceRequest = ResourceRequest(
    podUID: string, annotations: map<string, string>, containerType: ContainerType,
    hint: Option<TopologyHint>)

  /** The allocation response, whose fields are all left unset. */
  datatype ResourceAllocationResponse = ResourceAllocationResponse

  datatype RemovePodResponse = RemovePodResponse

  const DedicatedCores: QoSLevel := "dedicated_cores"
  const HintIsEmpty: string := "hint is empty"

  /** The hinted nodes to preempt, in hint order: those not already in use. */
  function NodesToPreempt(nodes: seq<nat>, inUse: set<int>): (r: seq<int>)
    ensures forall x :: x in r <==> x in nodes && x !in inUse
    ensures |r| <= |nodes|
    decreases |nodes|
  {
    if |nodes| == 0 then []
    else
      var init := NodesToPreempt(nodes[..|nodes| - 1], inUse);
      var last := nodes[|nodes| - 1];
      assert forall x :: x in nodes <==> x in nodes[..|nodes| - 1] || x == last by {
        assert nodes == nodes[..|nodes| - 1] + [last];
      }
      if last in inUse then init else init + [last]
  }

  /** With nothing in use every hinted node is preempted, in hint order. */
  lemma {:induction false} NodesToPreemptNoneInUse(nodes: seq<nat>)
    ensures NodesToPreempt(nodes, {}) == nodes
    decreases |nodes|
  {
    if |nodes| > 0 {
      NodesToPreemptNoneInUse(nodes[..|nodes| - 1]);
      assert nodes == nodes[..|nodes| - 1] + [nodes[|nodes| - 1]];
    }
  }

  /** With every hinted node in use nothing is preempted. */
  lemma {:induction false} NodesToPreemptAllInUse(nodes: seq<nat>, inUse: set<int>)
    requires forall x :: x in nodes ==> x in inUse
    ensures NodesToPreempt(nodes, inUse) == []
    decreases |nodes|
  {
    if |nodes| > 0 {
      assert nodes[|nodes| - 1] in nodes;
      var init := nodes[..|nodes| - 1];
      assert forall x :: x in init ==> x in nodes;
      NodesToPreemptAllInUse(init, inUse);
    }
  }

  /** One PreemptNodes call per node, each with that node alone. */
  function SingleCalls(nodes: seq<int>): (calls: seq<seq<int>>)
    ensures |calls| == |nodes|
    ensures forall k :: 0 <= k < |nodes| ==> calls[k] == [nodes[k]]
  {
    seq(|nodes|, k requires 0 <= k < |nodes| => [nodes[k]])
  }

  class Admitter {
    const domainManager: DomainManager
    const mbController: Controller

    constructor (domainManager: DomainManager, mbController: Controller)
      ensures this.domainManager == domainManager && this.mbController == mbController
    {
      this.domainManager := domainManager;
      this.mbController := mbController;
    }

    /** RemovePod: nothing to undo, always an empty success. */
    method RemovePod() returns (r: Result<RemovePodResponse>)
      ensures r == Ok(RemovePodResponse)
    {
      r := Ok(RemovePodResponse);
    }

    /**
     * Allocate. `getQoSLevel` is the QoS configuration's lookup of a pod's
     * level from its annotations and `inUse` the task manager's set of NUMA
     * nodes in use, read only when a dedicated-cores hint is handled.
     */
    method Allocate(req: ResourceRequest, getQoSLevel: map<string, string> -> Result<QoSLevel>,
                    inUse: set<int>) returns (r: Result<ResourceAllocationResponse>)
      modifies domainManager, mbController
      // a failed QoS lookup is returned before anything else happens
      ensures getQoSLevel(req.annotations).Err? ==>
        r == Err(getQoSLevel(req.annotations).error) &&
        unchanged(domainManager) && unchanged(mbController)
      // sidecars, pods of other levels and pods without a hint: success, no effect
      ensures (getQoSLevel(req.annotations).Ok? &&
        (req.containerType == Sidecar || getQoSLevel(req.annotations).value != DedicatedCores || req.hint.None?)) ==>
        r == Ok(ResourceAllocationResponse) && unchanged(domainManager) && unchanged(mbController)
      // an empty hint is an error, with no effect
      ensures (getQoSLevel(req.annotations) == Ok(DedicatedCores) && req.containerType != Sidecar &&
        req.hint.Some? && |req.hint.value.nodes| == 0) ==>
        r == Err(HintIsEmpty) && unchanged(domainManager) && unchanged(mbController)
      // a non-empty hint: one preemption per free hinted node, in order, then one re-plan request
      ensures (getQoSLevel(req.annotations) == Ok(DedicatedCores) && req.containerType != Sidecar &&
        req.hint.Some? && |req.hint.value.nodes| > 0) ==>
        var toPreempt := NodesToPreempt(req.hint.value.nodes, inUse);
        r == Ok(ResourceAllocationResponse) &&
        domainManager.preemptCalls == old(domainManager.preemptCalls) + SingleCalls(toPreempt) &&
        domainManager.preempted == old(domainManager.preempted) + Elems(toPreempt) &&
        mbController.adjustRequests == old(mbController.adjustRequests) + 1
    {
      var qosLevel := getQoSLevel(req.annotations);
      if qosLevel.Err? {
        return Err(qosLevel.error);
      }
      if req.containerType == Sidecar {
        // a sidecar is admitted after its main container: nothing to do
      } else if qosLevel.value == DedicatedCores {
        if req.hint.Some? {
          var nodes := req.hint.value.nodes;
          if |nodes| == 0 {
            return Err(HintIsEmpty);
          }
          PreemptFreeNodes(nodes, inUse);
          mbController.ReqToAdjustMB();
        }
      }
      r := Ok(ResourceAllocationResponse);
    }

    /** The hint loop of Allocate: one PreemptNodes call per hinted node not in use, in hint order. */
    method PreemptFreeNodes(nodes: seq<nat>, inUse: set<int>)
      modifies domainManager
      ensures domainManager.preemptCalls ==
        old(domainManager.preemptCalls) + SingleCalls(NodesToPreempt(nodes, inUse))
      ensures domainManager.preempted == old(domainManager.preempted) + Elems(NodesToPreempt(nodes, inUse))
    {
      for i := 0 to |nodes|
        invariant domainManager.preemptCalls ==
          old(domainManager.preemptCalls) + SingleCalls(NodesToPreempt(nodes[..i], inUse))
        invariant domainManager.preempted ==
          old(domainManager.preempted) + Elems(NodesToPreempt(nodes[..i], inUse))
      {
        PreemptStep(nodes, i, inUse);
        if nodes[i] !in inUse {
          domainManager.PreemptNodes([nodes[i]]);
        }
      }
      assert nodes[..|nodes|] == nodes;
    }
  }

  /** One turn of the hint loop adds at most its own node to the preemption list. */
  lemma PreemptStep(nodes: seq<nat>, i: int, inUse: set<int>)
    requires 0 <= i < |nodes|
    ensures var before := NodesToPreempt(nodes[..i], inUse);
      var after := NodesToPreempt(nodes[..i + 1], inUse);
      (nodes[i] in inUse ==> after == before) &&
      (nodes[i] !in inUse ==>
        (after == before + [nodes[i]] &&
         SingleCalls(after) == SingleCalls(before) + [[nodes[i]]] &&
         Elems(after) == Elems(before) + {nodes[i]}))
  {
    var prefix := nodes[..i + 1];
    assert prefix[..|prefix| - 1] == nodes[..i];
    assert prefix[|prefix| - 1] == nodes[i];
    var before := NodesToPreempt(nodes[..i], inUse);
    assert NodesToPreempt(prefix, inUse) == if nodes[i] in inUse then before else before + [nodes[i]];
    if nodes[i] !in inUse {
      SingleCallsAppend(before, nodes[i]);
      ElemsAppend(before, nodes[i]);
    }
  }

  lemma SingleCallsAppend(s: seq<int>, x: int)
    ensures SingleCalls(s + [x]) == SingleCalls(s) + [[x]]
  {
    assert forall k :: 0 <= k < |s| ==> (s + [x])[k] == s[k];
  }

  lemma ElemsAppend(s: seq<int>, x: int)
    ensures Elems(s + [x]) == Elems(s) + {x}
  {
    assert forall y :: y in s + [x] <==> y in s || y == x;
  }
}
