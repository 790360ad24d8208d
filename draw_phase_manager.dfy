/**
 * Collection of drawables per render phase. A manager holds one list of drawables per phase
 * (a fixed-size array indexed by the phase's position in its enum) and the draw data they came
 * from; a collector adds the drawables of one draw data to the lists of the active phases.
 */
module DrawPhases {
  import opened Common

  /** The render phases, in declaration order; a phase's position is its `enum_into_u32` index. */
  datatype DrawPhase =
    | Opaque
    | Background
    | OutlineMask
    | PickingLayer
    | Transparent
    | Compositing
    | CompositingScreenshot

  /** `DrawPhase::VARIANT_COUNT` */
  const VariantCount: nat := 7

  function PhaseIndex(p: DrawPhase): (i: nat)
    ensures i < VariantCount
    ensures PhaseAt(i) == p
  {
    match p
    case Opaque => 0
    case Background => 1
    case OutlineMask => 2
    case PickingLayer => 3
    case Transparent => 4
    case Compositing => 5
    case CompositingScreenshot => 6
  }

  function PhaseAt(i: nat): DrawPhase
    requires i < VariantCount
  {
    [Opaque, Background, OutlineMask, PickingLayer, Transparent, Compositing, CompositingScreenshot][i]
  }

  /** What a draw data hands to the collector: a sort key and a payload of its own choosing. */
  datatype DrawDataDrawable = DrawDataDrawable(distanceSortKey: real, drawDataPayload: nat)

  /** A drawable as stored by the manager: tagged with the index of its draw data. */
  datatype Drawable = Drawable(info: DrawDataDrawable, drawDataKey: nat)

  /** The drawables, in order, each tagged with `drawDataIndex`. */
  function Tag(drawables: seq<DrawDataDrawable>, drawDataIndex: nat): (r: seq<Drawable>)
    ensures |r| == |drawables|
    ensures forall j :: 0 <= j < |r| ==> r[j].info == drawables[j] && r[j].drawDataKey == drawDataIndex
    decreases |drawables|
  {
    if drawables == [] then []
    else [Drawable(drawables[0], drawDataIndex)] + Tag(drawables[1..], drawDataIndex)
  }

  /** The per-phase lists after one `add_drawables` call that selected the phases `selected`. */
  function AddToPhases(lists: seq<seq<Drawable>>, selected: set<DrawPhase>, drawDataIndex: nat,
                       drawables: seq<DrawDataDrawable>): seq<seq<Drawable>>
    requires |lists| == VariantCount
  {
    seq(VariantCount, i requires 0 <= i < VariantCount =>
      if PhaseAt(i) in selected then lists[i] + Tag(drawables, drawDataIndex) else lists[i])
  }

  /** One `add_drawables(phases, drawables)` call made by a draw data while it is collected. */
  datatype DrawableRequest = DrawableRequest(phases: set<DrawPhase>, drawables: seq<DrawDataDrawable>)

  /** The per-phase lists after a draw data made the calls `requests`, in order. */
  function ApplyRequests(lists: seq<seq<Drawable>>, activePhases: set<DrawPhase>, drawDataIndex: nat,
                         requests: seq<DrawableRequest>): (r: seq<seq<Drawable>>)
    requires |lists| == VariantCount
    ensures |r| == VariantCount
    decreases |requests|
  {
    if requests == [] then lists
    else
      var last := requests[|requests| - 1];
      var before := ApplyRequests(lists, activePhases, drawDataIndex, requests[..|requests| - 1]);
      AddToPhases(before, activePhases * last.phases, drawDataIndex, last.drawables)
  }

  /** Everything `requests` asks to add to phase `p`, in order, tagged with `drawDataIndex`. */
  function RequestedFor(p: DrawPhase, requests: seq<DrawableRequest>, drawDataIndex: nat): seq<Drawable>
    decreases |requests|
  {
    if requests == [] then []
    else
      var last := requests[|requests| - 1];
      RequestedFor(p, requests[..|requests| - 1], drawDataIndex)
        + (if p in last.phases then Tag(last.drawables, drawDataIndex) else [])
  }

  /** Per phase: an active phase's list grows by exactly what was requested for it, in order;
      an inactive phase's list is unchanged. */
  lemma {:induction false} ApplyRequestsPerPhase(lists: seq<seq<Drawable>>, activePhases: set<DrawPhase>,
                                                 drawDataIndex: nat, requests: seq<DrawableRequest>, p: DrawPhase)
    requires |lists| == VariantCount
    ensures ApplyRequests(lists, activePhases, drawDataIndex, requests)[PhaseIndex(p)] ==
      lists[PhaseIndex(p)] + (if p in activePhases then RequestedFor(p, requests, drawDataIndex) else [])
    decreases |requests|
  {
    if requests != [] {
      var init, last := requests[..|requests| - 1], requests[|requests| - 1];
      var before := ApplyRequests(lists, activePhases, drawDataIndex, init);
      ApplyRequestsPerPhase(lists, activePhases, drawDataIndex, init, p);
      var k := PhaseIndex(p);
      assert ApplyRequests(lists, activePhases, drawDataIndex, requests)[k] ==
        if p in activePhases * last.phases then before[k] + Tag(last.drawables, drawDataIndex) else before[k];
      assert RequestedFor(p, requests, drawDataIndex) == RequestedFor(p, init, drawDataIndex)
        + (if p in last.phases then Tag(last.drawables, drawDataIndex) else []);
    }
  }

  /** Asking only for phases that are not active adds nothing anywhere. */
  lemma InactiveRequestIsNoOp(lists: seq<seq<Drawable>>, activePhases: set<DrawPhase>, phases: set<DrawPhase>,
                              drawDataIndex: nat, drawables: seq<DrawDataDrawable>)
    requires |lists| == VariantCount
    requires activePhases * phases == {}
    ensures AddToPhases(lists, activePhases * phases, drawDataIndex, drawables) == lists
  {
  }

  /** The requests with their phases narrowed to the active ones, as a draw data that consults
      `active_phases` before collecting would make them. */
  function RestrictRequests(requests: seq<DrawableRequest>, activePhases: set<DrawPhase>): (r: seq<DrawableRequest>)
    ensures |r| == |requests|
    decreases |requests|
  {
    if requests == [] then []
    else
      var last := requests[|requests| - 1];
      RestrictRequests(requests[..|requests| - 1], activePhases)
        + [DrawableRequest(activePhases * last.phases, last.drawables)]
  }

  /** Narrowing the requests to the active phases first changes no list: it only saves work. */
  lemma {:induction false} RestrictingToActivePhasesChangesNothing(
    lists: seq<seq<Drawable>>, activePhases: set<DrawPhase>, drawDataIndex: nat, requests: seq<DrawableRequest>)
    requires |lists| == VariantCount
    ensures ApplyRequests(lists, activePhases, drawDataIndex, RestrictRequests(requests, activePhases))
      == ApplyRequests(lists, activePhases, drawDataIndex, requests)
    decreases |requests|
  {
    if requests != [] {
      var n := |requests| - 1;
      var restricted := RestrictRequests(requests, activePhases);
      RestrictingToActivePhasesChangesNothing(lists, activePhases, drawDataIndex, requests[..n]);
      assert restricted[..n] == RestrictRequests(requests[..n], activePhases);
      assert activePhases * (activePhases * requests[n].phases) == activePhases * requests[n].phases;
    }
  }

  /** Holds the drawables of all active phases and the draw data they belong to. */
  class DrawPhaseManager<D> {
    const activePhases: set<DrawPhase>
    /** One list per phase, indexed by `PhaseIndex`. */
    const drawables: array<seq<Drawable>>
    var drawData: seq<D>

    ghost predicate Valid()
      reads this
    {
      drawables.Length == VariantCount
    }

    constructor (activePhases: set<DrawPhase>)
      ensures Valid() && fresh(drawables)
      ensures this.activePhases == activePhases
      ensures forall i :: 0 <= i < VariantCount ==> drawables[i] == []
      ensures drawData == []
    {
      this.activePhases := activePhases;
      drawables := new seq<Drawable>[VariantCount](_ => []);
      drawData := [];
    }

    /** Collects the drawables of `data` under the index it is about to get, then stores it.
        `collected` is the sequence of `add_drawables` calls its `collect_drawables` makes. */
    method AddDrawData(data: D, collected: seq<DrawableRequest>)
      requires Valid()
      modifies this, drawables
      ensures Valid()
      ensures drawData == old(drawData) + [data]
      ensures drawables[..] == ApplyRequests(old(drawables[..]), activePhases, AsU32(|old(drawData)|), collected)
    {
      var drawDataIndex := AsU32(|drawData|);
      var collector := new DrawableCollector(this, drawDataIndex);
      for k := 0 to |collected|
        invariant drawData == old(drawData)
        invariant drawables[..] == ApplyRequests(old(drawables[..]), activePhases, drawDataIndex, collected[..k])
      {
        assert collected[..k + 1][..k] == collected[..k];
        collector.AddDrawables(collected[k].phases, collected[k].drawables);
      }
      assert collected[..|collected|] == collected;
      drawData := drawData + [data];
    }
  }

  /** Adds drawables to a manager on behalf of the draw data with index `drawDataIndex`. */
  class DrawableCollector<D> {
    const manager: DrawPhaseManager<D>
    const drawDataIndex: nat

    constructor (manager: DrawPhaseManager<D>, drawDataIndex: nat)
      ensures this.manager == manager && this.drawDataIndex == drawDataIndex
    {
      this.manager := manager;
      this.drawDataIndex := drawDataIndex;
    }

    /** Appends the tagged drawables to the list of every phase that is both requested and active. */
    method AddDrawables(phases: set<DrawPhase>, drawables: seq<DrawDataDrawable>)
      requires manager.Valid()
      modifies manager.drawables
      ensures manager.drawables[..] ==
        AddToPhases(old(manager.drawables[..]), manager.activePhases * phases, drawDataIndex, drawables)
    {
      var selected := manager.activePhases * phases;
      var tagged := Tag(drawables, drawDataIndex);
      var lists := manager.drawables;
      // Iterating a phase set visits its phases in index order.
      for i := 0 to VariantCount
        invariant forall j :: 0 <= j < VariantCount ==>
          lists[j] == if j < i && PhaseAt(j) in selected then old(lists[j]) + tagged else old(lists[j])
      {
        if PhaseAt(i) in selected {
          lists[i] := lists[i] + tagged;
        }
      }
    }

    /** The single-drawable form of `AddDrawables`. */
    method AddDrawable(phases: set<DrawPhase>, drawable: DrawDataDrawable)
      requires manager.Valid()
      modifies manager.drawables
      ensures manager.drawables[..] ==
        AddToPhases(old(manager.drawables[..]), manager.activePhases * phases, drawDataIndex, [drawable])
    {
      AddDrawables(phases, [drawable]);
    }

    /** The phases `AddDrawables` honours, so that a draw data can skip collecting for the
        others (see `RestrictingToActivePhasesChangesNothing`). */
    function ActivePhases(): (r: set<DrawPhase>)
      reads this, manager
      ensures r == manager.activePhases
    {
      manager.activePhases
    }
  }
}
