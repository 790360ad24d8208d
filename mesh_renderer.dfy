/**
 * Instanced mesh rendering: the bookkeeping that groups mesh instances into one batch per mesh,
 * lays them out in a single instance buffer, decides in which phases each batch is drawn,
 * reports one drawable per batch, and selects what to draw in each phase.
 *
 * GPU resources are left out: an instance buffer is the sequence of its elements, a mesh is its
 * identity and its materials, and a render pass is the sequence of draw calls issued on it.
 */
module MeshRenderer {
  import opened Common
  import opened DrawPhases

  // ---------------------------------------------------------------------------------------------
  // Types
  // ---------------------------------------------------------------------------------------------

  /** Identity of a GPU mesh. It stands for the address of the mesh's shared allocation, whose
      order decides the order of the batches. */
  type MeshId = nat

  datatype Material = Material(hasTransparency: bool, indexRange: (nat, nat))

  datatype GpuMesh = GpuMesh(id: MeshId, materials: seq<Material>)

  /** An affine transform: the rows of its 3x3 matrix and its translation. */
  datatype Affine3 = Affine3(matrix3: seq<seq<real>>, translation: seq<real>)

  datatype Color32 = Color32(r: byte, g: byte, b: byte, a: byte)

  datatype PickingLayerId = PickingLayerId(objectId: nat, instanceId: nat)

  /** The two outline mask ids of an instance, if it is outlined at all. */
  datatype OutlineMaskPreference = OutlineMaskPreference(ids: Option<(byte, byte)>)

  datatype GpuMeshInstance = GpuMeshInstance(
    gpuMesh: GpuMesh,
    worldFromMesh: Affine3,
    additiveTint: Color32,
    outlineMaskIds: OutlineMaskPreference,
    pickingLayerId: PickingLayerId)

  /** One element of the instance buffer (without the normal matrix). */
  datatype InstanceData = InstanceData(
    worldFromMesh: Affine3,
    additiveTint: Color32,
    pickingLayerId: PickingLayerId,
    outlineMaskIds: seq<byte>)

  /** Instances of one mesh drawn together, from `instanceStartIndex` to `instanceEndIndex` in the
      instance buffer; the outlined ones come first and end at `instanceEndIndexWithOutlines`. */
  datatype MeshBatch = MeshBatch(
    mesh: GpuMesh,
    instanceStartIndex: nat,
    instanceEndIndex: nat,
    instanceEndIndexWithOutlines: nat,
    drawPhases: set<DrawPhase>)

  datatype MeshDrawData = MeshDrawData(instanceBuffer: Option<seq<InstanceData>>, batches: seq<MeshBatch>)

  predicate HasOutline(instance: GpuMeshInstance)
  {
    instance.outlineMaskIds.ids.Some?
  }

  // ---------------------------------------------------------------------------------------------
  // The instance buffer element
  // ---------------------------------------------------------------------------------------------

  /** The four outline bytes of the buffer: the two ids, padded with zeros, or all zeros. */
  function PackOutlineMask(mask: OutlineMaskPreference): (r: seq<byte>)
    ensures |r| == 4 && r[2] == 0 && r[3] == 0
    ensures mask.ids.None? ==> r == [0, 0, 0, 0]
    ensures mask.ids.Some? ==> (r[0], r[1]) == mask.ids.value
  {
    match mask.ids
    case None => [0, 0, 0, 0]
    case Some(ids) => [ids.0, ids.1, 0, 0]
  }

  function PackInstance(instance: GpuMeshInstance): InstanceData
  {
    InstanceData(instance.worldFromMesh, instance.additiveTint, instance.pickingLayerId,
                 PackOutlineMask(instance.outlineMaskIds))
  }

  function PackAll(instances: seq<GpuMeshInstance>): (r: seq<InstanceData>)
    ensures |r| == |instances|
    ensures forall i :: 0 <= i < |r| ==> r[i] == PackInstance(instances[i])
    decreases |instances|
  {
    if instances == [] then []
    else PackAll(instances[..|instances| - 1]) + [PackInstance(instances[|instances| - 1])]
  }

  // ---------------------------------------------------------------------------------------------
  // Grouping by mesh
  // ---------------------------------------------------------------------------------------------

  function MeshIds(instances: seq<GpuMeshInstance>): set<MeshId>
  {
    set i | 0 <= i < |instances| :: instances[i].gpuMesh.id
  }

  /** The instances of mesh `key`, in input order. */
  function InstancesOfMesh(instances: seq<GpuMeshInstance>, key: MeshId): (r: seq<GpuMeshInstance>)
    ensures forall i :: 0 <= i < |r| ==> r[i].gpuMesh.id == key
    decreases |instances|
  {
    if instances == [] then []
    else
      var last := instances[|instances| - 1];
      InstancesOfMesh(instances[..|instances| - 1], key) + (if last.gpuMesh.id == key then [last] else [])
  }

  /** The instances whose mesh is in `keys`, in input order. */
  function InstancesInMeshes(instances: seq<GpuMeshInstance>, keys: set<MeshId>): seq<GpuMeshInstance>
    decreases |instances|
  {
    if instances == [] then []
    else
      var last := instances[|instances| - 1];
      InstancesInMeshes(instances[..|instances| - 1], keys) + (if last.gpuMesh.id in keys then [last] else [])
  }

  /** The map the grouping loop builds: each instance appended to its mesh's list. */
  function GroupByMesh(instances: seq<GpuMeshInstance>): map<MeshId, seq<GpuMeshInstance>>
    decreases |instances|
  {
    if instances == [] then map[]
    else
      var groups := GroupByMesh(instances[..|instances| - 1]);
      var last := instances[|instances| - 1];
      var key := last.gpuMesh.id;
      groups[key := (if key in groups then groups[key] else []) + [last]]
  }

  // ---------------------------------------------------------------------------------------------
  // Outlined instances first (the stable sort by "has no outline")
  // ---------------------------------------------------------------------------------------------

  /** The instances of `group` that are (or are not) outlined, in order. */
  function WithOutline(group: seq<GpuMeshInstance>, outlined: bool): (r: seq<GpuMeshInstance>)
    ensures forall i :: 0 <= i < |r| ==> HasOutline(r[i]) == outlined
    decreases |group|
  {
    if group == [] then []
    else
      var last := group[|group| - 1];
      WithOutline(group[..|group| - 1], outlined) + (if HasOutline(last) == outlined then [last] else [])
  }

  /** What a stable sort on the key "has no outline" yields: outlined instances first, each part
      in its original order. */
  function OutlinedFirst(group: seq<GpuMeshInstance>): seq<GpuMeshInstance>
  {
    WithOutline(group, true) + WithOutline(group, false)
  }

  /** The number of outlined instances, as the batching loop counts them. */
  function NumOutlined(group: seq<GpuMeshInstance>): nat
    decreases |group|
  {
    if group == [] then 0
    else NumOutlined(group[..|group| - 1]) + (if HasOutline(group[|group| - 1]) then 1 else 0)
  }

  // ---------------------------------------------------------------------------------------------
  // Ascending mesh order (the order of the ordered map)
  // ---------------------------------------------------------------------------------------------

  /** `m` is the least element of `keys`. */
  predicate IsLeast(m: MeshId, keys: set<MeshId>)
  {
    m in keys && forall k :: k in keys ==> m <= k
  }

  lemma {:induction false} LeastExists(keys: set<MeshId>)
    requires keys != {}
    ensures exists m :: IsLeast(m, keys)
    decreases keys
  {
    var x :| x in keys;
    if keys == {x} {
      assert IsLeast(x, keys);
    } else {
      var rest := keys - {x};
      LeastExists(rest);
      var r :| IsLeast(r, rest);
      var m := if x < r then x else r;
      forall k | k in keys
        ensures m <= k
      {
        if k != x {
          assert k in rest;
        }
      }
      assert IsLeast(m, keys);
    }
  }

  function MinKey(keys: set<MeshId>): (m: MeshId)
    requires keys != {}
    ensures m in keys && forall k :: k in keys ==> m <= k
  {
    LeastExists(keys);
    var m :| IsLeast(m, keys);
    m
  }

  /** The keys in ascending order. */
  function SortedKeys(keys: set<MeshId>): seq<MeshId>
    decreases |keys|
  {
    if keys == {} then []
    else
      var m := MinKey(keys);
      [m] + SortedKeys(keys - {m})
  }

  /** The ordered map's key order: every key exactly once, ascending. */
  lemma {:induction false} SortedKeysAscending(keys: set<MeshId>)
    ensures |SortedKeys(keys)| == |keys|
    ensures forall i :: 0 <= i < |SortedKeys(keys)| ==> SortedKeys(keys)[i] in keys
    ensures forall k :: k in keys ==> k in SortedKeys(keys)
    ensures forall i, j :: 0 <= i < j < |SortedKeys(keys)| ==> SortedKeys(keys)[i] < SortedKeys(keys)[j]
    decreases |keys|
  {
    if keys != {} {
      var m := MinKey(keys);
      var rest := SortedKeys(keys - {m});
      SortedKeysAscending(keys - {m});
      assert SortedKeys(keys) == [m] + rest;
      forall i, j | 0 <= i < j < |SortedKeys(keys)| ensures SortedKeys(keys)[i] < SortedKeys(keys)[j] {
        assert SortedKeys(keys)[j] == rest[j - 1] && rest[j - 1] in keys - {m};
        if i > 0 {
          assert SortedKeys(keys)[i] == rest[i - 1];
        }
      }
    }
  }

  // ---------------------------------------------------------------------------------------------
  // Batches
  // ---------------------------------------------------------------------------------------------

  /** `any` over the materials' transparency flags. */
  predicate AnyMaterialHasTransparency(materials: seq<Material>)
    decreases |materials|
  {
    materials != [] &&
    (AnyMaterialHasTransparency(materials[..|materials| - 1]) || materials[|materials| - 1].hasTransparency)
  }

  /** `all` over the materials' transparency flags. */
  predicate AllMaterialsHaveTransparency(materials: seq<Material>)
    decreases |materials|
  {
    materials == [] ||
    (AllMaterialsHaveTransparency(materials[..|materials| - 1]) && materials[|materials| - 1].hasTransparency)
  }

  lemma {:induction false} TransparencyFlags(materials: seq<Material>)
    ensures AnyMaterialHasTransparency(materials) <==> exists m :: m in materials && m.hasTransparency
    ensures AllMaterialsHaveTransparency(materials) <==> forall m :: m in materials ==> m.hasTransparency
    decreases |materials|
  {
    if materials != [] {
      var init := materials[..|materials| - 1];
      TransparencyFlags(init);
      assert materials == init + [materials[|materials| - 1]];
    }
  }

  /** The phases a batch is drawn in. */
  function BatchPhases(hasOutlines: bool, materials: seq<Material>): set<DrawPhase>
  {
    {PickingLayer}
      + (if hasOutlines then {OutlineMask} else {})
      + (if AnyMaterialHasTransparency(materials) then {Transparent} else {})
      + (if !AllMaterialsHaveTransparency(materials) then {Opaque} else {})
  }

  /** The batch of the (sorted, non-empty) instances `group` placed at `start`. */
  function BatchOf(group: seq<GpuMeshInstance>, start: nat): MeshBatch
    requires group != []
  {
    var count := NumOutlined(group);
    MeshBatch(group[0].gpuMesh, start, start + |group|, start + count,
              BatchPhases(count > 0, group[0].gpuMesh.materials))
  }

  /** Batches and instance order after visiting the meshes `keys` in order. */
  function Layout(groups: map<MeshId, seq<GpuMeshInstance>>, keys: seq<MeshId>)
    : (seq<MeshBatch>, seq<GpuMeshInstance>)
    decreases |keys|
  {
    if keys == [] then ([], [])
    else
      var before := Layout(groups, keys[..|keys| - 1]);
      var key := keys[|keys| - 1];
      var group := if key in groups then OutlinedFirst(groups[key]) else [];
      if group == [] then before
      else (before.0 + [BatchOf(group, |before.1|)], before.1 + group)
  }

  /** What `MeshDrawData::new` builds from `instances`. */
  function MeshDrawDataOf(instances: seq<GpuMeshInstance>): MeshDrawData
  {
    if instances == [] then MeshDrawData(None, [])
    else
      var groups := GroupByMesh(instances);
      var layout := Layout(groups, SortedKeys(groups.Keys));
      MeshDrawData(Some(PackAll(layout.1)), layout.0)
  }

  /** Groups the instances by mesh, lays each group out outlined-first in one instance buffer,
      and makes one batch per mesh in ascending mesh order; every instance is processed once. */
  method NewMeshDrawData(instances: seq<GpuMeshInstance>) returns (d: MeshDrawData)
    ensures d == MeshDrawDataOf(instances)
  {
    if instances == [] {
      return MeshDrawData(None, []);
    }

    var instancesByMesh: map<MeshId, seq<GpuMeshInstance>> := map[];
    for i := 0 to |instances|
      invariant instancesByMesh == GroupByMesh(instances[..i])
    {
      assert instances[..i + 1][..i] == instances[..i];
      var instance := instances[i];
      var key := instance.gpuMesh.id;
      var group := if key in instancesByMesh then instancesByMesh[key] else [];
      instancesByMesh := instancesByMesh[key := group + [instance]];
    }
    assert instances[..|instances|] == instances;

    var batches, staging, numProcessedInstances := LayOutBatches(instancesByMesh);
    LayoutIsPermutation(instances);
    assert |multiset(Layout(instancesByMesh, SortedKeys(instancesByMesh.Keys)).1)| == |multiset(instances)|;
    assert numProcessedInstances == |instances|;
    d := MeshDrawData(Some(staging), batches);
  }

  /** The batching loop of `NewMeshDrawData`: visits the meshes in ascending order, lays out each
      one's instances outlined-first and makes its batch. */
  method LayOutBatches(instancesByMesh: map<MeshId, seq<GpuMeshInstance>>)
    returns (batches: seq<MeshBatch>, staging: seq<InstanceData>, numProcessedInstances: nat)
    ensures var layout := Layout(instancesByMesh, SortedKeys(instancesByMesh.Keys));
      batches == layout.0 && staging == PackAll(layout.1) && numProcessedInstances == |layout.1|
  {
    batches, staging, numProcessedInstances := [], [], 0;
    ghost var arranged: seq<GpuMeshInstance> := [];
    ghost var visited: seq<MeshId> := [];
    var remaining := instancesByMesh.Keys;
    while remaining != {}
      invariant remaining <= instancesByMesh.Keys
      invariant visited + SortedKeys(remaining) == SortedKeys(instancesByMesh.Keys)
      invariant batches == Layout(instancesByMesh, visited).0
      invariant arranged == Layout(instancesByMesh, visited).1
      invariant staging == PackAll(arranged)
      invariant numProcessedInstances == |arranged|
      decreases |remaining|
    {
      var key := MinKey(remaining);
      SortedKeysStep(visited, remaining, instancesByMesh.Keys);
      ghost var previous := visited;
      visited := visited + [key];
      remaining := remaining - {key};

      // Outlined instances go to the start of the batch's range.
      var group := OutlinedFirst(instancesByMesh[key]);
      if group == [] {
        LayoutSnoc(instancesByMesh, previous, key);
        continue;
      }
      LayoutSnoc(instancesByMesh, previous, key);
      PackAllAppend(arranged, group);
      batches, staging, numProcessedInstances := AppendBatch(batches, staging, numProcessedInstances, group);
      arranged := arranged + group;
    }
    assert visited == SortedKeys(instancesByMesh.Keys);
  }

  /** One mesh's turn in the batching loop: stages its (non-empty) group at the end of the buffer
      and appends the batch covering it. */
  method AppendBatch(batches: seq<MeshBatch>, staging: seq<InstanceData>, numProcessedInstances: nat,
                     group: seq<GpuMeshInstance>)
    returns (batchesAfter: seq<MeshBatch>, stagingAfter: seq<InstanceData>, numAfter: nat)
    requires group != []
    ensures batchesAfter == batches + [BatchOf(group, numProcessedInstances)]
    ensures stagingAfter == staging + PackAll(group)
    ensures numAfter == numProcessedInstances + |group|
  {
    var mesh := group[0].gpuMesh;
    var count, countWithOutlines;
    stagingAfter, count, countWithOutlines := StageInstances(staging, group);
    var drawPhases := PhasesOfBatch(countWithOutlines, mesh.materials);
    var batch := MeshBatch(mesh, numProcessedInstances, numProcessedInstances + count,
                           numProcessedInstances + countWithOutlines, drawPhases);
    assert batch == BatchOf(group, numProcessedInstances);
    batchesAfter := batches + [batch];
    numAfter := numProcessedInstances + count;
  }

  /** The phases of a batch with `countWithOutlines` outlined instances and the given materials. */
  method PhasesOfBatch(countWithOutlines: nat, materials: seq<Material>) returns (drawPhases: set<DrawPhase>)
    ensures drawPhases == BatchPhases(countWithOutlines > 0, materials)
  {
    var anyMaterialHasTransparency := AnyMaterialHasTransparency(materials);
    var allMaterialsHaveTransparency := AllMaterialsHaveTransparency(materials);
    drawPhases := {PickingLayer};
    if countWithOutlines > 0 {
      drawPhases := drawPhases + {OutlineMask};
    }
    if anyMaterialHasTransparency {
      drawPhases := drawPhases + {Transparent};
    }
    if !allMaterialsHaveTransparency {
      drawPhases := drawPhases + {Opaque};
    }
  }

  /** Appends the instances of one batch to the staging buffer, counting them and the outlined ones. */
  method StageInstances(staging: seq<InstanceData>, group: seq<GpuMeshInstance>)
    returns (staged: seq<InstanceData>, count: nat, countWithOutlines: nat)
    ensures staged == staging + PackAll(group)
    ensures count == |group| && countWithOutlines == NumOutlined(group)
  {
    staged, count, countWithOutlines := staging, 0, 0;
    for j := 0 to |group|
      invariant count == j
      invariant countWithOutlines == NumOutlined(group[..j])
      invariant staged == staging + PackAll(group[..j])
    {
      StageStep(group, j);
      count := count + 1;
      countWithOutlines := countWithOutlines + (if HasOutline(group[j]) then 1 else 0);
      staged := staged + [PackInstance(group[j])];
    }
    assert group[..|group|] == group;
  }

  /** Staging one more instance of a group packs it at the end and counts its outline. */
  lemma StageStep(group: seq<GpuMeshInstance>, j: nat)
    requires j < |group|
    ensures PackAll(group[..j + 1]) == PackAll(group[..j]) + [PackInstance(group[j])]
    ensures NumOutlined(group[..j + 1]) == NumOutlined(group[..j]) + (if HasOutline(group[j]) then 1 else 0)
  {
    assert group[..j + 1] == group[..j] + [group[j]];
    PackAllSnoc(group[..j], group[j]);
  }

  lemma LayoutSnoc(groups: map<MeshId, seq<GpuMeshInstance>>, keys: seq<MeshId>, key: MeshId)
    ensures var before := Layout(groups, keys);
      var group := if key in groups then OutlinedFirst(groups[key]) else [];
      Layout(groups, keys + [key]) ==
        if group == [] then before else (before.0 + [BatchOf(group, |before.1|)], before.1 + group)
  {
    assert (keys + [key])[..|keys|] == keys;
  }

  lemma SortedKeysStep(visited: seq<MeshId>, remaining: set<MeshId>, all: set<MeshId>)
    requires remaining != {}
    requires visited + SortedKeys(remaining) == SortedKeys(all)
    ensures (visited + [MinKey(remaining)]) + SortedKeys(remaining - {MinKey(remaining)}) == SortedKeys(all)
  {
    var key := MinKey(remaining);
    assert SortedKeys(remaining) == [key] + SortedKeys(remaining - {key});
  }

  lemma PackAllAppend(front: seq<GpuMeshInstance>, back: seq<GpuMeshInstance>)
    ensures PackAll(front + back) == PackAll(front) + PackAll(back)
  {
    assert forall i :: 0 <= i < |front + back| ==>
      PackAll(front + back)[i] == (PackAll(front) + PackAll(back))[i];
  }

  lemma PackAllSnoc(arranged: seq<GpuMeshInstance>, instance: GpuMeshInstance)
    ensures PackAll(arranged + [instance]) == PackAll(arranged) + [PackInstance(instance)]
  {
    assert (arranged + [instance])[..|arranged|] == arranged;
  }

  // ---------------------------------------------------------------------------------------------
  // Lemmas: grouping
  // ---------------------------------------------------------------------------------------------

  lemma MeshIdsSnoc(instances: seq<GpuMeshInstance>)
    requires instances != []
    ensures MeshIds(instances) == MeshIds(instances[..|instances| - 1]) + {instances[|instances| - 1].gpuMesh.id}
  {
    var init := instances[..|instances| - 1];
    forall k | k in MeshIds(instances)
      ensures k in MeshIds(init) + {instances[|instances| - 1].gpuMesh.id}
    {
      var i :| 0 <= i < |instances| && instances[i].gpuMesh.id == k;
      if i < |init| {
        assert init[i] == instances[i];
      }
    }
    forall k | k in MeshIds(init)
      ensures k in MeshIds(instances)
    {
      var i :| 0 <= i < |init| && init[i].gpuMesh.id == k;
      assert instances[i] == init[i];
    }
  }

  /** The grouping has one entry per mesh of the input. */
  lemma {:induction false} GroupByMeshKeys(instances: seq<GpuMeshInstance>)
    ensures GroupByMesh(instances).Keys == MeshIds(instances)
    decreases |instances|
  {
    if instances != [] {
      GroupByMeshKeys(instances[..|instances| - 1]);
      MeshIdsSnoc(instances);
    }
  }

  /** The grouping map has one non-empty entry per mesh: the instances of that mesh, in order. */
  lemma {:induction false} GroupByMeshIsPartition(instances: seq<GpuMeshInstance>)
    ensures GroupByMesh(instances).Keys == MeshIds(instances)
    ensures forall k :: k in GroupByMesh(instances) ==>
      GroupByMesh(instances)[k] == InstancesOfMesh(instances, k) && GroupByMesh(instances)[k] != []
    decreases |instances|
  {
    GroupByMeshKeys(instances);
    if instances != [] {
      var init := instances[..|instances| - 1];
      var last := instances[|instances| - 1];
      GroupByMeshIsPartition(init);
      var before := GroupByMesh(init);
      var groups := GroupByMesh(instances);
      if last.gpuMesh.id !in before {
        InstancesOfAbsentMesh(init, last.gpuMesh.id);
      }
      forall k | k in groups
        ensures groups[k] == InstancesOfMesh(instances, k) && groups[k] != []
      {
        assert InstancesOfMesh(instances, k) ==
          InstancesOfMesh(init, k) + (if last.gpuMesh.id == k then [last] else []);
      }
    }
  }

  /** Splitting off one mesh from a set of meshes splits its instances accordingly. */
  lemma {:induction false} InstancesInMeshesAdd(instances: seq<GpuMeshInstance>, keys: set<MeshId>, key: MeshId)
    requires key !in keys
    ensures multiset(InstancesInMeshes(instances, keys + {key})) ==
      multiset(InstancesInMeshes(instances, keys)) + multiset(InstancesOfMesh(instances, key))
    decreases |instances|
  {
    if instances != [] {
      var init := instances[..|instances| - 1];
      var last := instances[|instances| - 1];
      InstancesInMeshesAdd(init, keys, key);
      var tail := if last.gpuMesh.id in keys + {key} then [last] else [];
      assert InstancesInMeshes(instances, keys + {key}) == InstancesInMeshes(init, keys + {key}) + tail;
      assert multiset(InstancesInMeshes(instances, keys + {key})) ==
        multiset(InstancesInMeshes(init, keys + {key})) + multiset(tail);
    }
  }

  lemma {:induction false} InstancesInAllMeshes(instances: seq<GpuMeshInstance>, keys: set<MeshId>)
    requires MeshIds(instances) <= keys
    ensures InstancesInMeshes(instances, keys) == instances
    decreases |instances|
  {
    if instances != [] {
      var init, last := instances[..|instances| - 1], instances[|instances| - 1];
      MeshIdsSnoc(instances);
      InstancesInAllMeshes(init, keys);
      assert InstancesInMeshes(instances, keys) == InstancesInMeshes(init, keys) + [last];
      assert instances == init + [last];
    }
  }

  // ---------------------------------------------------------------------------------------------
  // Lemmas: outlined first
  // ---------------------------------------------------------------------------------------------

  lemma {:induction false} WithOutlineSplits(group: seq<GpuMeshInstance>)
    ensures multiset(WithOutline(group, true)) + multiset(WithOutline(group, false)) == multiset(group)
    ensures |WithOutline(group, true)| == NumOutlined(group)
    decreases |group|
  {
    if group != [] {
      var init := group[..|group| - 1];
      WithOutlineSplits(init);
      assert group == init + [group[|group| - 1]];
    }
  }

  /** A group laid out outlined-first is a permutation of the group whose outlined instances are
      exactly the first `NumOutlined(group)` ones. */
  lemma OutlinedFirstIsSortedPermutation(group: seq<GpuMeshInstance>)
    ensures multiset(OutlinedFirst(group)) == multiset(group)
    ensures |OutlinedFirst(group)| == |group|
    ensures NumOutlined(group) <= |group|
    ensures forall i :: 0 <= i < |group| ==> (HasOutline(OutlinedFirst(group)[i]) <==> i < NumOutlined(group))
  {
    WithOutlineSplits(group);
    assert |multiset(OutlinedFirst(group))| == |multiset(group)|;
  }

  /** The batching loop's count over a sorted group is the number of outlined instances. */
  lemma {:induction false} NumOutlinedOfSorted(s: seq<GpuMeshInstance>, n: nat)
    requires n <= |s|
    requires forall i :: 0 <= i < |s| ==> (HasOutline(s[i]) <==> i < n)
    ensures NumOutlined(s) == n
    decreases |s|
  {
    if s != [] {
      var init := s[..|s| - 1];
      if n == |s| {
        NumOutlinedOfSorted(init, n - 1);
      } else {
        NumOutlinedOfSorted(init, n);
      }
    }
  }

  // ---------------------------------------------------------------------------------------------
  // Lemmas: layout
  // ---------------------------------------------------------------------------------------------

  /** Batch ranges start at 0, each starts where the previous ends, the last ends at `total`, and
      the outlined part of each lies within it. */
  ghost predicate Tiles(batches: seq<MeshBatch>, total: nat)
  {
    && (batches == [] ==> total == 0)
    && (batches != [] ==> batches[0].instanceStartIndex == 0 && batches[|batches| - 1].instanceEndIndex == total)
    && (forall i :: 0 <= i < |batches| - 1 ==> batches[i].instanceEndIndex == batches[i + 1].instanceStartIndex)
    && (forall i :: 0 <= i < |batches| ==>
          batches[i].instanceStartIndex <= batches[i].instanceEndIndexWithOutlines <= batches[i].instanceEndIndex)
  }

  /** Batch `b` is the batch of the non-empty `group`, which lies at its range in `arranged`. */
  ghost predicate BatchPlaced(b: MeshBatch, group: seq<GpuMeshInstance>, arranged: seq<GpuMeshInstance>)
  {
    && group != []
    && b == BatchOf(group, b.instanceStartIndex)
    && b.instanceEndIndex <= |arranged|
    && arranged[b.instanceStartIndex..b.instanceEndIndex] == group
  }

  lemma BatchPlacedExtend(b: MeshBatch, group: seq<GpuMeshInstance>, arranged: seq<GpuMeshInstance>,
                          more: seq<GpuMeshInstance>)
    requires BatchPlaced(b, group, arranged)
    ensures BatchPlaced(b, group, arranged + more)
  {
    assert (arranged + more)[b.instanceStartIndex..b.instanceEndIndex]
      == arranged[b.instanceStartIndex..b.instanceEndIndex];
  }

  lemma NewBatchPlaced(group: seq<GpuMeshInstance>, arranged: seq<GpuMeshInstance>)
    requires group != []
    ensures BatchPlaced(BatchOf(group, |arranged|), group, arranged + group)
  {
    assert (arranged + group)[|arranged|..|arranged| + |group|] == group;
  }

  lemma {:induction false} NumOutlinedBound(group: seq<GpuMeshInstance>)
    ensures NumOutlined(group) <= |group|
    decreases |group|
  {
    if group != [] {
      NumOutlinedBound(group[..|group| - 1]);
    }
  }

  lemma TilesExtend(batches: seq<MeshBatch>, total: nat, group: seq<GpuMeshInstance>)
    requires Tiles(batches, total) && group != []
    ensures Tiles(batches + [BatchOf(group, total)], total + |group|)
  {
    NumOutlinedBound(group);
  }

  /** Visiting one more mesh with a non-empty group appends its batch and its instances. */
  lemma LayoutUnfold(groups: map<MeshId, seq<GpuMeshInstance>>, keys: seq<MeshId>)
    requires keys != [] && keys[|keys| - 1] in groups && groups[keys[|keys| - 1]] != []
    ensures var before := Layout(groups, keys[..|keys| - 1]);
      var group := OutlinedFirst(groups[keys[|keys| - 1]]);
      && group != []
      && Layout(groups, keys) == (before.0 + [BatchOf(group, |before.1|)], before.1 + group)
  {
    OutlinedFirstIsSortedPermutation(groups[keys[|keys| - 1]]);
  }

  /** Visiting meshes whose groups are non-empty yields one batch per mesh, tiling the buffer. */
  lemma {:induction false} LayoutTiles(groups: map<MeshId, seq<GpuMeshInstance>>, keys: seq<MeshId>)
    requires forall i :: 0 <= i < |keys| ==> keys[i] in groups && groups[keys[i]] != []
    ensures |Layout(groups, keys).0| == |keys|
    ensures Tiles(Layout(groups, keys).0, |Layout(groups, keys).1|)
    decreases |keys|
  {
    if keys != [] {
      var init := keys[..|keys| - 1];
      LayoutTiles(groups, init);
      LayoutUnfold(groups, keys);
      var before := Layout(groups, init);
      TilesExtend(before.0, |before.1|, OutlinedFirst(groups[keys[|keys| - 1]]));
    }
  }

  /** Each batch covers exactly its mesh's instances laid out outlined-first. */
  lemma {:induction false} LayoutPlaced(groups: map<MeshId, seq<GpuMeshInstance>>, keys: seq<MeshId>)
    requires forall i :: 0 <= i < |keys| ==> keys[i] in groups && groups[keys[i]] != []
    ensures |Layout(groups, keys).0| == |keys|
    ensures forall i :: 0 <= i < |keys| ==>
      BatchPlaced(Layout(groups, keys).0[i], OutlinedFirst(groups[keys[i]]), Layout(groups, keys).1)
    decreases |keys|
  {
    if keys != [] {
      var init := keys[..|keys| - 1];
      var key := keys[|keys| - 1];
      LayoutPlaced(groups, init);
      LayoutUnfold(groups, keys);
      var before := Layout(groups, init);
      var group := OutlinedFirst(groups[key]);
      var layout := Layout(groups, keys);
      forall i | 0 <= i < |keys|
        ensures BatchPlaced(layout.0[i], OutlinedFirst(groups[keys[i]]), layout.1)
      {
        if i < |init| {
          assert layout.0[i] == before.0[i] && keys[i] == init[i];
          BatchPlacedExtend(before.0[i], OutlinedFirst(groups[init[i]]), before.1, group);
        } else {
          NewBatchPlaced(group, before.1);
        }
      }
    }
  }

  /** The meshes visited by `keys`. */
  ghost function KeySet(keys: seq<MeshId>): (r: set<MeshId>)
    ensures forall k :: k in r <==> k in keys
    decreases |keys|
  {
    if keys == [] then {}
    else KeySet(keys[..|keys| - 1]) + {keys[|keys| - 1]}
  }

  /** Visiting distinct meshes rearranges exactly the instances of those meshes. */
  lemma {:induction false} LayoutPermutes(instances: seq<GpuMeshInstance>, keys: seq<MeshId>)
    requires forall i, j :: 0 <= i < j < |keys| ==> keys[i] < keys[j]
    ensures multiset(Layout(GroupByMesh(instances), keys).1) ==
      multiset(InstancesInMeshes(instances, KeySet(keys)))
    decreases |keys|
  {
    var groups := GroupByMesh(instances);
    if keys == [] {
      InstancesInNoMesh(instances);
    } else {
      GroupByMeshIsPartition(instances);
      var init := keys[..|keys| - 1];
      var key := keys[|keys| - 1];
      LayoutPermutes(instances, init);
      assert key !in init;
      InstancesInMeshesAdd(instances, KeySet(init), key);
      if key in groups {
        OutlinedFirstIsSortedPermutation(groups[key]);
      } else {
        InstancesOfAbsentMesh(instances, key);
      }
    }
  }

  lemma {:induction false} InstancesInNoMesh(instances: seq<GpuMeshInstance>)
    ensures InstancesInMeshes(instances, {}) == []
    decreases |instances|
  {
    if instances != [] {
      InstancesInNoMesh(instances[..|instances| - 1]);
    }
  }

  lemma {:induction false} InstancesOfAbsentMesh(instances: seq<GpuMeshInstance>, key: MeshId)
    requires key !in MeshIds(instances)
    ensures InstancesOfMesh(instances, key) == []
    decreases |instances|
  {
    if instances != [] {
      MeshIdsSnoc(instances);
      InstancesOfAbsentMesh(instances[..|instances| - 1], key);
    }
  }

  lemma PackAllSlice(arranged: seq<GpuMeshInstance>, lo: nat, hi: nat)
    requires lo <= hi <= |arranged|
    ensures PackAll(arranged)[lo..hi] == PackAll(arranged[lo..hi])
  {
  }

  /** The batch placed for the instances `own` of mesh `key`: its mesh, its range, its outlined
      part and its phases. */
  lemma OwnBatch(b: MeshBatch, own: seq<GpuMeshInstance>, key: MeshId, arranged: seq<GpuMeshInstance>)
    requires forall i :: 0 <= i < |own| ==> own[i].gpuMesh.id == key
    requires BatchPlaced(b, OutlinedFirst(own), arranged)
    ensures b.mesh.id == key
    ensures b.instanceEndIndex - b.instanceStartIndex == |own|
    ensures b.instanceEndIndexWithOutlines - b.instanceStartIndex == NumOutlined(own)
    ensures b.drawPhases == BatchPhases(NumOutlined(own) > 0, b.mesh.materials)
    ensures b.instanceEndIndex <= |arranged|
    ensures PackAll(arranged)[b.instanceStartIndex..b.instanceEndIndex] == PackAll(OutlinedFirst(own))
  {
    var g := OutlinedFirst(own);
    OutlinedFirstIsSortedPermutation(own);
    NumOutlinedOfSorted(g, NumOutlined(own));
    assert g[0] in multiset(own);
    PackAllSlice(arranged, b.instanceStartIndex, b.instanceEndIndex);
  }

  /** The sorted keys visit exactly the meshes of the set. */
  lemma SortedKeysVisitAll(s: set<MeshId>)
    ensures KeySet(SortedKeys(s)) == s
  {
    SortedKeysAscending(s);
  }

  /** Laying out all meshes in ascending order rearranges exactly the input instances. */
  lemma LayoutIsPermutation(instances: seq<GpuMeshInstance>)
    ensures var groups := GroupByMesh(instances);
      multiset(Layout(groups, SortedKeys(groups.Keys)).1) == multiset(instances)
  {
    var groups := GroupByMesh(instances);
    GroupByMeshKeys(instances);
    var keys := SortedKeys(groups.Keys);
    SortedKeysAscending(groups.Keys);
    LayoutPermutes(instances, keys);
    SortedKeysVisitAll(groups.Keys);
    InstancesInAllMeshes(instances, MeshIds(instances));
  }

  /** The batches of a non-empty instance list: one per mesh, tiling an instance buffer of exactly
      `|instances|` elements that holds a rearrangement of the input. */
  lemma MeshDrawDataShape(instances: seq<GpuMeshInstance>)
    requires instances != []
    ensures var d := MeshDrawDataOf(instances);
      var keys := SortedKeys(MeshIds(instances));
      && d.instanceBuffer.Some?
      && |d.instanceBuffer.value| == |instances|
      && multiset(Layout(GroupByMesh(instances), keys).1) == multiset(instances)
      && |d.batches| == |keys|
      && Tiles(d.batches, |instances|)
  {
    var groups := GroupByMesh(instances);
    GroupByMeshIsPartition(instances);
    var keys := SortedKeys(groups.Keys);
    SortedKeysAscending(groups.Keys);
    LayoutIsPermutation(instances);
    LayoutTiles(groups, keys);
    var layout := Layout(groups, keys);
    assert |multiset(layout.1)| == |multiset(instances)|;
  }

  /** Batch `i` of a non-empty instance list belongs to the `i`-th mesh in ascending order: it
      covers that mesh's instances, outlined ones first, and is drawn in the phases its outlines
      and materials call for. */
  lemma MeshDrawDataBatch(instances: seq<GpuMeshInstance>, i: nat)
    requires instances != [] && i < |SortedKeys(MeshIds(instances))|
    ensures var d := MeshDrawDataOf(instances);
      var keys := SortedKeys(MeshIds(instances));
      var own := InstancesOfMesh(instances, keys[i]);
      && d.instanceBuffer.Some?
      && i < |d.batches|
      && d.batches[i].mesh.id == keys[i]
      && d.batches[i].instanceEndIndex - d.batches[i].instanceStartIndex == |own|
      && d.batches[i].instanceEndIndexWithOutlines - d.batches[i].instanceStartIndex == NumOutlined(own)
      && d.batches[i].drawPhases == BatchPhases(NumOutlined(own) > 0, d.batches[i].mesh.materials)
      && d.batches[i].instanceEndIndex <= |d.instanceBuffer.value|
      && d.instanceBuffer.value[d.batches[i].instanceStartIndex..d.batches[i].instanceEndIndex]
         == PackAll(OutlinedFirst(own))
  {
    var groups := GroupByMesh(instances);
    GroupByMeshIsPartition(instances);
    var keys := SortedKeys(groups.Keys);
    SortedKeysAscending(groups.Keys);
    LayoutPlaced(groups, keys);
    var layout := Layout(groups, keys);
    assert MeshDrawDataOf(instances) == MeshDrawData(Some(PackAll(layout.1)), layout.0);
    OwnBatch(layout.0[i], groups[keys[i]], keys[i], layout.1);
  }

  /** Every batch of a non-empty instance list, as `MeshDrawDataBatch` describes it. */
  lemma MeshDrawDataBatches(instances: seq<GpuMeshInstance>)
    requires instances != []
    ensures var d := MeshDrawDataOf(instances);
      var keys := SortedKeys(MeshIds(instances));
      && d.instanceBuffer.Some?
      && |d.batches| == |keys|
      && forall i :: 0 <= i < |d.batches| ==>
           var b := d.batches[i];
           var own := InstancesOfMesh(instances, keys[i]);
           && b.mesh.id == keys[i]
           && b.instanceEndIndex - b.instanceStartIndex == |own|
           && b.instanceEndIndexWithOutlines - b.instanceStartIndex == NumOutlined(own)
           && b.drawPhases == BatchPhases(NumOutlined(own) > 0, b.mesh.materials)
           && b.instanceEndIndex <= |d.instanceBuffer.value|
           && d.instanceBuffer.value[b.instanceStartIndex..b.instanceEndIndex] == PackAll(OutlinedFirst(own))
  {
    MeshDrawDataShape(instances);
    var d := MeshDrawDataOf(instances);
    forall i | 0 <= i < |d.batches|
      ensures var b := d.batches[i];
        var own := InstancesOfMesh(instances, SortedKeys(MeshIds(instances))[i]);
        && b.mesh.id == SortedKeys(MeshIds(instances))[i]
        && b.instanceEndIndex - b.instanceStartIndex == |own|
        && b.instanceEndIndexWithOutlines - b.instanceStartIndex == NumOutlined(own)
        && b.drawPhases == BatchPhases(NumOutlined(own) > 0, b.mesh.materials)
        && b.instanceEndIndex <= |d.instanceBuffer.value|
        && d.instanceBuffer.value[b.instanceStartIndex..b.instanceEndIndex] == PackAll(OutlinedFirst(own))
    {
      MeshDrawDataBatch(instances, i);
    }
  }

  /** The phases of a batch: always picking; outline mask iff something is outlined; transparent
      iff some material is transparent; opaque iff some material is not. */
  lemma BatchPhasesMembership(hasOutlines: bool, materials: seq<Material>)
    ensures PickingLayer in BatchPhases(hasOutlines, materials)
    ensures OutlineMask in BatchPhases(hasOutlines, materials) <==> hasOutlines
    ensures Transparent in BatchPhases(hasOutlines, materials) <==> exists m :: m in materials && m.hasTransparency
    ensures Opaque in BatchPhases(hasOutlines, materials) <==> exists m :: m in materials && !m.hasTransparency
    ensures BatchPhases(hasOutlines, materials) <= {PickingLayer, OutlineMask, Transparent, Opaque}
  {
    TransparencyFlags(materials);
  }

  /** No instances: no batches and no instance buffer. */
  lemma EmptyInstancesDrawNothing()
    ensures MeshDrawDataOf([]) == MeshDrawData(None, [])
  {
  }

  // ---------------------------------------------------------------------------------------------
  // Drawables
  // ---------------------------------------------------------------------------------------------

  /** `f32::MAX`, the distance sort key of every mesh drawable. */
  const F32Max: real := 340282346638528859811704183484516925440.0

  /** The `add_drawable` calls `collect_drawables` makes: one per batch, with the batch's phases
      and its index as payload. */
  function MeshDrawableRequests(d: MeshDrawData): seq<DrawableRequest>
  {
    seq(|d.batches|, i requires 0 <= i < |d.batches| =>
      DrawableRequest(d.batches[i].drawPhases, [DrawDataDrawable(F32Max, AsU32(i))]))
  }

  method CollectDrawables<D>(d: MeshDrawData, collector: DrawableCollector<D>)
    requires collector.manager.Valid()
    modifies collector.manager.drawables
    ensures collector.manager.drawables[..] == ApplyRequests(old(collector.manager.drawables[..]),
      collector.manager.activePhases, collector.drawDataIndex, MeshDrawableRequests(d))
  {
    var requests := MeshDrawableRequests(d);
    for batchIndex := 0 to |d.batches|
      invariant collector.manager.drawables[..] == ApplyRequests(old(collector.manager.drawables[..]),
        collector.manager.activePhases, collector.drawDataIndex, requests[..batchIndex])
    {
      assert requests[..batchIndex + 1][..batchIndex] == requests[..batchIndex];
      collector.AddDrawable(d.batches[batchIndex].drawPhases, DrawDataDrawable(F32Max, AsU32(batchIndex)));
    }
    assert requests[..|d.batches|] == requests;
  }

  /** The indices of the batches drawn in phase `p`, ascending. */
  function BatchesInPhase(batches: seq<MeshBatch>, p: DrawPhase): (r: seq<nat>)
    ensures forall j :: 0 <= j < |r| ==> r[j] < |batches| && p in batches[r[j]].drawPhases
    ensures forall j, k :: 0 <= j < k < |r| ==> r[j] < r[k]
    ensures forall i :: 0 <= i < |batches| && p in batches[i].drawPhases ==> i in r
    decreases |batches|
  {
    if batches == [] then []
    else
      var n := |batches| - 1;
      BatchesInPhase(batches[..n], p) + (if p in batches[n].drawPhases then [n] else [])
  }

  /** The last batch's request adds its one drawable to phase `p` when the batch is drawn there. */
  lemma MeshDrawableRequestsSnoc(d: MeshDrawData, p: DrawPhase, drawDataIndex: nat)
    requires d.batches != []
    ensures var n := |d.batches| - 1;
      RequestedFor(p, MeshDrawableRequests(d), drawDataIndex) ==
        RequestedFor(p, MeshDrawableRequests(d.(batches := d.batches[..n])), drawDataIndex)
          + (if p in d.batches[n].drawPhases then [Drawable(DrawDataDrawable(F32Max, AsU32(n)), drawDataIndex)] else [])
  {
    var n := |d.batches| - 1;
    var requests := MeshDrawableRequests(d);
    assert requests[..n] == MeshDrawableRequests(d.(batches := d.batches[..n]));
    assert Tag([DrawDataDrawable(F32Max, AsU32(n))], drawDataIndex) == [Drawable(DrawDataDrawable(F32Max, AsU32(n)), drawDataIndex)];
  }

  /** Per phase, a mesh draw data contributes exactly one drawable per batch drawn in that phase,
      in batch order, whose payload is the batch's index. */
  lemma {:induction false} MeshDrawablesPerPhase(d: MeshDrawData, p: DrawPhase, drawDataIndex: nat)
    ensures |RequestedFor(p, MeshDrawableRequests(d), drawDataIndex)| == |BatchesInPhase(d.batches, p)|
    ensures forall j :: 0 <= j < |BatchesInPhase(d.batches, p)| ==>
      RequestedFor(p, MeshDrawableRequests(d), drawDataIndex)[j] ==
        Drawable(DrawDataDrawable(F32Max, AsU32(BatchesInPhase(d.batches, p)[j])), drawDataIndex)
    decreases |d.batches|
  {
    if d.batches != [] {
      var n := |d.batches| - 1;
      var shorter := d.(batches := d.batches[..n]);
      MeshDrawablesPerPhase(shorter, p, drawDataIndex);
      MeshDrawableRequestsSnoc(d, p, drawDataIndex);
      var before := RequestedFor(p, MeshDrawableRequests(shorter), drawDataIndex);
      var inPhase := BatchesInPhase(shorter.batches, p);
      assert d.batches[..n] == shorter.batches;
      var all := RequestedFor(p, MeshDrawableRequests(d), drawDataIndex);
      var allInPhase := BatchesInPhase(d.batches, p);
      assert allInPhase == inPhase + (if p in d.batches[n].drawPhases then [n] else []);
      forall j | 0 <= j < |allInPhase|
        ensures all[j] == Drawable(DrawDataDrawable(F32Max, AsU32(allInPhase[j])), drawDataIndex)
      {
        if j < |inPhase| {
          assert all[j] == before[j] && allInPhase[j] == inPhase[j];
        }
      }
    }
  }

  /** Every drawable a mesh draw data collects, in any phase, has a payload naming one of its
      batches: the `u32` cast of a batch index never exceeds the index. */
  lemma CollectedPayloadsInRange(d: MeshDrawData, p: DrawPhase, drawDataIndex: nat)
    ensures forall j :: 0 <= j < |RequestedFor(p, MeshDrawableRequests(d), drawDataIndex)| ==>
      RequestedFor(p, MeshDrawableRequests(d), drawDataIndex)[j].info.drawDataPayload < |d.batches|
  {
    MeshDrawablesPerPhase(d, p, drawDataIndex);
  }

  // ---------------------------------------------------------------------------------------------
  // Drawing
  // ---------------------------------------------------------------------------------------------

  datatype Pipeline =
    | Shaded
    | ShadedAlphaBlendedCullBack
    | ShadedAlphaBlendedCullFront
    | PickingLayerPipeline
    | OutlineMaskPipeline

  /** One indexed draw: the pipeline in effect, the mesh, the material and the instance range. */
  datatype DrawCall = DrawCall(pipeline: Pipeline, mesh: GpuMesh, material: Material,
                               instanceStart: nat, instanceEnd: nat)

  datatype DrawInstruction = DrawInstruction(drawData: MeshDrawData, drawables: seq<DrawDataDrawable>)

  /** The phases the mesh renderer subscribes to. */
  predicate IsMeshPhase(phase: DrawPhase)
  {
    phase == OutlineMask || phase == Opaque || phase == PickingLayer || phase == Transparent
  }

  /** The pipeline set once for the whole phase; the transparent phase switches per material. */
  function PhasePipeline(phase: DrawPhase): Pipeline
    requires IsMeshPhase(phase) && phase != Transparent
  {
    match phase
    case OutlineMask => OutlineMaskPipeline
    case Opaque => Shaded
    case PickingLayer => PickingLayerPipeline
  }

  /** The outline mask phase draws only the outlined instances, every other phase all of them. */
  function InstanceRange(phase: DrawPhase, batch: MeshBatch): (nat, nat)
  {
    if phase == OutlineMask then (batch.instanceStartIndex, batch.instanceEndIndexWithOutlines)
    else (batch.instanceStartIndex, batch.instanceEndIndex)
  }

  /** The draws for `materials` of a batch in a phase. */
  function MaterialCalls(phase: DrawPhase, batch: MeshBatch, materials: seq<Material>): seq<DrawCall>
    requires IsMeshPhase(phase)
    decreases |materials|
  {
    if materials == [] then []
    else
      var before := MaterialCalls(phase, batch, materials[..|materials| - 1]);
      var material := materials[|materials| - 1];
      var range := InstanceRange(phase, batch);
      if phase == Transparent && !material.hasTransparency then before
      else if phase == Opaque && material.hasTransparency then before
      else if phase == Transparent then
        before + [DrawCall(ShadedAlphaBlendedCullFront, batch.mesh, material, range.0, range.1),
                  DrawCall(ShadedAlphaBlendedCullBack, batch.mesh, material, range.0, range.1)]
      else before + [DrawCall(PhasePipeline(phase), batch.mesh, material, range.0, range.1)]
  }

  /** Every drawable's payload names a batch of the instruction's draw data, if that has an
      instance buffer (an instruction without one is skipped before any payload is read). */
  predicate PayloadsInRange(instruction: DrawInstruction)
  {
    instruction.drawData.instanceBuffer.Some? ==>
      forall j :: 0 <= j < |instruction.drawables| ==>
        instruction.drawables[j].drawDataPayload < |instruction.drawData.batches|
  }

  predicate AllPayloadsInRange(instructions: seq<DrawInstruction>)
  {
    forall i :: 0 <= i < |instructions| ==> PayloadsInRange(instructions[i])
  }

  function DrawableCalls(phase: DrawPhase, data: MeshDrawData, drawables: seq<DrawDataDrawable>): seq<DrawCall>
    requires IsMeshPhase(phase)
    requires forall j :: 0 <= j < |drawables| ==> drawables[j].drawDataPayload < |data.batches|
    decreases |drawables|
  {
    if drawables == [] then []
    else
      var batch := data.batches[drawables[|drawables| - 1].drawDataPayload];
      DrawableCalls(phase, data, drawables[..|drawables| - 1]) + MaterialCalls(phase, batch, batch.mesh.materials)
  }

  /** The draws of one instruction: none without an instance buffer. */
  function InstructionCalls(phase: DrawPhase, instruction: DrawInstruction): seq<DrawCall>
    requires IsMeshPhase(phase) && PayloadsInRange(instruction)
  {
    if instruction.drawData.instanceBuffer.None? then []
    else DrawableCalls(phase, instruction.drawData, instruction.drawables)
  }

  /** All draws of a phase, instruction by instruction. */
  function DrawCalls(phase: DrawPhase, instructions: seq<DrawInstruction>): seq<DrawCall>
    requires IsMeshPhase(phase) && AllPayloadsInRange(instructions)
    decreases |instructions|
  {
    if instructions == [] then []
    else
      var n := |instructions| - 1;
      DrawCalls(phase, instructions[..n]) + InstructionCalls(phase, instructions[n])
  }

  lemma MaterialCallsSnoc(phase: DrawPhase, batch: MeshBatch, materials: seq<Material>, m: nat)
    requires IsMeshPhase(phase) && m < |materials|
    ensures var material := materials[m];
      var range := InstanceRange(phase, batch);
      MaterialCalls(phase, batch, materials[..m + 1]) ==
        if phase == Transparent && !material.hasTransparency then MaterialCalls(phase, batch, materials[..m])
        else if phase == Opaque && material.hasTransparency then MaterialCalls(phase, batch, materials[..m])
        else if phase == Transparent then
          (MaterialCalls(phase, batch, materials[..m])
            + [DrawCall(ShadedAlphaBlendedCullFront, batch.mesh, material, range.0, range.1),
               DrawCall(ShadedAlphaBlendedCullBack, batch.mesh, material, range.0, range.1)])
        else
          (MaterialCalls(phase, batch, materials[..m])
            + [DrawCall(PhasePipeline(phase), batch.mesh, material, range.0, range.1)])
  {
    assert materials[..m + 1][..m] == materials[..m];
  }

  lemma DrawableCallsSnoc(phase: DrawPhase, data: MeshDrawData, drawables: seq<DrawDataDrawable>, j: nat)
    requires IsMeshPhase(phase) && j < |drawables|
    requires forall k :: 0 <= k < |drawables| ==> drawables[k].drawDataPayload < |data.batches|
    ensures var batch := data.batches[drawables[j].drawDataPayload];
      DrawableCalls(phase, data, drawables[..j + 1]) ==
        DrawableCalls(phase, data, drawables[..j]) + MaterialCalls(phase, batch, batch.mesh.materials)
  {
    assert drawables[..j + 1][..j] == drawables[..j];
  }

  lemma DrawCallsSnoc(phase: DrawPhase, instructions: seq<DrawInstruction>, i: nat)
    requires IsMeshPhase(phase) && AllPayloadsInRange(instructions) && i < |instructions|
    ensures DrawCalls(phase, instructions[..i + 1]) ==
      DrawCalls(phase, instructions[..i]) + InstructionCalls(phase, instructions[i])
  {
    assert instructions[..i + 1][..i] == instructions[..i];
  }

  /** Draws the materials of one batch, each with the phase's instance range; returns the draws
      and the pipeline in effect afterwards. */
  method DrawBatch(phase: DrawPhase, batch: MeshBatch, pipeline: Option<Pipeline>)
    returns (calls: seq<DrawCall>, pipelineAfter: Option<Pipeline>)
    requires IsMeshPhase(phase)
    requires phase != Transparent ==> pipeline == Some(PhasePipeline(phase))
    ensures calls == MaterialCalls(phase, batch, batch.mesh.materials)
    ensures phase != Transparent ==> pipelineAfter == pipeline
  {
    calls := [];
    pipelineAfter := pipeline;
    var range := InstanceRange(phase, batch);
    var materials := batch.mesh.materials;
    for m := 0 to |materials|
      invariant calls == MaterialCalls(phase, batch, materials[..m])
      invariant phase != Transparent ==> pipelineAfter == Some(PhasePipeline(phase))
    {
      MaterialCallsSnoc(phase, batch, materials, m);
      var material := materials[m];
      if phase == Transparent && !material.hasTransparency {
        continue;
      }
      if phase == Opaque && material.hasTransparency {
        continue;
      }
      ghost var done := MaterialCalls(phase, batch, materials[..m]);
      if phase == Transparent {
        // First without front faces, then without back faces.
        pipelineAfter := Some(ShadedAlphaBlendedCullFront);
        var front := DrawCall(pipelineAfter.value, batch.mesh, material, range.0, range.1);
        calls := calls + [front];
        pipelineAfter := Some(ShadedAlphaBlendedCullBack);
        var back := DrawCall(pipelineAfter.value, batch.mesh, material, range.0, range.1);
        calls := calls + [back];
        assert calls == (done + [front, back]);
      } else {
        var call := DrawCall(pipelineAfter.value, batch.mesh, material, range.0, range.1);
        calls := calls + [call];
        assert calls == (done + [call]);
      }
    }
    assert materials[..|materials|] == materials;
  }

  /** Draws the drawables of one instruction whose draw data has an instance buffer. */
  method DrawInstructionDrawables(phase: DrawPhase, data: MeshDrawData, drawables: seq<DrawDataDrawable>,
                                  pipeline: Option<Pipeline>)
    returns (calls: seq<DrawCall>, pipelineAfter: Option<Pipeline>)
    requires IsMeshPhase(phase)
    requires forall k :: 0 <= k < |drawables| ==> drawables[k].drawDataPayload < |data.batches|
    requires phase != Transparent ==> pipeline == Some(PhasePipeline(phase))
    ensures calls == DrawableCalls(phase, data, drawables)
    ensures phase != Transparent ==> pipelineAfter == pipeline
  {
    calls := [];
    pipelineAfter := pipeline;
    for j := 0 to |drawables|
      invariant calls == DrawableCalls(phase, data, drawables[..j])
      invariant phase != Transparent ==> pipelineAfter == pipeline
    {
      DrawableCallsSnoc(phase, data, drawables, j);
      var batch := data.batches[drawables[j].drawDataPayload];
      var batchCalls;
      batchCalls, pipelineAfter := DrawBatch(phase, batch, pipelineAfter);
      calls := calls + batchCalls;
    }
    assert drawables[..|drawables|] == drawables;
  }

  /** Draws the mesh drawables of one phase. */
  method Draw(phase: DrawPhase, instructions: seq<DrawInstruction>) returns (calls: seq<DrawCall>)
    requires IsMeshPhase(phase)
    requires AllPayloadsInRange(instructions)
    ensures calls == DrawCalls(phase, instructions)
  {
    // The transparent phase switches pipelines per material instead.
    var pipeline: Option<Pipeline> := if phase == Transparent then None else Some(PhasePipeline(phase));
    calls := [];
    for i := 0 to |instructions|
      invariant calls == DrawCalls(phase, instructions[..i])
      invariant phase != Transparent ==> pipeline == Some(PhasePipeline(phase))
    {
      DrawCallsSnoc(phase, instructions, i);
      var instruction := instructions[i];
      if instruction.drawData.instanceBuffer.None? {
        continue;
      }
      var instructionCalls;
      instructionCalls, pipeline := DrawInstructionDrawables(phase, instruction.drawData, instruction.drawables, pipeline);
      calls := calls + instructionCalls;
    }
    assert instructions[..|instructions|] == instructions;
  }

  function CountTransparent(materials: seq<Material>, transparent: bool): nat
    decreases |materials|
  {
    if materials == [] then 0
    else
      var last := if materials[|materials| - 1].hasTransparency == transparent then 1 else 0;
      CountTransparent(materials[..|materials| - 1], transparent) + last
  }

  /** The number of draws per batch and phase: two per transparent material in the transparent
      phase, one per non-transparent material in the opaque phase, one per material otherwise. */
  lemma {:induction false} MaterialCallsCount(phase: DrawPhase, batch: MeshBatch, materials: seq<Material>)
    requires IsMeshPhase(phase)
    ensures |MaterialCalls(phase, batch, materials)| ==
      if phase == Transparent then 2 * CountTransparent(materials, true)
      else if phase == Opaque then CountTransparent(materials, false)
      else |materials|
    decreases |materials|
  {
    if materials != [] {
      MaterialCallsCount(phase, batch, materials[..|materials| - 1]);
    }
  }

  /** Every draw of a batch is of the batch's mesh, over the phase's instance range, with one of
      the given materials; the opaque phase draws only non-transparent materials, shaded; the
      outline mask and picking phases use their own pipeline. */
  lemma {:induction false} MaterialCallsTargets(phase: DrawPhase, batch: MeshBatch, materials: seq<Material>)
    requires IsMeshPhase(phase)
    ensures forall c :: c in MaterialCalls(phase, batch, materials) ==>
      && c.mesh == batch.mesh
      && (c.instanceStart, c.instanceEnd) == InstanceRange(phase, batch)
      && c.material in materials
      && (phase == Opaque ==> !c.material.hasTransparency && c.pipeline == Shaded)
      && (phase != Transparent && phase != Opaque ==> c.pipeline == PhasePipeline(phase))
    decreases |materials|
  {
    if materials != [] {
      var init := materials[..|materials| - 1];
      MaterialCallsTargets(phase, batch, init);
      forall c | c in MaterialCalls(phase, batch, init) ensures c.material in materials {
        assert c.material in init;
      }
    }
  }

  /** The transparent phase draws transparent materials only, each as two consecutive draws: the
      first culling front faces, the second back faces. */
  lemma {:induction false} TransparentCallsPaired(batch: MeshBatch, materials: seq<Material>)
    ensures var calls := MaterialCalls(Transparent, batch, materials);
      && |calls| % 2 == 0
      && forall k :: 0 <= k < |calls| ==>
           && calls[k].material.hasTransparency
           && calls[k].pipeline == (if k % 2 == 0 then ShadedAlphaBlendedCullFront else ShadedAlphaBlendedCullBack)
           && (k % 2 == 0 ==> calls[k + 1].material == calls[k].material)
    decreases |materials|
  {
    if materials != [] {
      TransparentCallsPaired(batch, materials[..|materials| - 1]);
    }
  }
}
