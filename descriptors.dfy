// Descriptor sets: a layout builder keyed by binding number, a pool sized
// from a layout, and a writer that accumulates buffer and image writes
// against the bindings of its layout.
module Descriptors {

  import opened Wrappers
  import opened VkTypes

  /** VkDescriptorSetLayoutBinding without its immutable-sampler pointer (always null here). */
  datatype LayoutBinding = LayoutBinding(binding: nat, descriptorType: nat, descriptorCount: nat, stageFlags: nat)

  /** A binding map whose entries sit under their own binding number. */
  predicate KeyedByBinding(bindings: map<nat, LayoutBinding>)
  {
    forall b :: b in bindings ==> bindings[b].binding == b
  }

  /** The smallest key; std::map iterates from it. */
  ghost function MinKey(keys: set<nat>): (k: nat)
    requires keys != {}
    ensures k in keys && forall j :: j in keys ==> k <= j
  {
    var x :| x in keys;
    if keys == {x} then
      assert forall j :: j in keys ==> j == x;
      x
    else
      var rest := MinKey(keys - {x});
      assert forall j :: j in keys ==> j == x || j in keys - {x};
      if x < rest then x else rest
  }

  /** The entries of a binding map in the order std::map visits them: ascending key. */
  ghost function Ascending(bindings: map<nat, LayoutBinding>): seq<LayoutBinding>
    decreases |bindings.Keys|
  {
    if bindings.Keys == {} then []
    else
      var k := MinKey(bindings.Keys);
      [bindings[k]] + Ascending(bindings - {k})
  }

  /** Removing the least key leaves exactly the other keys. */
  lemma RemoveKey(bindings: map<nat, LayoutBinding>, k: nat)
    requires k in bindings
    ensures (bindings - {k}).Keys == bindings.Keys - {k}
    ensures |(bindings - {k}).Keys| == |bindings.Keys| - 1
    ensures forall b :: b in bindings - {k} ==> (bindings - {k})[b] == bindings[b]
  {
  }

  /** Each entry Ascending lists is an entry of the map, stored under its own binding number. */
  lemma {:induction false} AscendingEntries(bindings: map<nat, LayoutBinding>)
    requires KeyedByBinding(bindings)
    ensures |Ascending(bindings)| == |bindings.Keys|
    ensures forall i :: 0 <= i < |Ascending(bindings)| ==>
      Ascending(bindings)[i].binding in bindings
      && Ascending(bindings)[i] == bindings[Ascending(bindings)[i].binding]
    decreases |bindings.Keys|
  {
    if bindings.Keys != {} {
      var k := MinKey(bindings.Keys);
      RemoveKey(bindings, k);
      AscendingEntries(bindings - {k});
    }
  }

  /** Ascending lists the entries in strictly increasing binding order. */
  lemma {:induction false} AscendingSorted(bindings: map<nat, LayoutBinding>)
    requires KeyedByBinding(bindings)
    ensures forall i, j :: 0 <= i < j < |Ascending(bindings)| ==>
      Ascending(bindings)[i].binding < Ascending(bindings)[j].binding
    decreases |bindings.Keys|
  {
    if bindings.Keys != {} {
      var k := MinKey(bindings.Keys);
      var rest := bindings - {k};
      RemoveKey(bindings, k);
      AscendingSorted(rest);
      AscendingEntries(rest);
      var s := Ascending(bindings);
      assert s == [bindings[k]] + Ascending(rest);
      forall i, j | 0 <= i < j < |s|
        ensures s[i].binding < s[j].binding
      {
        if i == 0 {
          assert s[j] == Ascending(rest)[j - 1];
          assert s[j].binding in rest;
        }
      }
    }
  }

  /** Ascending lists every entry of the map. */
  lemma {:induction false} AscendingComplete(bindings: map<nat, LayoutBinding>)
    ensures forall b :: b in bindings ==> bindings[b] in Ascending(bindings)
    decreases |bindings.Keys|
  {
    if bindings.Keys != {} {
      var k := MinKey(bindings.Keys);
      var rest := bindings - {k};
      RemoveKey(bindings, k);
      AscendingComplete(rest);
      assert Ascending(bindings) == [bindings[k]] + Ascending(rest);
      forall b | b in bindings
        ensures bindings[b] in Ascending(bindings)
      {
        if b != k {
          assert b in rest;
        }
      }
    }
  }

  /** VkDescriptorSetLayoutCreateInfo. */
  datatype LayoutCreateInfo = LayoutCreateInfo(bindingCount: nat, bindings: seq<LayoutBinding>)

  /** A built layout keeps the builder's binding map. */
  datatype DescriptorSetLayout = DescriptorSetLayout(handle: Handle, bindings: map<nat, LayoutBinding>)

  class LayoutBuilder {
    var bindings: map<nat, LayoutBinding>

    ghost predicate Valid()
      reads this
    {
      KeyedByBinding(bindings)
    }

    constructor ()
      ensures Valid() && bindings == map[]
    {
      bindings := map[];
    }

    /** A binding number may be added once; a second time raises `Error` and changes nothing. */
    method AddBinding(binding: nat, descriptorType: nat, stageFlags: nat, count: nat) returns (r: Result<(), Error>)
      requires Valid()
      modifies this
      ensures Valid()
      ensures binding in old(bindings) ==> r == Fail(BindingOccupied) && bindings == old(bindings)
      ensures binding !in old(bindings) ==>
        r.Ok? && bindings == old(bindings)[binding := LayoutBinding(binding, descriptorType, count, stageFlags)]
    {
      if binding in bindings {
        return Fail(BindingOccupied);
      }
      bindings := bindings[binding := LayoutBinding(binding, descriptorType, count, stageFlags)];
      return Ok(());
    }

    /**
     * The create info lists the bindings in ascending binding order, one
     * entry per binding; the layout takes over the binding map.  A driver
     * failure raises `Error`.
     */
    method Build(created: Created) returns (r: Result<DescriptorSetLayout, Error>, info: LayoutCreateInfo)
      requires Valid()
      ensures info.bindings == Ascending(bindings)
      ensures info.bindingCount == |info.bindings| == |bindings.Keys|
      ensures forall i, j :: 0 <= i < j < |info.bindings| ==> info.bindings[i].binding < info.bindings[j].binding
      ensures r.Fail? <==> created.result != Success
      ensures r.Fail? ==> r.error == LayoutCreateFailed
      ensures r.Ok? ==> r.value == DescriptorSetLayout(created.handle, bindings)
    {
      var data := CollectAscending(bindings);
      AscendingEntries(bindings);
      AscendingSorted(bindings);
      info := LayoutCreateInfo(|data|, data);
      if created.result != Success {
        return Fail(LayoutCreateFailed), info;
      }
      r := Ok(DescriptorSetLayout(created.handle, bindings));
    }
  }

  /** The range-for over a std::map: entries in ascending key order. */
  method CollectAscending(bindings: map<nat, LayoutBinding>) returns (data: seq<LayoutBinding>)
    ensures data == Ascending(bindings)
  {
    data := [];
    var remaining := bindings;
    while remaining.Keys != {}
      invariant data + Ascending(remaining) == Ascending(bindings)
      decreases |remaining.Keys|
    {
      ghost var least := MinKey(remaining.Keys);
      var k :| k in remaining && forall j :: j in remaining ==> k <= j;
      assert k == least;
      assert remaining.Keys - {k} == (remaining - {k}).Keys;
      data := data + [remaining[k]];
      remaining := remaining - {k};
    }
  }

  datatype PoolSize = PoolSize(descriptorType: nat, descriptorCount: nat)

  datatype DescriptorSetPool = DescriptorSetPool(handle: Handle, poolSizes: seq<PoolSize>, maxSets: nat)

  /**
   * One pool size per layout binding, in ascending binding order, each
   * for `count` descriptors of the binding's type; at most `count` sets.
   */
  method CreatePool(layout: DescriptorSetLayout, count: nat, created: Created) returns (r: Result<DescriptorSetPool, Error>)
    ensures r.Fail? <==> created.result != Success
    ensures r.Fail? ==> r.error == PoolCreateFailed
    ensures r.Ok? ==> r.value.handle == created.handle && r.value.maxSets == count
    ensures r.Ok? ==> |r.value.poolSizes| == |Ascending(layout.bindings)|
    ensures r.Ok? ==> forall i :: 0 <= i < |r.value.poolSizes| ==>
      r.value.poolSizes[i] == PoolSize(Ascending(layout.bindings)[i].descriptorType, count)
  {
    var ordered := CollectAscending(layout.bindings);
    var poolSizes: seq<PoolSize> := [];
    var i := 0;
    while i < |ordered|
      invariant i <= |ordered| && |poolSizes| == i
      invariant forall j :: 0 <= j < i ==> poolSizes[j] == PoolSize(ordered[j].descriptorType, count)
    {
      poolSizes := poolSizes + [PoolSize(ordered[i].descriptorType, count)];
      i := i + 1;
    }
    if created.result != Success {
      return Fail(PoolCreateFailed);
    }
    return Ok(DescriptorSetPool(created.handle, poolSizes, count));
  }

  /**
   * Only an out-of-pool-memory result raises `Error`; any other failure
   * is ignored and the (unwritten) set is returned as it stands.
   */
  function AllocateSet(result: VkResult, written: Handle): (r: Result<Handle, Error>)
    ensures r.Fail? <==> result == OutOfPoolMemory
    ensures r.Fail? ==> r.error == PoolOutOfMemory
    ensures r.Ok? ==> r.value == written
  {
    if result == OutOfPoolMemory then Fail(PoolOutOfMemory) else Ok(written)
  }

  datatype BufferInfo = BufferInfo(buffer: Handle, offset: nat, range: nat)

  datatype ImageInfo = ImageInfo(sampler: Handle, view: Handle, layout: ImageLayout)

  /** Where a write's payload lives: an index into the writer's buffer or image infos. */
  datatype Payload = BufferPayload(bufferIndex: nat) | ImagePayload(imageIndex: nat)

  datatype WriteSet = WriteSet(
    dstSet: Handle,
    dstBinding: nat,
    dstArrayElement: nat,
    descriptorType: nat,
    descriptorCount: nat,
    payload: Payload)

  class DescriptorSetWriter {
    var bufferInfos: seq<BufferInfo>
    var imageInfos: seq<ImageInfo>
    var writeSets: seq<WriteSet>
    var descriptorSet: Handle
    const layout: DescriptorSetLayout

    /**
     * Every write targets the writer's descriptor set and a binding of its
     * layout, its payload indexes an info the writer holds, and there are as
     * many writes as infos.
     */
    ghost predicate Valid()
      reads this
    {
      && |writeSets| == |bufferInfos| + |imageInfos|
      && forall i :: 0 <= i < |writeSets| ==>
        && writeSets[i].dstSet == descriptorSet
        && writeSets[i].dstBinding in layout.bindings
        && (writeSets[i].payload.BufferPayload? ==> writeSets[i].payload.bufferIndex < |bufferInfos|)
        && (writeSets[i].payload.ImagePayload? ==> writeSets[i].payload.imageIndex < |imageInfos|)
    }

    /** A writer over an already allocated set, with nothing accumulated. */
    constructor (layout: DescriptorSetLayout, descriptorSet: Handle)
      ensures Valid()
      ensures this.layout == layout && this.descriptorSet == descriptorSet
      ensures bufferInfos == [] && imageInfos == [] && writeSets == []
    {
      this.layout := layout;
      this.descriptorSet := descriptorSet;
      bufferInfos := [];
      imageInfos := [];
      writeSets := [];
    }

    /** Appends one buffer info and one write for `binding`, typed as the layout's binding; a missing binding raises `Error`. */
    method WriteBuffer(binding: nat, buffer: Handle, offset: nat, range: nat) returns (r: Result<(), Error>)
      requires Valid()
      modifies this`bufferInfos, this`writeSets
      ensures Valid()
      ensures binding !in layout.bindings ==>
        r == Fail(BindingMissing) && bufferInfos == old(bufferInfos) && writeSets == old(writeSets)
      ensures binding in layout.bindings ==>
        && r.Ok?
        && bufferInfos == old(bufferInfos) + [BufferInfo(buffer, offset, range)]
        && writeSets == old(writeSets) + [WriteSet(descriptorSet, binding, 0, layout.bindings[binding].descriptorType,
                                                    layout.bindings[binding].descriptorCount,
                                                    BufferPayload(|old(bufferInfos)|))]
    {
      if binding !in layout.bindings {
        return Fail(BindingMissing);
      }
      var layoutBinding := layout.bindings[binding];
      bufferInfos := bufferInfos + [BufferInfo(buffer, offset, range)];
      var write := WriteSet(descriptorSet, binding, 0, layoutBinding.descriptorType, layoutBinding.descriptorCount,
                            BufferPayload(|bufferInfos| - 1));
      writeSets := writeSets + [write];
      return Ok(());
    }

    /** Appends one shader-read image info and one write for `binding`; a missing binding raises `Error`. */
    method WriteImage(binding: nat, view: Handle, sampler: Handle) returns (r: Result<(), Error>)
      requires Valid()
      modifies this`imageInfos, this`writeSets
      ensures Valid()
      ensures binding !in layout.bindings ==>
        r == Fail(BindingMissing) && imageInfos == old(imageInfos) && writeSets == old(writeSets)
      ensures binding in layout.bindings ==>
        && r.Ok?
        && imageInfos == old(imageInfos) + [ImageInfo(sampler, view, ShaderReadOnlyOptimal)]
        && writeSets == old(writeSets) + [WriteSet(descriptorSet, binding, 0, layout.bindings[binding].descriptorType,
                                                    layout.bindings[binding].descriptorCount,
                                                    ImagePayload(|old(imageInfos)|))]
    {
      if binding !in layout.bindings {
        return Fail(BindingMissing);
      }
      var layoutBinding := layout.bindings[binding];
      imageInfos := imageInfos + [ImageInfo(sampler, view, ShaderReadOnlyOptimal)];
      var write := WriteSet(descriptorSet, binding, 0, layoutBinding.descriptorType, layoutBinding.descriptorCount,
                            ImagePayload(|imageInfos| - 1));
      writeSets := writeSets + [write];
      return Ok(());
    }

    /** Submits every accumulated write, in the order written, and returns the writer's descriptor set. */
    method Write() returns (written: Handle, submitted: seq<WriteSet>)
      requires Valid()
      ensures written == descriptorSet && submitted == writeSets
      ensures forall i :: 0 <= i < |submitted| ==> submitted[i].dstSet == written && submitted[i].dstBinding in layout.bindings
    {
      return descriptorSet, writeSets;
    }
  }

  /** The writer's constructor allocates its set from the pool first. */
  method NewDescriptorSetWriter(layout: DescriptorSetLayout, allocation: VkResult, written: Handle)
    returns (r: Result<DescriptorSetWriter, Error>)
    ensures r.Fail? <==> allocation == OutOfPoolMemory
    ensures r.Ok? ==> fresh(r.value) && r.value.Valid() && r.value.descriptorSet == written && r.value.layout == layout
    ensures r.Ok? ==> r.value.writeSets == [] && r.value.bufferInfos == [] && r.value.imageInfos == []
  {
    var setResult := AllocateSet(allocation, written);
    if setResult.Fail? {
      return Fail(setResult.error);
    }
    var writer := new DescriptorSetWriter(layout, setResult.value);
    return Ok(writer);
  }
}
