/** The bind-group layout of the compute pipelines, the pair of bind groups
    built over the A and B generations of the three textures, and the gate
    that decides when the pair is built. */
module BindGroups {
  import opened Types

  /** Storage access of one binding slot. */
  datatype Access = ReadOnly | WriteOnly

  /** The layout shared by both pipelines: three read-only storage textures
      followed by three write-only ones. */
  const LAYOUT: seq<Access> := [ReadOnly, ReadOnly, ReadOnly, WriteOnly, WriteOnly, WriteOnly]

  /** The channel order used inside each half of a bind group. */
  const CHANNELS: seq<Channel> := [Terrain, Flow, Velocity]

  /** A bind group: the texture bound at each slot of the layout, in slot order. */
  type BindGroup = seq<Texture>

  /** The resource holding the two bind groups. */
  datatype ComputeTerrainBindGroups = ComputeTerrainBindGroups(group0: BindGroup, group1: BindGroup)
  {
    /** Indexing the two-element array; any other index is out of range. */
    function At(index: nat): (r: Option<BindGroup>)
      ensures r.Some? <==> index < 2
    {
      if index == 0 then Some(group0) else if index == 1 then Some(group1) else None
    }
  }

  // Bind group 0 reads generation A and writes generation B.
  const GROUP_0: BindGroup := [
    Texture(Terrain, A), Texture(Flow, A), Texture(Velocity, A),
    Texture(Terrain, B), Texture(Flow, B), Texture(Velocity, B)]

  // Bind group 1 reads generation B and writes generation A.
  const GROUP_1: BindGroup := [
    Texture(Terrain, B), Texture(Flow, B), Texture(Velocity, B),
    Texture(Terrain, A), Texture(Flow, A), Texture(Velocity, A)]

  const BIND_GROUPS: ComputeTerrainBindGroups := ComputeTerrainBindGroups(GROUP_0, GROUP_1)

  /** The order in which the six GPU images are looked up. */
  const IMAGE_ORDER: seq<Texture> := [
    Texture(Terrain, A), Texture(Flow, A), Texture(Velocity, A),
    Texture(Terrain, B), Texture(Flow, B), Texture(Velocity, B)]

  /** The first texture of `order` that has no GPU image, if any. */
  function FirstMissing(order: seq<Texture>, gpuImages: set<Texture>): (r: Option<Texture>)
    ensures r.None? <==> forall k :: 0 <= k < |order| ==> order[k] in gpuImages
    ensures r.Some? ==> r.value in order && r.value !in gpuImages
    ensures r.Some? ==> exists k :: 0 <= k < |order| && order[k] == r.value &&
                          forall j :: 0 <= j < k ==> order[j] in gpuImages
  {
    if order == [] then None
    else if order[0] !in gpuImages then Some(order[0])
    else FirstMissing(order[1..], gpuImages)
  }

  /** Builds the two bind groups; aborts on the first of the six textures
      whose GPU image is not yet prepared. */
  function PrepareBindGroup(gpuImages: set<Texture>): (r: Outcome<ComputeTerrainBindGroups>)
    ensures r.Done? <==> forall t: Texture :: t in gpuImages
    ensures r.Done? ==> r.value == BIND_GROUPS
    ensures r.Panicked? ==> r.reason.GpuImageMissing? && r.reason.texture !in gpuImages
    ensures r.Panicked? ==> exists k :: 0 <= k < |IMAGE_ORDER| && IMAGE_ORDER[k] == r.reason.texture &&
                              forall j :: 0 <= j < k ==> IMAGE_ORDER[j] in gpuImages
  {
    match FirstMissing(IMAGE_ORDER, gpuImages)
    case Some(t) => Panicked(GpuImageMissing(t))
    case None =>
      LookupCoversAllTextures(gpuImages);
      Done(ComputeTerrainBindGroups(GROUP_0, GROUP_1))
  }

  /** The lookup order names all six textures, so a lookup that finds every
      image in that order has found every texture. */
  lemma LookupCoversAllTextures(gpuImages: set<Texture>)
    requires forall k :: 0 <= k < |IMAGE_ORDER| ==> IMAGE_ORDER[k] in gpuImages
    ensures forall t: Texture :: t in gpuImages
  {
    forall t: Texture ensures t in gpuImages {
      match t
      case Texture(c, g) =>
        var k := (if c == Terrain then 0 else if c == Flow then 1 else 2) + (if g == A then 0 else 3);
        assert IMAGE_ORDER[k] == t;
    }
  }

  /** The generation bind group `index` reads from. */
  function ReadGeneration(index: nat): Generation
    requires index < 2
  {
    if index == 0 then A else B
  }

  /** The generation bind group `index` writes to. */
  function WriteGeneration(index: nat): Generation
    requires index < 2
  {
    Other(ReadGeneration(index))
  }

  /** `g` binds, for each channel in order, that channel of generation
      `read` at a read-only slot and that channel of generation `write` at
      the matching write-only slot. */
  predicate Binds(g: BindGroup, read: Generation, write: Generation) {
    |g| == |LAYOUT| &&
    (forall k :: 0 <= k < 3 ==> g[k] == Texture(CHANNELS[k], read)) &&
    (forall k :: 3 <= k < 6 ==> g[k] == Texture(CHANNELS[k - 3], write))
  }

  /** The first three slots of the layout are read-only, the last three
      write-only. */
  lemma LayoutReadsThenWrites()
    ensures |LAYOUT| == 6
    ensures forall k :: 0 <= k < |LAYOUT| ==> (LAYOUT[k] == ReadOnly <==> k < 3)
  {
  }

  /** No texture is bound both at a read-only slot and at a write-only slot. */
  predicate NoAliasing(g: BindGroup) {
    |g| == |LAYOUT| &&
    forall r, w :: 0 <= r < |g| && 0 <= w < |g| && LAYOUT[r] == ReadOnly && LAYOUT[w] == WriteOnly ==>
      g[r] != g[w]
  }

  /** Every texture `first` writes is what `next` reads at the same channel. */
  predicate Feeds(first: BindGroup, next: BindGroup) {
    |first| == |LAYOUT| && |next| == |LAYOUT| &&
    forall k :: 0 <= k < |CHANNELS| ==> next[k] == first[k + 3]
  }

  /** Bind group `index` reads generation A when the index is 0, B when it
      is 1, and writes the other generation. */
  lemma GroupGenerations(index: nat)
    requires index < 2
    ensures BIND_GROUPS.At(index).Some?
    ensures Binds(BIND_GROUPS.At(index).value, ReadGeneration(index), WriteGeneration(index))
  {
  }

  /** A group binding two different generations never aliases a read slot
      with a write slot. */
  lemma BindsDistinctGenerationsNoAliasing(g: BindGroup, read: Generation, write: Generation)
    requires Binds(g, read, write) && read != write
    ensures NoAliasing(g)
  {
    forall r, w | 0 <= r < |g| && 0 <= w < |g| && LAYOUT[r] == ReadOnly && LAYOUT[w] == WriteOnly
      ensures g[r] != g[w]
    {
      LayoutReadsThenWrites();
      assert g[r].generation == read;
      assert g[w].generation == write;
    }
  }

  /** Neither bind group aliases a read slot with a write slot. */
  lemma PreparedGroupsNoAliasing(index: nat)
    requires index < 2
    ensures BIND_GROUPS.At(index).Some? && NoAliasing(BIND_GROUPS.At(index).value)
  {
    GroupGenerations(index);
    BindsDistinctGenerationsNoAliasing(BIND_GROUPS.At(index).value, ReadGeneration(index), WriteGeneration(index));
  }

  /** What bind group `index` writes is what bind group `1 - index` reads,
      channel by channel. */
  lemma WriteFeedsOtherGroup(index: nat)
    requires index < 2
    ensures BIND_GROUPS.At(index).Some? && BIND_GROUPS.At(1 - index).Some?
    ensures WriteGeneration(index) == ReadGeneration(1 - index)
    ensures Feeds(BIND_GROUPS.At(index).value, BIND_GROUPS.At(1 - index).value)
  {
  }

  /** A group never feeds itself: consecutive dispatches on one group read
      the same generation twice. */
  lemma GroupDoesNotFeedItself(index: nat)
    requires index < 2
    ensures BIND_GROUPS.At(index).Some? && !Feeds(BIND_GROUPS.At(index).value, BIND_GROUPS.At(index).value)
  {
    var g := BIND_GROUPS.At(index).value;
    assert g[0] != g[0 + 3];
  }

  /** The run condition of the bind-group system: the pair does not exist yet
      and the images resource does. */
  predicate ShouldPrepare(bindGroupsExist: bool, imagesExist: bool) {
    !bindGroupsExist && imagesExist
  }

  /** The bind-group system's effect on the resource in one frame: run only
      when the gate holds, otherwise keep what is there. Once the pair
      exists it is kept unchanged; it is built exactly when it is missing,
      the images exist and every GPU image is ready. */
  function PrepareStage(existing: Option<ComputeTerrainBindGroups>, imagesExist: bool, gpuImages: set<Texture>)
    : (r: Outcome<Option<ComputeTerrainBindGroups>>)
    ensures existing.Some? ==> r == Done(existing)
    ensures existing.None? && !imagesExist ==> r == Done(None)
    ensures existing.None? && imagesExist ==>
              (r.Done? <==> forall t: Texture :: t in gpuImages) &&
              (r.Done? ==> r.value == Some(BIND_GROUPS)) &&
              (r.Panicked? ==> r.reason.GpuImageMissing? && r.reason.texture !in gpuImages)
  {
    if ShouldPrepare(existing.Some?, imagesExist) then
      match PrepareBindGroup(gpuImages)
      case Done(groups) => Done(Some(groups))
      case Panicked(p) => Panicked(p)
    else
      Done(existing)
  }
}
