/** What the compute node's `run` issues on the GPU in one frame, from the
    phase the node is in, the bind-group resource and the pipeline cache. */
module Dispatch {
  import opened Types
  import opened BindGroups
  import opened TerrainState

  /** The two pipelines queued from the shader: entry points `init` and `update`. */
  datatype Pipeline = InitPipeline | UpdatePipeline

  /** One compute dispatch: the pipeline, the bind-group index and the group
      bound at slot 0, and the workgroup counts. */
  datatype DispatchRecord = DispatchRecord(
    pipeline: Pipeline,
    bindGroupIndex: nat,
    bindGroup: BindGroup,
    x: nat, y: nat, z: nat)

  /** The workgroup counts of every dispatch. */
  function GridDispatch(pipeline: Pipeline, index: nat, group: BindGroup): (d: DispatchRecord)
    ensures d.pipeline == pipeline && d.bindGroupIndex == index && d.bindGroup == group
    ensures d.x * WORKGROUP_SIZE == SIZE.0 && d.y * WORKGROUP_SIZE == SIZE.1 && d.z == 1
  {
    DispatchRecord(pipeline, index, group,
      WorkgroupCount(SIZE.0, WORKGROUP_SIZE), WorkgroupCount(SIZE.1, WORKGROUP_SIZE), 1)
  }

  /** A dispatch covers the whole 4096 x 2048 grid exactly. */
  predicate CoversGrid(d: DispatchRecord) {
    d.x * WORKGROUP_SIZE == TERRAINMAP_WIDTH && d.y * WORKGROUP_SIZE == TERRAINMAP_HEIGHT && d.z == 1
  }

  /** The node's `run`: nothing without the bind-group pair or while Loading;
      in Init the init pipeline on group 0 (aborting if that pipeline is not
      compiled); in Update(index) the update pipeline on group `index` when
      it is compiled, and nothing otherwise. */
  function Run(s: ComputeTerrainState, bindGroups: Option<ComputeTerrainBindGroups>,
               init: PipelineStatus, update: PipelineStatus)
    : (r: Outcome<Option<DispatchRecord>>)
    ensures r.Done? && r.value.Some? ==> bindGroups.Some? && !s.Loading? && CoversGrid(r.value.value)
    ensures r.Panicked? <==>
              bindGroups.Some? &&
              ((s.Init? && !Available(init)) || (s.Update? && Available(update) && s.index >= 2))
  {
    match bindGroups
    case None => Done(None)
    case Some(groups) =>
      match s
      case Loading => Done(None)
      case Init =>
        if !Available(init) then Panicked(InitPipelineMissing)
        else Done(Some(GridDispatch(InitPipeline, 0, groups.group0)))
      case Update(index) =>
        if !Available(update) then Done(None)
        else match groups.At(index)
          case None => Panicked(BindGroupIndexOutOfRange(index))
          case Some(group) => Done(Some(GridDispatch(UpdatePipeline, index, group)))
  }

  /** No dispatch is issued without the bind-group pair, nor while Loading. */
  lemma RunIdle(s: ComputeTerrainState, bindGroups: Option<ComputeTerrainBindGroups>,
                init: PipelineStatus, update: PipelineStatus)
    requires bindGroups.None? || s.Loading?
    ensures Run(s, bindGroups, init, update) == Done(None)
  {
  }

  /** In Init, `run` dispatches the init pipeline against group 0 exactly
      when the init pipeline is compiled, and aborts otherwise. */
  lemma RunInit(groups: ComputeTerrainBindGroups, init: PipelineStatus, update: PipelineStatus)
    ensures Run(Init, Some(groups), init, update).Done? <==> Available(init)
    ensures Available(init) ==>
              var r := Run(Init, Some(groups), init, update);
              r.value.Some? && r.value.value.pipeline == InitPipeline &&
              r.value.value.bindGroupIndex == 0 && r.value.value.bindGroup == groups.group0
  {
  }

  /** In Update(index), index 0 or 1, `run` never aborts; it dispatches
      exactly when the update pipeline is compiled, and then the update
      pipeline against group `index`. */
  lemma RunUpdate(index: nat, groups: ComputeTerrainBindGroups, init: PipelineStatus, update: PipelineStatus)
    requires index < 2
    ensures Run(Update(index), Some(groups), init, update).Done?
    ensures Run(Update(index), Some(groups), init, update).value.Some? <==> Available(update)
    ensures Available(update) ==>
              var d := Run(Update(index), Some(groups), init, update).value.value;
              d.pipeline == UpdatePipeline && d.bindGroupIndex == index &&
              Some(d.bindGroup) == groups.At(index)
  {
  }

  /** With the prepared pair bound, every dispatch `run` issues reads one
      generation and writes the other: generation A is read on group 0 and
      generation B on group 1, and no texture is both read and written. */
  lemma RunNeverAliases(s: ComputeTerrainState, init: PipelineStatus, update: PipelineStatus)
    requires Run(s, Some(BIND_GROUPS), init, update).Done?
    requires Run(s, Some(BIND_GROUPS), init, update).value.Some?
    ensures var d := Run(s, Some(BIND_GROUPS), init, update).value.value;
            d.bindGroupIndex < 2 &&
            Binds(d.bindGroup, ReadGeneration(d.bindGroupIndex), WriteGeneration(d.bindGroupIndex)) &&
            NoAliasing(d.bindGroup)
  {
    var d := Run(s, Some(BIND_GROUPS), init, update).value.value;
    GroupGenerations(d.bindGroupIndex);
    PreparedGroupsNoAliasing(d.bindGroupIndex);
  }
}
