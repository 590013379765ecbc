/** Vocabulary shared by the terrain compute node: textures and their
    generations, the compile status of a queued pipeline, the panics the
    node and its bind-group system can raise, and the dispatch arithmetic. */
module Types {

  datatype Option<+T> = None | Some(value: T)

  /** A frame either completes with a value or aborts the program with a panic. */
  datatype Outcome<+T> = Done(value: T) | Panicked(reason: Panic)

  /** The panics of the compute node and of its bind-group system. */
  datatype Panic =
    | ShaderCompileFailed                    // the init pipeline reported an error while Loading
    | UnreachableState(index: nat)           // Update(index) with an index other than 0 or 1
    | InitPipelineMissing                    // unwrap of the init pipeline while Init
    | BindGroupIndexOutOfRange(index: nat)   // indexing the two-element bind-group array
    | GpuImageMissing(texture: Texture)      // unwrap of a GPU image while building bind groups

  /** One of the two physical copies of every simulation texture. */
  datatype Generation = A | B

  function Other(g: Generation): (r: Generation)
    ensures r != g
  {
    if g == A then B else A
  }

  /** The three channel groups of the simulation grid. */
  datatype Channel = Terrain | Flow | Velocity

  /** A simulation texture: one channel group in one generation, six in all. */
  datatype Texture = Texture(channel: Channel, generation: Generation)

  /** The state of a pipeline queued on the pipeline cache. `Queued` and
      `Creating` are the two not-yet-compiled states. */
  datatype PipelineStatus = Queued | Creating | Ok | Err

  /** The pipeline cache hands out a compiled pipeline only once it is `Ok`. */
  predicate Available(s: PipelineStatus) {
    s == Ok
  }

  // Grid dimensions, unsigned 32-bit in the program; every value below fits,
  // and unsigned division truncates exactly as `/` on `nat` does.
  const TERRAINMAP_WIDTH: nat := 4096
  const TERRAINMAP_HEIGHT: nat := 2048
  const SIZE: (nat, nat) := (TERRAINMAP_WIDTH, TERRAINMAP_HEIGHT)
  const WORKGROUP_SIZE: nat := 1

  /** Number of workgroups dispatched along one axis of `extent` cells:
      the workgroups never overrun the extent and leave less than one
      workgroup's worth of cells uncovered. */
  function WorkgroupCount(extent: nat, workgroupSize: nat): (n: nat)
    requires workgroupSize > 0
    ensures n * workgroupSize <= extent < n * workgroupSize + workgroupSize
  {
    extent / workgroupSize
  }
}
