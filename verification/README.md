# Terrain compute node of ymir-gpu, modelled in Dafny

ymir-gpu simulates hydraulic erosion on the GPU. Its core is the compute
node in `src/compute.rs`. The node's `update` moves through three phases,
`Loading`, `Init` and `Update(index)`, as the pipeline cache reports the
compile status of two pipelines queued from one shader, `init` and
`update`. The node's `run` then dispatches one of them over the whole
4096 x 2048 grid. It dispatches against one of two bind groups built over
two generations, A and B, of three storage textures: terrain, flow and
velocity. Bind group 0 reads A and writes B. Bind group 1 reads B and
writes A. A render system builds the pair once, as soon as the images
resource exists.

The model has five modules:

- `Types` (types.dfy): generations, channels, textures, the pipeline status
  (`Queued | Creating | Ok | Err`), the panics, the grid constants and the
  workgroup arithmetic.
- `BindGroups` (bind_groups.dfy): the layout (three read-only slots, then
  three write-only ones), the two bind groups as sequences of textures in
  slot order, `prepare_bind_group` with its six GPU-image lookups, and its
  run condition.
- `TerrainState` (terrain_state.dfy): the phase enum, the per-frame
  transition `Step`, and the node as a class `TerrainCompute` whose `Update`
  method changes its `state` field in place.
- `Dispatch` (dispatch.dfy): `run` as a function from the phase, the
  bind-group resource and the pipeline statuses to an optional dispatch
  record, or a panic.
- `Frames` (frames.dfy): one render frame is the bind-group system (when its
  run condition holds), then `update`, then `run`, in the order the
  render schedule runs them. `Simulate` runs a sequence of frames from a
  default node with no bind groups. The trace lemmas are stated over that
  run.

Panics are values (`Outcome.Panicked`), so every error path is modelled
rather than excluded: a compile error while `Loading`, the `unreachable!`
arm, the `unwrap` of the init pipeline, indexing the two-element bind-group
array, and the `unwrap` of each GPU image.

Each frame takes one snapshot of the pipeline statuses, which `update` and
`run` both read. Most trace lemmas hold whatever the pipeline cache reports
frame by frame: the index stays 0 or 1, phases never move back, the
bind-group pair is built once, and every dispatch matches its phase and
aliases nothing (`Frames.RunStaysSound`). A few assume one thing about the
pipeline cache: a pipeline that is `Ok` in one frame stays `Ok` in every
later frame (`Frames.CompiledPipelinesStay`). Under that assumption, the
`unwrap` of the init pipeline, the `unreachable!` arm and the array index
are proved never to panic, and a node that has started dispatching keeps
dispatching.

Behaviour of the code worth noting:

- Under that assumption, only an `Err` of the init pipeline while `Loading`
  aborts. Without it, an init pipeline that is no longer `Ok` while `Init`
  aborts at its `unwrap` once the bind groups exist (`Dispatch.RunInit`).
- An `Err` of the update pipeline while `Init` does not abort: the node
  stays in `Init` for as long as the update pipeline is not `Ok`
  (`TerrainState.InitTransitions`), and, once the bind groups exist,
  dispatches the init pipeline on each of those frames.
- Once the bind groups exist, the init pipeline runs on every frame spent in
  `Init`, not just once (`Frames.InitDispatchedWhileInit`). Consecutive init dispatches both read
  generation A (`BindGroups.GroupDoesNotFeedItself`).
- `update` advances the phase whether or not the bind groups exist. If both
  pipelines compile before the images resource appears, the node leaves
  `Init` before anything can be dispatched, and the init pipeline never runs
  (`Frames.InitSkippedWhenBindGroupsLate`).
- `run` dispatches at most one pipeline per frame.

## Model

| member | source | states |
|---|---|---|
| Types.WorkgroupCount | src/compute.rs:244 | unsigned division of an extent by the workgroup size: the workgroups never overrun the extent and leave less than one workgroup uncovered |
| BindGroups.ComputeTerrainBindGroups.At | src/compute.rs:250 | indexing the two-element bind-group array succeeds exactly for index 0 and 1 |
| BindGroups.FirstMissing | src/compute.rs:73-86 | the first texture without a GPU image in lookup order: none exactly when every lookup succeeds; otherwise a texture that is missing and that every earlier lookup found |
| BindGroups.LookupCoversAllTextures | src/compute.rs:73-86 | the six lookups cover all six textures, so if all of them succeed every texture has a GPU image |
| BindGroups.PrepareBindGroup | src/compute.rs:66-112 | builds the pair exactly when all six GPU images exist, and then always the same pair (group 0 = A then B, group 1 = B then A); otherwise panics on the first missing texture in lookup order |
| BindGroups.LayoutReadsThenWrites | src/compute.rs:124-136 | the layout has six slots; a slot is read-only exactly when it is one of the first three |
| BindGroups.GroupGenerations | src/compute.rs:87-110 | bind group i binds each channel of generation A (i=0) or B (i=1) at its read slot, and the same channel of the other generation at the matching write slot |
| BindGroups.BindsDistinctGenerationsNoAliasing | src/compute.rs:87-110 | a group that reads one generation and writes another binds no texture at both a read-only and a write-only slot |
| BindGroups.PreparedGroupsNoAliasing | src/compute.rs:87-110 | neither of the two bind groups reads and writes the same texture |
| BindGroups.WriteFeedsOtherGroup | src/compute.rs:87-110 | the generation group i writes is the one group 1-i reads, and channel by channel group 1-i reads exactly the textures group i writes |
| BindGroups.GroupDoesNotFeedItself | src/compute.rs:87-110 | no group reads what it wrote itself, so two dispatches on the same group do not chain |
| BindGroups.PrepareStage | src/compute.rs:32-39 | the bind-group system's effect in one frame: an existing pair is kept unchanged, nothing happens without the images resource, otherwise the pair is built exactly when every GPU image is ready |
| TerrainState.Step | src/compute.rs:186-218 | a completed step lands in a valid state (index 0 or 1) and never moves back in Loading < Init < Update; it panics exactly on an init error while Loading or an index outside {0,1} |
| TerrainState.TerrainCompute.constructor | src/compute.rs:177-183 | the node starts in Loading |
| TerrainState.TerrainCompute.Update | src/compute.rs:186-218 | changes the state field as the per-frame transition does, leaves it unchanged when it panics, and never moves the phase back |
| TerrainState.LoadingTransitions | src/compute.rs:192-201 | in Loading: to Init iff the init pipeline is Ok, abort iff it is Err, unchanged iff it is still compiling; the update pipeline's status is irrelevant |
| TerrainState.InitTransitions | src/compute.rs:203-209 | in Init: to Update(1) iff the update pipeline is Ok, otherwise (an error included) stay in Init without aborting; the init status is irrelevant |
| TerrainState.UpdateFlips | src/compute.rs:210-216 | in Update(0) or Update(1) the index flips whatever the pipelines report, and the unreachable arm is not taken |
| TerrainState.Advance | src/compute.rs:186-218 | the phase after a sequence of frames, from a valid state, is valid |
| TerrainState.UpdateParityAfter | src/compute.rs:210-215 | from Update(i), after n frames the index is i when n is even and 1-i when n is odd |
| TerrainState.NeverMovesBack | src/compute.rs:191-217 | over any number of completed frames the phase never moves back: never back to Loading once left, never back to Init once in Update |
| Dispatch.GridDispatch | src/compute.rs:252-256 | a dispatch's workgroup counts times the workgroup size are the full 4096 x 2048 grid, with depth 1 |
| Dispatch.Run | src/compute.rs:220-262 | any dispatch needs the bind groups and a phase past Loading and covers the grid; run panics exactly when in Init the init pipeline is missing, or in Update the update pipeline is available and the index is not 0 or 1 |
| Dispatch.RunIdle | src/compute.rs:226-237 | no dispatch without the bind-group pair, nor while Loading |
| Dispatch.RunInit | src/compute.rs:238-245 | in Init: the init pipeline on bind group 0 iff the init pipeline is compiled, a panic otherwise |
| Dispatch.RunUpdate | src/compute.rs:246-257 | in Update(i), i in {0,1}: never panics; the update pipeline on group i iff that pipeline is compiled, nothing otherwise |
| Dispatch.RunNeverAliases | src/compute.rs:238-257 | every dispatch against the prepared pair reads generation A on group 0 and B on group 1, writes the other, and binds no texture for both reading and writing |
| Frames.RenderFrame | src/compute.rs:32-43 | a completed frame never moves the phase back, never replaces existing bind groups, and leaves the node in the phase its own transition gives |
| Frames.Simulate | src/compute.rs:185-262 | the log has one entry per completed frame: all frames unless a panic ended the run |
| Frames.FrameStep | src/compute.rs:186-262 | from a consistent world, one frame either panics only for a compile error while Loading or a missing GPU image, or dispatches exactly when bind groups exist past Loading, with the group of its phase |
| Frames.NextFrame | src/compute.rs:186-262 | two consecutive frames: phase monotone, index flipped, bind groups kept, dispatching continues, and an update dispatch reads what the previous dispatch wrote |
| Frames.SimulateInvariant | src/compute.rs:186-262 | the per-frame and consecutive-frame properties hold along every run, and any panic is an allowed one |
| Frames.RunFromStart | src/compute.rs:177-183 | the same properties along every run from a default node with no bind groups |
| Frames.OnlyCompileErrorOrMissingImageAborts | src/compute.rs:238-241 | from the start, a run aborts only on an init compile error or on a GPU image missing at bind-group creation; the init unwrap, the unreachable arm and the array index never fail |
| Frames.CompletedFrame | src/compute.rs:32-43 | whatever the pipelines report, a completed frame keeps the index binary and the bind groups the prepared pair, dispatches in Init once the pair exists (the init unwrap did not fail), and issues only dispatches that match the phase |
| Frames.RunStaysSound | src/compute.rs:186-262 | the same holds of every completed frame of every run, with no assumption on the pipeline statuses |
| Frames.IndexStaysBinary | src/compute.rs:207-216 | whenever the node is in Update its index is 0 or 1 |
| Frames.ParityAlternates | src/compute.rs:210-215 | once in Update, the index flips on every frame |
| Frames.PhasesNeverRegress | src/compute.rs:191-217 | for any two completed frames j <= k, the phase at k is no earlier than at j |
| Frames.BindGroupsBuiltOnce | src/compute.rs:34-39 | once the bind-group pair exists it stays the same pair in every later frame |
| Frames.DispatchNeverAliases | src/compute.rs:238-257 | every dispatch covers the grid, uses group 0 in Init and group i in Update(i), and reads one generation while writing the other |
| Frames.InitDispatchedWhileInit | src/compute.rs:238-245 | every frame spent in Init with bind groups present dispatches the init pipeline against group 0 |
| Frames.UpdateReadsPreviousWrite | src/compute.rs:246-257 | once dispatching, every later frame dispatches, and each update dispatch reads, channel by channel, the textures the previous dispatch wrote |
| Frames.InitSkippedWhenBindGroupsLate | src/compute.rs:203-209 | if both pipelines compile before the images exist, the first dispatch is an update on group 1 and the init pipeline is never dispatched |
| Frames.InitThenAlternatingUpdates | src/compute.rs:186-257 | with the images ready first: init on group 0, then updates on group 1 and group 0, each feeding the next |
| Frames.NodeFollowsAdvance | src/compute.rs:186-218 | the node's phase after each completed frame of a run is what the phase transition alone reaches on the same statuses |

## Left out

- Pipeline queueing, the bind-group layout object and the bind-group objects themselves (`FromWorld`, `RenderDevice`, `PipelineCache`): foreign library calls. Pipelines are a status per frame, textures are (channel, generation) pairs, and a bind group is the sequence of textures in slot order.
- Plugin registration, resource extraction and the render-graph edge to the camera driver: the host's scheduling. The model fixes the order of one frame as bind-group system, then `update`, then `run`.
- The asynchronous compilation itself: it is reduced to the status observed in a frame. The trace lemmas assume a compiled pipeline stays compiled.
- The panic message text, including the shader path `compute.wgsl`.
- The WGSL kernels `init` and `update`: opaque GPU code over floats. The model records which pipeline runs against which textures, not what it computes.
- src/main.rs asset loading, window setup and `setup_sim`, which fills the six textures from the height map with floating-point pixel work; only the grid size 4096 x 2048 is used. src/map_material.rs and src/map.rs hold material declarations with no logic.
- Empty compute passes: `run` begins a compute pass on every frame where the bind groups exist, including frames in `Loading` and frames that dispatch nothing. The model records only the dispatches, so a pass with no dispatch is not modelled.
- The 32-bit unsigned width of the grid constants and of `usize`: every value that occurs fits, so `nat` is used.
