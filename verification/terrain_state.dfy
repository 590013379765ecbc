/** The compute node's phase: `Loading` until the init pipeline compiles,
    `Init` until the update pipeline compiles, then `Update(index)` with the
    bind-group index flipping every frame. */
module TerrainState {
  import opened Types

  datatype ComputeTerrainState = Loading | Init | Update(index: nat)

  /** Position of a phase in the order Loading < Init < Update. */
  function Rank(s: ComputeTerrainState): nat {
    match s
    case Loading => 0
    case Init => 1
    case Update(_) => 2
  }

  /** The states the node can be in: an `Update` index is 0 or 1. */
  predicate Valid(s: ComputeTerrainState) {
    s.Update? ==> s.index < 2
  }

  /** The node's per-frame transition, given the status of the init and the
      update pipelines this frame. Every completed step lands in a valid
      state and never moves back in the phase order; the only panics are a
      compile error while Loading and an index outside {0, 1}. */
  function Step(s: ComputeTerrainState, init: PipelineStatus, update: PipelineStatus)
    : (r: Outcome<ComputeTerrainState>)
    ensures r.Done? ==> Valid(r.value) && Rank(s) <= Rank(r.value)
    ensures r.Panicked? <==> (s.Loading? && init == Err) || !Valid(s)
    ensures r.Panicked? && s.Loading? ==> r.reason == ShaderCompileFailed
  {
    match s
    case Loading =>
      (match init
       case Ok => Done(Init)
       case Err => Panicked(ShaderCompileFailed)
       case _ => Done(Loading))
    case Init =>
      if update == Ok then Done(Update(1)) else Done(Init)
    case Update(index) =>
      if index == 0 then Done(Update(1))
      else if index == 1 then Done(Update(0))
      else Panicked(UnreachableState(index))
  }

  /** The render-graph node, whose `update` advances its phase once per frame. */
  class TerrainCompute {
    var state: ComputeTerrainState

    /** A new node starts in `Loading`. */
    constructor ()
      ensures state == Loading
    {
      state := Loading;
    }

    /** Advances the phase by one frame, or reports the panic that aborts the
        program, leaving the phase as it was. */
    method Update(init: PipelineStatus, update: PipelineStatus) returns (panic: Option<Panic>)
      modifies this
      ensures panic.None? ==> Step(old(state), init, update) == Done(state)
      ensures panic.Some? ==> Step(old(state), init, update) == Panicked(panic.value) && state == old(state)
      ensures panic.None? ==> Valid(state) && Rank(old(state)) <= Rank(state)
    {
      panic := None;
      match state
      case Loading =>
        if init == Ok {
          state := Init;
        } else if init == Err {
          panic := Some(ShaderCompileFailed);
        }
      case Init =>
        if update == Ok {
          state := ComputeTerrainState.Update(1);
        }
      case Update(index) =>
        if index == 0 {
          state := ComputeTerrainState.Update(1);
        } else if index == 1 {
          state := ComputeTerrainState.Update(0);
        } else {
          panic := Some(UnreachableState(index));
        }
    }
  }

  /** While Loading, only the init pipeline's status matters: `Ok` moves to
      Init, `Err` aborts, a pipeline still compiling leaves the phase alone. */
  lemma LoadingTransitions(init: PipelineStatus, update: PipelineStatus, other: PipelineStatus)
    ensures Step(Loading, init, update) == Done(Init) <==> init == Ok
    ensures Step(Loading, init, update).Panicked? <==> init == Err
    ensures Step(Loading, init, update) == Done(Loading) <==> init == Queued || init == Creating
    ensures Step(Loading, init, update) == Step(Loading, init, other)
  {
  }

  /** In Init, only the update pipeline's status matters: `Ok` moves to
      Update(1); anything else, an error included, stays in Init and never
      aborts. */
  lemma InitTransitions(init: PipelineStatus, update: PipelineStatus, other: PipelineStatus)
    ensures Step(Init, init, update) == Done(Update(1)) <==> update == Ok
    ensures Step(Init, init, update) == Done(Init) <==> update != Ok
    ensures Step(Init, init, update) == Step(Init, other, update)
  {
  }

  /** In a valid Update state the index flips on every frame whatever the
      pipelines report, and the unreachable arm is never taken. */
  lemma UpdateFlips(s: ComputeTerrainState, init: PipelineStatus, update: PipelineStatus)
    requires s.Update? && Valid(s)
    ensures Step(s, init, update) == Done(Update(1 - s.index))
  {
  }

  /** The phase a sequence of frames reaches from `s`, each frame giving the
      status of the init and the update pipelines; `None` once a frame aborts. */
  function Advance(s: ComputeTerrainState, statuses: seq<(PipelineStatus, PipelineStatus)>)
    : (r: Option<ComputeTerrainState>)
    ensures r.Some? && Valid(s) ==> Valid(r.value)
    decreases |statuses|
  {
    if statuses == [] then Some(s)
    else match Step(s, statuses[0].0, statuses[0].1)
      case Panicked(_) => None
      case Done(next) => Advance(next, statuses[1..])
  }

  /** From a valid Update state, `n` frames flip the index `n` times: the
      index after them is the starting index when `n` is even and the other
      one when `n` is odd. */
  lemma {:induction false} UpdateParityAfter(s: ComputeTerrainState, statuses: seq<(PipelineStatus, PipelineStatus)>)
    requires s.Update? && Valid(s)
    ensures Advance(s, statuses) ==
            Some(Update(if |statuses| % 2 == 0 then s.index else 1 - s.index))
    decreases |statuses|
  {
    if statuses != [] {
      UpdateFlips(s, statuses[0].0, statuses[0].1);
      UpdateParityAfter(Update(1 - s.index), statuses[1..]);
    }
  }

  /** A node that has left Loading never returns to it, and one in Update
      never returns to Init or Loading, over any number of frames. */
  lemma {:induction false} NeverMovesBack(s: ComputeTerrainState, statuses: seq<(PipelineStatus, PipelineStatus)>)
    requires Advance(s, statuses).Some?
    ensures Rank(s) <= Rank(Advance(s, statuses).value)
    decreases |statuses|
  {
    if statuses != [] {
      var next := Step(s, statuses[0].0, statuses[0].1).value;
      NeverMovesBack(next, statuses[1..]);
    }
  }
}
