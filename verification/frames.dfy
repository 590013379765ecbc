/** The render world frame by frame: in each frame the bind-group system runs
    (when its gate holds), then the node's `update`, then the node's `run`.
    The lemmas here state what holds over any sequence of frames. */
module Frames {
  import opened Types
  import opened BindGroups
  import opened TerrainState
  import opened Dispatch

  /** What one frame offers: whether the images resource exists, which GPU
      images are prepared, and the pipeline cache's status of the init and
      the update pipelines. */
  datatype Frame = Frame(imagesExist: bool, gpuImages: set<Texture>, init: PipelineStatus, update: PipelineStatus)

  /** The part of the render world the node depends on. */
  datatype RenderWorld = RenderWorld(node: ComputeTerrainState, bindGroups: Option<ComputeTerrainBindGroups>)

  /** The world after a frame and the dispatch the frame issued, if any. */
  datatype FrameOut = FrameOut(world: RenderWorld, dispatch: Option<DispatchRecord>)

  /** The frames completed in order, and the panic that ended the run, if any. */
  datatype Trace = Trace(log: seq<FrameOut>, panic: Option<Panic>)

  /** Before the first frame: a default node and no bind groups. */
  const START: RenderWorld := RenderWorld(Loading, None)

  /** One frame. A completed frame never moves the node back and never
      replaces bind groups that already exist. */
  function RenderFrame(w: RenderWorld, f: Frame): (r: Outcome<FrameOut>)
    ensures r.Done? ==> Rank(w.node) <= Rank(r.value.world.node)
    ensures r.Done? && w.bindGroups.Some? ==> r.value.world.bindGroups == w.bindGroups
    ensures r.Done? ==> Step(w.node, f.init, f.update) == Done(r.value.world.node)
  {
    match PrepareStage(w.bindGroups, f.imagesExist, f.gpuImages)
    case Panicked(p) => Panicked(p)
    case Done(groups) =>
      match Step(w.node, f.init, f.update)
      case Panicked(p) => Panicked(p)
      case Done(node) =>
        match Run(node, groups, f.init, f.update)
        case Panicked(p) => Panicked(p)
        case Done(d) => Done(FrameOut(RenderWorld(node, groups), d))
  }

  /** Runs the frames in order from `w` until one of them panics. The log
      holds one entry per completed frame: all of them unless a panic ended
      the run early. */
  function Simulate(w: RenderWorld, frames: seq<Frame>): (t: Trace)
    ensures |t.log| <= |frames|
    ensures t.panic.None? <==> |t.log| == |frames|
    decreases |frames|
  {
    if frames == [] then Trace([], None)
    else match RenderFrame(w, frames[0])
      case Panicked(p) => Trace([], Some(p))
      case Done(out) =>
        var rest := Simulate(out.world, frames[1..]);
        Trace([out] + rest.log, rest.panic)
  }

  /** The world the frame at position |log| started from. */
  function Before(w: RenderWorld, log: seq<FrameOut>): RenderWorld {
    if log == [] then w else log[|log| - 1].world
  }

  /** A compiled pipeline stays compiled in every later frame. */
  predicate CompiledPipelinesStay(frames: seq<Frame>) {
    forall j, k :: 0 <= j <= k < |frames| ==>
      (frames[j].init == Ok ==> frames[k].init == Ok) &&
      (frames[j].update == Ok ==> frames[k].update == Ok)
  }

  /** The node's phase agrees with what `f` reports: past Loading the init
      pipeline is compiled, and in Update the update pipeline is too. */
  predicate Consistent(s: ComputeTerrainState, f: Frame) {
    (!s.Loading? ==> f.init == Ok) && (s.Update? ==> f.update == Ok)
  }

  /** The node's index is 0 or 1, and bind groups, once there, are the pair
      the bind-group system builds. */
  predicate WorldOk(w: RenderWorld) {
    Valid(w.node) && (w.bindGroups.Some? ==> w.bindGroups.value == BIND_GROUPS)
  }

  /** The dispatch issued in phase `s`: init pipeline on group 0 in Init,
      update pipeline on group `index` in Update(index), the whole grid,
      and a group that never reads and writes the same texture. */
  predicate DispatchMatches(s: ComputeTerrainState, d: DispatchRecord) {
    CoversGrid(d) &&
    (s.Init? ==> d.pipeline == InitPipeline && d.bindGroupIndex == 0) &&
    (s.Update? ==> d.pipeline == UpdatePipeline && d.bindGroupIndex == s.index) &&
    d.bindGroupIndex < 2 && Some(d.bindGroup) == BIND_GROUPS.At(d.bindGroupIndex) &&
    NoAliasing(d.bindGroup)
  }

  /** What holds of each completed frame: a dispatch is issued exactly when
      the bind groups exist and the node is past Loading, and it matches the
      phase. */
  predicate FrameOk(out: FrameOut) {
    WorldOk(out.world) &&
    (out.dispatch.Some? <==> out.world.bindGroups.Some? && !out.world.node.Loading?) &&
    (out.dispatch.Some? ==> DispatchMatches(out.world.node, out.dispatch.value))
  }

  /** What holds of two consecutive completed frames: the phase does not move
      back, an Update index flips, bind groups are kept, once dispatching the
      node keeps dispatching, and an update dispatch reads, channel by channel,
      exactly the textures the previous dispatch wrote. */
  predicate ConsecutiveOk(prev: FrameOut, next: FrameOut) {
    Rank(prev.world.node) <= Rank(next.world.node) &&
    (prev.world.node.Update? ==>
       prev.world.node.index < 2 && next.world.node == Update(1 - prev.world.node.index)) &&
    (prev.world.bindGroups.Some? ==> next.world.bindGroups == prev.world.bindGroups) &&
    (prev.dispatch.Some? ==> next.dispatch.Some?) &&
    (prev.dispatch.Some? && next.dispatch.Some? && next.dispatch.value.pipeline == UpdatePipeline ==>
       Feeds(prev.dispatch.value.bindGroup, next.dispatch.value.bindGroup))
  }

  /** The only panics left: the init shader failing to compile while
      Loading, and a GPU image not yet prepared when the bind groups are
      built. */
  predicate AllowedPanic(w: RenderWorld, f: Frame, p: Panic) {
    (p == ShaderCompileFailed && w.node.Loading? && f.init == Err) ||
    (p.GpuImageMissing? && w.bindGroups.None? && f.imagesExist && p.texture !in f.gpuImages)
  }

  /** One frame from a world consistent with it. */
  lemma FrameStep(w: RenderWorld, f: Frame)
    requires WorldOk(w) && Consistent(w.node, f)
    ensures var r := RenderFrame(w, f);
            (r.Panicked? ==> AllowedPanic(w, f, r.reason)) &&
            (r.Done? ==> FrameOk(r.value) && Consistent(r.value.world.node, f) &&
                         (w.node.Update? ==> r.value.world.node == Update(1 - w.node.index)))
  {
    var r := RenderFrame(w, f);
    match PrepareStage(w.bindGroups, f.imagesExist, f.gpuImages)
    case Panicked(p) =>
    case Done(groups) =>
      match Step(w.node, f.init, f.update)
      case Panicked(p) =>
      case Done(node) =>
        if Run(node, groups, f.init, f.update).Done? {
          var d := Run(node, groups, f.init, f.update).value;
          if d.Some? {
            RunNeverAliases(node, f.init, f.update);
          }
        }
  }

  /** Two consecutive frames, the first one completed with a consistent node. */
  lemma NextFrame(prev: FrameOut, f: Frame)
    requires FrameOk(prev) && Consistent(prev.world.node, f)
    ensures RenderFrame(prev.world, f).Done? ==> ConsecutiveOk(prev, RenderFrame(prev.world, f).value)
  {
    FrameStep(prev.world, f);
    var r := RenderFrame(prev.world, f);
    if r.Done? && prev.dispatch.Some? && r.value.dispatch.Some? {
      var s := prev.world.node;
      var i := prev.dispatch.value.bindGroupIndex;
      WriteFeedsOtherGroup(i);
      if r.value.dispatch.value.pipeline == UpdatePipeline {
        assert r.value.dispatch.value.bindGroupIndex == 1 - i;
      }
    }
  }

  /** Everything the lemmas below need about a run from `w`. */
  predicate TraceOk(w: RenderWorld, frames: seq<Frame>, t: Trace) {
    |t.log| <= |frames| &&
    (forall k :: 0 <= k < |t.log| ==> FrameOk(t.log[k]) && Consistent(t.log[k].world.node, frames[k])) &&
    (forall k :: 0 <= k < |t.log| - 1 ==> ConsecutiveOk(t.log[k], t.log[k + 1])) &&
    (t.panic.Some? ==> |t.log| < |frames| && AllowedPanic(Before(w, t.log), frames[|t.log|], t.panic.value))
  }

  /** By induction over the frames: every completed frame satisfies
      `FrameOk`, every two consecutive ones `ConsecutiveOk`, and a panic
      that ends the run is one `AllowedPanic` admits. */
  lemma {:induction false} SimulateInvariant(w: RenderWorld, frames: seq<Frame>)
    requires WorldOk(w)
    requires |frames| > 0 ==> Consistent(w.node, frames[0])
    requires CompiledPipelinesStay(frames)
    ensures TraceOk(w, frames, Simulate(w, frames))
    decreases |frames|
  {
    if frames != [] {
      FrameStep(w, frames[0]);
      match RenderFrame(w, frames[0])
      case Panicked(p) =>
      case Done(out) =>
        var tail := frames[1..];
        assert CompiledPipelinesStay(tail) by {
          forall j, k | 0 <= j <= k < |tail|
            ensures (tail[j].init == Ok ==> tail[k].init == Ok) && (tail[j].update == Ok ==> tail[k].update == Ok)
          {
            assert tail[j] == frames[j + 1] && tail[k] == frames[k + 1];
          }
        }
        if tail != [] {
          assert frames[0].init == Ok ==> tail[0].init == Ok by { assert tail[0] == frames[1]; }
          assert frames[0].update == Ok ==> tail[0].update == Ok by { assert tail[0] == frames[1]; }
        }
        SimulateInvariant(out.world, tail);
        var rest := Simulate(out.world, tail);
        var t := Simulate(w, frames);
        assert t.log == [out] + rest.log;
        if rest.log != [] {
          NextFrame(out, tail[0]);
          assert rest.log[0] == RenderFrame(out.world, tail[0]).value;
        }
        forall k | 0 <= k < |t.log|
          ensures FrameOk(t.log[k]) && Consistent(t.log[k].world.node, frames[k])
        {
          if k > 0 {
            assert t.log[k] == rest.log[k - 1] && frames[k] == tail[k - 1];
          }
        }
        forall k | 0 <= k < |t.log| - 1
          ensures ConsecutiveOk(t.log[k], t.log[k + 1])
        {
          if k > 0 {
            assert t.log[k] == rest.log[k - 1] && t.log[k + 1] == rest.log[k];
          }
        }
        if t.panic.Some? {
          assert Before(w, t.log) == Before(out.world, rest.log);
          assert frames[|t.log|] == tail[|rest.log|];
        }
    }
  }

  /** Every run of the frames from the start, under the assumption that a
      compiled pipeline stays compiled. */
  lemma RunFromStart(frames: seq<Frame>)
    requires CompiledPipelinesStay(frames)
    ensures TraceOk(START, frames, Simulate(START, frames))
  {
    SimulateInvariant(START, frames);
  }

  /** A run from the start aborts only when the init shader fails to compile
      while Loading or when a GPU image is missing as the bind groups are
      built: the unwrap of the init pipeline, the unreachable arm and the
      bind-group index never panic. */
  lemma OnlyCompileErrorOrMissingImageAborts(frames: seq<Frame>)
    requires CompiledPipelinesStay(frames)
    ensures var t := Simulate(START, frames);
            t.panic.Some? ==>
              var f := frames[|t.log|];
              (t.panic.value == ShaderCompileFailed && f.init == Err) ||
              (t.panic.value.GpuImageMissing? && f.imagesExist && t.panic.value.texture !in f.gpuImages)
  {
    RunFromStart(frames);
  }

  /** Each completed frame of a run is one frame applied to the world the
      previous frame left, or to the starting world for the first one. */
  lemma {:induction false} LogStep(w: RenderWorld, frames: seq<Frame>, k: nat)
    requires k < |Simulate(w, frames).log|
    ensures var log := Simulate(w, frames).log;
            RenderFrame(Before(w, log[..k]), frames[k]) == Done(log[k])
    decreases k
  {
    var out := RenderFrame(w, frames[0]).value;
    var rest := Simulate(out.world, frames[1..]);
    var log := Simulate(w, frames).log;
    assert log == [out] + rest.log;
    if k > 0 {
      LogStep(out.world, frames[1..], k - 1);
      assert log[k] == rest.log[k - 1] && frames[k] == frames[1..][k - 1];
      if k == 1 {
        assert Before(w, log[..k]) == out.world == Before(out.world, rest.log[..0]);
      } else {
        assert Before(w, log[..k]) == log[k - 1].world == rest.log[k - 2].world;
        assert Before(out.world, rest.log[..k - 1]) == rest.log[k - 2].world;
      }
    }
  }

  /** What holds of every completed frame whatever the pipeline cache
      reports: the index is 0 or 1, bind groups, once there, are the
      prepared pair, a frame in Init with the pair present dispatches, and
      every dispatch matches the phase. */
  predicate FrameSound(out: FrameOut) {
    WorldOk(out.world) &&
    (out.world.node.Init? && out.world.bindGroups.Some? ==> out.dispatch.Some?) &&
    (out.dispatch.Some? ==> DispatchMatches(out.world.node, out.dispatch.value))
  }

  /** One completed frame from a world whose index is 0 or 1 and whose bind
      groups, if any, are the prepared pair, with no assumption on the
      pipeline statuses: in Init the init pipeline was compiled, or `run`
      would have aborted. */
  lemma CompletedFrame(w: RenderWorld, f: Frame)
    requires WorldOk(w) && RenderFrame(w, f).Done?
    ensures FrameSound(RenderFrame(w, f).value)
  {
    match PrepareStage(w.bindGroups, f.imagesExist, f.gpuImages)
    case Panicked(p) =>
    case Done(groups) =>
      match Step(w.node, f.init, f.update)
      case Panicked(p) =>
      case Done(node) =>
        var d := Run(node, groups, f.init, f.update).value;
        if d.Some? {
          RunNeverAliases(node, f.init, f.update);
        }
  }

  /** Every completed frame of every run from a world whose index is 0 or 1
      and whose bind groups, if any, are the prepared pair is sound, whatever
      the pipeline cache reports frame by frame. */
  lemma {:induction false} RunStaysSound(w: RenderWorld, frames: seq<Frame>, k: nat)
    requires WorldOk(w)
    requires k < |Simulate(w, frames).log|
    ensures FrameSound(Simulate(w, frames).log[k])
    decreases k
  {
    var log := Simulate(w, frames).log;
    LogStep(w, frames, k);
    if k > 0 {
      RunStaysSound(w, frames, k - 1);
      assert Before(w, log[..k]) == log[k - 1].world;
    }
    CompletedFrame(Before(w, log[..k]), frames[k]);
  }

  /** Whenever the node is in Update the index is 0 or 1. */
  lemma IndexStaysBinary(frames: seq<Frame>, k: nat)
    requires k < |Simulate(START, frames).log|
    ensures var s := Simulate(START, frames).log[k].world.node;
            s.Update? ==> s.index == 0 || s.index == 1
  {
    RunStaysSound(START, frames, k);
  }

  /** Once in Update, the index flips on every frame. */
  lemma ParityAlternates(frames: seq<Frame>, k: nat)
    requires k + 1 < |Simulate(START, frames).log|
    requires Simulate(START, frames).log[k].world.node.Update?
    ensures var log := Simulate(START, frames).log;
            log[k].world.node.index < 2 && log[k + 1].world.node == Update(1 - log[k].world.node.index)
  {
    var log := Simulate(START, frames).log;
    RunStaysSound(START, frames, k);
    LogStep(START, frames, k + 1);
    assert Before(START, log[..k + 1]) == log[k].world;
    UpdateFlips(log[k].world.node, frames[k + 1].init, frames[k + 1].update);
  }

  /** Phases never move back: after any later frame the phase is at least
      what it was. */
  lemma {:induction false} PhasesNeverRegress(frames: seq<Frame>, j: nat, k: nat)
    requires j <= k < |Simulate(START, frames).log|
    ensures var log := Simulate(START, frames).log;
            Rank(log[j].world.node) <= Rank(log[k].world.node)
    decreases k - j
  {
    if j < k {
      var log := Simulate(START, frames).log;
      LogStep(START, frames, j + 1);
      assert Before(START, log[..j + 1]) == log[j].world;
      PhasesNeverRegress(frames, j + 1, k);
    }
  }

  /** Once built, the bind-group pair is kept unchanged in every later frame. */
  lemma {:induction false} BindGroupsBuiltOnce(frames: seq<Frame>, j: nat, k: nat)
    requires j <= k < |Simulate(START, frames).log|
    requires Simulate(START, frames).log[j].world.bindGroups.Some?
    ensures var log := Simulate(START, frames).log;
            log[k].world.bindGroups == log[j].world.bindGroups == Some(BIND_GROUPS)
    decreases k - j
  {
    var log := Simulate(START, frames).log;
    RunStaysSound(START, frames, j);
    if j < k {
      LogStep(START, frames, j + 1);
      assert Before(START, log[..j + 1]) == log[j].world;
      BindGroupsBuiltOnce(frames, j + 1, k);
    }
  }

  /** Every dispatch covers the whole grid, binds group 0 in Init and group
      `index` in Update(index), and reads one generation while writing the
      other, so no texture is read and written by the same dispatch. */
  lemma DispatchNeverAliases(frames: seq<Frame>, k: nat)
    requires k < |Simulate(START, frames).log|
    requires Simulate(START, frames).log[k].dispatch.Some?
    ensures var out := Simulate(START, frames).log[k];
            var d := out.dispatch.value;
            CoversGrid(d) && NoAliasing(d.bindGroup) && d.bindGroupIndex < 2 &&
            Binds(d.bindGroup, ReadGeneration(d.bindGroupIndex), WriteGeneration(d.bindGroupIndex)) &&
            (out.world.node.Init? ==> d.pipeline == InitPipeline && d.bindGroupIndex == 0) &&
            (out.world.node.Update? ==> d.pipeline == UpdatePipeline && d.bindGroupIndex == out.world.node.index)
  {
    RunStaysSound(START, frames, k);
    GroupGenerations(Simulate(START, frames).log[k].dispatch.value.bindGroupIndex);
  }

  /** In every frame the node spends in Init with the bind groups present,
      the init pipeline is dispatched against group 0. */
  lemma InitDispatchedWhileInit(frames: seq<Frame>, k: nat)
    requires k < |Simulate(START, frames).log|
    requires Simulate(START, frames).log[k].world.node.Init?
    requires Simulate(START, frames).log[k].world.bindGroups.Some?
    ensures var d := Simulate(START, frames).log[k].dispatch;
            d.Some? && d.value.pipeline == InitPipeline && d.value.bindGroupIndex == 0 &&
            d.value.bindGroup == GROUP_0
  {
    RunStaysSound(START, frames, k);
  }

  /** Once the node dispatches, it dispatches in every later frame, and each
      update dispatch reads, channel by channel, exactly the textures the
      previous frame's dispatch wrote. */
  lemma UpdateReadsPreviousWrite(frames: seq<Frame>, k: nat)
    requires CompiledPipelinesStay(frames)
    requires k + 1 < |Simulate(START, frames).log|
    requires Simulate(START, frames).log[k].dispatch.Some?
    ensures var log := Simulate(START, frames).log;
            log[k + 1].dispatch.Some? &&
            (log[k + 1].dispatch.value.pipeline == UpdatePipeline ==>
               Feeds(log[k].dispatch.value.bindGroup, log[k + 1].dispatch.value.bindGroup))
  {
    RunFromStart(frames);
  }

  /** When both pipelines compile before the images exist, the node passes
      through Init while there is nothing to dispatch against: the first
      dispatch is an update on group 1 and the init pipeline never runs. */
  lemma InitSkippedWhenBindGroupsLate()
    ensures var all := set c: Channel, g: Generation :: Texture(c, g);
            var frames := [Frame(false, {}, Ok, Ok), Frame(true, all, Ok, Ok), Frame(true, all, Ok, Ok)];
            var log := Simulate(START, frames).log;
            |log| == 3 &&
            log[0].world.node == Init && log[0].dispatch.None? &&
            log[1].world.node == Update(1) && log[1].dispatch.Some? &&
            log[1].dispatch.value.pipeline == UpdatePipeline &&
            log[2].world.node == Update(0) &&
            forall k :: 0 <= k < |log| && log[k].dispatch.Some? ==> log[k].dispatch.value.pipeline != InitPipeline
  {
    var all := set c: Channel, g: Generation :: Texture(c, g);
    assert forall t: Texture :: t in all by {
      forall t: Texture ensures t in all {
        assert t == Texture(t.channel, t.generation);
      }
    }
    var frames := [Frame(false, {}, Ok, Ok), Frame(true, all, Ok, Ok), Frame(true, all, Ok, Ok)];
    var out0 := FrameOut(RenderWorld(Init, None), None);
    assert RenderFrame(START, frames[0]) == Done(out0);
    var out1 := FrameOut(RenderWorld(Update(1), Some(BIND_GROUPS)), Some(GridDispatch(UpdatePipeline, 1, GROUP_1)));
    assert RenderFrame(out0.world, frames[1]) == Done(out1);
    var out2 := FrameOut(RenderWorld(Update(0), Some(BIND_GROUPS)), Some(GridDispatch(UpdatePipeline, 0, GROUP_0)));
    assert RenderFrame(out1.world, frames[2]) == Done(out2);
    assert Simulate(out2.world, frames[3..]) == Trace([], None);
    assert Simulate(out1.world, frames[2..]) == Trace([out2], None);
    assert Simulate(out0.world, frames[1..]) == Trace([out1, out2], None);
    assert Simulate(START, frames).log == [out0, out1, out2];
  }

  /** The expected start-up when the images are ready first: the init
      pipeline compiles, so the first frame runs init against group 0
      (A to B); once the update pipeline compiles, updates alternate
      between group 1 (B to A) and group 0 (A to B), each reading what
      the previous dispatch wrote. */
  lemma InitThenAlternatingUpdates()
    ensures var all := set c: Channel, g: Generation :: Texture(c, g);
            var frames := [Frame(true, all, Ok, Creating), Frame(true, all, Ok, Ok), Frame(true, all, Ok, Ok)];
            var t := Simulate(START, frames);
            t.panic.None? && |t.log| == 3 &&
            t.log[0].dispatch == Some(GridDispatch(InitPipeline, 0, GROUP_0)) &&
            t.log[1].dispatch == Some(GridDispatch(UpdatePipeline, 1, GROUP_1)) &&
            t.log[2].dispatch == Some(GridDispatch(UpdatePipeline, 0, GROUP_0)) &&
            Feeds(GROUP_0, GROUP_1) && Feeds(GROUP_1, GROUP_0)
  {
    var all := set c: Channel, g: Generation :: Texture(c, g);
    assert forall t: Texture :: t in all by {
      forall t: Texture ensures t in all {
        assert t == Texture(t.channel, t.generation);
      }
    }
    var frames := [Frame(true, all, Ok, Creating), Frame(true, all, Ok, Ok), Frame(true, all, Ok, Ok)];
    var out0 := FrameOut(RenderWorld(Init, Some(BIND_GROUPS)), Some(GridDispatch(InitPipeline, 0, GROUP_0)));
    assert RenderFrame(START, frames[0]) == Done(out0);
    var out1 := FrameOut(RenderWorld(Update(1), Some(BIND_GROUPS)), Some(GridDispatch(UpdatePipeline, 1, GROUP_1)));
    assert RenderFrame(out0.world, frames[1]) == Done(out1);
    var out2 := FrameOut(RenderWorld(Update(0), Some(BIND_GROUPS)), Some(GridDispatch(UpdatePipeline, 0, GROUP_0)));
    assert RenderFrame(out1.world, frames[2]) == Done(out2);
    assert Simulate(out2.world, frames[3..]) == Trace([], None);
    assert Simulate(out1.world, frames[2..]) == Trace([out2], None);
    assert Simulate(out0.world, frames[1..]) == Trace([out1, out2], None);
    WriteFeedsOtherGroup(0);
    WriteFeedsOtherGroup(1);
  }

  /** The pipeline statuses each frame reports, as the phase-only trace reads them. */
  function Statuses(frames: seq<Frame>): (r: seq<(PipelineStatus, PipelineStatus)>)
    ensures |r| == |frames|
    ensures forall i :: 0 <= i < |frames| ==> r[i] == (frames[i].init, frames[i].update)
  {
    seq(|frames|, i requires 0 <= i < |frames| => (frames[i].init, frames[i].update))
  }

  /** The node's phase after each completed frame of a run is the phase the
      node's transition alone reaches on the same pipeline statuses, so the
      phase-only lemmas of the state machine apply to every run. */
  lemma {:induction false} NodeFollowsAdvance(w: RenderWorld, frames: seq<Frame>, k: nat)
    requires k < |Simulate(w, frames).log|
    ensures Advance(w.node, Statuses(frames[..k + 1])) == Some(Simulate(w, frames).log[k].world.node)
    decreases k
  {
    var out := RenderFrame(w, frames[0]).value;
    var rest := Simulate(out.world, frames[1..]);
    assert Simulate(w, frames).log == [out] + rest.log;
    var st := Statuses(frames[..k + 1]);
    assert st[0] == (frames[0].init, frames[0].update);
    if k == 0 {
      assert st[1..] == [];
    } else {
      NodeFollowsAdvance(out.world, frames[1..], k - 1);
      assert st[1..] == Statuses(frames[1..][..k]);
    }
  }
}
