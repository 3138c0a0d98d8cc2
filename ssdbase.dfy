/** The build and phase bookkeeping of `SSDBase` (ssd/models/ssd_base.py).

    Three flags record which `_build_*` steps have run and a fourth records that
    `learn` or `infer` has been called; `training` is torch's train/eval flag.
    The guards read these flags and raise `NotImplementedError` or `ValueError`.
    `Step` is the transition function of that state machine on plain values;
    every method of the `SSDBase` class is proved to move its flags exactly as
    `Step` says, and the lemmas about sequences of calls are stated on `Step`. */
module SsdBase {
  import opened Errors
  import opened ConvBuilders
  import opened Text
  import Layers

  // ---------------------------------------------------------------------------
  // Messages
  // ---------------------------------------------------------------------------

  const DimensionMessage := "input dimension must be 3"
  const SquareMessage := "input must be square size"
  const BuildLayersFirst := "Call _build_layers first!"
  const BuildAllFirst := "call _build_layers, _build_defaultBox and _build_infBox first"
  const LearnOrInferFirst := "call learn or infer first"
  const NotTraining := "model hasn't built as train. Call 'train()'"
  const NotEval := "model hasn't built as test. Call 'eval()'"
  const PermuteDims := "number of dims don't match in permute"

  // ---------------------------------------------------------------------------
  // The constructor's checks and the input-shape properties
  // ---------------------------------------------------------------------------

  /** The two `assert`s of `__init__`, in order: three dimensions, then height == width. */
  function InputShapeCheck(inputShape: seq<int>): (o: Outcome)
    ensures o == Pass <==> |inputShape| == 3 && inputShape[0] == inputShape[1]
    ensures |inputShape| != 3 ==> o == Fail(AssertionError(DimensionMessage))
    ensures |inputShape| == 3 && inputShape[0] != inputShape[1] ==> o == Fail(AssertionError(SquareMessage))
  {
    if |inputShape| != 3 then Fail(AssertionError(DimensionMessage))
    else if inputShape[0] != inputShape[1] then Fail(AssertionError(SquareMessage))
    else Pass
  }

  /** An `input_shape` the constructor accepts: (height, width, channel) with height == width. */
  predicate ValidInputShape(inputShape: seq<int>)
  {
    InputShapeCheck(inputShape) == Pass
  }

  // ---------------------------------------------------------------------------
  // The image-shape check of `infer`
  // ---------------------------------------------------------------------------

  /** The shape of the image tensor after `infer`'s reshaping: a 3-d image gains a
      leading batch axis, and with `convertTorch` the axes are permuted by (0, 3, 1, 2),
      which torch refuses for anything but a 4-d tensor. */
  function InferImageShape(imageShape: seq<nat>, convertTorch: bool): (r: Result<seq<nat>>)
    ensures var img := if |imageShape| == 3 then [1] + imageShape else imageShape;
      && (r.Err? <==> convertTorch && |img| != 4)
      && (r.Err? ==> r.error == RuntimeError(PermuteDims))
      && (r.Ok? && !convertTorch ==> r.value == img)
      && (r.Ok? && convertTorch ==> r.value == [img[0], img[3], img[1], img[2]])
    ensures r.Ok? ==> |r.value| == (if |imageShape| == 3 then 4 else |imageShape|)
    ensures r.Ok? && |imageShape| == 3 ==> r.value[0] == 1
  {
    var img := if |imageShape| == 3 then [1] + imageShape else imageShape;
    if !convertTorch then Ok(img)
    else if |img| != 4 then Err(RuntimeError(PermuteDims))
    else Ok([img[0], img[3], img[1], img[2]])
  }

  /** `input_shape` permuted by [2, 0, 1]: (channel, height, width). */
  function ExpectedImageShape(inputShape: seq<int>): seq<int>
    requires |inputShape| == 3
  {
    [inputShape[2], inputShape[0], inputShape[1]]
  }

  /** `list(img.shape[1:])`. */
  function NonBatchShape(img: seq<nat>): seq<int>
  {
    if img == [] then [] else img[1..]
  }

  /** The outcome of `infer`'s reshaping and shape comparison for an image of shape `imageShape`. */
  function ImageShapeCheck(inputShape: seq<int>, imageShape: seq<nat>, convertTorch: bool): Outcome
    requires |inputShape| == 3
  {
    match InferImageShape(imageShape, convertTorch)
    case Err(e) => Fail(e)
    case Ok(img) =>
      if NonBatchShape(img) != ExpectedImageShape(inputShape) then
        Fail(ValueError("image shape was not same as input shape: " + ListText(ExpectedImageShape(inputShape))
                        + ", but got " + ListText(NonBatchShape(img))))
      else Pass
  }

  /** `infer` accepts exactly the images whose non-batch axes are (channel, height, width),
      or (height, width, channel) when `convertTorch` asks for the axes to be moved, with
      or without a leading batch axis; a mismatch is a `ValueError`, except that a
      permutation of an image that is not 4-d once unsqueezed is torch's `RuntimeError`. */
  lemma InferAcceptsExactly(inputShape: seq<int>, imageShape: seq<nat>, convertTorch: bool)
    requires ValidInputShape(inputShape)
    ensures var h, w, c := inputShape[0], inputShape[1], inputShape[2];
      var want: seq<int> := if convertTorch then [h, w, c] else [c, h, w];
      && (ImageShapeCheck(inputShape, imageShape, convertTorch) == Pass
          <==> imageShape == want || (|imageShape| == 4 && imageShape[1..] == want))
      && (ImageShapeCheck(inputShape, imageShape, convertTorch).Fail? ==>
            ImageShapeCheck(inputShape, imageShape, convertTorch).error.ValueError?
            || (convertTorch && |imageShape| != 3 && |imageShape| != 4))
  {
    var h, w, c := inputShape[0], inputShape[1], inputShape[2];
    var want: seq<int> := if convertTorch then [h, w, c] else [c, h, w];
    var img := if |imageShape| == 3 then [1] + imageShape else imageShape;
    if |imageShape| == 3 {
      assert NonBatchShape(img) == imageShape by {
        assert img[1..] == imageShape;
      }
    }
    if convertTorch && |img| == 4 {
      var moved := [img[0], img[3], img[1], img[2]];
      assert InferImageShape(imageShape, convertTorch) == Ok(moved);
      assert NonBatchShape(moved) == [img[3], img[1], img[2]];
      if NonBatchShape(moved) == ExpectedImageShape(inputShape) {
        assert img[1..] == want;
      }
      if img[1..] == want {
        assert NonBatchShape(moved) == ExpectedImageShape(inputShape);
      }
    }
  }

  // ---------------------------------------------------------------------------
  // The flags and the transition function
  // ---------------------------------------------------------------------------

  /** The five booleans that decide every guard of `SSDBase`. */
  datatype Flags = Flags(layer: bool, box: bool, infBox: bool, called: bool, training: bool)

  /** The flags of a freshly constructed model: nothing built, nothing called, in training mode
      (torch modules start in training mode). */
  function Initial(): Flags
  {
    Flags(false, false, false, false, true)
  }

  /** `isBuilt`: all three build steps have run. */
  predicate IsBuilt(f: Flags)
  {
    f.layer && f.box && f.infBox
  }

  /** A call on the model. `Infer` carries the outcome of its image-shape check;
      `Train(mode)` is torch's `train(mode)` / `eval()`. */
  datatype Call =
    | BuildLayers
    | BuildDefaultBox
    | BuildInferenceBox
    | Forward
    | Learn
    | Infer(check: Outcome)
    | To
    | Train(mode: bool)

  /** The flags after one call, and whether the call raised. The foreign calls the build
      steps and `to` make (`check_instance`, `defaultBox.build`, `tuple`, `super().to`)
      are taken to return; only the guards written in this class raise here. */
  function Step(f: Flags, call: Call): (r: (Flags, Outcome))
    ensures r.1.Fail? ==> r.0 == f
    ensures r.1.Fail? ==> r.1.error.NotImplementedError? || (call.Infer? && r.1 == call.check)
    ensures r.0.training != f.training ==> call.Train?
  {
    match call
    case BuildLayers => (f.(layer := true), Pass)
    case BuildDefaultBox =>
      if !f.layer then (f, Fail(NotImplementedError(BuildLayersFirst)))
      else (f.(box := true), Pass)
    case BuildInferenceBox => (f.(infBox := true), Pass)
    case Forward =>
      if !IsBuilt(f) then (f, Fail(NotImplementedError(BuildAllFirst)))
      else if !f.called then (f, Fail(NotImplementedError(LearnOrInferFirst)))
      else (f, Pass)
    case Learn =>
      if !f.training then (f, Fail(NotImplementedError(NotTraining)))
      else (f.(called := true), Pass)
    case Infer(check) =>
      if f.training then (f, Fail(NotImplementedError(NotEval)))
      else if check.Fail? then (f, check)
      else (f.(called := true), Pass)
    case To =>
      if !IsBuilt(f) then (f, Fail(NotImplementedError(BuildAllFirst)))
      else (f, Pass)
    case Train(mode) => (f.(training := mode), Pass)
  }

  /** The flags after a sequence of calls, the first call first. */
  function Run(f: Flags, calls: seq<Call>): Flags
  {
    if calls == [] then f else Step(Run(f, calls[..|calls| - 1]), calls[|calls| - 1]).0
  }

  /** The outcome of the last of `calls`, made after all the calls before it. */
  function LastOutcome(f: Flags, calls: seq<Call>): Outcome
    requires calls != []
  {
    Step(Run(f, calls[..|calls| - 1]), calls[|calls| - 1]).1
  }

  /** A call that raises changes no flag; a call that succeeds changes at most the flag it
      owns: each `_build_*` its own build flag, `learn` and `infer` the called flag, and
      `forward` and `to` nothing. */
  lemma StepChangesOnlyItsFlag(f: Flags, call: Call)
    ensures var (g, o) := Step(f, call);
      && (o.Fail? ==> g == f)
      && (call == BuildLayers ==> g == f.(layer := true))
      && (call == BuildDefaultBox ==> g == f.(box := f.box || f.layer))
      && (call == BuildInferenceBox ==> g == f.(infBox := true))
      && (call == Learn ==> g == f.(called := f.called || f.training))
      && (call.Infer? ==> g == f.(called := f.called || (!f.training && call.check == Pass)))
      && (call == Forward || call == To ==> g == f)
      && (!call.Train? ==> g.training == f.training)
  {
  }

  /** `forward` and `to` pass exactly when all three build steps have run; `forward`
      also needs a prior `learn` or `infer`. */
  lemma GuardsOfForwardAndTo(f: Flags)
    ensures Step(f, Forward).1 == Pass <==> IsBuilt(f) && f.called
    ensures !IsBuilt(f) ==> Step(f, Forward).1 == Fail(NotImplementedError(BuildAllFirst))
    ensures IsBuilt(f) && !f.called ==> Step(f, Forward).1 == Fail(NotImplementedError(LearnOrInferFirst))
    ensures Step(f, To).1 == Pass <==> IsBuilt(f)
  {
  }

  /** `learn` passes exactly in training mode and `infer` exactly in eval mode with an
      image that passed its shape check; only a passing call sets the called flag. */
  lemma GuardsOfLearnAndInfer(f: Flags, check: Outcome)
    ensures Step(f, Learn).1 == Pass <==> f.training
    ensures Step(f, Infer(check)).1 == Pass <==> !f.training && check == Pass
    ensures Step(f, Learn).0.called <==> f.called || Step(f, Learn).1 == Pass
    ensures Step(f, Infer(check)).0.called <==> f.called || Step(f, Infer(check)).1 == Pass
  {
  }

  /** No call clears a build flag or the called flag. */
  lemma {:induction false} FlagsNeverCleared(f: Flags, calls: seq<Call>)
    ensures var g := Run(f, calls);
      (f.layer ==> g.layer) && (f.box ==> g.box) && (f.infBox ==> g.infBox) && (f.called ==> g.called)
  {
    if calls != [] {
      var n := |calls| - 1;
      FlagsNeverCleared(f, calls[..n]);
      StepChangesOnlyItsFlag(Run(f, calls[..n]), calls[n]);
    }
  }

  /** Whether some call of `calls` is `call`. */
  predicate Made(calls: seq<Call>, call: Call)
  {
    exists k :: 0 <= k < |calls| && calls[k] == call
  }

  /** From a fresh model, the default boxes are built only after the layers: whenever the box
      flag is set, some `_build_defaultBox` was made after some `_build_layers`. */
  lemma {:induction false} BoxAfterLayers(calls: seq<Call>)
    ensures Run(Initial(), calls).box ==> Run(Initial(), calls).layer
    ensures Run(Initial(), calls).box ==>
      exists k :: 0 <= k < |calls| && calls[k] == BuildDefaultBox && Made(calls[..k], BuildLayers)
    ensures Run(Initial(), calls).layer ==> Made(calls, BuildLayers)
  {
    if calls != [] {
      hide Run;
      var n := |calls| - 1;
      var before := calls[..n];
      BoxAfterLayers(before);
      var f := Run(Initial(), before);
      assert calls[..n + 1] == calls;
      RunPrefix(calls, n);
      if f.layer {
        var j :| 0 <= j < n && before[j] == BuildLayers;
        assert calls[j] == BuildLayers;
      }
      if f.box {
        var k :| 0 <= k < n && before[k] == BuildDefaultBox && Made(before[..k], BuildLayers);
        assert calls[..k] == before[..k];
      }
      if !f.box && Run(Initial(), calls).box {
        assert calls[n] == BuildDefaultBox && f.layer;
        assert calls[..n] == before;
      }
    }
  }

  /** From a fresh model, the called flag is set only by a `learn` made in training mode or an
      `infer` made in eval mode with an image that passed the shape check. */
  lemma {:induction false} CalledOnlyBySuccess(calls: seq<Call>)
    ensures Run(Initial(), calls).called ==>
      exists k :: 0 <= k < |calls| && (calls[k] == Learn || calls[k] == Infer(Pass))
                  && LastOutcome(Initial(), calls[..k + 1]) == Pass
  {
    if calls != [] {
      var n := |calls| - 1;
      var before := calls[..n];
      CalledOnlyBySuccess(before);
      var f := Run(Initial(), before);
      if f.called {
        var k :| 0 <= k < n && (before[k] == Learn || before[k] == Infer(Pass))
                 && LastOutcome(Initial(), before[..k + 1]) == Pass;
        assert before[..k + 1] == calls[..k + 1];
      } else if Run(Initial(), calls).called {
        assert calls[..n + 1] == calls;
        assert calls[n] == Learn || calls[n] == Infer(Pass);
      }
    }
  }

  /** Running `a` then `b` is running `a + b`. */
  lemma {:induction false} RunAppend(f: Flags, a: seq<Call>, b: seq<Call>)
    ensures Run(f, a + b) == Run(Run(f, a), b)
  {
    if b == [] {
      assert a + b == a;
    } else {
      var n := |b| - 1;
      RunAppend(f, a, b[..n]);
      assert (a + b)[..|a + b| - 1] == a + b[..n];
    }
  }

  /** A build flag set by the first `j + 1` calls is still set after all of them. */
  lemma BuildFlagsStay(calls: seq<Call>, j: nat)
    requires j < |calls|
    ensures var h, g := Run(Initial(), calls[..j + 1]), Run(Initial(), calls);
      (h.layer ==> g.layer) && (h.box ==> g.box) && (h.infBox ==> g.infBox)
  {
    hide Run, Step;
    assert calls == calls[..j + 1] + calls[j + 1..];
    RunAppend(Initial(), calls[..j + 1], calls[j + 1..]);
    FlagsNeverCleared(Run(Initial(), calls[..j + 1]), calls[j + 1..]);
  }

  /** Call `j` is the last of the first `j + 1` calls. */
  lemma RunPrefix(calls: seq<Call>, j: nat)
    requires j < |calls|
    ensures Run(Initial(), calls[..j + 1]) == Step(Run(Initial(), calls[..j]), calls[j]).0
  {
    assert calls[..j + 1][..j] == calls[..j];
  }

  /** Once `_build_layers` has been called the layer flag is set. */
  lemma {:induction false} LayerAfterBuild(calls: seq<Call>)
    requires Made(calls, BuildLayers)
    ensures Run(Initial(), calls).layer
  {
    var j :| 0 <= j < |calls| && calls[j] == BuildLayers;
    RunPrefix(calls, j);
    BuildFlagsStay(calls, j);
  }

  /** From a fresh model, `isBuilt` holds exactly when `_build_layers` and
      `_build_inferenceBox` have been called and some `_build_defaultBox` was called after
      some `_build_layers`. */
  lemma BuiltExactlyAfterBuilds(calls: seq<Call>)
    ensures IsBuilt(Run(Initial(), calls)) <==>
      Made(calls, BuildLayers) && Made(calls, BuildInferenceBox)
      && exists k :: 0 <= k < |calls| && calls[k] == BuildDefaultBox && Made(calls[..k], BuildLayers)
  {
    hide Run;
    BoxAfterLayers(calls);
    InfBoxNeedsBuild(calls);
    if Made(calls, BuildLayers) && Made(calls, BuildInferenceBox)
       && exists k :: 0 <= k < |calls| && calls[k] == BuildDefaultBox && Made(calls[..k], BuildLayers)
    {
      var k :| 0 <= k < |calls| && calls[k] == BuildDefaultBox && Made(calls[..k], BuildLayers);
      BuildsMakeBuilt(calls, k);
    }
  }

  /** The three build calls, the boxes after the layers, leave the model built. */
  lemma BuildsMakeBuilt(calls: seq<Call>, k: nat)
    requires Made(calls, BuildLayers) && Made(calls, BuildInferenceBox)
    requires k < |calls| && calls[k] == BuildDefaultBox && Made(calls[..k], BuildLayers)
    ensures IsBuilt(Run(Initial(), calls))
  {
    var j :| 0 <= j < |calls| && calls[j] == BuildInferenceBox;
    hide Run, Made;
    LayerAfterBuild(calls);
    RunPrefix(calls, j);
    BuildFlagsStay(calls, j);
    LayerAfterBuild(calls[..k]);
    RunPrefix(calls, k);
    BuildFlagsStay(calls, k);
  }

  /** From a fresh model, `forward` passes only after all three build steps, the default boxes
      after the layers, and a successful `learn` or `infer`. */
  lemma ForwardNeedsBuildAndCall(calls: seq<Call>)
    requires Step(Run(Initial(), calls), Forward).1 == Pass
    ensures Made(calls, BuildLayers) && Made(calls, BuildInferenceBox)
    ensures exists k :: 0 <= k < |calls| && calls[k] == BuildDefaultBox && Made(calls[..k], BuildLayers)
    ensures exists k :: 0 <= k < |calls| && (calls[k] == Learn || calls[k] == Infer(Pass))
                        && LastOutcome(Initial(), calls[..k + 1]) == Pass
  {
    hide Step, Run, LastOutcome, Made;
    GuardsOfForwardAndTo(Run(Initial(), calls));
    BoxAfterLayers(calls);
    CalledOnlyBySuccess(calls);
    InfBoxNeedsBuild(calls);
  }

  lemma {:induction false} InfBoxNeedsBuild(calls: seq<Call>)
    ensures Run(Initial(), calls).infBox ==> Made(calls, BuildInferenceBox)
  {
    if calls != [] {
      var n := |calls| - 1;
      InfBoxNeedsBuild(calls[..n]);
      if Run(Initial(), calls[..n]).infBox {
        var j :| 0 <= j < n && calls[..n][j] == BuildInferenceBox;
        assert calls[j] == BuildInferenceBox;
      }
    }
  }

  // ---------------------------------------------------------------------------
  // The model object
  // ---------------------------------------------------------------------------

  /** Creates a model: fails with the constructor's `AssertionError` for a bad `input_shape`. */
  method Create(classNums: nat, inputShape: seq<int>, batchNorm: bool) returns (r: Result<SSDBase>)
    ensures r.Err? <==> !ValidInputShape(inputShape)
    ensures r.Err? ==> Fail(r.error) == InputShapeCheck(inputShape)
    ensures r.Ok? ==> fresh(r.value) && r.value.Valid() && r.value.State() == Initial()
                      && r.value.classNums == classNums && r.value.inputShape == inputShape
                      && r.value.batchNorm == batchNorm
  {
    var check := InputShapeCheck(inputShape);
    if check.Fail? {
      return Err(check.error);
    }
    var model := new SSDBase(classNums, inputShape, batchNorm);
    return Ok(model);
  }

  class SSDBase {
    const classNums: nat
    const inputShape: seq<int>
    const batchNorm: bool

    var isbuiltLayer: bool
    var isbuiltBox: bool
    var isbuiltInfBox: bool
    var calledLearnInferr: bool
    /** torch's `nn.Module.training`, set by `train()` and `eval()`. */
    var training: bool

    var featureLayers: seq<NamedLayer>
    var l2normLayers: seq<NamedLayer>
    var localizationLayers: seq<NamedLayer>
    var confidenceLayers: seq<NamedLayer>
    var predictor: Layers.Predictor?
    var classifierSourceNames: seq<string>

    ghost predicate Valid()
      reads this, predictor
    {
      ValidInputShape(inputShape)
      && (isbuiltBox ==> predictor != null && predictor.classNums == classNums)
    }

    /** The flags, as the value `Step` works on. */
    function State(): Flags
      reads this
    {
      Flags(isbuiltLayer, isbuiltBox, isbuiltInfBox, calledLearnInferr, training)
    }

    constructor (classNums: nat, inputShape: seq<int>, batchNorm: bool)
      requires ValidInputShape(inputShape)
      ensures Valid() && State() == Initial()
      ensures this.classNums == classNums && this.inputShape == inputShape && this.batchNorm == batchNorm
    {
      this.classNums := classNums;
      this.inputShape := inputShape;
      this.batchNorm := batchNorm;
      isbuiltLayer, isbuiltBox, isbuiltInfBox, calledLearnInferr := false, false, false, false;
      training := true;
      predictor := null;
    }

    /** `input_height`. */
    function InputHeight(): int
      requires ValidInputShape(inputShape)
    {
      inputShape[0]
    }

    /** `input_width`. */
    function InputWidth(): int
      requires ValidInputShape(inputShape)
    {
      inputShape[1]
    }

    /** `input_channel`. */
    function InputChannel(): int
      requires ValidInputShape(inputShape)
    {
      inputShape[2]
    }

    /** A constructed model is square: its height and width agree, and `input_shape` is
        (height, width, channel). */
    lemma SquareInput()
      requires Valid()
      ensures InputHeight() == InputWidth()
      ensures inputShape == [InputHeight(), InputWidth(), InputChannel()]
      ensures ExpectedImageShape(inputShape) == [InputChannel(), InputHeight(), InputWidth()]
    {
    }

    /** `_build_layers`: stores the four module dictionaries and sets its flag. */
    method BuildLayers(features: seq<NamedLayer>, locs: seq<NamedLayer>, confs: seq<NamedLayer>,
                       l2norms: seq<NamedLayer>)
      requires Valid()
      modifies this
      ensures Valid() && State() == Step(old(State()), Call.BuildLayers).0
      ensures featureLayers == features && l2normLayers == l2norms
      ensures localizationLayers == locs && confidenceLayers == confs
      ensures predictor == old(predictor) && classifierSourceNames == old(classifierSourceNames)
    {
      featureLayers := features;
      l2normLayers := l2norms;
      localizationLayers := locs;
      confidenceLayers := confs;
      isbuiltLayer := true;
    }

    /** `_build_defaultBox`: refuses before `_build_layers`; otherwise creates the predictor
        for the `totalDboxNums` default boxes the (external) default-box builder produced. */
    method BuildDefaultBox(totalDboxNums: nat, sourceNames: seq<string>) returns (o: Outcome)
      requires Valid()
      modifies this
      ensures Valid()
      ensures (State(), o) == Step(old(State()), Call.BuildDefaultBox)
      ensures o.Fail? ==> predictor == old(predictor) && classifierSourceNames == old(classifierSourceNames)
      ensures o.Pass? ==> fresh(predictor) && predictor.totalDboxNums == totalDboxNums
                          && predictor.classNums == classNums && classifierSourceNames == sourceNames
      ensures featureLayers == old(featureLayers) && l2normLayers == old(l2normLayers)
      ensures localizationLayers == old(localizationLayers) && confidenceLayers == old(confidenceLayers)
    {
      if !isbuiltLayer {
        return Fail(NotImplementedError(BuildLayersFirst));
      }
      predictor := new Layers.Predictor(totalDboxNums, classNums);
      classifierSourceNames := sourceNames;
      isbuiltBox := true;
      return Pass;
    }

    /** `_build_inferenceBox`: sets its flag (the post-processor itself is external). */
    method BuildInferenceBox()
      requires Valid()
      modifies this`isbuiltInfBox
      ensures Valid() && State() == Step(old(State()), Call.BuildInferenceBox).0
    {
      isbuiltInfBox := true;
    }

    /** `forward`'s guards. */
    method Forward() returns (o: Outcome)
      ensures (State(), o) == Step(State(), Call.Forward)
    {
      if !IsBuilt(State()) {
        return Fail(NotImplementedError(BuildAllFirst));
      }
      if !calledLearnInferr {
        return Fail(NotImplementedError(LearnOrInferFirst));
      }
      return Pass;
    }

    /** `learn`: allowed only in training mode, where it records the call. */
    method Learn() returns (o: Outcome)
      requires Valid()
      modifies this`calledLearnInferr
      ensures Valid() && (State(), o) == Step(old(State()), Call.Learn)
    {
      if !training {
        return Fail(NotImplementedError(NotTraining));
      }
      calledLearnInferr := true;
      return Pass;
    }

    /** `infer`, on the image's shape: allowed only in eval mode; the image is unsqueezed when
        3-d, permuted when `convertTorch`, and its non-batch shape must be
        (channel, height, width). On success it returns the shape it passed on and records
        the call. */
    method Infer(imageShape: seq<nat>, convertTorch: bool) returns (r: Result<seq<nat>>)
      requires Valid()
      modifies this`calledLearnInferr
      ensures Valid()
      ensures var check := ImageShapeCheck(inputShape, imageShape, convertTorch);
        State() == Step(old(State()), Call.Infer(check)).0
        && (r.Ok? <==> Step(old(State()), Call.Infer(check)).1 == Pass)
        && (r.Err? ==> Fail(r.error) == Step(old(State()), Call.Infer(check)).1)
        && (r.Ok? ==> Ok(r.value) == InferImageShape(imageShape, convertTorch))
    {
      hide InferImageShape, ListText;
      if training {
        return Err(NotImplementedError(NotEval));
      }
      var img := if |imageShape| == 3 then [1] + imageShape else imageShape;
      if convertTorch {
        if |img| != 4 {
          return Err(RuntimeError(PermuteDims));
        }
        img := [img[0], img[3], img[1], img[2]];
      }
      var expected := ExpectedImageShape(inputShape);
      var got := NonBatchShape(img);
      if got != expected {
        return Err(ValueError("image shape was not same as input shape: " + ListText(expected)
                              + ", but got " + ListText(got)));
      }
      calledLearnInferr := true;
      return Ok(img);
    }

    /** `to`'s guard (the device move itself is not modelled). */
    method To() returns (o: Outcome)
      ensures (State(), o) == Step(State(), Call.To)
    {
      if !IsBuilt(State()) {
        return Fail(NotImplementedError(BuildAllFirst));
      }
      return Pass;
    }

    /** torch's `train(mode)`; `eval()` is `train(false)`. */
    method Train(mode: bool)
      requires Valid()
      modifies this`training
      ensures Valid() && State() == Step(old(State()), Call.Train(mode)).0
    {
      training := mode;
    }
  }
}
