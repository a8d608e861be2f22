/**
 * The attributes of a trainer object, and what the configuring operations
 * do to them: BaseTrainer.__init__, set_data (BaseTrainer's and
 * SegTrainer's), compile_trainer and the body of ImSpecTrainer.__init__.
 * The class in trainer.dfy is proved to change its fields exactly so.
 */
module TrainerState {
  import opened Outcomes
  import opened Schedule
  import opened Batches
  import opened Controller

  /** Which of the three trainer classes an object is. */
  datatype Kind = Base | Seg | ImSpec

  /** perturb_weights: off, the bool True, or a dictionary with a, gamma and e_p. */
  datatype PerturbSetting = PerturbOff | PerturbOn | PerturbWith(a: real, gamma: real, period: int)

  /** The optimizer attribute: unset, the default Adam (lr 1e-3), or one passed in by name. */
  datatype Optimizer = NoOptimizer | Adam | GivenOptimizer(name: string)

  /** The criterion attribute: unset, the segmentation loss chosen by name, or MSE. */
  datatype Criterion = NoCriterion | SegLoss(name: string, nbClasses: Option<int>) | MseLoss

  /** An input array: its samples, and whether it is a torch tensor (as opposed to a numpy array). */
  datatype Array = Array(samples: seq<Sample>, isTensor: bool)

  /** The train_data tuple: X_train, y_train and the optional X_test, y_test. */
  datatype TrainData = TrainData(xTrain: Array, yTrain: Array, xTest: Option<Array>, yTest: Option<Array>)

  /**
   * The atomai.utils and sklearn functions the trainers call, known only by
   * what they return: array2list, init_fcnn_dataloaders (loaders and class
   * count), preprocess_training_image_data (lists and class count),
   * init_imspec_dataloaders, and train_test_split, which returns
   * (X_train, X_test, y_train, y_test).
   */
  datatype Helpers = Helpers(
    array2list: (seq<Sample>, seq<Sample>, seq<Sample>, seq<Sample>, int) -> BatchLists,
    fcnnLoaders: (seq<Sample>, seq<Sample>, seq<Sample>, seq<Sample>, int) -> (seq<Batch>, seq<Batch>, int),
    fcnnLists: (seq<Sample>, seq<Sample>, seq<Sample>, seq<Sample>, int) -> (BatchLists, int),
    imspecLoaders: (seq<Sample>, seq<Sample>, seq<Sample>, seq<Sample>, int) -> (seq<Batch>, seq<Batch>),
    split: (seq<Sample>, seq<Sample>) -> (seq<Sample>, seq<Sample>, seq<Sample>, seq<Sample>))

  /** Every attribute of a trainer that the modelled operations read or write. */
  datatype Fields = Fields(
    net: Weights, metaBatchnorm: Option<bool>,
    optimizer: Optimizer, criterion: Criterion,
    computeAccuracy: bool, fullEpoch: bool, swa: bool, perturb: PerturbSetting,
    running: map<int, Weights>, trainingCycles: int,
    batchIdxTrain: seq<nat>, batchIdxTest: seq<nat>, batchSize: int, nbClasses: Option<int>,
    lists: BatchLists, trainLoader: seq<Batch>, testLoader: seq<Batch>,
    filename: string, printLoss: int, plotHistory: Option<bool>,
    lossAcc: LossAcc, emitted: Emitted)

  /** The configuration part of the attributes, as the training loop reads it; only a segmentation trainer's accuracy_fn scores. */
  function Config(kind: Kind, engine: Engine, f: Fields): Setup {
    Setup(engine, kind == Seg, f.fullEpoch, f.computeAccuracy, f.swa, f.trainingCycles, f.printLoss, f.filename, f.plotHistory,
          Data(f.trainLoader, f.testLoader, f.lists, f.batchIdxTrain, f.batchIdxTest, f.batchSize))
  }

  /** The part of the attributes the training loop changes. */
  function StateOf(f: Fields): RunState {
    RunState(f.net, f.lossAcc, f.running, f.emitted)
  }

  /** How the training loop calls weight_perturbation: only fit calls it, and only when the setting is truthy. */
  function PerturbationOf(kind: Kind, setting: PerturbSetting, inFit: bool): (p: Perturbation)
    ensures !inFit || setting == PerturbOff ==> p == NoPerturbation
    ensures inFit && setting != PerturbOff && kind != Seg ==> p == PerturbRaises(NotImplementedError)
  {
    if !inFit then NoPerturbation
    else match setting
      case PerturbOff => NoPerturbation
      case PerturbOn => if kind == Seg then PerturbRaises(TypeError) else PerturbRaises(NotImplementedError)
      case PerturbWith(_, _, period) => if kind == Seg then PerturbEvery(period) else PerturbRaises(NotImplementedError)
  }

  // ---------------------------------------------------------------------------
  // __init__

  /** The attributes BaseTrainer.__init__ sets; plot_training_history is not among them. */
  function InitialFields(): (f: Fields)
    ensures f.fullEpoch && !f.swa && f.perturb == PerturbOff && f.trainingCycles == 0
    ensures f.batchSize == 1 && f.printLoss == 1 && f.filename == "model" && f.plotHistory == None
    ensures f.metaBatchnorm == None && f.running == map[]
    ensures StateOf(f) == RunState(map[], LossAcc([], [], [], []), map[], Emitted([], [], []))
  {
    Fields(map[], None, NoOptimizer, NoCriterion, false, true, false, PerturbOff, map[], 0, [], [], 1, None,
           BatchLists([], [], [], []), [], [], "model", 1, None, LossAcc([], [], [], []), Emitted([], [], []))
  }

  /** SegTrainer.__init__ after the base initialisation: the class count and the model init_fcnn_model built. */
  function SegInitFields(nbClasses: int, net: Weights, batchnorm: bool): Fields {
    InitialFields().(nbClasses := Some(nbClasses), net := net, metaBatchnorm := Some(batchnorm))
  }

  // ---------------------------------------------------------------------------
  // set_data

  /** The four sample sequences of train_data, split off the training set when a test array is missing. */
  function SplitData(h: Helpers, d: TrainData): (seq<Sample>, seq<Sample>, seq<Sample>, seq<Sample>) {
    if d.xTest.None? || d.yTest.None? then
      var (xtr, xte, ytr, yte) := h.split(d.xTrain.samples, d.yTrain.samples);
      (xtr, ytr, xte, yte)
    else (d.xTrain.samples, d.yTrain.samples, d.xTest.value.samples, d.yTest.value.samples)
  }

  /** All four arrays are present and are torch tensors. */
  predicate AllTensors(d: TrainData) {
    d.xTrain.isTensor && d.yTrain.isTensor && d.xTest.Some? && d.xTest.value.isTensor
    && d.yTest.Some? && d.yTest.value.isTensor
  }

  /** BaseTrainer.set_data: loaders with drop_last in full-epoch mode, array2list lists otherwise. */
  function BaseSetData(h: Helpers, f: Fields, d: TrainData, batchSize: int): (Outcome, Fields) {
    if !AllTensors(d) then (Fail(TypeError), f)
    else if f.fullEpoch then
      match MakeLoader(d.xTrain.samples, d.yTrain.samples, batchSize, true)
      case Failure(err) => (Fail(err), f)
      case Success(train) =>
        var f1 := f.(trainLoader := train);
        match MakeLoader(d.xTest.value.samples, d.yTest.value.samples, batchSize, false)
        case Failure(err) => (Fail(err), f1)
        case Success(test) => (Ok, f1.(testLoader := test))
    else
      (Ok, f.(lists := h.array2list(d.xTrain.samples, d.yTrain.samples, d.xTest.value.samples, d.yTest.value.samples, batchSize)))
  }

  /** The class count preprocessing finds in the data of SegTrainer.set_data. */
  function DataClasses(h: Helpers, fullEpoch: bool, d: TrainData, batchSize: int): int {
    var (xtr, ytr, xte, yte) := SplitData(h, d);
    if fullEpoch then h.fcnnLoaders(xtr, ytr, xte, yte, batchSize).2
    else h.fcnnLists(xtr, ytr, xte, yte, batchSize).1
  }

  /** SegTrainer.set_data: batch_size recorded, loaders or lists built, then the class-count check. */
  function SegSetData(h: Helpers, f: Fields, d: TrainData, batchSize: int): (Outcome, Fields) {
    var (xtr, ytr, xte, yte) := SplitData(h, d);
    var f1 := f.(batchSize := batchSize);
    var (f2, nb) :=
      if f.fullEpoch then
        var (train, test, nb) := h.fcnnLoaders(xtr, ytr, xte, yte, batchSize);
        (f1.(trainLoader := train, testLoader := test), nb)
      else
        var (lists, nb) := h.fcnnLists(xtr, ytr, xte, yte, batchSize);
        (f1.(lists := lists), nb);
    if f.nbClasses != Some(nb) then (Fail(AssertionError), f2) else (Ok, f2)
  }

  /** set_data as each class defines it; ImSpecTrainer inherits BaseTrainer's. */
  function SetDataSpec(kind: Kind, h: Helpers, f: Fields, d: TrainData, batchSize: int): (Outcome, Fields) {
    if kind == Seg then SegSetData(h, f, d, batchSize) else BaseSetData(h, f, d, batchSize)
  }

  /**
   * BaseTrainer.set_data raises TypeError exactly when an array is missing or
   * is not a tensor; in full-epoch mode it builds both loaders exactly when
   * their lengths agree, the batch size is positive and the shuffled training
   * set is not empty, and both drop their last partial batch; it never
   * records batch_size.
   */
  lemma BaseSetDataFacts(h: Helpers, f: Fields, d: TrainData, batchSize: int)
    ensures var (out, g) := BaseSetData(h, f, d, batchSize);
      && (!AllTensors(d) ==> out == Fail(TypeError) && g == f)
      && (AllTensors(d) && f.fullEpoch ==>
            (out.Ok? <==>
              && |d.xTrain.samples| == |d.yTrain.samples| && d.xTrain.samples != []
              && |d.xTest.value.samples| == |d.yTest.value.samples| && batchSize > 0))
      && (out.Ok? && f.fullEpoch ==>
            && g.trainLoader == Chunks(d.xTrain.samples, d.yTrain.samples, batchSize)
            && g.testLoader == Chunks(d.xTest.value.samples, d.yTest.value.samples, batchSize)
            && |g.testLoader| == |d.xTest.value.samples| / batchSize)
      && (AllTensors(d) && !f.fullEpoch ==> out.Ok?)
      && g.batchSize == f.batchSize
  {
    var (out, g) := BaseSetData(h, f, d, batchSize);
    if out.Ok? && f.fullEpoch {
      ChunksShape(d.xTest.value.samples, d.yTest.value.samples, batchSize);
    }
  }

  /**
   * SegTrainer.set_data raises AssertionError exactly when the model's class
   * count differs from the data's, and in either case leaves the loaders (or
   * the lists) built for the configured mode and batch_size recorded.
   */
  lemma ClassCheck(h: Helpers, f: Fields, d: TrainData, batchSize: int)
    ensures var (out, g) := SegSetData(h, f, d, batchSize);
      var (xtr, ytr, xte, yte) := SplitData(h, d);
      && (out.Fail? <==> f.nbClasses != Some(DataClasses(h, f.fullEpoch, d, batchSize)))
      && (out.Fail? ==> out.error == AssertionError)
      && g.batchSize == batchSize
      && (f.fullEpoch ==> (g.trainLoader, g.testLoader) == (h.fcnnLoaders(xtr, ytr, xte, yte, batchSize).0, h.fcnnLoaders(xtr, ytr, xte, yte, batchSize).1))
      && (!f.fullEpoch ==> g.lists == h.fcnnLists(xtr, ytr, xte, yte, batchSize).0)
      && StateOf(g) == StateOf(f)
  {
  }

  // ---------------------------------------------------------------------------
  // compile_trainer

  /** compile_trainer's arguments; print_loss, filename and plot_training_history are the keyword arguments it reads. */
  datatype CompileArgs = CompileArgs(
    data: TrainData, loss: string, optimizer: Option<string>, trainingCycles: int, batchSize: int,
    computeAccuracy: bool, fullEpoch: bool, swa: bool, perturb: PerturbSetting,
    printLoss: Option<int>, filename: Option<string>, plotHistory: Option<bool>)

  /** compile_trainer called with train_data alone: every other argument at its default. */
  function DefaultCompileArgs(data: TrainData): CompileArgs {
    CompileArgs(data, "ce", None, 1000, 32, false, true, false, PerturbOff, None, None, None)
  }

  /**
   * The perturbation settings compile_trainer accepts. Any truthy setting
   * looks up meta_state_dict["batchnorm"] (absent: KeyError) and is refused
   * when batch normalisation is on; the bool True becomes the default
   * dictionary.
   */
  function ConfigurePerturbation(setting: PerturbSetting, batchnorm: Option<bool>, fullEpoch: bool): (r: Result<PerturbSetting>)
    ensures setting == PerturbOff ==> r == Success(PerturbOff)
    ensures setting != PerturbOff ==>
      && (batchnorm.None? ==> r == Failure(KeyError))
      && (batchnorm == Some(true) ==> r == Failure(AssertionError))
      && (batchnorm == Some(false) ==> r.Success?)
    ensures r.Success? && setting == PerturbOn ==> r.value == PerturbWith(0.01, 1.5, DefaultPerturbPeriod(fullEpoch))
    ensures r.Success? && setting.PerturbWith? ==> r.value == setting
  {
    if setting == PerturbOff then Success(PerturbOff)
    else if batchnorm.None? then Failure(KeyError)
    else if batchnorm.value then Failure(AssertionError)
    else if setting == PerturbOn then Success(PerturbWith(0.01, 1.5, DefaultPerturbPeriod(fullEpoch)))
    else Success(setting)
  }

  /** The fixed-cycle batch indices: one draw per cycle from each list, the training indices first. */
  function DrawIndices(f: Fields, cycles: int, drawTrain: nat -> nat, drawTest: nat -> nat): (Outcome, Fields) {
    if f.fullEpoch then (Ok, f)
    else match RandInt(|f.lists.xTrain|, cycles, drawTrain)
      case Failure(err) => (Fail(err), f)
      case Success(train) =>
        var f1 := f.(batchIdxTrain := train);
        match RandInt(|f.lists.xTest|, cycles, drawTest)
        case Failure(err) => (Fail(err), f1)
        case Success(test) => (Ok, f1.(batchIdxTest := test))
  }

  /** The index draws succeed when there are no cycles, and otherwise unless a list is empty or the cycle count negative. */
  predicate DrawOk(f: Fields, cycles: int) {
    f.fullEpoch || cycles == 0 || (|f.lists.xTrain| > 0 && |f.lists.xTest| > 0 && cycles >= 0)
  }

  /** What the draws promise: one index per cycle, each naming an existing batch. */
  predicate IndicesFit(f: Fields) {
    && |f.batchIdxTrain| == Iterations(f.trainingCycles) && |f.batchIdxTest| == Iterations(f.trainingCycles)
    && (forall i :: 0 <= i < |f.batchIdxTrain| ==> f.batchIdxTrain[i] < |f.lists.xTrain|)
    && (forall i :: 0 <= i < |f.batchIdxTest| ==> f.batchIdxTest[i] < |f.lists.xTest|)
  }

  lemma DrawIndicesFacts(f: Fields, cycles: int, drawTrain: nat -> nat, drawTest: nat -> nat)
    ensures var (out, g) := DrawIndices(f, cycles, drawTrain, drawTest);
      && (out.Ok? <==> DrawOk(f, cycles))
      && (out.Fail? ==> out.error == ValueError)
      && (f.fullEpoch ==> g == f)
      && (out.Ok? && !f.fullEpoch ==> IndicesFit(g.(trainingCycles := cycles)))
      && g == f.(batchIdxTrain := g.batchIdxTrain, batchIdxTest := g.batchIdxTest)
  {
  }

  /**
   * set_optimizer: Adam with the default learning rate unless an optimizer
   * is given. Adam refuses a network without parameters with ValueError, as
   * with the empty torch.nn.Module() a BaseTrainer starts with.
   */
  function OptimizerOf(given: Option<string>, net: Weights): (r: Result<Optimizer>)
    ensures r.Failure? <==> given.None? && net == map[]
    ensures r.Failure? ==> r.error == ValueError
    ensures r.Success? ==> (given.None? <==> r.value == Adam)
  {
    if given.Some? then Success(GivenOptimizer(given.value))
    else if net == map[] then Failure(ValueError)
    else Success(Adam)
  }

  /** compile_trainer up to set_data: the mode flags, then set_data with the batch size as a keyword. */
  function DataStage(kind: Kind, h: Helpers, f: Fields, a: CompileArgs): (Outcome, Fields) {
    SetDataSpec(kind, h, f.(fullEpoch := a.fullEpoch, trainingCycles := a.trainingCycles,
                            computeAccuracy := a.computeAccuracy, swa := a.swa), a.data, a.batchSize)
  }

  /** compile_trainer after set_data: perturb_weights with its checks and default, then the optimizer and the criterion. */
  function TrainingStage(f: Fields, a: CompileArgs): (Outcome, Fields) {
    var p := ConfigurePerturbation(a.perturb, f.metaBatchnorm, f.fullEpoch);
    if p.Failure? then (Fail(p.error), f.(perturb := a.perturb))
    else
      var o := OptimizerOf(a.optimizer, f.net);
      if o.Failure? then (Fail(o.error), f.(perturb := p.value))
      else (Ok, f.(perturb := p.value, optimizer := o.value, criterion := SegLoss(a.loss, f.nbClasses)))
  }

  /** The last statements of compile_trainer: print_loss, filename and plot_training_history with their defaults. */
  function ReportStage(f: Fields, a: CompileArgs): Fields {
    f.(printLoss := DefaultPrintLoss(f.fullEpoch, a.printLoss), filename := a.filename.GetOr("./model"),
       plotHistory := Some(a.plotHistory.GetOr(true)))
  }

  /** compile_trainer after set_data: the training stage, the index draws, then the reporting settings. */
  function SetupStage(f: Fields, a: CompileArgs, drawTrain: nat -> nat, drawTest: nat -> nat): (Outcome, Fields) {
    var (o3, f3) := TrainingStage(f, a);
    if o3.Fail? then (o3, f3)
    else
      var (o4, f4) := DrawIndices(f3, f3.trainingCycles, drawTrain, drawTest);
      if o4.Fail? then (o4, f4)
      else (Ok, ReportStage(f4, a))
  }

  lemma SetupStageFrame(f: Fields, a: CompileArgs, drawTrain: nat -> nat, drawTest: nat -> nat)
    ensures var g := SetupStage(f, a, drawTrain, drawTest).1;
      g == f.(perturb := g.perturb, optimizer := g.optimizer, criterion := g.criterion,
              batchIdxTrain := g.batchIdxTrain, batchIdxTest := g.batchIdxTest,
              printLoss := g.printLoss, filename := g.filename, plotHistory := g.plotHistory)
  {
    TrainingStageFacts(f, a);
    var f3 := TrainingStage(f, a).1;
    DrawIndicesFacts(f3, f3.trainingCycles, drawTrain, drawTest);
  }

  /** compile_trainer, stage by stage; on an exception the attributes set so far stay set. */
  function CompileSpec(kind: Kind, h: Helpers, f: Fields, a: CompileArgs, drawTrain: nat -> nat, drawTest: nat -> nat): (Outcome, Fields) {
    var r := DataStage(kind, h, f, a);
    if r.0.Fail? then r else SetupStage(r.1, a, drawTrain, drawTest)
  }

  /** When compile_trainer returns normally. */
  predicate CompileOk(kind: Kind, h: Helpers, f: Fields, a: CompileArgs) {
    var (o, g) := DataStage(kind, h, f, a);
    && o.Ok?
    && ConfigurePerturbation(a.perturb, g.metaBatchnorm, g.fullEpoch).Success?
    && OptimizerOf(a.optimizer, g.net).Success?
    && DrawOk(g, a.trainingCycles)
  }

  /** set_data writes batch_size, the loaders and the lists, and nothing else. */
  lemma SetDataFrame(kind: Kind, h: Helpers, f: Fields, d: TrainData, batchSize: int)
    ensures var g := SetDataSpec(kind, h, f, d, batchSize).1;
      g == f.(batchSize := g.batchSize, lists := g.lists, trainLoader := g.trainLoader, testLoader := g.testLoader)
  {
    if kind == Seg {
      var (xtr, ytr, xte, yte) := SplitData(h, d);
      var g := SegSetData(h, f, d, batchSize).1;
      if f.fullEpoch {
        assert g == f.(batchSize := batchSize, trainLoader := g.trainLoader, testLoader := g.testLoader);
      } else {
        assert g == f.(batchSize := batchSize, lists := g.lists);
      }
    }
  }

  /**
   * The perturbation, optimizer and criterion stage writes those three
   * attributes and nothing else; a refused setting leaves perturb_weights as
   * given, a refused optimizer leaves it configured.
   */
  lemma TrainingStageFacts(f: Fields, a: CompileArgs)
    ensures var (out, g) := TrainingStage(f, a);
      var c := ConfigurePerturbation(a.perturb, f.metaBatchnorm, f.fullEpoch);
      var o := OptimizerOf(a.optimizer, f.net);
      && (out.Ok? <==> c.Success? && o.Success?)
      && (c.Failure? ==> out == Fail(c.error) && g == f.(perturb := a.perturb))
      && (c.Success? && o.Failure? ==> out == Fail(o.error) && g == f.(perturb := c.value))
      && g == f.(perturb := g.perturb, optimizer := g.optimizer, criterion := g.criterion)
      && (out.Ok? ==> && g.perturb == c.value && g.optimizer == o.value
                      && g.criterion == SegLoss(a.loss, f.nbClasses))
  {
  }

  /**
   * compile_trainer returns normally exactly when set_data does, the
   * perturbation setting is accepted, the optimizer can be built and the
   * index draws succeed.
   */
  lemma CompileSucceeds(kind: Kind, h: Helpers, f: Fields, a: CompileArgs, drawTrain: nat -> nat, drawTest: nat -> nat)
    ensures CompileSpec(kind, h, f, a, drawTrain, drawTest).0.Ok? <==> CompileOk(kind, h, f, a)
  {
    var (o2, f2) := DataStage(kind, h, f, a);
    if o2.Ok? {
      TrainingStageFacts(f2, a);
      var (o3, f3) := TrainingStage(f2, a);
      if o3.Ok? {
        DrawIndicesFacts(f3, a.trainingCycles, drawTrain, drawTest);
        assert DrawOk(f3, a.trainingCycles) == DrawOk(f2, a.trainingCycles);
      }
    }
  }

  /** Whether or not compile_trainer returns normally, it leaves the weights and every log as they were. */
  lemma CompileKeepsState(kind: Kind, h: Helpers, f: Fields, a: CompileArgs, drawTrain: nat -> nat, drawTest: nat -> nat)
    ensures StateOf(CompileSpec(kind, h, f, a, drawTrain, drawTest).1) == StateOf(f)
  {
    var f1 := f.(fullEpoch := a.fullEpoch, trainingCycles := a.trainingCycles,
                 computeAccuracy := a.computeAccuracy, swa := a.swa);
    SetDataFrame(kind, h, f1, a.data, a.batchSize);
    var (o2, f2) := DataStage(kind, h, f, a);
    assert StateOf(f2) == StateOf(f);
    TrainingStageFacts(f2, a);
    var (o3, f3) := TrainingStage(f2, a);
    assert StateOf(f3) == StateOf(f);
    DrawIndicesFacts(f3, a.trainingCycles, drawTrain, drawTest);
    var (o4, f4) := DrawIndices(f3, a.trainingCycles, drawTrain, drawTest);
    assert StateOf(f4) == StateOf(f);
  }

  /**
   * A compiled trainer holds the mode, cycle count, accuracy and SWA flags
   * it was given, the optimizer and the criterion, print_loss with its
   * mode-dependent default, and the filename and plot_training_history with
   * their defaults.
   */
  lemma CompileSettings(kind: Kind, h: Helpers, f: Fields, a: CompileArgs, drawTrain: nat -> nat, drawTest: nat -> nat)
    requires CompileSpec(kind, h, f, a, drawTrain, drawTest).0.Ok?
    ensures var g := CompileSpec(kind, h, f, a, drawTrain, drawTest).1;
      && g.fullEpoch == a.fullEpoch && g.trainingCycles == a.trainingCycles
      && g.computeAccuracy == a.computeAccuracy && g.swa == a.swa
      && g.optimizer == OptimizerOf(a.optimizer, f.net).value
      && g.criterion == SegLoss(a.loss, g.nbClasses)
      && g.printLoss == DefaultPrintLoss(a.fullEpoch, a.printLoss)
      && g.filename == a.filename.GetOr("./model")
      && g.plotHistory == Some(a.plotHistory.GetOr(true))
  {
    var f1 := f.(fullEpoch := a.fullEpoch, trainingCycles := a.trainingCycles,
                 computeAccuracy := a.computeAccuracy, swa := a.swa);
    SetDataFrame(kind, h, f1, a.data, a.batchSize);
    var (o2, f2) := DataStage(kind, h, f, a);
    TrainingStageFacts(f2, a);
    var (o3, f3) := TrainingStage(f2, a);
    DrawIndicesFacts(f3, a.trainingCycles, drawTrain, drawTest);
  }

  /**
   * A truthy perturbation setting with batch normalisation on is refused
   * after set_data, with perturb_weights already assigned, but before the
   * optimizer, the criterion or the batch indices are touched.
   */
  lemma BatchnormRejected(kind: Kind, h: Helpers, f: Fields, a: CompileArgs, drawTrain: nat -> nat, drawTest: nat -> nat)
    requires DataStage(kind, h, f, a).0.Ok?
    requires a.perturb != PerturbOff && DataStage(kind, h, f, a).1.metaBatchnorm == Some(true)
    ensures var (out, g) := CompileSpec(kind, h, f, a, drawTrain, drawTest);
      && out == Fail(AssertionError)
      && g == DataStage(kind, h, f, a).1.(perturb := a.perturb)
      && g.optimizer == f.optimizer && g.criterion == f.criterion
      && g.batchIdxTrain == f.batchIdxTrain && g.batchIdxTest == f.batchIdxTest
  {
    var f1 := f.(fullEpoch := a.fullEpoch, trainingCycles := a.trainingCycles,
                 computeAccuracy := a.computeAccuracy, swa := a.swa);
    SetDataFrame(kind, h, f1, a.data, a.batchSize);
    TrainingStageFacts(DataStage(kind, h, f, a).1, a);
  }

  /**
   * perturb_weights=True becomes {a: .01, gamma: 1.5, e_p: 1 or 50}; for a
   * segmentation trainer fit then calls the loop with PerturbEvery(e_p), whose
   * schedule PerturbCycles holds exactly the cycles e with (e+1) % e_p == 0,
   * k / e_p of them in k cycles (CycleStepPerturbs ties it to each cycle).
   */
  lemma PerturbDefault(kind: Kind, h: Helpers, f: Fields, a: CompileArgs, drawTrain: nat -> nat, drawTest: nat -> nat, k: nat)
    requires a.perturb == PerturbOn
    requires CompileSpec(kind, h, f, a, drawTrain, drawTest).0.Ok?
    ensures var g := CompileSpec(kind, h, f, a, drawTrain, drawTest).1;
      var period := DefaultPerturbPeriod(a.fullEpoch);
      && g.perturb == PerturbWith(0.01, 1.5, period)
      && period == (if a.fullEpoch then 1 else 50)
      && (kind == Seg ==> PerturbationOf(kind, g.perturb, true) == PerturbEvery(period))
      && (forall e :: e in PerturbCycles(k, period) <==> 0 <= e < k && (e + 1) % period == 0)
      && |PerturbCycles(k, period)| == k / period
  {
    var period := DefaultPerturbPeriod(a.fullEpoch);
    var f1 := f.(fullEpoch := a.fullEpoch, trainingCycles := a.trainingCycles,
                 computeAccuracy := a.computeAccuracy, swa := a.swa);
    SetDataFrame(kind, h, f1, a.data, a.batchSize);
    var (o2, f2) := DataStage(kind, h, f, a);
    TrainingStageFacts(f2, a);
    var (o3, f3) := TrainingStage(f2, a);
    DrawIndicesFacts(f3, a.trainingCycles, drawTrain, drawTest);
    PerturbCyclesMembers(k, period);
    PerturbCount(k, period);
  }

  /**
   * After a fixed-cycle compile there is one training and one test index per
   * cycle, each naming a batch of the lists; when every input list has its
   * target list, every cycle of fit can fetch both of its batches.
   */
  lemma CompileReady(kind: Kind, h: Helpers, f: Fields, a: CompileArgs, drawTrain: nat -> nat, drawTest: nat -> nat, engine: Engine)
    requires !a.fullEpoch
    requires CompileSpec(kind, h, f, a, drawTrain, drawTest).0.Ok?
    ensures var g := CompileSpec(kind, h, f, a, drawTrain, drawTest).1;
      && IndicesFit(g)
      && (|g.lists.xTrain| <= |g.lists.yTrain| && |g.lists.xTest| <= |g.lists.yTest| ==>
            forall e: nat :: e < Iterations(a.trainingCycles) ==> StepsOk(Config(kind, engine, g), e))
  {
    var f1 := f.(fullEpoch := a.fullEpoch, trainingCycles := a.trainingCycles,
                 computeAccuracy := a.computeAccuracy, swa := a.swa);
    SetDataFrame(kind, h, f1, a.data, a.batchSize);
    var (o2, f2) := DataStage(kind, h, f, a);
    TrainingStageFacts(f2, a);
    var (o3, f3) := TrainingStage(f2, a);
    DrawIndicesFacts(f3, a.trainingCycles, drawTrain, drawTest);
    var g := CompileSpec(kind, h, f, a, drawTrain, drawTest).1;
    assert g.lists == f3.lists && g.trainingCycles == a.trainingCycles && IndicesFit(g);
    if |g.lists.xTrain| <= |g.lists.yTrain| && |g.lists.xTest| <= |g.lists.yTest| {
      forall e: nat | e < Iterations(a.trainingCycles)
        ensures StepsOk(Config(kind, engine, g), e)
      {
        assert g.batchIdxTrain[e] < |g.lists.xTrain| && g.batchIdxTest[e] < |g.lists.xTest|;
      }
    }
  }

  /**
   * With print_loss not given, a compiled trainer reports every cycle in
   * full-epoch mode and every 100th (plus the first) in fixed-cycle mode.
   */
  lemma CompiledReportSchedule(kind: Kind, h: Helpers, f: Fields, a: CompileArgs, drawTrain: nat -> nat, drawTest: nat -> nat, k: nat)
    requires a.printLoss.None?
    requires CompileSpec(kind, h, f, a, drawTrain, drawTest).0.Ok?
    ensures var g := CompileSpec(kind, h, f, a, drawTrain, drawTest).1;
      && g.printLoss == (if a.fullEpoch then 1 else 100)
      && (forall e :: e in ReportCycles(k, g.printLoss) <==> 0 <= e < k && (e == 0 || (e + 1) % g.printLoss == 0))
      && |ReportCycles(k, g.printLoss)| == if k == 0 then 0 else if a.fullEpoch then k else 1 + k / 100
  {
    CompileSettings(kind, h, f, a, drawTrain, drawTest);
    var g := CompileSpec(kind, h, f, a, drawTrain, drawTest).1;
    ReportCyclesMembers(k, g.printLoss);
    DefaultReportCount(a.fullEpoch, k);
  }

  // ---------------------------------------------------------------------------
  // How compile_trainer hands train_data to set_data

  /**
   * `self.set_data(*train_data, batch_size)` as written: the tuple and the
   * batch size are all passed by position. BaseTrainer.set_data binds four or
   * five positional data arguments, SegTrainer.set_data two to four (its
   * batch size is a keyword argument), so Python raises TypeError otherwise.
   */
  function PositionalSetData(kind: Kind, tupleLength: nat): (o: Outcome)
    ensures o.Ok? <==> if kind == Seg then 2 <= tupleLength + 1 <= 4 else 4 <= tupleLength + 1 <= 5
    ensures o.Fail? ==> o.error == TypeError
  {
    var n := tupleLength + 1;
    if kind == Seg then (if 2 <= n <= 4 then Ok else Fail(TypeError))
    else (if 4 <= n <= 5 then Ok else Fail(TypeError))
  }

  /**
   * As written, a segmentation trainer cannot be compiled with the full
   * (X_train, y_train, X_test, y_test) tuple that a base trainer needs.
   */
  lemma SegFullTupleRejected()
    ensures PositionalSetData(Seg, 4) == Fail(TypeError)
    ensures PositionalSetData(Base, 4) == Ok
  {
  }

  /**
   * `self.set_data(*train_data, batch_size)` as written on a segmentation
   * trainer with the pair (X_train, y_train): the batch size binds to
   * X_test, y_test stays None so the test set is split off all the same,
   * and with no batch_size keyword set_data uses 32.
   */
  function SegPairSetData(h: Helpers, f: Fields, xTrain: Array, yTrain: Array, batchSize: int): (Outcome, Fields) {
    SegSetData(h, f, TrainData(xTrain, yTrain, None, None), 32)
  }

  /** As written, the pair is accepted but the batch size given to compile_trainer is lost: 32 is recorded where the keyword call records the given size. */
  lemma SegPairIgnoresBatchSize(h: Helpers, f: Fields, xTrain: Array, yTrain: Array, batchSize: int)
    ensures PositionalSetData(Seg, 2) == Ok
    ensures SegPairSetData(h, f, xTrain, yTrain, batchSize).1.batchSize == 32
    ensures SegSetData(h, f, TrainData(xTrain, yTrain, None, None), batchSize).1.batchSize == batchSize
    ensures batchSize != 32 ==> SegPairSetData(h, f, xTrain, yTrain, batchSize) != SegSetData(h, f, TrainData(xTrain, yTrain, None, None), batchSize)
  {
    ClassCheck(h, f, TrainData(xTrain, yTrain, None, None), 32);
    ClassCheck(h, f, TrainData(xTrain, yTrain, None, None), batchSize);
  }

  /**
   * With the batch size passed as the keyword set_data reads, compile_trainer
   * records it for a segmentation trainer (and the full tuple is accepted);
   * BaseTrainer.set_data never records it, so self.batch_size keeps its old value.
   */
  lemma CompileBatchSize(kind: Kind, h: Helpers, f: Fields, a: CompileArgs)
    ensures var (o, g) := DataStage(kind, h, f, a);
      && (kind == Seg ==> g.batchSize == a.batchSize && (o.Fail? ==> o.error == AssertionError))
      && (kind != Seg ==> g.batchSize == f.batchSize)
  {
    var f1 := f.(fullEpoch := a.fullEpoch, trainingCycles := a.trainingCycles,
                 computeAccuracy := a.computeAccuracy, swa := a.swa);
    if kind == Seg {
      ClassCheck(h, f1, a.data, a.batchSize);
    } else {
      BaseSetDataFacts(h, f1, a.data, a.batchSize);
    }
  }

  // ---------------------------------------------------------------------------
  // ImSpecTrainer.__init__

  /** The arguments of ImSpecTrainer.__init__ the trainer state depends on, keyword arguments as options. */
  datatype ImSpecArgs = ImSpecArgs(
    data: TrainData, trainingCycles: int, batchSize: Option<int>, fullEpoch: Option<bool>,
    swa: Option<bool>, printLoss: Option<int>, filename: Option<string>, plotHistory: Option<bool>)

  /** The data statements of ImSpecTrainer.__init__: batch size, mode, then loaders or lists. */
  function ImSpecDataStage(h: Helpers, f: Fields, a: ImSpecArgs): Fields {
    var (xtr, ytr, xte, yte) := SplitData(h, a.data);
    var f1 := f.(batchSize := a.batchSize.GetOr(32), fullEpoch := a.fullEpoch.GetOr(false));
    if f1.fullEpoch then
      var (train, test) := h.imspecLoaders(xtr, ytr, xte, yte, f1.batchSize);
      f1.(trainLoader := train, testLoader := test)
    else f1.(lists := h.array2list(xtr, ytr, xte, yte, f1.batchSize))
  }

  /** The data statements write batch_size, full_epoch, the loaders and the lists, and nothing else. */
  lemma ImSpecDataFrame(h: Helpers, f: Fields, a: ImSpecArgs)
    ensures var g := ImSpecDataStage(h, f, a);
      g == f.(batchSize := g.batchSize, fullEpoch := g.fullEpoch, lists := g.lists,
              trainLoader := g.trainLoader, testLoader := g.testLoader)
  {
  }

  /** The data statements of ImSpecTrainer.__init__, then the index draws over the training_cycles argument. */
  function ImSpecLoadStage(h: Helpers, f: Fields, a: ImSpecArgs, drawTrain: nat -> nat, drawTest: nat -> nat): (Outcome, Fields) {
    DrawIndices(ImSpecDataStage(h, f, a), a.trainingCycles, drawTrain, drawTest)
  }

  /** The data statements and the draws write batch_size, full_epoch, the loaders, the lists and the indices, and nothing else. */
  lemma ImSpecLoadFrame(h: Helpers, f: Fields, a: ImSpecArgs, drawTrain: nat -> nat, drawTest: nat -> nat)
    ensures var g := ImSpecLoadStage(h, f, a, drawTrain, drawTest).1;
      g == f.(batchSize := g.batchSize, fullEpoch := g.fullEpoch, lists := g.lists,
              trainLoader := g.trainLoader, testLoader := g.testLoader,
              batchIdxTrain := g.batchIdxTrain, batchIdxTest := g.batchIdxTest)
  {
    var f1 := ImSpecDataStage(h, f, a);
    ImSpecDataFrame(h, f, a);
    DrawIndicesFacts(f1, a.trainingCycles, drawTrain, drawTest);
  }

  /**
   * The statements of ImSpecTrainer.__init__ after the index draws: model,
   * optimizer, loss and the keyword settings. The network init_imspec_model
   * builds has parameters, so Adam accepts it.
   */
  function ImSpecModelStage(f: Fields, a: ImSpecArgs, net: Weights, batchnorm: bool): Fields
    requires net != map[]
  {
    f.(net := net, metaBatchnorm := Some(batchnorm), optimizer := Adam, criterion := MseLoss,
       swa := a.swa.GetOr(false), trainingCycles := a.trainingCycles,
       printLoss := DefaultPrintLoss(f.fullEpoch, a.printLoss),
       filename := a.filename.GetOr("./model"), plotHistory := Some(a.plotHistory.GetOr(true)))
  }

  /** ImSpecModelStage field by field: the nine attributes it writes and the ones it keeps. */
  lemma ImSpecModelStageFields(f: Fields, a: ImSpecArgs, net: Weights, batchnorm: bool)
    requires net != map[]
    ensures var g := ImSpecModelStage(f, a, net, batchnorm);
      && g.net == net && g.metaBatchnorm == Some(batchnorm) && g.optimizer == Adam && g.criterion == MseLoss
      && g.swa == a.swa.GetOr(false) && g.trainingCycles == a.trainingCycles
      && g.printLoss == DefaultPrintLoss(f.fullEpoch, a.printLoss) && g.filename == a.filename.GetOr("./model")
      && g.plotHistory == Some(a.plotHistory.GetOr(true))
      && g.fullEpoch == f.fullEpoch && g.computeAccuracy == f.computeAccuracy && g.batchSize == f.batchSize
      && g.lists == f.lists && g.trainLoader == f.trainLoader && g.testLoader == f.testLoader
      && g.perturb == f.perturb && g.batchIdxTrain == f.batchIdxTrain && g.batchIdxTest == f.batchIdxTest
  {
  }

  /**
   * The body of ImSpecTrainer.__init__ after the base initialisation, with
   * the model init_imspec_model builds given as net and batchnorm. An absent
   * full_epoch is None, which every later test reads as false.
   */
  function ImSpecInitSpec(h: Helpers, f: Fields, a: ImSpecArgs, net: Weights, batchnorm: bool,
                          drawTrain: nat -> nat, drawTest: nat -> nat): (Outcome, Fields)
    requires net != map[]
  {
    var r := ImSpecLoadStage(h, f, a, drawTrain, drawTest);
    if r.0.Fail? then r else (Ok, ImSpecModelStage(r.1, a, net, batchnorm))
  }

  /**
   * ImSpecTrainer.__init__ fails only in the index draws of fixed-cycle mode.
   * Afterwards the trainer is in fixed-cycle mode unless full_epoch was given
   * true, has one index per cycle, Adam and MSE, the batch size 32 unless
   * given, print_loss 100 in fixed-cycle mode and 1 in full-epoch mode unless
   * given, plot_training_history assigned, and no log entries.
   */
  lemma ImSpecInitFacts(h: Helpers, a: ImSpecArgs, net: Weights, batchnorm: bool, drawTrain: nat -> nat, drawTest: nat -> nat)
    requires net != map[]
    ensures var (out, g) := ImSpecInitSpec(h, InitialFields(), a, net, batchnorm, drawTrain, drawTest);
      && (out.Fail? ==> out.error == ValueError)
      && (out.Ok? ==>
            && g.fullEpoch == (a.fullEpoch == Some(true))
            && (!g.fullEpoch ==> IndicesFit(g))
            && g.batchSize == a.batchSize.GetOr(32)
            && g.optimizer == Adam && OptimizerOf(None, net) == Success(g.optimizer) && g.criterion == MseLoss
            && g.metaBatchnorm == Some(batchnorm) && g.net == net
            && g.swa == (a.swa == Some(true)) && g.trainingCycles == a.trainingCycles
            && g.printLoss == DefaultPrintLoss(g.fullEpoch, a.printLoss)
            && (a.printLoss.None? ==> g.printLoss == if g.fullEpoch then 1 else 100)
            && g.plotHistory.Some?
            && g.perturb == PerturbOff
            && StateOf(g) == RunState(net, LossAcc([], [], [], []), map[], Emitted([], [], [])))
  {
    DrawIndicesFacts(ImSpecDataStage(h, InitialFields(), a), a.trainingCycles, drawTrain, drawTest);
  }
}

