/**
 * The trainer object: BaseTrainer's attributes as fields, and its methods,
 * with SegTrainer's and ImSpecTrainer's overrides selected by the object's
 * kind. Every method is proved to leave the attributes it writes as the
 * matching function of TrainerState or Controller says; its modifies clause
 * names those attributes, so every other attribute keeps its value.
 *
 * A configuring method with a ghost parameter f takes f as the attributes of
 * the object on entry: its requires equate f's field with the object's for
 * every attribute the method reads or may leave unwritten, and its ensures
 * give the attributes it may write the values the TrainerState function
 * computes from f.
 */
module Training {
  import opened Outcomes
  import opened Schedule
  import opened Batches
  import opened Metrics
  import opened Controller
  import opened TrainerState

  class Trainer {
    /** Which trainer class the object belongs to. */
    const kind: Kind
    /** The network, optimizer, loss and metric, known by what they compute. */
    const engine: Engine
    /** The atomai.utils and sklearn functions the object calls. */
    const helpers: Helpers

    var net: Weights
    var metaBatchnorm: Option<bool>
    var optimizer: Optimizer
    var criterion: Criterion
    var computeAccuracy: bool
    var fullEpoch: bool
    var swa: bool
    var perturb: PerturbSetting
    var running: map<int, Weights>
    var trainingCycles: int
    var batchIdxTrain: seq<nat>
    var batchIdxTest: seq<nat>
    var batchSize: int
    var nbClasses: Option<int>
    var xTrain: seq<seq<Sample>>
    var yTrain: seq<seq<Sample>>
    var xTest: seq<seq<Sample>>
    var yTest: seq<seq<Sample>>
    var trainLoader: seq<Batch>
    var testLoader: seq<Batch>
    var filename: string
    var printLoss: int
    /** plot_training_history: None until compile_trainer or ImSpecTrainer.__init__ assigns it. */
    var plotHistory: Option<bool>
    var lossAcc: LossAcc
    /** What the trainer has printed and the files it has written. */
    var emitted: Emitted

    /** All attributes as one value. */
    function Snapshot(): Fields
      reads this
    {
      Fields(net, metaBatchnorm, optimizer, criterion, computeAccuracy, fullEpoch, swa, perturb,
             running, trainingCycles, batchIdxTrain, batchIdxTest, batchSize, nbClasses,
             BatchLists(xTrain, yTrain, xTest, yTest), trainLoader, testLoader, filename, printLoss, plotHistory,
             lossAcc, emitted)
    }

    /** The configuration the training loop reads: Config(kind, engine, Snapshot()). */
    function Setting(): Setup
      reads this`fullEpoch, this`computeAccuracy, this`swa, this`trainingCycles, this`printLoss, this`filename, this`plotHistory
      reads this`trainLoader, this`testLoader, this`xTrain, this`yTrain, this`xTest, this`yTest
      reads this`batchIdxTrain, this`batchIdxTest, this`batchSize
    {
      Setup(engine, kind == Kind.Seg, fullEpoch, computeAccuracy, swa, trainingCycles, printLoss, filename, plotHistory,
            Data(trainLoader, testLoader, BatchLists(xTrain, yTrain, xTest, yTest), batchIdxTrain, batchIdxTest, batchSize))
    }

    /** The part of the attributes the training loop changes: StateOf(Snapshot()). */
    function State(): RunState
      reads this`net, this`lossAcc, this`running, this`emitted
    {
      RunState(net, lossAcc, running, emitted)
    }

    /**
     * The attributes compile_trainer writes hold the values g gives them.
     * Together with the modifies clause of the method that ensures it and
     * the requires relating f to the object, this is Snapshot() == g.
     */
    predicate Compiled(g: Fields)
      reads this`fullEpoch, this`trainingCycles, this`computeAccuracy, this`swa, this`batchSize
      reads this`xTrain, this`yTrain, this`xTest, this`yTest, this`trainLoader, this`testLoader
      reads this`perturb, this`optimizer, this`criterion, this`batchIdxTrain, this`batchIdxTest
      reads this`printLoss, this`filename, this`plotHistory
    {
      && (fullEpoch, trainingCycles, computeAccuracy, swa, batchSize)
         == (g.fullEpoch, g.trainingCycles, g.computeAccuracy, g.swa, g.batchSize)
      && (BatchLists(xTrain, yTrain, xTest, yTest), trainLoader, testLoader) == (g.lists, g.trainLoader, g.testLoader)
      && Configured(g) && batchIdxTrain == g.batchIdxTrain && batchIdxTest == g.batchIdxTest
    }

    /** The mode, batch size, loaders, lists and batch indices hold the values g gives them. */
    predicate Loaded(g: Fields)
      reads this`fullEpoch, this`batchSize, this`xTrain, this`yTrain, this`xTest, this`yTest
      reads this`trainLoader, this`testLoader, this`batchIdxTrain, this`batchIdxTest
    {
      (fullEpoch, batchSize, BatchLists(xTrain, yTrain, xTest, yTest), trainLoader, testLoader, batchIdxTrain, batchIdxTest)
      == (g.fullEpoch, g.batchSize, g.lists, g.trainLoader, g.testLoader, g.batchIdxTrain, g.batchIdxTest)
    }

    /** The cycle count, flags, perturbation, optimizer, criterion, print_loss, filename and plot_training_history hold the values g gives them. */
    predicate Configured(g: Fields)
      reads this`trainingCycles, this`computeAccuracy, this`swa, this`perturb
      reads this`optimizer, this`criterion, this`printLoss, this`filename, this`plotHistory
    {
      (trainingCycles, computeAccuracy, swa, perturb, optimizer, criterion, printLoss, filename, plotHistory)
      == (g.trainingCycles, g.computeAccuracy, g.swa, g.perturb, g.optimizer, g.criterion, g.printLoss, g.filename, g.plotHistory)
    }

    // -------------------------------------------------------------------------
    // Construction

    /** BaseTrainer(). */
    constructor Base(engine: Engine, helpers: Helpers)
      ensures kind == Kind.Base && this.engine == engine && this.helpers == helpers
      ensures Snapshot() == InitialFields()
    {
      kind, this.engine, this.helpers := Kind.Base, engine, helpers;
      net, metaBatchnorm, optimizer, criterion := map[], None, NoOptimizer, NoCriterion;
      computeAccuracy, fullEpoch, swa, perturb := false, true, false, PerturbOff;
      running, trainingCycles := map[], 0;
      batchIdxTrain, batchIdxTest := [], [];
      batchSize, nbClasses := 1, None;
      xTrain, yTrain, xTest, yTest := [], [], [], [];
      trainLoader, testLoader := [], [];
      filename, printLoss, plotHistory := "model", 1, None;
      lossAcc, emitted := LossAcc([], [], [], []), Emitted([], [], []);
    }

    /** SegTrainer(model, nb_classes, ...), with the network init_fcnn_model builds given as net and batchnorm. */
    constructor Seg(engine: Engine, helpers: Helpers, nbClasses: int, net: Weights, batchnorm: bool)
      ensures kind == Kind.Seg && this.engine == engine && this.helpers == helpers
      ensures Snapshot() == SegInitFields(nbClasses, net, batchnorm)
    {
      kind, this.engine, this.helpers := Kind.Seg, engine, helpers;
      this.net, metaBatchnorm, optimizer, criterion := net, Some(batchnorm), NoOptimizer, NoCriterion;
      computeAccuracy, fullEpoch, swa, perturb := false, true, false, PerturbOff;
      running, trainingCycles := map[], 0;
      batchIdxTrain, batchIdxTest := [], [];
      batchSize, this.nbClasses := 1, Some(nbClasses);
      xTrain, yTrain, xTest, yTest := [], [], [], [];
      trainLoader, testLoader := [], [];
      filename, printLoss, plotHistory := "model", 1, None;
      lossAcc, emitted := LossAcc([], [], [], []), Emitted([], [], []);
    }

    /** The base initialisation of ImSpecTrainer.__init__; InitImSpec is the rest of its body. */
    constructor ImSpec(engine: Engine, helpers: Helpers)
      ensures kind == Kind.ImSpec && this.engine == engine && this.helpers == helpers
      ensures Snapshot() == InitialFields()
    {
      kind, this.engine, this.helpers := Kind.ImSpec, engine, helpers;
      net, metaBatchnorm, optimizer, criterion := map[], None, NoOptimizer, NoCriterion;
      computeAccuracy, fullEpoch, swa, perturb := false, true, false, PerturbOff;
      running, trainingCycles := map[], 0;
      batchIdxTrain, batchIdxTest := [], [];
      batchSize, nbClasses := 1, None;
      xTrain, yTrain, xTest, yTest := [], [], [], [];
      trainLoader, testLoader := [], [];
      filename, printLoss, plotHistory := "model", 1, None;
      lossAcc, emitted := LossAcc([], [], [], []), Emitted([], [], []);
    }

    /**
     * The index draws of a fixed-cycle trainer: the training indices first,
     * then the test indices. f is the attributes as the object holds them.
     */
    method DrawBatchIndices(cycles: int, drawTrain: nat -> nat, drawTest: nat -> nat, ghost f: Fields) returns (out: Outcome)
      requires f.fullEpoch == fullEpoch && f.lists == BatchLists(xTrain, yTrain, xTest, yTest)
      requires f.batchIdxTrain == batchIdxTrain && f.batchIdxTest == batchIdxTest
      modifies this`batchIdxTrain, this`batchIdxTest
      ensures var (o, g) := DrawIndices(f, cycles, drawTrain, drawTest);
        out == o && batchIdxTrain == g.batchIdxTrain && batchIdxTest == g.batchIdxTest
    {
      if !fullEpoch {
        var train := RandInt(|xTrain|, cycles, drawTrain);
        if train.Failure? {
          return Fail(train.error);
        }
        batchIdxTrain := train.value;
        var test := RandInt(|xTest|, cycles, drawTest);
        if test.Failure? {
          return Fail(test.error);
        }
        batchIdxTest := test.value;
      }
      out := Ok;
    }

    /**
     * The data statements of ImSpecTrainer.__init__: batch size and mode,
     * then the loaders or the lists. f is the attributes as the object holds
     * them.
     */
    method LoadImSpecData(a: ImSpecArgs, ghost f: Fields)
      requires f.lists == BatchLists(xTrain, yTrain, xTest, yTest) && f.trainLoader == trainLoader && f.testLoader == testLoader
      modifies this`batchSize, this`fullEpoch, this`trainLoader, this`testLoader
      modifies this`xTrain, this`yTrain, this`xTest, this`yTest
      ensures var g := ImSpecDataStage(helpers, f, a);
        && batchSize == g.batchSize && fullEpoch == g.fullEpoch
        && trainLoader == g.trainLoader && testLoader == g.testLoader
        && BatchLists(xTrain, yTrain, xTest, yTest) == g.lists
    {
      var (xtr, ytr, xte, yte) := SplitData(helpers, a.data);
      batchSize := a.batchSize.GetOr(32);
      fullEpoch := a.fullEpoch.GetOr(false);
      if fullEpoch {
        var (train, test) := helpers.imspecLoaders(xtr, ytr, xte, yte, batchSize);
        trainLoader, testLoader := train, test;
      } else {
        var lists := helpers.array2list(xtr, ytr, xte, yte, batchSize);
        xTrain, yTrain, xTest, yTest := lists.xTrain, lists.yTrain, lists.xTest, lists.yTest;
      }
    }

    /** The statements of ImSpecTrainer.__init__ after the index draws; init_imspec_model gives a network with parameters. */
    method ConfigureImSpecModel(a: ImSpecArgs, net: Weights, batchnorm: bool)
      requires net != map[]
      modifies this`net, this`metaBatchnorm, this`optimizer, this`criterion
      modifies this`swa, this`trainingCycles, this`printLoss, this`filename, this`plotHistory
      ensures this.net == net && metaBatchnorm == Some(batchnorm) && optimizer == Adam && criterion == MseLoss
      ensures swa == a.swa.GetOr(false) && trainingCycles == a.trainingCycles
      ensures printLoss == DefaultPrintLoss(fullEpoch, a.printLoss) && filename == a.filename.GetOr("./model")
      ensures plotHistory == Some(a.plotHistory.GetOr(true))
    {
      this.net, metaBatchnorm := net, Some(batchnorm);
      optimizer, criterion := Adam, MseLoss;
      swa := a.swa.GetOr(false);
      trainingCycles := a.trainingCycles;
      if a.printLoss.Some? {
        printLoss := a.printLoss.value;
      } else if !fullEpoch {
        printLoss := 100;
      } else {
        printLoss := 1;
      }
      filename := a.filename.GetOr("./model");
      plotHistory := Some(a.plotHistory.GetOr(true));
    }

    /** The data statements of ImSpecTrainer.__init__ and the index draws that follow them. */
    method LoadImSpec(a: ImSpecArgs, drawTrain: nat -> nat, drawTest: nat -> nat, ghost f: Fields) returns (out: Outcome)
      requires f.lists == BatchLists(xTrain, yTrain, xTest, yTest) && f.trainLoader == trainLoader && f.testLoader == testLoader
      requires f.batchIdxTrain == batchIdxTrain && f.batchIdxTest == batchIdxTest
      modifies this`batchSize, this`fullEpoch, this`trainLoader, this`testLoader
      modifies this`xTrain, this`yTrain, this`xTest, this`yTest, this`batchIdxTrain, this`batchIdxTest
      ensures var r := ImSpecLoadStage(helpers, f, a, drawTrain, drawTest);
        out == r.0 && Loaded(r.1)
    {
      ghost var f1 := ImSpecDataStage(helpers, f, a);
      ImSpecDataFrame(helpers, f, a);
      LoadImSpecData(a, f);
      DrawIndicesFacts(f1, a.trainingCycles, drawTrain, drawTest);
      out := DrawBatchIndices(a.trainingCycles, drawTrain, drawTest, f1);
    }

    /**
     * The body of ImSpecTrainer.__init__ after the base initialisation, with
     * the network init_imspec_model builds, which has parameters, given as
     * net and batchnorm.
     */
    method InitImSpec(a: ImSpecArgs, net: Weights, batchnorm: bool, drawTrain: nat -> nat, drawTest: nat -> nat,
                      ghost f: Fields) returns (out: Outcome)
      requires kind == Kind.ImSpec && net != map[]
      requires Loaded(f) && Configured(f) && f.net == this.net && f.metaBatchnorm == metaBatchnorm
      modifies this`batchSize, this`fullEpoch, this`trainLoader, this`testLoader
      modifies this`xTrain, this`yTrain, this`xTest, this`yTest, this`batchIdxTrain, this`batchIdxTest
      modifies this`net, this`metaBatchnorm, this`optimizer, this`criterion
      modifies this`swa, this`trainingCycles, this`printLoss, this`filename, this`plotHistory
      ensures var r := ImSpecLoadStage(helpers, f, a, drawTrain, drawTest);
        && out == r.0 && Loaded(r.1)
        && (out.Fail? ==> Configured(f) && this.net == f.net && metaBatchnorm == f.metaBatchnorm)
        && (out.Ok? ==> Configured(ImSpecModelStage(r.1, a, net, batchnorm)) && this.net == net && metaBatchnorm == Some(batchnorm))
    {
      ghost var r := ImSpecLoadStage(helpers, f, a, drawTrain, drawTest);
      out := LoadImSpec(a, drawTrain, drawTest, f);
      if out.Ok? {
        ImSpecLoadFrame(helpers, f, a, drawTrain, drawTest);
        ImSpecModelStageFields(r.1, a, net, batchnorm);
        ConfigureImSpecModel(a, net, batchnorm);
      }
    }

    // -------------------------------------------------------------------------
    // Configuration

    /** set_model. */
    method SetModel(model: Weights, nbClasses: Option<int>)
      modifies this`net, this`nbClasses
      ensures net == model && this.nbClasses == nbClasses
    {
      net, this.nbClasses := model, nbClasses;
    }

    /** set_optimizer; the optimizer stays as it was when Adam refuses the network. */
    method SetOptimizer(given: Option<string>) returns (out: Outcome)
      modifies this`optimizer
      ensures var r := OptimizerOf(given, net);
        && (out.Ok? <==> r.Success?) && (out.Fail? ==> out.error == r.error)
        && (out.Ok? ==> optimizer == r.value) && (out.Fail? ==> optimizer == old(optimizer))
    {
      if given.Some? {
        optimizer := GivenOptimizer(given.value);
      } else if net == map[] {
        return Fail(ValueError);
      } else {
        optimizer := Adam;
      }
      out := Ok;
    }

    /**
     * set_data, BaseTrainer's or SegTrainer's according to the kind of
     * trainer. f is the attributes as the object holds them.
     */
    method SetData(d: TrainData, batchSize: int, ghost f: Fields) returns (out: Outcome)
      requires f.fullEpoch == fullEpoch && f.nbClasses == nbClasses && f.batchSize == this.batchSize
      requires f.lists == BatchLists(xTrain, yTrain, xTest, yTest) && f.trainLoader == trainLoader && f.testLoader == testLoader
      modifies this`batchSize, this`trainLoader, this`testLoader, this`xTrain, this`yTrain, this`xTest, this`yTest
      ensures var (o, g) := SetDataSpec(kind, helpers, f, d, batchSize);
        && out == o && this.batchSize == g.batchSize && trainLoader == g.trainLoader && testLoader == g.testLoader
        && BatchLists(xTrain, yTrain, xTest, yTest) == g.lists
    {
      if kind == Kind.Seg {
        var (xtr, ytr, xte, yte) := SplitData(helpers, d);
        this.batchSize := batchSize;
        var nb: int;
        if fullEpoch {
          var (train, test, n) := helpers.fcnnLoaders(xtr, ytr, xte, yte, batchSize);
          trainLoader, testLoader, nb := train, test, n;
        } else {
          var (lists, n) := helpers.fcnnLists(xtr, ytr, xte, yte, batchSize);
          xTrain, yTrain, xTest, yTest, nb := lists.xTrain, lists.yTrain, lists.xTest, lists.yTest, n;
        }
        if nbClasses != Some(nb) {
          return Fail(AssertionError);
        }
        return Ok;
      }
      var given := [Some(d.xTrain), Some(d.yTrain), d.xTest, d.yTest];
      for i := 0 to 4
        invariant forall j :: 0 <= j < i ==> given[j].Some? && given[j].value.isTensor
      {
        if given[i].None? || !given[i].value.isTensor {
          assert !AllTensors(d) by {
            assert i == 0 || i == 1 || i == 2 || i == 3;
          }
          return Fail(TypeError);
        }
      }
      assert given[0].value.isTensor && given[1].value.isTensor;
      assert given[2].Some? && given[2].value.isTensor && given[3].Some? && given[3].value.isTensor;
      if fullEpoch {
        var train := MakeLoader(d.xTrain.samples, d.yTrain.samples, batchSize, true);
        if train.Failure? {
          return Fail(train.error);
        }
        trainLoader := train.value;
        var test := MakeLoader(d.xTest.value.samples, d.yTest.value.samples, batchSize, false);
        if test.Failure? {
          return Fail(test.error);
        }
        testLoader := test.value;
      } else {
        var lists := helpers.array2list(d.xTrain.samples, d.yTrain.samples, d.xTest.value.samples,
                                        d.yTest.value.samples, batchSize);
        xTrain, yTrain, xTest, yTest := lists.xTrain, lists.yTrain, lists.xTest, lists.yTest;
      }
      out := Ok;
    }

    /**
     * The perturb_weights checks and default of compile_trainer, then the
     * optimizer and the criterion. f is the attributes as the object holds
     * them.
     */
    method ConfigureTraining(a: CompileArgs, ghost f: Fields) returns (out: Outcome)
      requires f.metaBatchnorm == metaBatchnorm && f.fullEpoch == fullEpoch && f.nbClasses == nbClasses
      requires f.optimizer == optimizer && f.criterion == criterion && f.net == net
      modifies this`perturb, this`optimizer, this`criterion
      ensures var r := TrainingStage(f, a);
        out == r.0 && perturb == r.1.perturb && optimizer == r.1.optimizer && criterion == r.1.criterion
    {
      TrainingStageFacts(f, a);
      perturb := a.perturb;
      if perturb != PerturbOff {
        if metaBatchnorm.None? {
          return Fail(KeyError);
        }
        if metaBatchnorm.value {
          return Fail(AssertionError);
        }
        if perturb == PerturbOn {
          perturb := PerturbWith(0.01, 1.5, if fullEpoch then 1 else 50);
        }
      }
      out := SetOptimizer(a.optimizer);
      if out.Fail? {
        return;
      }
      criterion := SegLoss(a.loss, nbClasses);
      out := Ok;
    }

    /** The last statements of compile_trainer: print_loss, filename and plot_training_history with their defaults. */
    method ConfigureReporting(a: CompileArgs)
      modifies this`printLoss, this`filename, this`plotHistory
      ensures printLoss == DefaultPrintLoss(fullEpoch, a.printLoss) && filename == a.filename.GetOr("./model")
      ensures plotHistory == Some(a.plotHistory.GetOr(true))
    {
      if a.printLoss.Some? {
        printLoss := a.printLoss.value;
      } else if !fullEpoch {
        printLoss := 100;
      } else {
        printLoss := 1;
      }
      filename := a.filename.GetOr("./model");
      plotHistory := Some(a.plotHistory.GetOr(true));
    }

    /**
     * The statements of compile_trainer after set_data. f is the attributes
     * as the object holds them.
     */
    method ConfigureSetup(a: CompileArgs, drawTrain: nat -> nat, drawTest: nat -> nat, ghost f: Fields) returns (out: Outcome)
      requires f.metaBatchnorm == metaBatchnorm && f.fullEpoch == fullEpoch && f.nbClasses == nbClasses
      requires f.optimizer == optimizer && f.criterion == criterion && f.trainingCycles == trainingCycles
      requires f.net == net
      requires f.lists == BatchLists(xTrain, yTrain, xTest, yTest)
      requires f.batchIdxTrain == batchIdxTrain && f.batchIdxTest == batchIdxTest
      requires f.printLoss == printLoss && f.filename == filename && f.plotHistory == plotHistory
      modifies this`perturb, this`optimizer, this`criterion, this`batchIdxTrain, this`batchIdxTest
      modifies this`printLoss, this`filename, this`plotHistory
      ensures var (o, g) := SetupStage(f, a, drawTrain, drawTest);
        && out == o && perturb == g.perturb && optimizer == g.optimizer && criterion == g.criterion
        && batchIdxTrain == g.batchIdxTrain && batchIdxTest == g.batchIdxTest
        && printLoss == g.printLoss && filename == g.filename && plotHistory == g.plotHistory
    {
      ghost var spec := SetupStage(f, a, drawTrain, drawTest);
      ghost var (o3, f3) := TrainingStage(f, a);
      TrainingStageFacts(f, a);
      out := ConfigureTraining(a, f);
      if out.Fail? {
        assert spec == (out, f3);
        return;
      }
      ghost var (o4, f4) := DrawIndices(f3, trainingCycles, drawTrain, drawTest);
      DrawIndicesFacts(f3, trainingCycles, drawTrain, drawTest);
      out := DrawBatchIndices(trainingCycles, drawTrain, drawTest, f3);
      if out.Fail? {
        assert spec == (out, f4);
        return;
      }
      assert spec == (Ok, ReportStage(f4, a));
      ConfigureReporting(a);
    }

    /** The first statements of compile_trainer: the mode flags, then set_data with the batch size as a keyword. */
    method SetModeAndData(a: CompileArgs, ghost f: Fields) returns (out: Outcome)
      requires f.nbClasses == nbClasses && f.batchSize == batchSize
      requires f.lists == BatchLists(xTrain, yTrain, xTest, yTest) && f.trainLoader == trainLoader && f.testLoader == testLoader
      modifies this`fullEpoch, this`trainingCycles, this`computeAccuracy, this`swa, this`batchSize
      modifies this`xTrain, this`yTrain, this`xTest, this`yTest, this`trainLoader, this`testLoader
      ensures var (o, g) := DataStage(kind, helpers, f, a);
        && out == o && fullEpoch == g.fullEpoch && trainingCycles == g.trainingCycles
        && computeAccuracy == g.computeAccuracy && swa == g.swa && batchSize == g.batchSize
        && BatchLists(xTrain, yTrain, xTest, yTest) == g.lists && trainLoader == g.trainLoader && testLoader == g.testLoader
    {
      ghost var f1 := f.(fullEpoch := a.fullEpoch, trainingCycles := a.trainingCycles,
                         computeAccuracy := a.computeAccuracy, swa := a.swa);
      SetDataFrame(kind, helpers, f1, a.data, a.batchSize);
      fullEpoch, trainingCycles, computeAccuracy, swa := a.fullEpoch, a.trainingCycles, a.computeAccuracy, a.swa;
      out := SetData(a.data, a.batchSize, f1);
    }

    /**
     * compile_trainer, with set_data given the batch size as the keyword it
     * reads. f is the attributes of the object when it is called.
     */
    method CompileTrainer(a: CompileArgs, drawTrain: nat -> nat, drawTest: nat -> nat, ghost f: Fields) returns (out: Outcome)
      requires f.metaBatchnorm == metaBatchnorm && f.nbClasses == nbClasses
      requires f.batchSize == batchSize && f.net == net
      requires f.lists == BatchLists(xTrain, yTrain, xTest, yTest) && f.trainLoader == trainLoader && f.testLoader == testLoader
      requires f.perturb == perturb && f.optimizer == optimizer && f.criterion == criterion
      requires f.batchIdxTrain == batchIdxTrain && f.batchIdxTest == batchIdxTest
      requires f.printLoss == printLoss && f.filename == filename && f.plotHistory == plotHistory
      modifies this`fullEpoch, this`trainingCycles, this`computeAccuracy, this`swa, this`batchSize
      modifies this`xTrain, this`yTrain, this`xTest, this`yTest, this`trainLoader, this`testLoader
      modifies this`perturb, this`optimizer, this`criterion, this`batchIdxTrain, this`batchIdxTest
      modifies this`printLoss, this`filename, this`plotHistory
      ensures var r := CompileSpec(kind, helpers, f, a, drawTrain, drawTest);
        out == r.0 && Compiled(r.1)
    {
      ghost var f2 := DataStage(kind, helpers, f, a).1;
      SetDataFrame(kind, helpers, f.(fullEpoch := a.fullEpoch, trainingCycles := a.trainingCycles,
                                     computeAccuracy := a.computeAccuracy, swa := a.swa), a.data, a.batchSize);
      out := SetModeAndData(a, f);
      if out.Ok? {
        SetupStageFrame(f2, a, drawTrain, drawTest);
        out := ConfigureSetup(a, drawTrain, drawTest, f2);
      }
    }

    // -------------------------------------------------------------------------
    // One cycle

    /** dataloader(batch_num, mode): batch batch_num of the test or the training lists, cut to batch_size. */
    function Dataloader(batchNum: nat, mode: string): (r: Result<Batch>)
      reads this`fullEpoch, this`computeAccuracy, this`swa, this`trainingCycles, this`printLoss, this`filename, this`plotHistory
      reads this`trainLoader, this`testLoader, this`xTrain, this`yTrain, this`xTest, this`yTest
      reads this`batchIdxTrain, this`batchIdxTest, this`batchSize
      ensures r == Fetch(Setting().data, batchNum, mode)
    {
      if mode == "test" then
        if batchNum >= |xTest| || batchNum >= |yTest| then Failure(IndexError)
        else Success(Batch(Prefix(xTest[batchNum], batchSize), Prefix(yTest[batchNum], batchSize)))
      else
        if batchNum >= |xTrain| || batchNum >= |yTrain| then Failure(IndexError)
        else Success(Batch(Prefix(xTrain[batchNum], batchSize), Prefix(yTrain[batchNum], batchSize)))
    }

    /** step(e): one sampled train batch and one sampled test batch. */
    method Step(e: nat) returns (out: Outcome)
      modifies this`net, this`lossAcc
      ensures var r := FixedCycleStep(old(Setting()), old(State()), e);
        && (out.Ok? <==> r.Success?)
        && (out.Fail? ==> out.error == r.error)
        && (out.Ok? ==> net == r.value.net && lossAcc == r.value.lossAcc)
    {
      if e >= |batchIdxTrain| {
        return Fail(IndexError);
      }
      var train := Dataloader(batchIdxTrain[e], "train");
      if train.Failure? {
        return Fail(train.error);
      }
      var (w, tr) := engine.train(net, train.value);
      net := w;
      lossAcc := lossAcc.(trainLoss := lossAcc.trainLoss + [tr.loss]);
      if e >= |batchIdxTest| {
        return Fail(IndexError);
      }
      var test := Dataloader(batchIdxTest[e], "test");
      if test.Failure? {
        return Fail(test.error);
      }
      var te := engine.test(net, test.value);
      lossAcc := lossAcc.(testLoss := lossAcc.testLoss + [te.loss]);
      if computeAccuracy {
        lossAcc := lossAcc.(trainAccuracy := lossAcc.trainAccuracy + [tr.accuracy],
                            testAccuracy := lossAcc.testAccuracy + [te.accuracy]);
      }
      out := Ok;
    }

    /** step_full(): a pass over the train loader, then (the for-else) over the test loader, then the means. */
    method StepFull() returns (out: Outcome)
      modifies this`net, this`lossAcc
      ensures var r := FullCycleStep(old(Setting()), old(State()));
        && (out.Ok? <==> r.Success?)
        && (out.Fail? ==> out.error == r.error)
        && (out.Ok? ==> net == r.value.net && lossAcc == r.value.lossAcc)
    {
      ghost var s, st := Setting(), State();
      var w := net;
      var train, test := trainLoader, testLoader;
      var c, cTest := 0, 0;
      var losses, lossesTest := 0.0, 0.0;
      var acc, accTest := 0.0, 0.0;
      for i := 0 to |train|
        modifies {}
        invariant TrainPassAt(engine.train, st.net, train, i, w, losses, acc, computeAccuracy) && c == i
        invariant NoneAccuracy(s) ==> i == 0
      {
        TrainPassNext(engine.train, st.net, train, i, w, losses, acc, computeAccuracy);
        var (w1, r) := engine.train(w, train[i]);
        w := w1;
        losses := losses + r.loss;
        if computeAccuracy {
          if kind != Kind.Seg {
            return Fail(TypeError);
          }
          acc := acc + r.accuracy;
        }
        c := c + 1;
      }
      for i := 0 to |test|
        modifies {}
        invariant TestPassAt(engine.test, w, test, i, lossesTest, accTest, computeAccuracy) && cTest == i
        invariant NoneAccuracy(s) ==> i == 0
      {
        TestPassNext(engine.test, w, test, i, lossesTest, accTest, computeAccuracy);
        var r := engine.test(w, test[i]);
        lossesTest := lossesTest + r.loss;
        if computeAccuracy {
          if kind != Kind.Seg {
            return Fail(TypeError);
          }
          accTest := accTest + r.accuracy;
        }
        cTest := cTest + 1;
      }
      FullCycleStepOf(s, st, w, c, losses, acc, cTest, lossesTest, accTest);
      net := w;
      if c == 0 || cTest == 0 {
        return Fail(ZeroDivisionError);
      }
      lossAcc := lossAcc.(trainLoss := lossAcc.trainLoss + [losses / c as real],
                          testLoss := lossAcc.testLoss + [lossesTest / cTest as real]);
      if computeAccuracy {
        lossAcc := lossAcc.(trainAccuracy := lossAcc.trainAccuracy + [acc / c as real],
                            testAccuracy := lossAcc.testAccuracy + [accTest / cTest as real]);
      }
      out := Ok;
    }

    /** save_running_weights(e): a copy of the weights into the slot of cycle e, inside the trailing window. */
    method SaveRunningWeights(e: int)
      modifies this`running
      ensures var window := SwaWindow(fullEpoch);
        running == if InSwaWindow(trainingCycles, e, window) then old(running)[SwaSlot(trainingCycles, e, window) := net]
                   else old(running)
    {
      var swaEpochs := if fullEpoch then 5 else 30;
      if trainingCycles - e <= swaEpochs {
        var slot := swaEpochs - (trainingCycles - e);
        running := running[slot := net];
      }
    }

    /**
     * weight_perturbation(e): BaseTrainer's raises NotImplementedError;
     * SegTrainer's reads a, gamma and e_p from the setting (a bool has none:
     * TypeError) and perturbs the weights when (e+1) % e_p == 0.
     */
    method WeightPerturbation(e: nat) returns (out: Outcome)
      modifies this`net
      ensures perturb != PerturbOff ==>
        var r := PerturbSpec(Setting(), PerturbationOf(kind, perturb, true), old(net), e);
        && (out.Ok? <==> r.Success?)
        && (out.Fail? ==> out.error == r.error)
        && (out.Ok? ==> net == r.value)
      ensures perturb == PerturbOff ==> out == Fail(if kind == Kind.Seg then TypeError else NotImplementedError)
      ensures out.Fail? ==> net == old(net)
    {
      if kind != Kind.Seg {
        return Fail(NotImplementedError);
      }
      if !perturb.PerturbWith? {
        return Fail(TypeError);
      }
      var period := perturb.period;
      if period == 0 {
        return Fail(ZeroDivisionError);
      }
      if (e + 1) % period == 0 {
        net := engine.perturb(net, e);
      }
      out := Ok;
    }

    /**
     * print_statistics(e): the last entry of each log is read and rounded in
     * turn, so an empty log raises IndexError, and without a score (every
     * accuracy entry None) rounding the training accuracy raises TypeError.
     */
    method PrintStatistics(e: nat) returns (out: Outcome)
      modifies this`emitted
      ensures out.Ok? <==> lossAcc.trainLoss != [] && lossAcc.testLoss != []
                           && (computeAccuracy ==> lossAcc.trainAccuracy != [] && lossAcc.testAccuracy != [] && kind == Kind.Seg)
      ensures out.Ok? ==> emitted == old(emitted).(reports := old(emitted).reports + [e])
      ensures out.Fail? ==> emitted == old(emitted)
      ensures out.Fail? ==> (out.error ==
        if lossAcc.trainLoss != [] && lossAcc.testLoss != [] && computeAccuracy && lossAcc.trainAccuracy != [] && kind != Kind.Seg
        then TypeError else IndexError)
    {
      if lossAcc.trainLoss == [] || lossAcc.testLoss == [] {
        return Fail(IndexError);
      }
      if computeAccuracy && lossAcc.trainAccuracy == [] {
        return Fail(IndexError);
      }
      if computeAccuracy && kind != Kind.Seg {
        return Fail(TypeError);
      }
      if computeAccuracy && lossAcc.testAccuracy == [] {
        return Fail(IndexError);
      }
      emitted := emitted.(reports := emitted.reports + [e]);
      out := Ok;
    }

    /** The statements of the loop body after the training step, which has just appended to every log it reads. */
    method AfterStep(e: nat, inFit: bool) returns (out: Outcome)
      requires lossAcc.trainLoss != [] && lossAcc.testLoss != []
      requires computeAccuracy ==> lossAcc.trainAccuracy != [] && lossAcc.testAccuracy != []
      modifies this`net, this`running, this`emitted
      ensures var r := Controller.AfterStep(old(Setting()), PerturbationOf(kind, old(perturb), inFit), old(State()), e);
        && (out.Ok? <==> r.Success?)
        && (out.Fail? ==> out.error == r.error)
        && (out.Ok? ==> State() == r.value)
    {
      ghost var s := Setting();
      ghost var p := PerturbationOf(kind, perturb, inFit);
      ghost var st := State();
      if swa {
        SaveRunningWeights(e);
      }
      ghost var saved := st.(running := SaveSnapshot(s, st.running, e, st.net));
      assert State() == saved;
      out := Ok;
      if inFit && perturb != PerturbOff {
        out := WeightPerturbation(e);
        if out.Fail? {
          return;
        }
      }
      assert PerturbSpec(s, p, saved.net, e) == Success(net);
      var due := ReportDue(e, printLoss);
      if due.Failure? {
        return Fail(due.error);
      }
      if due.value {
        out := PrintStatistics(e);
      }
    }

    /** One iteration of the loop of fit (inFit) or of ImSpecTrainer.run. */
    method Cycle(e: nat, inFit: bool) returns (out: Outcome)
      modifies this`net, this`lossAcc, this`running, this`emitted
      ensures var r := CycleStep(old(Setting()), PerturbationOf(kind, old(perturb), inFit), old(State()), e);
        && (out.Ok? <==> r.Success?)
        && (out.Fail? ==> out.error == r.error)
        && (out.Ok? ==> State() == r.value)
    {
      if fullEpoch {
        out := StepFull();
      } else {
        out := Step(e);
      }
      if out.Fail? {
        return;
      }
      out := AfterStep(e, inFit);
    }

    /** `for e in range(self.training_cycles)` around the cycle body. */
    method TrainLoop(inFit: bool) returns (out: Outcome)
      modifies this`net, this`lossAcc, this`running, this`emitted
      ensures var r := Controller.Run(old(Setting()), PerturbationOf(kind, old(perturb), inFit), old(State()), Iterations(old(trainingCycles)));
        && (out.Ok? <==> r.Success?)
        && (out.Fail? ==> out.error == r.error)
        && (out.Ok? ==> State() == r.value)
    {
      ghost var s := Setting();
      ghost var p := PerturbationOf(kind, perturb, inFit);
      ghost var st0 := State();
      var n := Iterations(trainingCycles);
      for e := 0 to n
        invariant Controller.Run(s, p, st0, e) == Success(State())
      {
        out := Cycle(e, inFit);
        if out.Fail? {
          LoopStaysFailed(CycleOf(s, p), st0, e, n);
          return;
        }
      }
      out := Ok;
    }

    /**
     * eval_model(): in fixed-cycle mode the mean test loss over every test
     * batch, and the mean accuracy when accuracy is computed. In full-epoch
     * mode the loop over the test loader ends, the mean loss is printed, and
     * the test of self.iou raises AttributeError.
     */
    method EvalModel() returns (r: Result<EvalReport>)
      ensures r == EvalSpec(Setting(), net)
    {
      if fullEpoch {
        r := EvalTestLoader();
      } else {
        r := EvalTestLists();
      }
    }

    /** The full-epoch branch of eval_model: the loop over the test loader, then the test of self.iou. */
    method EvalTestLoader() returns (r: Result<EvalReport>)
      requires fullEpoch
      ensures r == EvalSpec(Setting(), net)
    {
      ghost var s := Setting();
      var w := net;
      var runningLoss, runningAcc := 0.0, 0.0;
      var c := 0;
      var loader := testLoader;
      for i := 0 to |loader|
        invariant c == i
        invariant NoneAccuracy(s) ==> i == 0
      {
        var x := engine.test(w, loader[i]);
        runningLoss := runningLoss + x.loss;
        if computeAccuracy {
          if kind != Kind.Seg {
            return Failure(TypeError);
          }
          runningAcc := runningAcc + x.accuracy;
        }
        c := c + 1;
      }
      if c == 0 {
        return Failure(ZeroDivisionError);
      }
      r := Failure(AttributeError);
    }

    /** The fixed-cycle branch of eval_model: every test batch of the lists, then the means. */
    method EvalTestLists() returns (r: Result<EvalReport>)
      requires !fullEpoch
      ensures r == EvalSpec(Setting(), net)
    {
      ghost var s := Setting();
      var w := net;
      var runningLoss, runningAcc := 0.0, 0.0;
      ghost var batches := FetchableTests(s.data);
      var n := |xTest|;
      for i := 0 to n
        invariant i <= |yTest| && TestPassAt(engine.test, w, batches, i, runningLoss, runningAcc, true)
        invariant NoneAccuracy(s) ==> i == 0
      {
        var b := Dataloader(i, "test");
        if b.Failure? {
          return Failure(b.error);
        }
        TestPassNext(engine.test, w, batches, i, runningLoss, runningAcc, true);
        var x := engine.test(w, b.value);
        if computeAccuracy && kind != Kind.Seg {
          return Failure(TypeError);
        }
        runningLoss := runningLoss + x.loss;
        runningAcc := runningAcc + x.accuracy;
      }
      EvalBatchesFetchable(s.data);
      EvaluationOf(engine.test, w, batches, runningLoss, runningAcc, computeAccuracy, n);
      if n == 0 {
        return Failure(ZeroDivisionError);
      }
      var acc := if computeAccuracy then Some(runningAcc / n as real) else None;
      r := Success(EvalReport(runningLoss / n as real, acc));
    }

    /** save_model(*args): the checkpoint file, named by the argument or else by self.filename. */
    method SaveModel(name: Option<string>)
      modifies this`emitted
      ensures emitted == old(emitted).(checkpoints := old(emitted).checkpoints + [name.GetOr(filename) + ".tar"])
    {
      var file := if name.Some? then name.value else filename;
      emitted := emitted.(checkpoints := emitted.checkpoints + [file + ".tar"]);
    }

    /** The statements of fit and run after the loop: checkpoint, evaluation, weight averaging. */
    method FinishTraining() returns (out: Outcome)
      modifies this`emitted, this`net
      ensures var r := Finish(old(Setting()), old(State()));
        && (out.Ok? <==> r.Success?)
        && (out.Fail? ==> out.error == r.error)
        && (out.Ok? ==> State() == r.value)
    {
      SaveModel(Some(filename + "_metadict_final"));
      if !fullEpoch {
        var ev := EvalModel();
        if ev.Failure? {
          return Fail(ev.error);
        }
        emitted := emitted.(evaluations := emitted.evaluations + [ev.value]);
      }
      out := AverageWeights();
    }

    /** The `if self.swa` block at the end of fit and run: load average_weights(running_weights), then evaluate. */
    method AverageWeights() returns (out: Outcome)
      modifies this`emitted, this`net
      ensures var r := Averaged(old(Setting()), old(State()));
        && (out.Ok? <==> r.Success?)
        && (out.Fail? ==> out.error == r.error)
        && (out.Ok? ==> State() == r.value)
    {
      if swa {
        if 0 !in running {
          return Fail(KeyError);
        }
        net := engine.average(running);
        var ev := EvalModel();
        if ev.Failure? {
          return Fail(ev.error);
        }
        emitted := emitted.(evaluations := emitted.evaluations + [ev.value]);
      }
      out := Ok;
    }

    /** fit(): the loop with the weight_perturbation call, then the statements after it and the read of plot_training_history. */
    method Fit() returns (out: Outcome)
      modifies this`net, this`lossAcc, this`running, this`emitted
      ensures var r := Train(old(Setting()), PerturbationOf(kind, old(perturb), true), old(State()));
        && (out.Ok? <==> r.Success?)
        && (out.Fail? ==> out.error == r.error)
        && (out.Ok? ==> State() == r.value)
    {
      out := TrainLoop(true);
      if out.Fail? {
        return;
      }
      out := FinishTraining();
      if out.Ok? && plotHistory.None? {
        out := Fail(AttributeError);
      }
    }

    /** ImSpecTrainer.run(): the loop without weight perturbation, then the statements after it and the read of plot_training_history; returns the network. */
    method Run() returns (out: Outcome, model: Weights)
      requires kind == Kind.ImSpec
      modifies this`net, this`lossAcc, this`running, this`emitted
      ensures var r := Train(old(Setting()), NoPerturbation, old(State()));
        && (out.Ok? <==> r.Success?)
        && (out.Fail? ==> out.error == r.error)
        && (out.Ok? ==> State() == r.value && model == r.value.net)
    {
      model := net;
      out := TrainLoop(false);
      if out.Fail? {
        return;
      }
      out := FinishTraining();
      if out.Ok? && plotHistory.None? {
        out := Fail(AttributeError);
      }
      model := net;
    }
  }
}
