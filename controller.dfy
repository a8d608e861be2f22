/**
 * The training controller as a function of its configuration: what one cycle
 * of BaseTrainer.fit does to the controller's changing state, what the loop
 * `for e in range(training_cycles)` does, and what happens after the loop.
 * The class in trainer.dfy is proved to do exactly this.
 */
module Controller {
  import opened Outcomes
  import opened Schedule
  import opened Batches
  import opened Metrics

  /** A model's state_dict: parameter name to flattened tensor. */
  type Weights = map<string, seq<real>>

  /**
   * The network with its optimizer, loss function and accuracy metric, known
   * only by what they return: `train` is train_step (one optimizer update),
   * `test` is test_step (a forward pass that leaves the weights alone),
   * `perturb` adds the Gaussian noise of weight_perturbation at a cycle, and
   * `average` is average_weights over the SWA pool.
   */
  datatype Engine = Engine(
    train: (Weights, Batch) -> (Weights, StepResult),
    test: (Weights, Batch) -> StepResult,
    perturb: (Weights, nat) -> Weights,
    average: map<int, Weights> -> Weights)

  /** The data a run reads: full-epoch loaders, fixed-cycle batch lists and the drawn batch indices. */
  datatype Data = Data(
    trainLoader: seq<Batch>, testLoader: seq<Batch>,
    lists: BatchLists,
    batchIdxTrain: seq<nat>, batchIdxTest: seq<nat>,
    batchSize: int)

  /**
   * What a run leaves unchanged: the configuration compile_trainer set.
   * `scored` says whether the trainer's accuracy_fn returns a score
   * (SegTrainer's IoU) rather than None (BaseTrainer's, which ImSpecTrainer
   * inherits). `plotHistory` is plot_training_history, None while the
   * attribute has never been assigned.
   */
  datatype Setup = Setup(
    engine: Engine, scored: bool,
    fullEpoch: bool, computeAccuracy: bool, swa: bool,
    cycles: int, printLoss: int, filename: string, plotHistory: Option<bool>,
    data: Data)

  /** How the loop's call to weight_perturbation behaves for a trainer. */
  datatype Perturbation = NoPerturbation | PerturbEvery(period: int) | PerturbRaises(error: Error)

  /** What eval_model reports: the mean test loss and, when computed, the mean accuracy. */
  datatype EvalReport = EvalReport(loss: real, accuracy: Option<real>)

  /** The loss_acc dictionary: its four lists. */
  datatype LossAcc = LossAcc(
    trainLoss: seq<real>, testLoss: seq<real>,
    trainAccuracy: seq<real>, testAccuracy: seq<real>)

  /** What the controller emits: the cycles whose statistics are printed, the evaluations printed, the checkpoint files written. */
  datatype Emitted = Emitted(reports: seq<nat>, evaluations: seq<EvalReport>, checkpoints: seq<string>)

  /** What a run changes: the weights, loss_acc, the SWA pool and what has been emitted. */
  datatype RunState = RunState(net: Weights, lossAcc: LossAcc, running: map<int, Weights>, emitted: Emitted)

  /**
   * Accuracy is asked for but accuracy_fn returns None: `acc += loss[1]`
   * and the rounding of a logged accuracy then raise TypeError.
   */
  predicate NoneAccuracy(s: Setup) {
    s.computeAccuracy && !s.scored
  }

  /** The values one cycle appends to the four logs. */
  datatype Entry = Entry(trainLoss: real, testLoss: real, trainAccuracy: real, testAccuracy: real)

  // ---------------------------------------------------------------------------
  // Fixed-cycle batch fetch: dataloader

  /** Batch batchNum of the test lists when mode is "test", of the training lists for any other mode. */
  predicate Fetchable(d: Data, batchNum: nat, mode: string) {
    if mode == "test" then batchNum < |d.lists.xTest| && batchNum < |d.lists.yTest|
    else batchNum < |d.lists.xTrain| && batchNum < |d.lists.yTrain|
  }

  /** dataloader(batch_num, mode): the selected batch cut to batch_size; an index past the end raises. */
  function Fetch(d: Data, batchNum: nat, mode: string): (r: Result<Batch>)
    ensures r.Success? <==> Fetchable(d, batchNum, mode)
    ensures r.Failure? ==> r.error == IndexError
    ensures r.Success? ==>
      var xs := if mode == "test" then d.lists.xTest[batchNum] else d.lists.xTrain[batchNum];
      var ys := if mode == "test" then d.lists.yTest[batchNum] else d.lists.yTrain[batchNum];
      && |r.value.features| <= |xs| && |r.value.targets| <= |ys|
      && r.value.features == xs[..|r.value.features|] && r.value.targets == ys[..|r.value.targets|]
      && (d.batchSize >= 0 ==> |r.value.features| == Min(d.batchSize, |xs|) && |r.value.targets| == Min(d.batchSize, |ys|))
  {
    if !Fetchable(d, batchNum, mode) then Failure(IndexError)
    else if mode == "test" then
      Success(Batch(Prefix(d.lists.xTest[batchNum], d.batchSize), Prefix(d.lists.yTest[batchNum], d.batchSize)))
    else
      Success(Batch(Prefix(d.lists.xTrain[batchNum], d.batchSize), Prefix(d.lists.yTrain[batchNum], d.batchSize)))
  }

  /** Cycle e of a fixed-cycle run finds both its batch indices and both batches. */
  predicate StepReady(d: Data, e: nat) {
    && e < |d.batchIdxTrain| && e < |d.batchIdxTest|
    && Fetchable(d, d.batchIdxTrain[e], "train") && Fetchable(d, d.batchIdxTest[e], "test")
  }

  // ---------------------------------------------------------------------------
  // One cycle: step / step_full, save_running_weights, weight_perturbation, report

  /** The train loop of step_full: the weights after each update and the per-batch results. */
  function TrainSweep(train: (Weights, Batch) -> (Weights, StepResult), w: Weights, loader: seq<Batch>)
    : (r: (Weights, seq<StepResult>))
    ensures |r.1| == |loader|
    decreases |loader|
  {
    if loader == [] then (w, [])
    else
      var (w1, rs) := TrainSweep(train, w, loader[..|loader| - 1]);
      var (w2, x) := train(w1, loader[|loader| - 1]);
      (w2, rs + [x])
  }

  /** A test loop: every batch is evaluated with the same weights. */
  function TestSweep(test: (Weights, Batch) -> StepResult, w: Weights, loader: seq<Batch>): (rs: seq<StepResult>)
    ensures |rs| == |loader|
    ensures forall i :: 0 <= i < |loader| ==> rs[i] == test(w, loader[i])
  {
    seq(|loader|, i requires 0 <= i < |loader| => test(w, loader[i]))
  }

  /** step(e): one train step on batch batch_idx_train[e], then one test step on batch batch_idx_test[e]. */
  function FixedStep(s: Setup, w: Weights, e: nat): (r: Result<(Weights, Entry)>)
    ensures r.Failure? <==> !StepReady(s.data, e)
  {
    if e >= |s.data.batchIdxTrain| then Failure(IndexError)
    else
      var train :- Fetch(s.data, s.data.batchIdxTrain[e], "train");
      var (w1, tr) := s.engine.train(w, train);
      if e >= |s.data.batchIdxTest| then Failure(IndexError)
      else
        var test :- Fetch(s.data, s.data.batchIdxTest[e], "test");
        var te := s.engine.test(w1, test);
        Success((w1, Entry(tr.loss, te.loss, tr.accuracy, te.accuracy)))
  }

  /** step_full(): a full train sweep, then (the for-else) a full test sweep, then the two means. */
  function FullStep(s: Setup, w: Weights): (r: Result<(Weights, Entry)>)
    ensures r.Failure? <==> s.data.trainLoader == [] || s.data.testLoader == [] || NoneAccuracy(s)
    ensures r.Failure? ==> (r.error ==
      if NoneAccuracy(s) && (s.data.trainLoader != [] || s.data.testLoader != []) then TypeError else ZeroDivisionError)
  {
    if NoneAccuracy(s) && (s.data.trainLoader != [] || s.data.testLoader != []) then Failure(TypeError)
    else
    var (w1, trs) := TrainSweep(s.engine.train, w, s.data.trainLoader);
    var tes := TestSweep(s.engine.test, w1, s.data.testLoader);
    if trs == [] || tes == [] then Failure(ZeroDivisionError)
    else Success((w1, Entry(Mean(Losses(trs)), Mean(Losses(tes)), Mean(Accuracies(trs)), Mean(Accuracies(tes)))))
  }

  /** Appends one cycle's values to the logs; the accuracy logs only when accuracy is computed. */
  function Record(st: RunState, en: Entry, withAccuracy: bool): RunState {
    var logs := st.lossAcc;
    st.(lossAcc := LossAcc(logs.trainLoss + [en.trainLoss], logs.testLoss + [en.testLoss],
                           if withAccuracy then logs.trainAccuracy + [en.trainAccuracy] else logs.trainAccuracy,
                           if withAccuracy then logs.testAccuracy + [en.testAccuracy] else logs.testAccuracy))
  }

  /** What step(e) does to the run state. */
  function FixedCycleStep(s: Setup, st: RunState, e: nat): Result<RunState> {
    var r :- FixedStep(s, st.net, e);
    Success(Record(st.(net := r.0), r.1, s.computeAccuracy))
  }

  /** What step_full() does to the run state. */
  function FullCycleStep(s: Setup, st: RunState): Result<RunState> {
    var r :- FullStep(s, st.net);
    Success(Record(st.(net := r.0), r.1, s.computeAccuracy))
  }

  /** The training step of cycle e in the configured mode. */
  function StepSpec(s: Setup, st: RunState, e: nat): Result<RunState> {
    if s.fullEpoch then FullCycleStep(s, st) else FixedCycleStep(s, st, e)
  }

  /** save_running_weights(e), when swa is on: a copy of the weights goes to the cycle's slot. */
  function SaveSnapshot(s: Setup, running: map<int, Weights>, e: int, w: Weights): map<int, Weights> {
    var window := SwaWindow(s.fullEpoch);
    if s.swa && InSwaWindow(s.cycles, e, window) then running[SwaSlot(s.cycles, e, window) := w]
    else running
  }

  /** The weights after the loop's weight_perturbation call of cycle e. */
  function PerturbSpec(s: Setup, p: Perturbation, w: Weights, e: nat): Result<Weights> {
    match p
    case NoPerturbation => Success(w)
    case PerturbRaises(err) => Failure(err)
    case PerturbEvery(period) =>
      var due :- PerturbDue(e, period);
      Success(if due then s.engine.perturb(w, e) else w)
  }

  /** The rest of cycle e after its training step: the SWA snapshot, the perturbation, the report. */
  function AfterStep(s: Setup, p: Perturbation, stepped: RunState, e: nat): Result<RunState> {
    var saved := stepped.(running := SaveSnapshot(s, stepped.running, e, stepped.net));
    var w :- PerturbSpec(s, p, saved.net, e);
    var due :- ReportDue(e, s.printLoss);
    if due && NoneAccuracy(s) then Failure(TypeError)
    else Success(saved.(net := w, emitted := saved.emitted.(reports := saved.emitted.reports + if due then [e] else [])))
  }

  /** One iteration of the loop of fit (with perturbation) or ImSpecTrainer.run (with NoPerturbation). */
  function CycleStep(s: Setup, p: Perturbation, st: RunState, e: nat): Result<RunState> {
    var stepped :- StepSpec(s, st, e);
    AfterStep(s, p, stepped, e)
  }

  /** `for e in range(k)` over a loop body, stopping at the first exception. */
  function Loop(body: (RunState, nat) -> Result<RunState>, st: RunState, k: nat): Result<RunState> {
    if k == 0 then Success(st)
    else
      var mid :- Loop(body, st, k - 1);
      body(mid, k - 1)
  }

  function CycleOf(s: Setup, p: Perturbation): (RunState, nat) -> Result<RunState> {
    (st: RunState, e: nat) => CycleStep(s, p, st, e)
  }

  /** Cycles 0 .. k-1 of the training loop. */
  function Run(s: Setup, p: Perturbation, st: RunState, k: nat): Result<RunState> {
    Loop(CycleOf(s, p), st, k)
  }

  /** One more batch of a train sweep: an update from the weights the sweep so far has produced. */
  lemma TrainSweepStep(train: (Weights, Batch) -> (Weights, StepResult), w: Weights, loader: seq<Batch>, i: nat)
    requires i < |loader|
    ensures var (w1, rs) := TrainSweep(train, w, loader[..i]);
      TrainSweep(train, w, loader[..i + 1]) == (train(w1, loader[i]).0, rs + [train(w1, loader[i]).1])
  {
    assert loader[..i + 1][..i] == loader[..i];
  }

  /** One more batch of a test sweep. */
  lemma TestSweepStep(test: (Weights, Batch) -> StepResult, w: Weights, loader: seq<Batch>, i: nat)
    requires i < |loader|
    ensures TestSweep(test, w, loader[..i + 1]) == TestSweep(test, w, loader[..i]) + [test(w, loader[i])]
  {
    assert loader[..i + 1] == loader[..i] + [loader[i]];
  }

  /** An exception in cycle e ends the loop: every longer run fails too, with the same exception. */
  lemma {:induction false} LoopStaysFailed(body: (RunState, nat) -> Result<RunState>, st: RunState, e: nat, k: nat)
    requires e < k && Loop(body, st, e + 1).Failure?
    ensures Loop(body, st, k).Failure?
    ensures Loop(body, st, k).error == Loop(body, st, e + 1).error
    decreases k
  {
    if k > e + 1 {
      LoopStaysFailed(body, st, e, k - 1);
    }
  }

  /** After i batches of a train pass: the weights and the running totals of the sweep so far. */
  predicate TrainPassAt(train: (Weights, Batch) -> (Weights, StepResult), w0: Weights, loader: seq<Batch>, i: int,
                        w: Weights, losses: real, acc: real, withAccuracy: bool) {
    0 <= i <= |loader| &&
    var (wi, rs) := TrainSweep(train, w0, loader[..i]);
    w == wi && losses == Sum(Losses(rs)) && (withAccuracy ==> acc == Sum(Accuracies(rs)))
  }

  /** One more batch of a train pass: `losses += loss`, and the accuracy total when it is kept. */
  lemma TrainPassNext(train: (Weights, Batch) -> (Weights, StepResult), w0: Weights, loader: seq<Batch>, i: int,
                      w: Weights, losses: real, acc: real, withAccuracy: bool)
    requires TrainPassAt(train, w0, loader, i, w, losses, acc, withAccuracy) && i < |loader|
    ensures var (w1, r) := train(w, loader[i]);
      TrainPassAt(train, w0, loader, i + 1, w1, losses + r.loss, if withAccuracy then acc + r.accuracy else acc, withAccuracy)
  {
    TrainSweepStep(train, w0, loader, i);
    var (w1, r) := train(w, loader[i]);
    var rs := TrainSweep(train, w0, loader[..i]).1;
    ResultsAppend(rs, r);
    SumAppend(Losses(rs), r.loss);
    SumAppend(Accuracies(rs), r.accuracy);
  }

  /** After i batches of a test pass with weights w: the running totals so far. */
  predicate TestPassAt(test: (Weights, Batch) -> StepResult, w: Weights, loader: seq<Batch>, i: int,
                       losses: real, acc: real, withAccuracy: bool) {
    0 <= i <= |loader| &&
    var rs := TestSweep(test, w, loader[..i]);
    losses == Sum(Losses(rs)) && (withAccuracy ==> acc == Sum(Accuracies(rs)))
  }

  lemma TestPassNext(test: (Weights, Batch) -> StepResult, w: Weights, loader: seq<Batch>, i: int,
                     losses: real, acc: real, withAccuracy: bool)
    requires TestPassAt(test, w, loader, i, losses, acc, withAccuracy) && i < |loader|
    ensures var r := test(w, loader[i]);
      TestPassAt(test, w, loader, i + 1, losses + r.loss, if withAccuracy then acc + r.accuracy else acc, withAccuracy)
  {
    TestSweepStep(test, w, loader, i);
    var r := test(w, loader[i]);
    var rs := TestSweep(test, w, loader[..i]);
    ResultsAppend(rs, r);
    SumAppend(Losses(rs), r.loss);
    SumAppend(Accuracies(rs), r.accuracy);
  }

  /**
   * The totals of a finished pass divided by the batch counts c and cTest are
   * what step_full records, and the division raises when a loader is empty.
   * A pass over a non-empty loader finishes only when no accuracy is None.
   */
  lemma FullCycleStepOf(s: Setup, st: RunState, w: Weights, c: int, losses: real, acc: real,
                        cTest: int, lossesTest: real, accTest: real)
    requires TrainPassAt(s.engine.train, st.net, s.data.trainLoader, |s.data.trainLoader|, w, losses, acc, s.computeAccuracy)
    requires TestPassAt(s.engine.test, w, s.data.testLoader, |s.data.testLoader|, lossesTest, accTest, s.computeAccuracy)
    requires c == |s.data.trainLoader| && cTest == |s.data.testLoader|
    requires NoneAccuracy(s) ==> c == 0 && cTest == 0
    ensures FullCycleStep(s, st) ==
      if c == 0 || cTest == 0 then Failure(ZeroDivisionError)
      else Success(Record(st.(net := w), Entry(losses / c as real, lossesTest / cTest as real, acc / c as real, accTest / cTest as real),
                          s.computeAccuracy))
  {
    var train, test := s.data.trainLoader, s.data.testLoader;
    assert train[..|train|] == train && test[..|test|] == test;
  }

  // ---------------------------------------------------------------------------
  // After the loop: save_model, eval_model, stochastic weight averaging

  /** The batches eval_model visits in fixed-cycle mode: every test batch, cut to batch_size. */
  function EvalBatches(d: Data): (r: Result<seq<Batch>>)
    ensures r.Success? <==> |d.lists.xTest| <= |d.lists.yTest|
    ensures r.Failure? ==> r.error == IndexError
    ensures r.Success? ==>
      && |r.value| == |d.lists.xTest|
      && forall i :: 0 <= i < |d.lists.xTest| ==> Success(r.value[i]) == Fetch(d, i, "test")
  {
    if |d.lists.xTest| > |d.lists.yTest| then Failure(IndexError)
    else Success(seq(|d.lists.xTest|, i requires 0 <= i < |d.lists.xTest| => Fetch(d, i, "test").value))
  }

  /** The test batches eval_model can fetch in fixed-cycle mode: those with both an input and a target list. */
  function FetchableTests(d: Data): (r: seq<Batch>)
    ensures |r| == Min(|d.lists.xTest|, |d.lists.yTest|)
    ensures forall i :: 0 <= i < |r| ==> Fetch(d, i, "test") == Success(r[i])
  {
    seq(Min(|d.lists.xTest|, |d.lists.yTest|),
        i requires 0 <= i < Min(|d.lists.xTest|, |d.lists.yTest|) =>
          Batch(Prefix(d.lists.xTest[i], d.batchSize), Prefix(d.lists.yTest[i], d.batchSize)))
  }

  /** When every test batch can be fetched, they are the ones eval_model visits. */
  lemma EvalBatchesFetchable(d: Data)
    requires |d.lists.xTest| <= |d.lists.yTest|
    ensures EvalBatches(d) == Success(FetchableTests(d))
  {
    assert EvalBatches(d).value == FetchableTests(d);
  }

  /** The running totals of eval_model divided by the batch count. */
  function Evaluation(rs: seq<StepResult>, withAccuracy: bool): (r: Result<EvalReport>)
    ensures r.Failure? <==> rs == []
    ensures r.Failure? ==> r.error == ZeroDivisionError
    ensures r.Success? ==> r.value.accuracy.Some? == withAccuracy
  {
    if rs == [] then Failure(ZeroDivisionError)
    else Success(EvalReport(Mean(Losses(rs)), if withAccuracy then Some(Mean(Accuracies(rs))) else None))
  }

  /** eval_model finds a first batch to evaluate. */
  predicate FirstTestBatch(s: Setup) {
    if s.fullEpoch then s.data.testLoader != [] else s.data.lists.xTest != [] && s.data.lists.yTest != []
  }

  /**
   * eval_model with weights w as it is meant to run: the test loader in
   * full-epoch mode, every test batch otherwise, and the mean accuracy
   * whenever accuracy is computed. An accuracy of None raises TypeError at
   * the first batch.
   */
  function IntendedEvalSpec(s: Setup, w: Weights): Result<EvalReport> {
    if NoneAccuracy(s) && FirstTestBatch(s) then Failure(TypeError)
    else
    var batches :- if s.fullEpoch then Success(s.data.testLoader) else EvalBatches(s.data);
    Evaluation(TestSweep(s.engine.test, w, batches), s.computeAccuracy)
  }

  /**
   * eval_model with weights w as written: in full-epoch mode, once the mean
   * loss is printed, the test of self.iou reads an attribute no trainer
   * assigns and raises AttributeError.
   */
  function EvalSpec(s: Setup, w: Weights): Result<EvalReport> {
    var r := IntendedEvalSpec(s, w);
    if s.fullEpoch && r.Success? then Failure(AttributeError) else r
  }

  /** eval_model's evaluation raises nothing: its batches exist, there is at least one, and no accuracy is None. */
  predicate IntendedEvalOk(s: Setup) {
    && (if s.fullEpoch then s.data.testLoader != []
        else |s.data.lists.xTest| <= |s.data.lists.yTest| && s.data.lists.xTest != [])
    && !NoneAccuracy(s)
  }

  /**
   * The evaluation as meant raises exactly when IntendedEvalOk fails, and
   * then prints the mean test loss, and the mean accuracy exactly when
   * accuracy is computed.
   */
  lemma IntendedEvalFacts(s: Setup, w: Weights)
    ensures IntendedEvalSpec(s, w).Success? <==> IntendedEvalOk(s)
    ensures IntendedEvalSpec(s, w).Success? ==>
      var batches := if s.fullEpoch then s.data.testLoader else FetchableTests(s.data);
      && IntendedEvalSpec(s, w).value.loss == Mean(Losses(TestSweep(s.engine.test, w, batches)))
      && IntendedEvalSpec(s, w).value.accuracy.Some? == s.computeAccuracy
  {
    if !s.fullEpoch && |s.data.lists.xTest| <= |s.data.lists.yTest| {
      EvalBatchesFetchable(s.data);
    }
  }

  /**
   * As written, no full-epoch evaluation completes: wherever the evaluation
   * as meant succeeds, eval_model raises AttributeError instead; in
   * fixed-cycle mode the two agree.
   */
  lemma FullEpochEvalRaises(s: Setup, w: Weights)
    ensures s.fullEpoch ==> EvalSpec(s, w).Failure?
    ensures s.fullEpoch ==> (EvalSpec(s, w) == Failure(AttributeError) <==> IntendedEvalOk(s))
    ensures !s.fullEpoch ==> EvalSpec(s, w) == IntendedEvalSpec(s, w)
  {
    IntendedEvalFacts(s, w);
  }

  /** The totals of a finished evaluation pass divided by the batch count are what eval_model reports. */
  lemma EvaluationOf(test: (Weights, Batch) -> StepResult, w: Weights, loader: seq<Batch>, losses: real, acc: real,
                     withAccuracy: bool, c: int)
    requires TestPassAt(test, w, loader, |loader|, losses, acc, withAccuracy) && c == |loader|
    ensures Evaluation(TestSweep(test, w, loader), withAccuracy) ==
      if c == 0 then Failure(ZeroDivisionError)
      else Success(EvalReport(losses / c as real, if withAccuracy then Some(acc / c as real) else None))
  {
    assert loader[..|loader|] == loader;
  }

  /** One eval_model call, and the report it prints. */
  function Evaluate(s: Setup, st: RunState): Result<RunState> {
    var ev :- EvalSpec(s, st.net);
    Success(st.(emitted := st.emitted.(evaluations := st.emitted.evaluations + [ev])))
  }

  /** The file save_model writes at the end of training. */
  function FinalCheckpoint(filename: string): string {
    filename + "_metadict_final" + ".tar"
  }

  /**
   * The code after the loop. average_weights is not part of this model; it
   * reads the pool from slot 0 on, so it is modelled as raising KeyError when
   * slot 0, the oldest slot of a full window, was never written.
   */
  function Finish(s: Setup, st: RunState): Result<RunState> {
    var saved := st.(emitted := st.emitted.(checkpoints := st.emitted.checkpoints + [FinalCheckpoint(s.filename)]));
    var evaluated :- if s.fullEpoch then Success(saved) else Evaluate(s, saved);
    Averaged(s, evaluated)
  }

  /** The `if self.swa` block at the end of fit: load the averaged weights and evaluate them. */
  function Averaged(s: Setup, st: RunState): Result<RunState> {
    if !s.swa then Success(st)
    else if 0 !in st.running then Failure(KeyError)
    else Evaluate(s, st.(net := s.engine.average(st.running)))
  }

  /**
   * A whole call of fit or run: the loop, then what follows it, then the
   * read of plot_training_history, which raises AttributeError on a trainer
   * that never assigned it. plot_losses itself is not part of this model.
   */
  function Train(s: Setup, p: Perturbation, st: RunState): Result<RunState> {
    var looped :- Run(s, p, st, Iterations(s.cycles));
    var finished :- Finish(s, looped);
    if s.plotHistory.None? then Failure(AttributeError) else Success(finished)
  }

  // ---------------------------------------------------------------------------
  // The loop over any body

  /** b is a followed by n more values. */
  predicate Extends(a: seq<real>, b: seq<real>, n: nat) {
    |b| == |a| + n && b[..|a|] == a
  }

  lemma ExtendsTrans(a: seq<real>, b: seq<real>, c: seq<real>, m: nat, n: nat)
    requires Extends(a, b, m) && Extends(b, c, n)
    ensures Extends(a, c, m + n)
  {
    assert c[..|a|] == c[..|b|][..|a|];
  }

  /** The four logs of r are those of st with k more cycles recorded. */
  predicate LogsGrow(st: RunState, r: RunState, k: nat, withAccuracy: bool) {
    var ka := if withAccuracy then k else 0;
    && Extends(st.lossAcc.trainLoss, r.lossAcc.trainLoss, k) && Extends(st.lossAcc.testLoss, r.lossAcc.testLoss, k)
    && Extends(st.lossAcc.trainAccuracy, r.lossAcc.trainAccuracy, ka) && Extends(st.lossAcc.testAccuracy, r.lossAcc.testAccuracy, ka)
  }

  lemma LogsGrowTrans(a: RunState, b: RunState, c: RunState, m: nat, n: nat, withAccuracy: bool)
    requires LogsGrow(a, b, m, withAccuracy) && LogsGrow(b, c, n, withAccuracy)
    ensures LogsGrow(a, c, m + n, withAccuracy)
  {
    var ma, na := if withAccuracy then m else 0, if withAccuracy then n else 0;
    ExtendsTrans(a.lossAcc.trainLoss, b.lossAcc.trainLoss, c.lossAcc.trainLoss, m, n);
    ExtendsTrans(a.lossAcc.testLoss, b.lossAcc.testLoss, c.lossAcc.testLoss, m, n);
    ExtendsTrans(a.lossAcc.trainAccuracy, b.lossAcc.trainAccuracy, c.lossAcc.trainAccuracy, ma, na);
    ExtendsTrans(a.lossAcc.testAccuracy, b.lossAcc.testAccuracy, c.lossAcc.testAccuracy, ma, na);
  }

  /** A loop succeeds exactly when each of its cycles would. */
  lemma {:induction false} LoopSucceeds(body: (RunState, nat) -> Result<RunState>, ok: nat -> bool, st: RunState, k: nat)
    requires forall x, e: nat :: body(x, e).Success? <==> ok(e)
    ensures Loop(body, st, k).Success? <==> forall e: nat :: e < k ==> ok(e)
  {
    if k > 0 {
      LoopSucceeds(body, ok, st, k - 1);
    }
  }

  lemma {:induction false} LoopLogs(body: (RunState, nat) -> Result<RunState>, st: RunState, k: nat, withAccuracy: bool)
    requires forall x, e: nat :: body(x, e).Success? ==> LogsGrow(x, body(x, e).value, 1, withAccuracy)
    ensures Loop(body, st, k).Success? ==> LogsGrow(st, Loop(body, st, k).value, k, withAccuracy)
  {
    if k == 0 {
      assert st.lossAcc.trainLoss[..|st.lossAcc.trainLoss|] == st.lossAcc.trainLoss;
      assert st.lossAcc.testLoss[..|st.lossAcc.testLoss|] == st.lossAcc.testLoss;
      assert st.lossAcc.trainAccuracy[..|st.lossAcc.trainAccuracy|] == st.lossAcc.trainAccuracy;
      assert st.lossAcc.testAccuracy[..|st.lossAcc.testAccuracy|] == st.lossAcc.testAccuracy;
    } else {
      LoopLogs(body, st, k - 1, withAccuracy);
      var mid := Loop(body, st, k - 1);
      if mid.Success? && body(mid.value, k - 1).Success? {
        LogsGrowTrans(st, mid.value, body(mid.value, k - 1).value, k - 1, 1, withAccuracy);
      }
    }
  }

  lemma {:induction false} LoopPool(body: (RunState, nat) -> Result<RunState>, st: RunState, k: nat, cycles: int, window: int)
    requires forall x, e: nat :: body(x, e).Success? ==>
      body(x, e).value.running.Keys == x.running.Keys + SlotOf(cycles, e, window)
    ensures Loop(body, st, k).Success? ==>
      Loop(body, st, k).value.running.Keys == st.running.Keys + SlotsWritten(cycles, window, k)
  {
    if k > 0 {
      LoopPool(body, st, k - 1, cycles, window);
    }
  }

  lemma {:induction false} LoopKeepsPool(body: (RunState, nat) -> Result<RunState>, st: RunState, k: nat)
    requires forall x, e: nat :: body(x, e).Success? ==> body(x, e).value.running == x.running
    ensures Loop(body, st, k).Success? ==> Loop(body, st, k).value.running == st.running
  {
    if k > 0 {
      LoopKeepsPool(body, st, k - 1);
    }
  }

  lemma {:induction false} LoopReports(body: (RunState, nat) -> Result<RunState>, st: RunState, k: nat, period: int)
    requires forall x, e: nat :: body(x, e).Success? ==>
      (e == 0 || period != 0) && body(x, e).value.emitted.reports == x.emitted.reports + ReportAt(e, period)
    ensures Loop(body, st, k).Success? ==>
      (k <= 1 || period != 0) && Loop(body, st, k).value.emitted.reports == st.emitted.reports + ReportCycles(k, period)
  {
    if k > 0 {
      LoopReports(body, st, k - 1, period);
      var mid := Loop(body, st, k - 1);
      if mid.Success? && body(mid.value, k - 1).Success? && k >= 2 {
        assert mid.value.emitted.reports == st.emitted.reports + ReportCycles(k - 1, period);
      }
    }
  }

  lemma {:induction false} LoopEmitsNothing(body: (RunState, nat) -> Result<RunState>, st: RunState, k: nat)
    requires forall x, e: nat :: body(x, e).Success? ==>
      body(x, e).value.emitted.evaluations == x.emitted.evaluations && body(x, e).value.emitted.checkpoints == x.emitted.checkpoints
    ensures Loop(body, st, k).Success? ==>
      Loop(body, st, k).value.emitted.evaluations == st.emitted.evaluations && Loop(body, st, k).value.emitted.checkpoints == st.emitted.checkpoints
  {
    if k > 0 {
      LoopEmitsNothing(body, st, k - 1);
    }
  }

  // ---------------------------------------------------------------------------
  // Properties of one cycle

  /**
   * The training step of cycle e raises nothing: non-empty loaders and no
   * accuracy of None, or both fixed-cycle batches.
   */
  predicate StepsOk(s: Setup, e: nat) {
    if s.fullEpoch then s.data.trainLoader != [] && s.data.testLoader != [] && !NoneAccuracy(s)
    else StepReady(s.data, e)
  }

  predicate PerturbationOk(p: Perturbation) {
    match p
    case NoPerturbation => true
    case PerturbEvery(period) => period != 0
    case PerturbRaises(_) => false
  }

  /** The exact condition under which cycle e raises nothing. */
  predicate CycleOk(s: Setup, p: Perturbation, e: nat) {
    && StepsOk(s, e) && PerturbationOk(p) && (e > 0 ==> s.printLoss != 0)
    && (NoneAccuracy(s) ==> e > 0 && s.printLoss != 0 && (e + 1) % s.printLoss != 0)
  }

  lemma CycleStepSucceeds(s: Setup, p: Perturbation, st: RunState, e: nat)
    ensures CycleStep(s, p, st, e).Success? <==> CycleOk(s, p, e)
  {
  }

  /** One cycle records one entry in the logs. */
  lemma CycleStepLogs(s: Setup, p: Perturbation, st: RunState, e: nat)
    ensures CycleStep(s, p, st, e).Success? ==> LogsGrow(st, CycleStep(s, p, st, e).value, 1, s.computeAccuracy)
  {
    assert st.lossAcc.trainLoss == (st.lossAcc.trainLoss + [0.0])[..|st.lossAcc.trainLoss|];
  }

  /** One cycle neither evaluates nor writes a checkpoint. */
  lemma CycleStepEmitsNothing(s: Setup, p: Perturbation, st: RunState, e: nat)
    ensures CycleStep(s, p, st, e).Success? ==>
      && CycleStep(s, p, st, e).value.emitted.evaluations == st.emitted.evaluations
      && CycleStep(s, p, st, e).value.emitted.checkpoints == st.emitted.checkpoints
  {
  }

  /** One cycle's change to the SWA pool: with swa on, the post-step weights go to the cycle's slot when it is in the window. */
  lemma CycleStepPool(s: Setup, p: Perturbation, st: RunState, e: nat)
    ensures CycleStep(s, p, st, e).Success? ==>
      && CycleStep(s, p, st, e).value.running == SaveSnapshot(s, st.running, e, StepSpec(s, st, e).value.net)
      && (s.swa ==> CycleStep(s, p, st, e).value.running.Keys
                    == st.running.Keys + SlotOf(s.cycles, e, SwaWindow(s.fullEpoch)))
      && (!s.swa ==> CycleStep(s, p, st, e).value.running == st.running)
  {
  }

  /** One cycle's report: cycle e is added exactly when it is due. */
  lemma CycleStepReports(s: Setup, p: Perturbation, st: RunState, e: nat)
    ensures CycleStep(s, p, st, e).Success? ==>
      && (e == 0 || s.printLoss != 0)
      && CycleStep(s, p, st, e).value.emitted.reports == st.emitted.reports + ReportAt(e, s.printLoss)
  {
  }

  /**
   * One cycle's perturbation: with e_p given, the weights the cycle leaves are
   * the post-step weights perturbed exactly when e is one of the perturbed
   * cycles of the schedule, and the post-step weights otherwise.
   */
  lemma CycleStepPerturbs(s: Setup, period: int, st: RunState, e: nat)
    requires period != 0
    ensures var r := CycleStep(s, PerturbEvery(period), st, e);
      r.Success? ==>
        var w := StepSpec(s, st, e).value.net;
        && (e in PerturbCycles(e + 1, period) ==> r.value.net == s.engine.perturb(w, e))
        && (e !in PerturbCycles(e + 1, period) ==> r.value.net == w)
  {
    PerturbCyclesMembers(e + 1, period);
  }

  // ---------------------------------------------------------------------------
  // Properties of a run

  /** The exact condition under which k cycles raise nothing. */
  predicate RunOk(s: Setup, p: Perturbation, k: nat) {
    k == 0 || (PerturbationOk(p) && (k >= 2 ==> s.printLoss != 0) && !NoneAccuracy(s) && forall e: nat :: e < k ==> StepsOk(s, e))
  }

  function CycleOkOf(s: Setup, p: Perturbation): nat -> bool {
    (e: nat) => CycleOk(s, p, e)
  }

  lemma RunOkCycles(s: Setup, p: Perturbation, k: nat)
    ensures RunOk(s, p, k) <==> forall e: nat :: e < k ==> CycleOk(s, p, e)
  {
    if forall e: nat :: e < k ==> CycleOk(s, p, e) {
      if k >= 1 {
        assert CycleOk(s, p, 0);
        if k >= 2 {
          assert CycleOk(s, p, 1);
        }
        forall e: nat | e < k
          ensures StepsOk(s, e)
        {
          assert CycleOk(s, p, e);
        }
      }
    }
  }

  lemma CycleOfSucceeds(s: Setup, p: Perturbation)
    ensures forall x, e: nat :: CycleOf(s, p)(x, e).Success? <==> CycleOkOf(s, p)(e)
  {
    forall x, e: nat
      ensures CycleOf(s, p)(x, e).Success? <==> CycleOkOf(s, p)(e)
    {
      CycleStepSucceeds(s, p, x, e);
    }
  }

  /**
   * The loop raises exactly when a loader is empty or a batch is missing, the
   * perturbation call fails, print_loss is 0 past cycle 0, or an accuracy is
   * None (cycle 0 always rounds it for its report).
   */
  lemma RunSucceeds(s: Setup, p: Perturbation, st: RunState, k: nat)
    ensures Run(s, p, st, k).Success? <==> RunOk(s, p, k)
  {
    CycleOfSucceeds(s, p);
    LoopSucceeds(CycleOf(s, p), CycleOkOf(s, p), st, k);
    RunOkCycles(s, p, k);
    assert forall e: nat :: CycleOkOf(s, p)(e) == CycleOk(s, p, e);
  }

  /** Each cycle appends one loss to each loss log, and one accuracy to each accuracy log iff accuracy is computed. */
  lemma RunLogs(s: Setup, p: Perturbation, st: RunState, k: nat)
    ensures Run(s, p, st, k).Success? ==> LogsGrow(st, Run(s, p, st, k).value, k, s.computeAccuracy)
  {
    forall x, e: nat
      ensures CycleOf(s, p)(x, e).Success? ==> LogsGrow(x, CycleOf(s, p)(x, e).value, 1, s.computeAccuracy)
    {
      CycleStepLogs(s, p, x, e);
    }
    LoopLogs(CycleOf(s, p), st, k, s.computeAccuracy);
  }

  /** With swa on, the pool gains exactly the slots of the trailing window; with swa off it is untouched. */
  lemma RunSnapshots(s: Setup, p: Perturbation, st: RunState, k: nat)
    ensures Run(s, p, st, k).Success? ==>
      && (s.swa ==> Run(s, p, st, k).value.running.Keys == st.running.Keys + SlotsWritten(s.cycles, SwaWindow(s.fullEpoch), k))
      && (!s.swa ==> Run(s, p, st, k).value.running == st.running)
  {
    if s.swa {
      forall x, e: nat
        ensures CycleOf(s, p)(x, e).Success? ==>
          CycleOf(s, p)(x, e).value.running.Keys == x.running.Keys + SlotOf(s.cycles, e, SwaWindow(s.fullEpoch))
      {
        CycleStepPool(s, p, x, e);
      }
      LoopPool(CycleOf(s, p), st, k, s.cycles, SwaWindow(s.fullEpoch));
    } else {
      forall x, e: nat
        ensures CycleOf(s, p)(x, e).Success? ==> CycleOf(s, p)(x, e).value.running == x.running
      {
        CycleStepPool(s, p, x, e);
      }
      LoopKeepsPool(CycleOf(s, p), st, k);
    }
  }

  /** The statistics of cycle e are printed exactly when e == 0 or (e+1) is a multiple of print_loss. */
  lemma RunReports(s: Setup, p: Perturbation, st: RunState, k: nat)
    ensures Run(s, p, st, k).Success? ==>
      (k <= 1 || s.printLoss != 0) && Run(s, p, st, k).value.emitted.reports == st.emitted.reports + ReportCycles(k, s.printLoss)
  {
    forall x, e: nat
      ensures CycleOf(s, p)(x, e).Success? ==>
        (e == 0 || s.printLoss != 0) && CycleOf(s, p)(x, e).value.emitted.reports == x.emitted.reports + ReportAt(e, s.printLoss)
    {
      CycleStepReports(s, p, x, e);
    }
    LoopReports(CycleOf(s, p), st, k, s.printLoss);
  }

  /** The loop evaluates nothing and writes no checkpoint. */
  lemma RunEmitsNothing(s: Setup, p: Perturbation, st: RunState, k: nat)
    ensures Run(s, p, st, k).Success? ==>
      Run(s, p, st, k).value.emitted.evaluations == st.emitted.evaluations && Run(s, p, st, k).value.emitted.checkpoints == st.emitted.checkpoints
  {
    forall x, e: nat
      ensures CycleOf(s, p)(x, e).Success? ==>
        CycleOf(s, p)(x, e).value.emitted.evaluations == x.emitted.evaluations && CycleOf(s, p)(x, e).value.emitted.checkpoints == x.emitted.checkpoints
    {
      CycleStepEmitsNothing(s, p, x, e);
    }
    LoopEmitsNothing(CycleOf(s, p), st, k);
  }

  // ---------------------------------------------------------------------------
  // Properties of a whole training call

  /**
   * eval_model raises nothing: it is in fixed-cycle mode (full-epoch mode
   * raises AttributeError), its batches exist, there is at least one, and no
   * accuracy is None.
   */
  predicate EvalOk(s: Setup) {
    !s.fullEpoch && IntendedEvalOk(s)
  }

  lemma EvaluateFacts(s: Setup, st: RunState)
    ensures Evaluate(s, st).Success? <==> EvalOk(s)
    ensures Evaluate(s, st).Success? ==>
      && Evaluate(s, st).value == st.(emitted := st.emitted.(evaluations := st.emitted.evaluations + [EvalSpec(s, st.net).value]))
  {
    IntendedEvalFacts(s, st.net);
  }

  /** What follows the loop: one checkpoint; one evaluation in fixed-cycle mode and one more after averaging. */
  lemma FinishFacts(s: Setup, st: RunState)
    ensures Finish(s, st).Success? <==> (!s.fullEpoch || s.swa ==> EvalOk(s)) && (s.swa ==> 0 in st.running)
    ensures Finish(s, st).Success? ==>
      var r := Finish(s, st).value;
      && r.emitted.checkpoints == st.emitted.checkpoints + [FinalCheckpoint(s.filename)]
      && |r.emitted.evaluations| == |st.emitted.evaluations| + (if s.fullEpoch then 0 else 1) + (if s.swa then 1 else 0)
      && r.lossAcc == st.lossAcc && r.emitted.reports == st.emitted.reports && r.running == st.running
      && (s.swa ==> r.net == s.engine.average(st.running))
      && (!s.swa ==> r.net == st.net)
  {
    var saved := st.(emitted := st.emitted.(checkpoints := st.emitted.checkpoints + [FinalCheckpoint(s.filename)]));
    EvaluateFacts(s, saved);
    if !s.fullEpoch && Evaluate(s, saved).Success? {
      var evaluated := Evaluate(s, saved).value;
      EvaluateFacts(s, evaluated.(net := s.engine.average(evaluated.running)));
    } else {
      EvaluateFacts(s, saved.(net := s.engine.average(saved.running)));
    }
  }

  /** The exact condition under which the loop of fit or run and the statements after it raise nothing. */
  predicate Completes(s: Setup, p: Perturbation, st: RunState) {
    var n := Iterations(s.cycles);
    && RunOk(s, p, n)
    && (!s.fullEpoch || s.swa ==> EvalOk(s))
    && (s.swa ==> 0 in st.running.Keys + SlotsWritten(s.cycles, SwaWindow(s.fullEpoch), n))
  }

  /** The exact condition under which fit or run raises nothing. */
  predicate TrainOk(s: Setup, p: Perturbation, st: RunState) {
    Completes(s, p, st) && s.plotHistory.Some?
  }

  lemma CompletesFacts(s: Setup, p: Perturbation, st: RunState)
    ensures var looped := Run(s, p, st, Iterations(s.cycles));
      looped.Success? && Finish(s, looped.value).Success? <==> Completes(s, p, st)
  {
    var n := Iterations(s.cycles);
    RunSucceeds(s, p, st, n);
    RunSnapshots(s, p, st, n);
    var looped := Run(s, p, st, n);
    if looped.Success? {
      FinishFacts(s, looped.value);
    }
  }

  /** As written, a call of fit or run with full_epoch and swa always raises: the evaluation after averaging cannot complete. */
  lemma FullEpochSwaRaises(s: Setup, p: Perturbation, st: RunState)
    requires s.fullEpoch && s.swa
    ensures Train(s, p, st).Failure?
  {
    TrainFacts(s, p, st);
  }

  /**
   * On a trainer that never assigned plot_training_history, a call of fit or
   * run always raises: AttributeError when the loop and the statements after
   * it complete, the earlier exception otherwise.
   */
  lemma UnsetPlotHistoryRaises(s: Setup, p: Perturbation, st: RunState)
    requires s.plotHistory.None?
    ensures Train(s, p, st).Failure?
    ensures Completes(s, p, st) ==> Train(s, p, st) == Failure(AttributeError)
  {
    CompletesFacts(s, p, st);
  }

  /**
   * A whole training call: it raises exactly when TrainOk fails, that is when
   * the loop or the statements after it raise or plot_training_history was
   * never assigned; otherwise the
   * logs grow by one entry per cycle, the SWA pool gains the slots of the
   * trailing window, one checkpoint is written, and one evaluation is printed
   * in fixed-cycle mode and one more after averaging.
   */
  lemma TrainFacts(s: Setup, p: Perturbation, st: RunState)
    ensures Train(s, p, st).Success? <==> TrainOk(s, p, st)
    ensures Train(s, p, st).Success? ==>
      var r := Train(s, p, st).value;
      var n := Iterations(s.cycles);
      && LogsGrow(st, r, n, s.computeAccuracy)
      && r.emitted.checkpoints == st.emitted.checkpoints + [FinalCheckpoint(s.filename)]
      && |r.emitted.evaluations| == |st.emitted.evaluations| + (if s.fullEpoch then 0 else 1) + (if s.swa then 1 else 0)
      && (n <= 1 || s.printLoss != 0)
      && r.emitted.reports == st.emitted.reports + ReportCycles(n, s.printLoss)
      && (s.swa ==> r.running.Keys == st.running.Keys + SlotsWritten(s.cycles, SwaWindow(s.fullEpoch), n))
      && (!s.swa ==> r.running == st.running)
  {
    var n := Iterations(s.cycles);
    CompletesFacts(s, p, st);
    RunLogs(s, p, st, n);
    RunSnapshots(s, p, st, n);
    RunReports(s, p, st, n);
    RunEmitsNothing(s, p, st, n);
    var looped := Run(s, p, st, n);
    if looped.Success? {
      FinishFacts(s, looped.value);
    }
  }

  /**
   * Starting from an empty pool, averaging succeeds only after a full window:
   * training_cycles must be at least 5 in full-epoch mode and 30 otherwise.
   */
  lemma SwaNeedsFullWindow(s: Setup, p: Perturbation, st: RunState)
    requires s.swa && st.running == map[]
    ensures Train(s, p, st).Success? ==> s.cycles >= SwaWindow(s.fullEpoch)
  {
    TrainFacts(s, p, st);
    var w := SwaWindow(s.fullEpoch);
    SlotsWrittenInterval(s.cycles, w, Iterations(s.cycles));
    IntervalMembers(Max(w - s.cycles, 0), w - s.cycles + Iterations(s.cycles));
  }

  /**
   * Started from an empty pool, a call with swa that raises nothing ends
   * with a full pool: exactly the slots 0 .. window-1.
   */
  lemma SwaPoolAfterTrain(s: Setup, p: Perturbation, st: RunState)
    requires s.swa && st.running == map[]
    ensures Train(s, p, st).Success? ==>
      && Train(s, p, st).value.running.Keys == Interval(0, SwaWindow(s.fullEpoch))
      && |Train(s, p, st).value.running.Keys| == SwaWindow(s.fullEpoch)
  {
    if Train(s, p, st).Success? {
      var w := SwaWindow(s.fullEpoch);
      TrainFacts(s, p, st);
      SwaNeedsFullWindow(s, p, st);
      SnapshotsAfterRun(s.cycles, w);
      IntervalSize(0, w);
    }
  }
}
