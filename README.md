# AtomAI trainer controller

This project models the training controller of AtomAI's `atomai/trainers/trainer.py`:

- the attributes a `BaseTrainer` holds;
- how `compile_trainer`, `set_data` and the body of `ImSpecTrainer.__init__` set those attributes;
- the cycle loop of `fit` and `ImSpecTrainer.run` with its step, SWA-snapshot, perturbation and report schedule;
- what follows the loop (checkpoint, evaluation, weight averaging).

The network, optimizer, loss and metric are an `Engine` of total functions: `train` gives new weights and a loss and accuracy per batch, `test` gives a loss and accuracy, `perturb` gives noisy weights, `average` gives averaged weights. The atomai.utils and sklearn helpers are a `Helpers` value made of functions. Both are known only by what they return.

Modules:

- `Outcomes` (outcomes.dfy): the Python exceptions raised as `Error` values, plus `Option`, `Result` and `Outcome`.
- `Schedule` (schedule.dfy): the SWA window and slot formula, the report predicate `e == 0 or (e+1) % print_loss == 0`, the perturbation predicate `(e+1) % e_p == 0`, and the counting lemmas about them.
- `Batches` (batches.dfy): the `X[batch_num][:batch_size]` slice, the batches of a `DataLoader` with `drop_last=True`, and `np.random.randint` over a given raw draw stream.
- `Metrics` (metrics.dfy): the per-batch results, and the running sums and means of `step_full` and `eval_model`.
- `Controller` (controller.dfy): the loop as functions. The configuration the loop reads is a `Setup`; what it changes is a `RunState`: the weights, `loss_acc`, `running_weights`, and what has been printed and saved. `CycleStep`, `Run`, `Finish` and `Train` describe one cycle, the loop, the statements after it and a whole call. Lemmas state exactly when each one raises the first exception, and what it changes.
- `TrainerState` (state.dfy): every attribute as a `Fields` value, and the configuring operations as functions from old attributes to new ones. On an exception they return the attributes assigned so far. Lemmas cover the defaults, the checks and the order of the checks.
- `Training` (trainer.dfy): the trainer object as a class with one field per attribute. Each method is proved to leave the fields it writes exactly as the matching `TrainerState` or `Controller` function says. Its `modifies` clause lists those fields, so every other attribute keeps its value.

`SegTrainer` and `ImSpecTrainer` are one class whose `kind` selects the overridden `set_data` and `weight_perturbation`.

Some configuring methods take a ghost parameter `f`, the object's attributes on entry. Their requires clauses equate `f` with the fields the method reads or may leave unwritten. Their ensures give the written fields the values the specification function computes from `f`.

Behaviours kept as the code has them:

- `BaseTrainer.set_data` never records `batch_size`.
- Both of its loaders drop the last partial batch.
- `step_full`'s `for … else` always runs the test sweep after a complete train sweep.
- `ImSpecTrainer.run` never perturbs the weights.
- `BaseTrainer.weight_perturbation` raises `NotImplementedError`.
- `ImSpecTrainer.__init__` reads an absent `full_epoch` (None) as fixed-cycle mode.
- Training draws use `self.training_cycles` in `compile_trainer` and the argument in `ImSpecTrainer.__init__`.
- A full-epoch `eval_model` raises AttributeError on `self.iou` (251), so `fit` and `run` with full_epoch and swa always raise; `IntendedEvalSpec` is the evaluation as meant (see "## Findings").
- The shuffled training loader of `BaseTrainer.set_data` refuses an empty training set with ValueError.
- `fit` and `run` read `plot_training_history` after the statements that follow the loop (375, 830). Only the last line of `compile_trainer` (152) and `ImSpecTrainer.__init__` (789) assign it. So `fit` on a new `BaseTrainer` or `SegTrainer`, or after a `compile_trainer` that raised, raises AttributeError once the loop, the checkpoint and the evaluations are done.

## Model

| member | source | states |
|---|---|---|
| Schedule.SwaSlot | atomai/trainers/trainer.py:338-340 | the slot `swa_epochs - (training_cycles - e)` is non-negative exactly when the guard `training_cycles - e <= swa_epochs` holds, and lies in `[0, swa_epochs)` exactly for the last `swa_epochs` cycles |
| Schedule.SlotsWrittenInterval | atomai/trainers/trainer.py:338-344 | after the first k cycles the written slots form the interval `[max(window - cycles, 0), window - cycles + k)` |
| Schedule.SnapshotsAfterRun | atomai/trainers/trainer.py:334-345 | after a run of n cycles the pool holds exactly the slots `window - min(n, window) .. window - 1`, which is `min(n, window)` slots |
| Schedule.SlotsWrittenInRange | atomai/trainers/trainer.py:338-344 | every slot written lies in `[0, window)` |
| Schedule.NoSnapshotsIffNoCycles | atomai/trainers/trainer.py:357-363 | the pool that averaging reads is empty exactly when the run has no cycles |
| Schedule.ReportDue | atomai/trainers/trainer.py:366 | the report test divides by zero exactly past cycle 0 with `print_loss == 0`; cycle 0 is always reported |
| Schedule.ReportCyclesMembers | atomai/trainers/trainer.py:366 | cycle e is reported iff `e == 0` or `(e+1) % print_loss == 0`, and the reported cycles appear in increasing order |
| Schedule.ReportCount | atomai/trainers/trainer.py:366 | over k cycles with period p >= 1 there are `1 + k / p` reports (k reports when p is 1) |
| Schedule.DefaultPrintLoss | atomai/trainers/trainer.py:145-150 | a given print_loss is kept as it is; an absent one becomes a positive default |
| Schedule.DefaultReportCount | atomai/trainers/trainer.py:145-150 | with the default print_loss, full-epoch training reports every cycle and fixed-cycle training reports `1 + k / 100` times |
| Schedule.PerturbDue | atomai/trainers/trainer.py:587 | the perturbation test divides by zero exactly when `e_p == 0`; a period of 1 fires every cycle |
| Schedule.PerturbCyclesMembers | atomai/trainers/trainer.py:587 | the weights are perturbed on cycle e iff `(e+1) % e_p == 0` |
| Schedule.PerturbCount | atomai/trainers/trainer.py:587 | over k cycles with period `e_p >= 1` the weights are perturbed `k / e_p` times |
| Metrics.Mean | atomai/trainers/trainer.py:228-229 | the closed form of `losses / c` that the loop totals of `step_full` and `eval_model` are proved equal to; its properties are MeanBounds and MeanOfConstant |
| Metrics.MeanBounds | atomai/trainers/trainer.py:228-232 | a mean lies between the smallest and the largest value averaged |
| Metrics.MeanOfConstant | atomai/trainers/trainer.py:228-229 | when every batch has the same value, the mean is that value |
| Batches.Prefix | atomai/trainers/trainer.py:322-326 | `s[:n]` has `min(n, len(s))` elements for n >= 0 (dropping `-n` elements for n < 0) and is a prefix of s |
| Batches.ChunksShape | atomai/trainers/trainer.py:92-97 | a `drop_last=True` loader yields `len / batch_size` batches, each exactly `batch_size` long, which together are the dataset without its last `len % batch_size` samples |
| Batches.MakeLoader | atomai/trainers/trainer.py:92-97 | a loader is built iff inputs and targets have the same length, the batch size is positive and, for the shuffled training loader, the dataset is not empty; otherwise AssertionError (length mismatch) or ValueError is raised |
| Batches.RandInt | atomai/trainers/trainer.py:140-143 | `np.random.randint` succeeds iff the size is 0 (an empty array, whatever the range) or the range is non-empty and the size non-negative; otherwise ValueError; it gives `size` indices, each below the bound |
| Batches.RandIntCovers | atomai/trainers/trainer.py:140-143 | every index sequence within the bound is one that some generator stream produces |
| Controller.Fetch | atomai/trainers/trainer.py:315-326 | a fetch succeeds iff the batch exists in the test lists (mode "test") or the training lists (any other mode); the result is a prefix of that batch, of `min(batch_size, len)` samples when batch_size is non-negative; a missing batch raises IndexError |
| Controller.FixedStep | atomai/trainers/trainer.py:184-202 | `step(e)` raises exactly when an index for cycle e or the batch it names is missing |
| Controller.FullStep | atomai/trainers/trainer.py:204-232 | `step_full` raises exactly when a loader is empty or accuracy_fn returns None with accuracy on; the error is TypeError when a None accuracy is summed over a non-empty loader, and ZeroDivisionError otherwise |
| Controller.TestSweep | atomai/trainers/trainer.py:222-227 | the closed form that the test loops of `step_full` and `eval_model` are proved equal to (through TestPassNext); its partner is the loop step, not a property of its own |
| Controller.TrainPassNext | atomai/trainers/trainer.py:215-220 | one more batch of the train loop updates the weights and adds that batch's loss (and accuracy when kept) to the running totals |
| Controller.TestPassNext | atomai/trainers/trainer.py:222-227 | one more batch of a test loop adds that batch's loss (and accuracy when kept) to the running totals |
| Controller.FullCycleStepOf | atomai/trainers/trainer.py:228-232 | the totals divided by the batch counts are what `step_full` records, and a zero count raises |
| Controller.EvalBatches | atomai/trainers/trainer.py:256-257 | fixed-cycle evaluation visits every test batch, each fetched as `dataloader(idx, mode='test')`; it raises IndexError when a target list is missing |
| Controller.EvalBatchesFetchable | atomai/trainers/trainer.py:256-257 | when every test input has its targets, the batches evaluated are exactly the fetchable test batches |
| Controller.Evaluation | atomai/trainers/trainer.py:249-266 | an evaluation over no batches divides by zero; otherwise its report carries an accuracy exactly when accuracy is printed |
| Controller.EvaluationOf | atomai/trainers/trainer.py:239-266 | the running totals of `eval_model` divided by the batch count are the reported means |
| Controller.LoopStaysFailed | atomai/trainers/trainer.py:357 | an exception in cycle e ends the loop: every longer run raises the same exception |
| Controller.CycleStepSucceeds | atomai/trainers/trainer.py:357-367 | a cycle raises nothing iff its batches exist, the perturbation call can succeed, print_loss is non-zero past cycle 0, and no None accuracy is summed or rounded for a report |
| Controller.CycleStepLogs | atomai/trainers/trainer.py:194-202 | one cycle appends one entry to each loss log, and to each accuracy log iff accuracy is computed |
| Controller.CycleStepEmitsNothing | atomai/trainers/trainer.py:357-367 | a cycle neither evaluates nor saves a checkpoint |
| Controller.CycleStepPool | atomai/trainers/trainer.py:362-363 | with swa on, a cycle stores the post-step weights in its slot when the slot is in the window, and adds no other key; with swa off the pool is untouched |
| Controller.CycleStepReports | atomai/trainers/trainer.py:366-367 | a cycle adds e to the printed reports exactly when e is due |
| Controller.CycleStepPerturbs | atomai/trainers/trainer.py:364-365 | with e_p given, a cycle leaves the post-step weights perturbed exactly when e is in the schedule `PerturbCycles`, and unchanged otherwise |
| Controller.LoopSucceeds | atomai/trainers/trainer.py:357 | a loop succeeds iff each of its cycles would |
| Controller.LoopLogs | atomai/trainers/trainer.py:357 | when each cycle appends one entry, k cycles append k entries and keep the earlier ones |
| Controller.LoopPool | atomai/trainers/trainer.py:357 | when each cycle adds its slot, k cycles add the slots of cycles 0 .. k-1 |
| Controller.LoopKeepsPool | atomai/trainers/trainer.py:357 | when no cycle touches the pool, neither does the loop |
| Controller.LoopReports | atomai/trainers/trainer.py:357 | when each cycle adds its own report, the loop adds the reports of cycles 0 .. k-1 in order |
| Controller.LoopEmitsNothing | atomai/trainers/trainer.py:357 | when no cycle evaluates or saves, neither does the loop |
| Controller.RunSucceeds | atomai/trainers/trainer.py:357-367 | the loop raises iff a loader is empty or a batch is missing, the perturbation call fails, print_loss is 0 and there are at least two cycles, or accuracy is on for a trainer whose accuracy_fn returns None (cycle 0 always rounds it) |
| Controller.RunLogs | atomai/trainers/trainer.py:357-361 | after k cycles each loss log has k new entries after the old ones; the accuracy logs have k new entries iff accuracy is computed, and none otherwise |
| Controller.RunSnapshots | atomai/trainers/trainer.py:357-363 | with swa on, the pool gains exactly the slots of the trailing window; with swa off it is untouched |
| Controller.RunReports | atomai/trainers/trainer.py:366-367 | the statistics printed are those of the cycles e with `e == 0` or `(e+1) % print_loss == 0`, in order |
| Controller.RunEmitsNothing | atomai/trainers/trainer.py:357-367 | the loop evaluates nothing and writes no checkpoint |
| Controller.IntendedEvalFacts | atomai/trainers/trainer.py:234-266 | the evaluation as meant raises iff there is no test batch, a target list is missing, or a None accuracy would be summed; otherwise it reports the mean test loss, and the mean accuracy exactly when accuracy is computed |
| Controller.FullEpochEvalRaises | atomai/trainers/trainer.py:242-253 | as written, no full-epoch `eval_model` completes: where the evaluation as meant succeeds it raises AttributeError on `self.iou`; in fixed-cycle mode the two agree |
| Controller.EvaluateFacts | atomai/trainers/trainer.py:234-266 | an evaluation raises iff it is in full-epoch mode (AttributeError at 251), there is no test batch, a target list is missing, or a None accuracy would be summed; otherwise it prints one report and changes nothing else |
| Controller.FinishFacts | atomai/trainers/trainer.py:368-374 | the code after the loop raises iff an evaluation it runs raises (so always with full_epoch and swa) or slot 0 is missing for averaging; otherwise: exactly one checkpoint `filename + "_metadict_final.tar"`; one evaluation in fixed-cycle mode and one more after averaging; the logs, reports and pool unchanged; the averaged weights loaded iff swa |
| Controller.FullEpochSwaRaises | atomai/trainers/trainer.py:370-374 | as written, `fit` or `run` with full_epoch and swa always raises: the evaluation after averaging reads `self.iou` |
| Controller.TrainFacts | atomai/trainers/trainer.py:347-377 | a call of `fit` or `run` raises exactly when `TrainOk` fails: the loop or the statements after it raise (which includes every full-epoch call with swa), or `plot_training_history` was never assigned. Otherwise the logs grow by one entry per cycle, the reports are the due cycles, the SWA pool gains exactly the slots of the trailing window (and is untouched without swa), one checkpoint is written, and the evaluation count is as above |
| Controller.CompletesFacts | atomai/trainers/trainer.py:357-374 | the loop and the statements after it raise nothing exactly when `Completes` holds: the loop's conditions, the evaluations' conditions, and slot 0 present before averaging |
| Controller.UnsetPlotHistoryRaises | atomai/trainers/trainer.py:375 | on a trainer that never assigned `plot_training_history`, `fit` or `run` always raises, and raises AttributeError whenever the loop and the statements after it complete |
| Controller.SwaPoolAfterTrain | atomai/trainers/trainer.py:334-345 | a call with swa that starts from an empty pool and raises nothing leaves exactly the slots `0 .. window-1` in the pool, `window` snapshots in all |
| Controller.SwaNeedsFullWindow | atomai/trainers/trainer.py:370-372 | from an empty pool, averaging succeeds only when training_cycles is at least 5 (full-epoch) or 30 (fixed-cycle) |
| TrainerState.PerturbationOf | atomai/trainers/trainer.py:364-365 | only `fit` perturbs, and only for a truthy setting; any trainer but a segmentation trainer then raises NotImplementedError |
| TrainerState.BaseSetDataFacts | atomai/trainers/trainer.py:80-101 | `BaseTrainer.set_data` raises TypeError iff an array is missing or is not a tensor; in full-epoch mode it succeeds iff the lengths agree, the batch size is positive and the shuffled training set is not empty, and both loaders drop the last partial batch; it never records batch_size |
| TrainerState.ClassCheck | atomai/trainers/trainer.py:514-542 | `SegTrainer.set_data` raises AssertionError iff the model's class count differs from the data's; either way it leaves batch_size and the loaders (or lists) built for the configured mode, and the weights and logs untouched |
| TrainerState.SetDataFrame | atomai/trainers/trainer.py:80-101 | set_data writes batch_size, the loaders and the lists, and no other attribute |
| TrainerState.ConfigurePerturbation | atomai/trainers/trainer.py:126-134 | a truthy setting raises KeyError without a batchnorm entry and AssertionError with batchnorm on; True becomes `{a: .01, gamma: 1.5, e_p: 1 or 50}`; a dictionary is kept |
| TrainerState.DrawIndicesFacts | atomai/trainers/trainer.py:139-143 | the fixed-cycle draws succeed iff there are no cycles, or both lists are non-empty and the cycle count non-negative; otherwise ValueError; they give one index per cycle naming an existing batch; full-epoch mode draws nothing |
| TrainerState.OptimizerOf | atomai/trainers/trainer.py:72-78 | the default Adam is used exactly when no optimizer is passed; it raises ValueError on a network without parameters, such as the empty `torch.nn.Module()` of line 43 |
| TrainerState.TrainingStageFacts | atomai/trainers/trainer.py:126-137 | the perturbation stage raises exactly when the setting is refused, and writes only perturb_weights, the optimizer and the criterion |
| TrainerState.SetupStageFrame | atomai/trainers/trainer.py:126-152 | the statements after set_data write only the perturbation, optimizer, criterion, batch indices, print_loss, filename and plot_training_history |
| TrainerState.CompileSucceeds | atomai/trainers/trainer.py:106-152 | `compile_trainer` returns normally iff set_data does, the perturbation setting is accepted, set_optimizer succeeds, and the index draws succeed |
| TrainerState.CompileKeepsState | atomai/trainers/trainer.py:106-152 | whether or not it raises, `compile_trainer` leaves the weights, logs, pool and outputs as they were |
| TrainerState.CompileSettings | atomai/trainers/trainer.py:120-152 | a compiled trainer holds the given mode, cycle count, accuracy and swa flags, the optimizer, the criterion, print_loss with its mode default, the filename with its default, and plot_training_history (default True) |
| TrainerState.BatchnormRejected | atomai/trainers/trainer.py:126-131 | perturbation with batchnorm on raises AssertionError after perturb_weights is assigned, before the optimizer, criterion or indices change |
| TrainerState.PerturbDefault | atomai/trainers/trainer.py:132-134 | `perturb_weights=True` becomes the default dictionary with e_p 1 (full-epoch) or 50; a segmentation trainer's fit then perturbs with that period, and the schedule `PerturbCycles` of that period holds the cycles with `(e+1) % e_p == 0`, `k / e_p` of them in k cycles (`CycleStepPerturbs` ties the schedule to each cycle) |
| TrainerState.CompileReady | atomai/trainers/trainer.py:139-143 | after a fixed-cycle compile there is one index per cycle, each naming a batch; when every input list has its target list, every cycle of `fit` can fetch both its batches |
| TrainerState.CompiledReportSchedule | atomai/trainers/trainer.py:145-150 | without print_loss, a compiled trainer reports every cycle (full-epoch) or the first and every 100th (fixed-cycle) |
| TrainerState.PositionalSetData | atomai/trainers/trainer.py:124 | `set_data(*train_data, batch_size)` binds in Python iff the argument count fits the signature: 4-5 for BaseTrainer's, 2-4 for SegTrainer's; otherwise it raises TypeError |
| TrainerState.SegFullTupleRejected | atomai/trainers/trainer.py:124 | as written, a segmentation trainer rejects the full four-array tuple that a base trainer accepts |
| TrainerState.SegPairIgnoresBatchSize | atomai/trainers/trainer.py:124 | as written, a segmentation trainer accepts the pair (X_train, y_train), but the batch size binds to X_test and 32 is recorded; the keyword call records the given size |
| TrainerState.CompileBatchSize | atomai/trainers/trainer.py:521-526 | with the batch size passed as a keyword, a segmentation trainer records it and can then fail only the class check (AssertionError); BaseTrainer's set_data keeps the old batch_size |
| TrainerState.ImSpecDataFrame | atomai/trainers/trainer.py:757-765 | the data statements of `ImSpecTrainer.__init__` write only batch_size, full_epoch, the loaders and the lists |
| TrainerState.ImSpecLoadFrame | atomai/trainers/trainer.py:757-771 | the data statements and the index draws write only those attributes and the batch indices |
| TrainerState.ImSpecInitFacts | atomai/trainers/trainer.py:730-791 | for the network with parameters that `init_imspec_model` builds, `ImSpecTrainer.__init__` raises only in the fixed-cycle draws (ValueError), and Adam accepts that network. Afterwards: fixed-cycle mode unless full_epoch is True; one index per cycle; Adam and MSE; batch size 32 unless given; print_loss 100 or 1 unless given; plot_training_history assigned; no perturbation; empty logs |
| Training.Trainer.Base | atomai/trainers/trainer.py:38-64 | a new object's attributes are `InitialFields()`, in which plot_training_history is unassigned |
| Training.Trainer.Seg | atomai/trainers/trainer.py:491-502 | a new segmentation trainer has the base attributes plus the given class count, the model and its batchnorm flag |
| Training.Trainer.ImSpec | atomai/trainers/trainer.py:740 | the base initialisation of `ImSpecTrainer` |
| Training.Trainer.DrawBatchIndices | atomai/trainers/trainer.py:139-143 | the index attributes and the outcome are those of `DrawIndices` |
| Training.Trainer.LoadImSpecData | atomai/trainers/trainer.py:757-765 | batch_size, full_epoch, the loaders and the lists are those of `ImSpecDataStage` |
| Training.Trainer.LoadImSpec | atomai/trainers/trainer.py:757-771 | the data and index fields and the outcome are those of `ImSpecLoadStage` (`Loaded`) |
| Training.Trainer.ConfigureImSpecModel | atomai/trainers/trainer.py:773-789 | for a network with parameters, the model, Adam, MSE, swa, training_cycles, print_loss (mode default), filename (default "./model") and plot_training_history (default True) are set |
| Training.Trainer.InitImSpec | atomai/trainers/trainer.py:744-791 | the outcome and the data and index attributes are those of `ImSpecLoadStage`; after a failed draw nothing else has changed; otherwise the model, optimizer, criterion, swa, cycle count, print_loss, filename and plot_training_history are those of `ImSpecModelStage`. Together this is `ImSpecInitSpec` |
| Training.Trainer.SetModel | atomai/trainers/trainer.py:66-70 | the model and class count are stored |
| Training.Trainer.SetOptimizer | atomai/trainers/trainer.py:72-78 | the outcome and the optimizer are `OptimizerOf(given, net)`: Adam raises ValueError on a network without parameters, and the optimizer is then unchanged |
| Training.Trainer.SetData | atomai/trainers/trainer.py:80-101 | the outcome, batch_size, the loaders and the lists are those of `SetDataSpec` for the object's kind (SegTrainer's override at 514-542), including the ValueError of an empty shuffled training set |
| Training.Trainer.ConfigureTraining | atomai/trainers/trainer.py:126-137 | the outcome, perturb_weights, the optimizer and the criterion are those of `TrainingStage` |
| Training.Trainer.ConfigureReporting | atomai/trainers/trainer.py:145-152 | print_loss gets its mode-dependent default, filename defaults to "./model", and plot_training_history defaults to True |
| Training.Trainer.ConfigureSetup | atomai/trainers/trainer.py:126-152 | the outcome and the attributes written after set_data are those of `SetupStage` |
| Training.Trainer.SetModeAndData | atomai/trainers/trainer.py:120-124 | the mode flags and the set_data results are those of `DataStage` |
| Training.Trainer.CompileTrainer | atomai/trainers/trainer.py:106-152 | the outcome and every attribute written are those of `CompileSpec` |
| Training.Trainer.Dataloader | atomai/trainers/trainer.py:315-326 | the batch is `Fetch` of the object's lists and batch_size |
| Training.Trainer.Step | atomai/trainers/trainer.py:184-202 | `step(e)` succeeds iff `FixedCycleStep` does, raises the exception it gives otherwise (IndexError), and then leaves the weights and logs it gives |
| Training.Trainer.StepFull | atomai/trainers/trainer.py:204-232 | `step_full()` succeeds iff `FullCycleStep` does, raises the exception it gives otherwise (TypeError on a None accuracy, ZeroDivisionError on an empty loader), and then leaves the weights and logs it gives |
| Training.Trainer.SaveRunningWeights | atomai/trainers/trainer.py:334-345 | the weights go to slot `SwaSlot` when the cycle is in the window, and the pool is otherwise unchanged |
| Training.Trainer.WeightPerturbation | atomai/trainers/trainer.py:579-592 | with a perturbation dictionary, a segmentation trainer perturbs exactly as `PerturbSpec` and BaseTrainer raises NotImplementedError (331-332); with the setting False, indexing it raises TypeError; on an exception the weights are unchanged |
| Training.Trainer.PrintStatistics | atomai/trainers/trainer.py:276-307 | the report is printed iff every log it reads is non-empty and, with accuracy on, the trainer's accuracy_fn gives a score; otherwise it raises IndexError, or TypeError when rounding a None accuracy |
| Training.Trainer.AfterStep | atomai/trainers/trainer.py:362-367 | the snapshot, perturbation and report of a cycle, and the exception raised, are those of `Controller.AfterStep` |
| Training.Trainer.Cycle | atomai/trainers/trainer.py:358-367 | one loop iteration succeeds iff `CycleStep` does, raises the exception it gives otherwise, and then leaves the state it gives |
| Training.Trainer.TrainLoop | atomai/trainers/trainer.py:357-367 | the loop succeeds iff `Run` over training_cycles cycles does, raises the exception it gives otherwise, and then leaves the state it gives |
| Training.Trainer.EvalModel | atomai/trainers/trainer.py:234-266 | the evaluation is `EvalSpec` of the current setting and weights, in either mode |
| Training.Trainer.EvalTestLoader | atomai/trainers/trainer.py:242-253 | in full-epoch mode the loop over the test loader ends in TypeError (accuracy None), ZeroDivisionError (no batch) or the AttributeError of `self.iou`, as `EvalSpec` says |
| Training.Trainer.EvalTestLists | atomai/trainers/trainer.py:254-266 | in fixed-cycle mode the loop's running totals are proved to be `EvalSpec`'s means over the fetchable test batches, with its IndexError, TypeError and ZeroDivisionError |
| Training.Trainer.SaveModel | atomai/trainers/trainer.py:268-274 | the checkpoint is named by the argument, or else by filename, plus ".tar" |
| Training.Trainer.AverageWeights | atomai/trainers/trainer.py:370-374 | the weight averaging and the evaluation after it, and the exception raised, are those of `Averaged`, so it raises AttributeError in full-epoch mode |
| Training.Trainer.FinishTraining | atomai/trainers/trainer.py:368-373 | the statements after the loop succeed iff `Finish` does, raise the exception it gives otherwise, and then leave the state it gives |
| Training.Trainer.Fit | atomai/trainers/trainer.py:347-377 | `fit()` succeeds iff `Train` with perturbation does, including the AttributeError of an unassigned plot_training_history; it raises the exception `Train` gives otherwise, and then leaves the state it gives |
| Training.Trainer.Run | atomai/trainers/trainer.py:809-833 | `run()` succeeds iff `Train` without perturbation does, including the read of plot_training_history; it raises the exception `Train` gives otherwise, and then leaves the state it gives and returns its weights |

## Left out

- The torch computation (forward and backward passes, `optimizer.step`, train/eval modes, `no_grad`, CUDA transfers) is the opaque `Engine`. Losses and accuracies are real numbers, not floating point.
- `select_seg_loss`, the IoU metric and the `datatransform` augmentation are foreign modules that are not part of this model. The criterion is recorded only by name.
- `SegTrainer.dataloader`'s augmentation branch reads the undefined `self.num_classes` (560). It is not modelled: the Seg dataloader is the base slice, and `fit`'s augmentation keyword arguments are ignored.
- `ndarray2list` (764) is not imported in the source. The model uses `array2list` for `ImSpecTrainer`'s lists. `check_signal_dims` and the shape bookkeeping (753-756) are not modelled.
- `average_weights` is not part of this model. It is a function of the pool that is assumed to raise KeyError when slot 0 is missing.
- `init_fcnn_model`, `init_imspec_model`, the dataloader helpers, `preprocess_training_image_data` and `train_test_split` are the opaque `Helpers`. Their results are given as values.
- The order in which the training loader shuffles its samples, the Gaussian noise of `weight_perturbation` and its variance `a / (1+e)^gamma`, and RNG seeding are left out. Loaders yield batches in dataset order; `engine.perturb` stands for the noise; the raw generator output is a given stream.
- The contents of `meta_state_dict` (its weights and optimizer entries) are left out. Only its `batchnorm` entry is kept: `None` when absent.
- The loss line that a full-epoch `eval_model` prints before it raises AttributeError is not among the emitted evaluations, since the call raises.
- `print` output, `gpu_usage_map`, `torch.save` and `plot_losses` are I/O. They appear only as the emitted reports, evaluations and checkpoint names.
- The value of `plot_training_history` only decides whether `plot_losses` draws the curves, which is I/O. The model keeps only whether the attribute has been assigned.
- Training-loop methods (`Step`, `StepFull`, `Cycle`, `TrainLoop`, `FinishTraining`, `Fit`, `Run`) say nothing about the object's state after an exception.
- `None` attributes (the lists before `set_data`, `nb_classes`) are modelled as empty lists and as `Option` values.
- Python argument binding beyond the `set_data` arity is left out, as are non-integer print_loss or e_p values and the commented-out `fit_` (594-641).
- `Training.Trainer.AfterStep`: requires non-empty loss logs (and accuracy logs when accuracy is computed), which the training step just before it guarantees. The IndexError of a report over empty logs is stated by `PrintStatistics`.
- `Training.Trainer.CompileTrainer`, `Training.Trainer.SetModeAndData` and `TrainerState.CompileSucceeds` model `set_data(..., batch_size=batch_size)` with the batch size as a keyword, not the positional call of line 124. For a segmentation trainer the call as written raises TypeError on a four-array tuple and drops the batch size for a pair (see "## Findings").
- `WeightPerturbation`'s lookups of `a` and `gamma` in a dictionary that lacks them are left out: a perturbation dictionary always has `a`, `gamma` and `e_p`.

## Findings

| source | as written | input that shows it | evidently intended | confidence | as-written member | corrected member |
|---|---|---|---|---|---|---|
| atomai/trainers/trainer.py:124 | `self.set_data(*train_data, batch_size)` passes the batch size by position, but `SegTrainer.set_data` (514-519) takes at most four positional arguments and reads `batch_size` from its keyword arguments | `SegTrainer.compile_trainer((X_train, y_train, X_test, y_test))` raises TypeError | pass `batch_size=batch_size` as a keyword, so that the full tuple is accepted | not executed | TrainerState.SegFullTupleRejected | TrainerState.CompileBatchSize |
| atomai/trainers/trainer.py:124 | the same positional call with the pair `(X_train, y_train)` binds the batch size to `X_test`, and `set_data` falls back to 32 | `SegTrainer.compile_trainer((X_train, y_train), batch_size=8)` records batch size 32 | pass `batch_size=batch_size` as a keyword, so that a segmentation trainer records the given batch size | not executed | TrainerState.SegPairIgnoresBatchSize | TrainerState.CompileBatchSize |
| atomai/trainers/trainer.py:251 | `if self.iou:` reads an attribute that no trainer assigns, so every full-epoch `eval_model` raises AttributeError once it has printed the loss | `compile_trainer(..., full_epoch=True, swa=True, training_cycles=5)` then `fit()` raises at the evaluation after averaging (374) | test `self.compute_accuracy`, as the fixed-cycle branch does at 264, and print the mean accuracy then | not executed | Controller.FullEpochEvalRaises | Controller.IntendedEvalFacts |
