/** Error values of the trainer and the failure-compatible wrappers that carry them. */
module Outcomes {

  /** The exceptions the training controller raises, by their Python class. */
  datatype Error =
    | TypeError           // non-tensor training data; subscripting a bool perturbation setting
    | IndexError          // a batch index past the end of the batch lists
    | KeyError            // meta_state_dict has no "batchnorm" entry
    | AssertionError      // perturbation with batchnorm; class-count mismatch; TensorDataset size mismatch
    | ValueError          // randint over an empty range or with negative size; DataLoader batch_size <= 0; shuffling no samples
    | ZeroDivisionError   // a mean over no batches; a zero report or perturbation period
    | NotImplementedError // BaseTrainer.weight_perturbation
    | AttributeError      // eval_model reads self.iou, which no trainer assigns

  datatype Option<+T> = None | Some(value: T) {
    function GetOr(default: T): T {
      match this
      case Some(v) => v
      case None => default
    }
  }

  /** The result of an operation that either returns a value or raises. */
  datatype Result<+T> = Success(value: T) | Failure(error: Error) {
    predicate IsFailure() { Failure? }
    function PropagateFailure<U>(): Result<U> requires Failure? { Failure(error) }
    function Extract(): T requires Success? { value }
  }

  /** The result of an operation that returns nothing or raises. */
  datatype Outcome = Ok | Fail(error: Error)
}
