/** The block executor's adapter to the VM (`CreditChainExecutorTask`): how one VM
    execution result is classified into the executor's `ExecutionStatus`. The VM
    call itself, `should_restart_execution` and logging are outside the model; their
    answers arrive as inputs. */
module VmWrapper {
  import opened Common

  /** The status codes the adapter tests for; every other code is `OtherStatusCode`. */
  datatype StatusCode =
    | SPECULATIVE_EXECUTION_ABORT_ERROR
    | DELAYED_FIELD_OR_BLOCKSTM_CODE_INVARIANT_ERROR
    | OtherStatusCode(name: string)

  /** A `VMStatus`, seen through `status_code()` and `message()`. */
  datatype VMStatus = VMStatus(code: StatusCode, message: Option<string>)

  /** A `VMOutput`, seen through what the adapter asks of it: whether its status is
      discarded, and whether `CreditChainVM::should_restart_execution` holds of its events.
      `payload` stands for the rest of the output, carried through unchanged. */
  datatype VMOutput = VMOutput(discarded: bool, restartRequired: bool, payload: nat)

  /** `execute_single_transaction`'s result. */
  datatype VMResult = Executed(status: VMStatus, output: VMOutput) | Failed(err: VMStatus)

  datatype WriteSetPayload = Direct | Script
  datatype Transaction = GenesisTransaction(payload: WriteSetPayload) | OtherTransaction(kind: string)

  /** A `SignatureVerifiedTransaction`: valid or invalid, each around a transaction. */
  datatype SignatureVerifiedTransaction = Valid(txn: Transaction) | Invalid(txn: Transaction)

  /** `CreditChainTransactionOutput::new(vm_output)`. */
  datatype TransactionOutput = TransactionOutput(vmOutput: VMOutput)

  /** The executor's `ExecutionStatus<CreditChainTransactionOutput, VMStatus>`. */
  datatype ExecutionStatus =
    | Success(output: TransactionOutput)
    | SkipRest(output: TransactionOutput)
    | Abort(err: VMStatus)
    | SpeculativeExecutionAbortError(msg: string)
    | DelayedFieldsCodeInvariantError(msg: string)

  /** What a call returns, or the `assert!` that panics on a direct write set that
      does not end the block. */
  datatype Outcome = Returned(status: ExecutionStatus) | Panicked(reason: string)

  const DIRECT_WRITE_SET_PANIC: string :=
    "DirectWriteSet should always create SkipRest transaction, validate_waypoint_change_set provides this guarantee"

  /** `is_transaction_dynamic_change_set_capable`: false only for a valid genesis
      transaction whose write set payload is `Direct`. */
  predicate IsDynamicChangeSetCapable(t: SignatureVerifiedTransaction): (capable: bool)
    ensures t.Invalid? ==> capable
    ensures !capable ==> t.txn == GenesisTransaction(Direct)
    ensures t.Valid? && t.txn == GenesisTransaction(Direct) ==> !capable
  {
    !(t.Valid? && t.txn == GenesisTransaction(Direct))
  }

  /** The two codes that both branches translate the same way, before anything else. */
  function ClassifyCode(s: VMStatus): (r: Option<ExecutionStatus>)
    ensures r.Some? <==> !s.code.OtherStatusCode?
    ensures s.code == SPECULATIVE_EXECUTION_ABORT_ERROR ==>
      r == Some(SpeculativeExecutionAbortError(UnwrapOrEmpty(s.message)))
    ensures s.code == DELAYED_FIELD_OR_BLOCKSTM_CODE_INVARIANT_ERROR ==>
      r == Some(DelayedFieldsCodeInvariantError(UnwrapOrEmpty(s.message)))
  {
    match s.code
    case SPECULATIVE_EXECUTION_ABORT_ERROR => Some(SpeculativeExecutionAbortError(UnwrapOrEmpty(s.message)))
    case DELAYED_FIELD_OR_BLOCKSTM_CODE_INVARIANT_ERROR => Some(DelayedFieldsCodeInvariantError(UnwrapOrEmpty(s.message)))
    case OtherStatusCode(_) => None
  }

  /** `execute_transaction`: classifies the VM's result for transaction `t`. */
  function ExecuteTransaction(t: SignatureVerifiedTransaction, result: VMResult): (r: Outcome)
    // The speculative-abort code wins over everything, in both branches.
    ensures (result.Executed? && result.status.code == SPECULATIVE_EXECUTION_ABORT_ERROR) ||
            (result.Failed? && result.err.code == SPECULATIVE_EXECUTION_ABORT_ERROR) ==>
      r == Returned(SpeculativeExecutionAbortError(UnwrapOrEmpty(
        if result.Executed? then result.status.message else result.err.message)))
    // So does the delayed-field invariant code.
    ensures (result.Executed? && result.status.code == DELAYED_FIELD_OR_BLOCKSTM_CODE_INVARIANT_ERROR) ||
            (result.Failed? && result.err.code == DELAYED_FIELD_OR_BLOCKSTM_CODE_INVARIANT_ERROR) ==>
      r == Returned(DelayedFieldsCodeInvariantError(UnwrapOrEmpty(
        if result.Executed? then result.status.message else result.err.message)))
    // A reconfiguration ends the block, carrying the VM output.
    ensures r.Returned? && r.status.SkipRest? <==>
      result.Executed? && result.status.code.OtherStatusCode? && result.output.restartRequired
    ensures r.Returned? && r.status.SkipRest? ==> r.status.output.vmOutput == result.output
    // Success needs an ordinary code, no restart, and a dynamic-change-set-capable transaction.
    ensures r.Returned? && r.status.Success? <==>
      result.Executed? && result.status.code.OtherStatusCode? && !result.output.restartRequired &&
      IsDynamicChangeSetCapable(t)
    ensures r.Returned? && r.status.Success? ==> r.status.output.vmOutput == result.output
    // The only panic: an ordinary result of a non-capable transaction that does not restart.
    ensures r.Panicked? <==>
      result.Executed? && result.status.code.OtherStatusCode? && !result.output.restartRequired &&
      !IsDynamicChangeSetCapable(t)
    // Every other error aborts with the VM's error itself.
    ensures r.Returned? && r.status.Abort? <==> result.Failed? && result.err.code.OtherStatusCode?
    ensures r.Returned? && r.status.Abort? ==> r.status.err == result.err
  {
    match result
    case Executed(status, output) =>
      (match ClassifyCode(status)
       case Some(s) => Returned(s)
       case None =>
         if output.restartRequired then Returned(SkipRest(TransactionOutput(output)))
         else if !IsDynamicChangeSetCapable(t) then Panicked(DIRECT_WRITE_SET_PANIC)
         else Returned(Success(TransactionOutput(output))))
    case Failed(err) =>
      match ClassifyCode(err)
      case Some(s) => Returned(s)
      case None => Returned(Abort(err))
  }

  /** Whether the VM marked its output discarded only triggers a trace: flipping the
      flag changes no classification, and only the output a status carries differs. */
  lemma DiscardedOnlyLogged(t: SignatureVerifiedTransaction, s: VMStatus, o: VMOutput)
    ensures var r1, r2 := ExecuteTransaction(t, Executed(s, o)),
                          ExecuteTransaction(t, Executed(s, o.(discarded := !o.discarded)));
      && r1.Panicked? == r2.Panicked?
      && (r1.Returned? ==>
            && r2.Returned?
            && r1.status.Success? == r2.status.Success?
            && r1.status.SkipRest? == r2.status.SkipRest?
            && (!r1.status.Success? && !r1.status.SkipRest? ==> r1 == r2))
  {
  }
}
