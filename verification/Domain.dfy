/** The result types shared by the executor, the classifier and the job table. */
module Domain {

  datatype ExecutionStatus =
    | Success
    | CompilationError
    | CompilationTimeout
    | RuntimeError
    | TimeLimitExceeded
    | MemoryLimitExceeded
    | OutputLimitExceeded
    | InternalError

  datatype ExecutionResult = ExecutionResult(status: ExecutionStatus, stdout: string, stderr: string, exitCode: int)
}
