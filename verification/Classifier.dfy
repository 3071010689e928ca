/** Classifying the raw result of one sandboxed command. */
module Classifier {
  import opened Domain
  import opened Options

  /** What cmd.Start or cmd.Wait reports: a process that ended badly, or anything else. */
  datatype ProcessError = ExitError(code: int) | OtherError(message: string)

  /** The result of one command, as process.ProcessResult and sandbox.ExecResult carry it. */
  datatype ExecResult = ExecResult(stdout: string, stderr: string, exitCode: int, timeout: bool, outputLimit: bool,
    error: Option<ProcessError>)

  /** What a language executor's Compile returns: nil, an error, or a result. */
  datatype CompileOutcome = NothingToCompile | CompileFails | Compiled(res: ExecResult)

  predicate Contains(s: string, part: string) {
    part <= s || (s != "" && Contains(s[1..], part))
  }

  function Classify(res: ExecResult): ExecutionResult {
    if res.error.Some? && !res.error.value.ExitError? then
      ExecutionResult(InternalError, "", "Internal Platform Error: " + res.error.value.message, -1)
    else if res.timeout then
      ExecutionResult(TimeLimitExceeded, res.stdout, res.stderr, res.exitCode)
    else if res.outputLimit then
      ExecutionResult(OutputLimitExceeded, res.stdout, res.stderr, res.exitCode)
    else if res.exitCode == 137 then
      ExecutionResult(MemoryLimitExceeded, res.stdout, "Memory Limit Exceeded", 137)
    else if res.exitCode != 0 then
      if Contains(res.stderr, "java.lang.OutOfMemoryError") || Contains(res.stderr, "MemoryError")
        || Contains(res.stderr, "out of memory") then
        ExecutionResult(MemoryLimitExceeded, res.stdout, res.stderr, res.exitCode)
      else
        ExecutionResult(RuntimeError, res.stdout, res.stderr, res.exitCode)
    else
      ExecutionResult(Success, res.stdout, res.stderr, 0)
  }

  /** The test by which Judge lets a run through to the comparison. */
  predicate JudgeClean(res: ExecResult) {
    !res.timeout && !res.outputLimit && res.exitCode == 0 && res.error.None?
  }
}
