/** Running one request: validate, start a container, compile, execute, classify. */
module ExecutionService {
  import opened Classifier
  import opened Domain
  import opened BoundedOutput
  import opened Options
  import Process
  import opened Sandbox

  /** Execute: an error, or a raw result. */
  datatype RunOutcome = ExecuteFails | Ran(res: ExecResult)

  datatype Env = Env(
    languageKnown: bool,
    invalid: Option<string>,
    workspaceWorks: bool,
    containerStarts: bool,
    compile: CompileOutcome,
    run: RunOutcome)

  /** The compile phase produced a clean result, or there was nothing to compile. */
  predicate CompilesCleanly(env: Env) {
    env.compile.NothingToCompile? || (env.compile.Compiled? && Classify(env.compile.res).status.Success?)
  }

  predicate ReachesCompile(env: Env) {
    env.languageKnown && env.invalid.None? && env.workspaceWorks && env.containerStarts
  }

  /** The status of a compilation that did not succeed. */
  function CompileStatus(status: ExecutionStatus): ExecutionStatus {
    if status.RuntimeError? then CompilationError else if status.TimeLimitExceeded? then CompilationTimeout else status
  }

  /** What the service answers: None for an error of the platform. */
  function Answer(env: Env): Option<ExecutionResult> {
    if !env.languageKnown then None
    else if env.invalid.Some? then
      Some(ExecutionResult(CompilationError, "", "Validation Error: " + env.invalid.value, 0))
    else if !ReachesCompile(env) || env.compile.CompileFails? then None
    else if !CompilesCleanly(env) then
      var raw := Classify(env.compile.res);
      Some(raw.(status := CompileStatus(raw.status)))
    else if env.run.ExecuteFails? then None
    else Some(Classify(env.run.res))
  }

  /** The result comes from one run of RunProcess. */
  ghost predicate RanAs(res: ExecResult, o: int, r: int, events: seq<Process.Event>) {
    var s := Process.Play(Process.Start(o, r), events);
    Process.Finished(s) && res == Process.Result(s)
  }

  /**
   If nobody cancels the run from outside, the service answers SUCCESS exactly if the request got
   to the run and the program exited with 0 before its timer won, within both limits; and then the
   answer carries everything the program wrote.
   */
  lemma SuccessIsCompleteOutput(env: Env, o: nat, r: nat, events: seq<Process.Event>)
    requires env.run.Ran? && RanAs(env.run.res, o, r, events) && Process.ParentCancels !in events
    ensures
      var s := Process.Play(Process.Start(o, r), events);
      && (Answer(env).Some? && Answer(env).value.status.Success? <==>
          ReachesCompile(env) && CompilesCleanly(env) && Process.CompletedWithin(s, o, r))
      && (Answer(env).Some? && Answer(env).value.status.Success? ==>
          Answer(env).value == ExecutionResult(Success, Concat(s.wroteOut), Concat(s.wroteErr), 0))
  {
    Process.SuccessMeansCompleteOutput(o, r, events);
  }

  /**
   A shutdown that cancels the run can be answered with SUCCESS and a part of
   the output, which processRun then stores.
   */
  lemma ShutdownCanTruncateOutput(env: Env) returns (res: ExecResult)
    requires ReachesCompile(env) && CompilesCleanly(env)
    ensures Process.Produced(res)
    ensures Answer(env.(run := Ran(res))) == Some(ExecutionResult(Success, "par", "", 0))
    ensures exists events ::
      && RanAs(res, 10, 10, events) && Process.ParentCancels in events
      && Process.Play(Process.Start(10, 10), events).waited == Some(Some(ExitError(-1)))
  {
    res := Process.KilledResult();
  }

  /** A platform error is returned as an error; everything a program can cause is a result. */
  method Execute(sandbox: Runtime, env: Env) returns (result: Option<ExecutionResult>)
    requires sandbox.Valid()
    modifies sandbox
    ensures sandbox.Valid() && sandbox.live == old(sandbox.live)
    ensures sandbox.peak <= if old(sandbox.peak) > |old(sandbox.live)| + 1 then old(sandbox.peak)
        else |old(sandbox.live)| + 1
    ensures result == Answer(env)
    ensures result.None? <==>
      || !env.languageKnown
      || (env.invalid.None? && (!ReachesCompile(env) || env.compile.CompileFails?
        || (CompilesCleanly(env) && env.run.ExecuteFails?)))
    ensures result.Some? && ReachesCompile(env) && CompilesCleanly(env) ==> result.value == Classify(env.run.res)
    ensures result.Some? && result.value.status.Success? <==>
      ReachesCompile(env) && CompilesCleanly(env) && env.run.Ran? && Classify(env.run.res).status.Success?
    ensures result.Some? && result.value.status.CompilationTimeout? <==>
      ReachesCompile(env) && env.compile.Compiled? && Classify(env.compile.res).status.TimeLimitExceeded?
    ensures result.Some? && result.value.status.CompilationError? <==>
      env.languageKnown && (env.invalid.Some? ||
        (ReachesCompile(env) && env.compile.Compiled? && Classify(env.compile.res).status.RuntimeError?))
  {
    if !env.languageKnown {
      return None;
    }
    if env.invalid.Some? {
      return Some(ExecutionResult(CompilationError, "", "Validation Error: " + env.invalid.value, 0));
    }
    if !env.workspaceWorks {
      return None;
    }
    var container := sandbox.StartContainer(env.containerStarts);
    if container.None? {
      return None;
    }
    result := CompileAndRun(env);
    sandbox.DestroyContainer(container.value);
  }

  method CompileAndRun(env: Env) returns (result: Option<ExecutionResult>)
    ensures result.None? <==> env.compile.CompileFails? || (CompilesCleanly(env) && env.run.ExecuteFails?)
    ensures result.Some? && CompilesCleanly(env) ==> result.value == Classify(env.run.res)
    ensures result.Some? && !CompilesCleanly(env) ==>
      var raw := Classify(env.compile.res);
      && !raw.status.Success?
      && result.value == raw.(status :=
           if raw.status.RuntimeError? then CompilationError
           else if raw.status.TimeLimitExceeded? then CompilationTimeout
           else raw.status)
  {
    if env.compile.CompileFails? {
      return None;
    }
    if env.compile.Compiled? {
      var compileResult := Classify(env.compile.res);
      if !compileResult.status.Success? {
        if compileResult.status.RuntimeError? {
          compileResult := compileResult.(status := CompilationError);
        } else if compileResult.status.TimeLimitExceeded? {
          compileResult := compileResult.(status := CompilationTimeout);
        }
        return Some(compileResult);
      }
    }
    if env.run.ExecuteFails? {
      return None;
    }
    result := Some(Classify(env.run.res));
  }
}
