/**
 Judging a submission. What the judge does not decide itself (the repositories, the executor,
 the sandbox, the compared outputs) is an environment that may be anything.
 */
module Judge {
  import opened Classifier
  import opened Comparator
  import opened FloatComparator
  import opened Options
  import Process
  import opened Sandbox

  datatype SubmissionStatus = Queued | Running | Completed | FailedRetryable

  datatype Verdict =
    | Accepted
    | WrongAnswer
    | TimeLimitExceeded
    | RuntimeError
    | CompilationError
    | OutputLimitExceeded
    | InternalError
    | Pending

  class Submission {
    var status: SubmissionStatus
    var verdict: Verdict
    var passedTestCases: nat
    var totalTestCases: nat
    var completed: bool

    /** A submission as it is stored when it is created. */
    constructor ()
      ensures status.Queued? && verdict.Pending? && passedTestCases == 0 && !completed
    {
      status, verdict, passedTestCases, totalTestCases, completed := Queued, Pending, 0, 0, false;
    }
  }

  /** The problem's comparison mode; Other is any value that no comparator is registered for. */
  datatype ComparisonMode = Exact | NormalizedWhitespace | FloatEpsilon | Other

  /** The comparator that Judge picks: exact unless the mode names another one. */
  predicate OutputsAgree(env: Env, expected: string, actual: string) {
    match env.mode
    case NormalizedWhitespace => Normalize(expected) == Normalize(actual)
    case FloatEpsilon => Agree(env.epsilon, env.parse, expected, actual)
    case _ => expected == actual
  }

  datatype TestCase = TestCase(input: string, expectedOutput: string)

  /** One test: the container does not start, executor.Execute returns an error, or there is a result. */
  datatype RunOutcome = StartFails | ExecuteFails | Ran(res: ExecResult)

  datatype Env = Env(
    submissionFound: bool,
    problemFound: bool,
    testsFound: bool,
    languageKnown: bool,
    sourceValid: bool,
    workspaceWorks: bool,
    compileStarts: bool,
    compile: CompileOutcome,
    tests: seq<TestCase>,
    runs: seq<RunOutcome>,
    mode: ComparisonMode,
    epsilon: real,
    parse: Parser)

  predicate EnvOk(env: Env) {
    |env.runs| == |env.tests|
  }

  /** Everything up to the compilation works. */
  predicate Prepared(env: Env) {
    env.problemFound && env.testsFound && env.languageKnown && env.sourceValid && env.workspaceWorks
      && env.compileStarts
  }

  /** The compilation is let through to the tests. */
  predicate CompilePasses(compile: CompileOutcome) {
    !compile.CompileFails? && (compile.Compiled? ==> compile.res.error.None? && compile.res.exitCode == 0)
  }

  predicate ReachesTests(env: Env) {
    Prepared(env) && CompilePasses(env.compile)
  }

  /** Test i runs cleanly and its output compares equal. */
  predicate Passes(env: Env, i: nat)
    requires EnvOk(env) && i < |env.tests|
  {
    env.runs[i].Ran? && JudgeClean(env.runs[i].res)
      && OutputsAgree(env, env.tests[i].expectedOutput, env.runs[i].res.stdout)
  }

  /** The index of the first test from i on that does not pass, or the number of tests. */
  function FirstFailure(env: Env, i: nat): (f: nat)
    requires EnvOk(env) && i <= |env.tests|
    ensures i <= f <= |env.tests|
    ensures forall k :: i <= k < f ==> Passes(env, k)
    ensures f < |env.tests| ==> !Passes(env, f)
    decreases |env.tests| - i
  {
    if i < |env.tests| && Passes(env, i) then FirstFailure(env, i + 1) else i
  }

  /** How many tests a judgement starts on. */
  function TestsEntered(env: Env): nat
    requires EnvOk(env)
  {
    if !ReachesTests(env) then 0
    else if FirstFailure(env, 0) < |env.tests| then FirstFailure(env, 0) + 1 else |env.tests|
  }

  /** The verdict once the tests are reached. */
  function TestsVerdict(env: Env): Verdict
    requires EnvOk(env)
  {
    if FirstFailure(env, 0) == |env.tests| then Accepted else FailureVerdict(env.runs[FirstFailure(env, 0)])
  }

  /** Why a test that does not pass fails. */
  function FailureVerdict(run: RunOutcome): Verdict {
    match run
    case StartFails => InternalError
    case ExecuteFails => InternalError
    case Ran(res) =>
      if res.timeout then TimeLimitExceeded
      else if res.outputLimit then OutputLimitExceeded
      else if res.exitCode != 0 || res.error.Some? then RuntimeError
      else WrongAnswer
  }

  /** The verdict when the tests are not reached. */
  function EarlyVerdict(env: Env): Verdict
    requires !ReachesTests(env)
  {
    if !env.problemFound || !env.testsFound || !env.languageKnown then InternalError
    else if !env.sourceValid then CompilationError
    else if !env.workspaceWorks || !env.compileStarts || env.compile.CompileFails? then InternalError
    else CompilationError
  }

  /** The verdict of a judgement. */
  function FinalVerdict(env: Env): Verdict
    requires EnvOk(env)
  {
    if ReachesTests(env) then TestsVerdict(env) else EarlyVerdict(env)
  }

  /**
   A compilation that RunProcess ran is answered with COMPILATION_ERROR exactly if it did not
   succeed and was neither stopped by its timer nor cut off at its output limit without an error
   of its own; the cut-off ones go on to the tests like those that succeed.
   */
  lemma CompilationErrorIff(env: Env)
    requires EnvOk(env) && Prepared(env) && env.compile.Compiled? && Process.Produced(env.compile.res)
    ensures
      var res := env.compile.res;
      FinalVerdict(env).CompilationError? <==>
        !Classify(res).status.Success? && !res.timeout && !(res.outputLimit && res.error.None?)
    ensures ReachesTests(env) <==> !FinalVerdict(env).CompilationError?
  {
    Process.NoErrorIff(env.compile.res);
  }

  /** Both cut-off cases occur, and such a compilation is answered as if there had been nothing to compile. */
  lemma CutOffCompilationsAreJudged(env: Env) returns (timedOut: ExecResult, cutOff: ExecResult)
    requires EnvOk(env) && Prepared(env)
    ensures Process.Produced(timedOut) && Classify(timedOut).status.TimeLimitExceeded?
    ensures Process.Produced(cutOff) && Classify(cutOff).status.OutputLimitExceeded?
    ensures FinalVerdict(env.(compile := Compiled(timedOut))) == FinalVerdict(env.(compile := NothingToCompile))
    ensures FinalVerdict(env.(compile := Compiled(cutOff))) == FinalVerdict(env.(compile := NothingToCompile))
  {
    timedOut := Process.TimedOutResult();
    cutOff := Process.CutOffResult();
    SameTests(env, Compiled(timedOut));
    SameTests(env, Compiled(cutOff));
  }

  /** What the tests say depends on the compilation only through whether they are reached. */
  lemma SameTests(env: Env, compile: CompileOutcome)
    requires EnvOk(env)
    ensures FirstFailure(env.(compile := compile), 0) == FirstFailure(env.(compile := NothingToCompile), 0)
  {
    SameFirstFailure(env.(compile := compile), env.(compile := NothingToCompile), 0);
  }

  lemma {:induction false} SameFirstFailure(a: Env, b: Env, i: nat)
    requires EnvOk(a) && EnvOk(b) && a.(compile := b.compile) == b && i <= |a.tests|
    ensures FirstFailure(a, i) == FirstFailure(b, i)
    decreases |a.tests| - i
  {
    if i < |a.tests| {
      SameFirstFailure(a, b, i + 1);
    }
  }

  // ----- The engine -----

  /** The test loop: a fresh container per test, and a stop at the first failure. */
  method RunTests(sub: Submission, sandbox: Runtime, env: Env) returns (failed: bool)
    requires EnvOk(env) && sandbox.Valid()
    modifies sub`passedTestCases, sub`verdict, sandbox
    ensures sandbox.Valid() && sandbox.live == old(sandbox.live)
    ensures sub.passedTestCases == old(sub.passedTestCases) + FirstFailure(env, 0)
    ensures sub.verdict == TestsVerdict(env)
    ensures sandbox.Started() <= old(sandbox.Started()) +
      if FirstFailure(env, 0) < |env.tests| then FirstFailure(env, 0) + 1 else |env.tests|
    ensures sandbox.peak <= if old(sandbox.peak) > |old(sandbox.live)| + 1 then old(sandbox.peak)
        else |old(sandbox.live)| + 1
    ensures failed <==> sub.verdict.InternalError?
  {
    for i := 0 to |env.tests|
      invariant sandbox.Valid() && sandbox.live == old(sandbox.live)
      invariant FirstFailure(env, i) == FirstFailure(env, 0)
      invariant sub.passedTestCases == old(sub.passedTestCases) + i
      invariant sandbox.Started() == old(sandbox.Started()) + i
      invariant sandbox.peak <= if old(sandbox.peak) > |old(sandbox.live)| + 1 then old(sandbox.peak)
          else |old(sandbox.live)| + 1
    {
      var container := sandbox.StartContainer(!env.runs[i].StartFails?);
      if container.None? {
        sub.verdict := InternalError;
        return true;
      }
      sandbox.DestroyContainer(container.value);
      if env.runs[i].ExecuteFails? {
        sub.verdict := InternalError;
        return true;
      }
      var res := env.runs[i].res;
      if res.timeout {
        sub.verdict := TimeLimitExceeded;
        return false;
      }
      if res.outputLimit {
        sub.verdict := OutputLimitExceeded;
        return false;
      }
      if res.exitCode != 0 || res.error.Some? {
        sub.verdict := RuntimeError;
        return false;
      }
      if !OutputsAgree(env, env.tests[i].expectedOutput, res.stdout) {
        sub.verdict := WrongAnswer;
        return false;
      }
      sub.passedTestCases := sub.passedTestCases + 1;
    }
    sub.verdict := Accepted;
    failed := false;
  }

  /** From the fetched submission to its verdict; the compile container lives until the end. */
  method JudgeFetched(sub: Submission, sandbox: Runtime, env: Env) returns (failed: bool)
    requires EnvOk(env) && sandbox.Valid()
    modifies sub`passedTestCases, sub`verdict, sub`totalTestCases, sandbox
    ensures sandbox.Valid() && sandbox.live == old(sandbox.live)
    ensures sandbox.peak <= if old(sandbox.peak) > |old(sandbox.live)| + 2 then old(sandbox.peak)
        else |old(sandbox.live)| + 2
    ensures !ReachesTests(env) ==>
      sub.verdict == EarlyVerdict(env) && sub.passedTestCases == old(sub.passedTestCases)
    ensures ReachesTests(env) ==>
      && sub.passedTestCases == old(sub.passedTestCases) + FirstFailure(env, 0)
      && sub.verdict == TestsVerdict(env) && sub.totalTestCases == |env.tests|
    ensures sandbox.Started() <= old(sandbox.Started()) + 1 + TestsEntered(env)
    ensures failed <==> sub.verdict.InternalError?
  {
    if !env.problemFound {
      sub.verdict := InternalError;
      return true;
    }
    if !env.testsFound {
      sub.verdict := InternalError;
      return true;
    }
    sub.totalTestCases := |env.tests|;
    if !env.languageKnown {
      sub.verdict := InternalError;
      return true;
    }
    if !env.sourceValid {
      sub.verdict := CompilationError;
      return false;
    }
    if !env.workspaceWorks {
      sub.verdict := InternalError;
      return true;
    }
    var container := sandbox.StartContainer(env.compileStarts);
    if container.None? {
      sub.verdict := InternalError;
      return true;
    }
    if env.compile.CompileFails? {
      sub.verdict := InternalError;
      failed := true;
    } else if env.compile.Compiled? && (env.compile.res.error.Some? || env.compile.res.exitCode != 0) {
      sub.verdict := CompilationError;
      failed := false;
    } else {
      failed := RunTests(sub, sandbox, env);
    }
    sandbox.DestroyContainer(container.value);
  }

  /**
   Judge a submission. Unless it cannot be fetched, it ends COMPLETED with a verdict: ACCEPTED iff
   every test passes, else that of the first failure. The number of passed tests grows by the
   index of the first failure, so it is that index for a submission judged for the first time.
   Every container started is destroyed, at most two live at once, and a judgement that enters
   k tests starts at most k + 1 of them.
   */
  method Judge(sub: Submission, sandbox: Runtime, env: Env) returns (failed: bool)
    requires EnvOk(env) && sandbox.Valid()
    modifies sub, sandbox
    ensures !env.submissionFound ==> failed && unchanged(sub) && unchanged(sandbox)
    ensures env.submissionFound ==> sub.status.Completed? && sub.completed && !sub.verdict.Pending?
    ensures env.submissionFound ==> (failed <==> sub.verdict.InternalError?)
    ensures env.submissionFound ==>
      (sub.verdict.Accepted? <==> ReachesTests(env) && forall i :: 0 <= i < |env.tests| ==> Passes(env, i))
    ensures env.submissionFound ==> sub.verdict == FinalVerdict(env)
    ensures env.submissionFound && !ReachesTests(env) ==>
      sub.verdict == EarlyVerdict(env) && sub.passedTestCases == old(sub.passedTestCases)
    ensures env.submissionFound && ReachesTests(env) ==>
      var first := sub.passedTestCases - old(sub.passedTestCases);
      && 0 <= first <= |env.tests| == sub.totalTestCases
      && (forall i :: 0 <= i < first ==> Passes(env, i))
      && (first < |env.tests| ==> !Passes(env, first) && sub.verdict == FailureVerdict(env.runs[first]))
    ensures sandbox.Valid() && sandbox.live == old(sandbox.live)
    ensures sandbox.peak <= if old(sandbox.peak) > |old(sandbox.live)| + 2 then old(sandbox.peak)
        else |old(sandbox.live)| + 2
    ensures sandbox.Started() <= old(sandbox.Started()) + 1 + TestsEntered(env)
  {
    if !env.submissionFound {
      return true;
    }
    sub.status := Running;
    failed := JudgeFetched(sub, sandbox, env);
    sub.completed := true;
    if sub.status.Running? {
      sub.status := Completed;
    }
  }
}
