/**
 RunProcess as a state machine: the process writes and exits, the timer fires, the parent
 context is cancelled, and the select takes any branch that is ready. A schedule is any
 sequence of such events; an event that cannot happen is skipped.
 */
module Process {
  import opened BoundedOutput
  import opened Classifier
  import opened Domain
  import opened Options

  /** Why the command's context was cancelled; the first reason stays. */
  datatype Cause = OutputLimit | ParentCancelled

  datatype Branch = TimerBranch | DoneBranch | ExitBranch(error: Option<ProcessError>)

  /**
   The two writers and all that was written to them; what cmd.Wait returned; whether the timer
   fired; why the context was cancelled; and the branch that the select took.
   */
  datatype State = State(
    out: Buffer,
    err: Buffer,
    wroteOut: seq<string>,
    wroteErr: seq<string>,
    waited: Option<Option<ProcessError>>,
    timerFired: bool,
    cause: Option<Cause>,
    chosen: Option<Branch>)

  datatype Event =
    | WriteStdout(p: string)
    | WriteStderr(p: string)
    | Exit(error: Option<ProcessError>)
    | TimerFires
    | ParentCancels
    | Select(branch: Branch)

  function Start(stdoutLimit: int, stderrLimit: int): State {
    State(Empty(stdoutLimit), Empty(stderrLimit), [], [], None, false, None, None)
  }

  /** Wait returns after the last write; an ExitError has a code other than 0; a branch must be ready. */
  predicate CanHappen(s: State, e: Event) {
    match e
    case WriteStdout(_) => s.waited.None?
    case WriteStderr(_) => s.waited.None?
    case Exit(error) => s.waited.None? && (error.Some? && error.value.ExitError? ==> error.value.code != 0)
    case TimerFires => true
    case ParentCancels => true
    case Select(branch) => s.chosen.None? && match branch
      case TimerBranch => s.timerFired
      case DoneBranch => s.cause.Some?
      case ExitBranch(error) => s.waited == Some(error)
  }

  function Cancelled(cause: Option<Cause>, why: Cause): Option<Cause> {
    if cause.None? then Some(why) else cause
  }

  function Step(s: State, e: Event): State {
    if !CanHappen(s, e) then s
    else
      match e
      case WriteStdout(p) =>
        var w := Append(s.out, p);
        s.(out := w, wroteOut := s.wroteOut + [p],
          cause := if w.cancels > s.out.cancels then Cancelled(s.cause, OutputLimit) else s.cause)
      case WriteStderr(p) =>
        var w := Append(s.err, p);
        s.(err := w, wroteErr := s.wroteErr + [p],
          cause := if w.cancels > s.err.cancels then Cancelled(s.cause, OutputLimit) else s.cause)
      case Exit(error) => s.(waited := Some(error))
      case TimerFires => s.(timerFired := true)
      case ParentCancels => s.(cause := Cancelled(s.cause, ParentCancelled))
      case Select(branch) => s.(chosen := Some(branch))
  }

  function Play(s: State, events: seq<Event>): State {
    if events == [] then s else Step(Play(s, events[..|events| - 1]), events[|events| - 1])
  }

  /** The select is over, and cmd.Wait has returned. */
  predicate Finished(s: State) {
    s.chosen.Some? && s.waited.Some?
  }

  function ExitCode(error: Option<ProcessError>): int {
    match error
    case None => 0
    case Some(ExitError(code)) => code
    case Some(OtherError(_)) => 1
  }

  function Result(s: State): ExecResult
    requires Finished(s)
  {
    var exitErr := if s.chosen.value.ExitBranch? then s.chosen.value.error else None;
    ExecResult(s.out.buf, s.err.buf, ExitCode(exitErr), s.chosen == Some(TimerBranch),
      s.out.exceeded || s.err.exceeded || s.cause == Some(OutputLimit), exitErr)
  }

  /** cmd.Start failed. */
  function StartFailure(message: string): ExecResult {
    ExecResult("", "", 0, false, false, Some(OtherError(message)))
  }

  /** A result that RunProcess can return. */
  ghost predicate Produced(res: ExecResult) {
    || (exists message :: res == StartFailure(message))
    || (exists o, e, events :: Finished(Play(Start(o, e), events)) && res == Result(Play(Start(o, e), events)))
  }

  // ----- What every schedule keeps -----

  ghost predicate Inv(s: State, stdoutLimit: int, stderrLimit: int) {
    && Holds(s.out, stdoutLimit, Concat(s.wroteOut), s.wroteOut != [])
    && Holds(s.err, stderrLimit, Concat(s.wroteErr), s.wroteErr != [])
    && (s.cause == Some(OutputLimit) ==> s.out.exceeded || s.err.exceeded)
    && (s.out.exceeded || s.err.exceeded ==> s.cause.Some?)
    && (s.waited.Some? && s.waited.value.Some? && s.waited.value.value.ExitError? ==> s.waited.value.value.code != 0)
    && (s.chosen == Some(TimerBranch) ==> s.timerFired)
    && (s.chosen == Some(DoneBranch) ==> s.cause.Some?)
    && (s.chosen.Some? && s.chosen.value.ExitBranch? ==> s.waited == Some(s.chosen.value.error))
  }

  lemma WriteKeepsHolds(w: Buffer, wrote: seq<string>, limit: int, p: string)
    requires Holds(w, limit, Concat(wrote), wrote != [])
    ensures Holds(Append(w, p), limit, Concat(wrote + [p]), wrote + [p] != [])
    ensures w.exceeded ==> Append(w, p).exceeded
    ensures Append(w, p).cancels > w.cancels <==> Append(w, p).exceeded && !w.exceeded
  {
    AppendHolds(w, limit, Concat(wrote), wrote != [], p);
    AppendCancels(w, p);
    assert (wrote + [p])[..|wrote|] == wrote;
  }

  lemma StdoutKeepsInv(s: State, p: string, o: int, r: int)
    requires Inv(s, o, r)
    ensures Inv(Step(s, WriteStdout(p)), o, r)
  {
    WriteKeepsHolds(s.out, s.wroteOut, o, p);
  }

  lemma StderrKeepsInv(s: State, p: string, o: int, r: int)
    requires Inv(s, o, r)
    ensures Inv(Step(s, WriteStderr(p)), o, r)
  {
    WriteKeepsHolds(s.err, s.wroteErr, r, p);
  }

  lemma ControlKeepsInv(s: State, e: Event, o: int, r: int)
    requires Inv(s, o, r) && !e.WriteStdout? && !e.WriteStderr?
    ensures Inv(Step(s, e), o, r)
  {
    var t := Step(s, e);
    assert t.out == s.out && t.err == s.err && t.wroteOut == s.wroteOut && t.wroteErr == s.wroteErr;
    match e
    case Exit(_) => assert t.cause == s.cause && t.chosen == s.chosen;
    case TimerFires => assert t.cause == s.cause && t.chosen == s.chosen && t.waited == s.waited;
    case ParentCancels => assert t.chosen == s.chosen && t.waited == s.waited;
    case Select(_) => assert t.cause == s.cause && t.waited == s.waited && t.timerFired == s.timerFired;
  }

  lemma StepKeepsInv(s: State, e: Event, o: int, r: int)
    requires Inv(s, o, r)
    ensures Inv(Step(s, e), o, r)
  {
    match e
    case WriteStdout(p) => StdoutKeepsInv(s, p, o, r);
    case WriteStderr(p) => StderrKeepsInv(s, p, o, r);
    case _ => ControlKeepsInv(s, e, o, r);
  }

  lemma {:induction false} PlayInv(o: int, r: int, events: seq<Event>)
    ensures Inv(Play(Start(o, r), events), o, r)
  {
    if events != [] {
      PlayInv(o, r, events[..|events| - 1]);
      StepKeepsInv(Play(Start(o, r), events[..|events| - 1]), events[|events| - 1], o, r);
    }
  }

  /** The context is cancelled for the output limit only if a writer really exceeded its limit. */
  lemma {:induction false} CauseImpliesExceeded(o: int, r: int, events: seq<Event>)
    ensures
      var s := Play(Start(o, r), events);
      s.cause == Some(OutputLimit) ==> s.out.exceeded || s.err.exceeded
  {
    PlayInv(o, r, events);
  }

  lemma {:induction false} ParentCauseNeedsCancel(o: int, r: int, events: seq<Event>)
    requires ParentCancels !in events
    ensures Play(Start(o, r), events).cause != Some(ParentCancelled)
  {
    if events != [] {
      ParentCauseNeedsCancel(o, r, events[..|events| - 1]);
      assert events[|events| - 1] in events;
    }
  }

  lemma SuccessOf(s: State, o: int, r: int)
    requires Inv(s, o, r) && Finished(s)
    ensures Classify(Result(s)).status.Success? <==>
      && !s.out.exceeded && !s.err.exceeded
      && (s.chosen == Some(ExitBranch(None)) || (s.chosen == Some(DoneBranch) && s.cause == Some(ParentCancelled)))
  {
    match s.chosen.value
    case TimerBranch =>
    case DoneBranch => assert s.cause.value == OutputLimit || s.cause.value == ParentCancelled;
    case ExitBranch(None) =>
    case ExitBranch(Some(ExitError(code))) => assert code != 0;
    case ExitBranch(Some(OtherError(_))) =>
  }

  /**
   SUCCESS is reported exactly for a clean exit within the limits, or when the parent's cancellation won the
   select.
   */
  lemma SuccessIff(o: int, r: int, events: seq<Event>)
    requires Finished(Play(Start(o, r), events))
    ensures
      var s := Play(Start(o, r), events);
      Classify(Result(s)).status.Success? <==>
        && !s.out.exceeded && !s.err.exceeded
        && (s.chosen == Some(ExitBranch(None)) || (s.chosen == Some(DoneBranch) && s.cause == Some(ParentCancelled)))
  {
    PlayInv(o, r, events);
    SuccessOf(Play(Start(o, r), events), o, r);
  }

  /** Every way a started command can end, and the status it is classified as. */
  lemma StatusTable(o: int, r: int, events: seq<Event>)
    requires Finished(Play(Start(o, r), events))
    ensures
      var s := Play(Start(o, r), events);
      var status := Classify(Result(s)).status;
      var exceeded := s.out.exceeded || s.err.exceeded;
      var platformError := s.chosen.value.ExitBranch? && s.chosen.value.error.Some?
        && s.chosen.value.error.value.OtherError?;
      var badExit := s.chosen.value.ExitBranch? && s.chosen.value.error.Some? && s.chosen.value.error.value.ExitError?;
      && (status.TimeLimitExceeded? <==> s.chosen == Some(TimerBranch))
      && (status.OutputLimitExceeded? <==> s.chosen != Some(TimerBranch) && !platformError && exceeded)
      && (status.InternalError? <==> platformError)
      && (status.RuntimeError? || status.MemoryLimitExceeded? <==> badExit && !exceeded)
  {
    PlayInv(o, r, events);
    StatusOf(Play(Start(o, r), events), o, r);
  }

  lemma StatusOf(s: State, o: int, r: int)
    requires Inv(s, o, r) && Finished(s)
    ensures
      var status := Classify(Result(s)).status;
      match s.chosen.value
      case TimerBranch => status.TimeLimitExceeded?
      case DoneBranch => if s.out.exceeded || s.err.exceeded then status.OutputLimitExceeded? else status.Success?
      case ExitBranch(None) => if s.out.exceeded || s.err.exceeded then status.OutputLimitExceeded? else status.Success?
      case ExitBranch(Some(OtherError(_))) => status.InternalError?
      case ExitBranch(Some(ExitError(_))) =>
        if s.out.exceeded || s.err.exceeded then status.OutputLimitExceeded?
        else status.RuntimeError? || status.MemoryLimitExceeded?
  {
  }

  /** The process exited with 0, its exit won the select, and all that it wrote fits the limits. */
  predicate CompletedWithin(s: State, o: int, r: int) {
    s.chosen == Some(ExitBranch(None)) && |Concat(s.wroteOut)| <= o && |Concat(s.wroteErr)| <= r
  }

  /**
   Without a cancellation by the parent, SUCCESS means that the process exited with 0 before the
   timer won, within both limits, and that the result carries everything it wrote; and only then.
   */
  lemma SuccessMeansCompleteOutput(o: nat, r: nat, events: seq<Event>)
    requires ParentCancels !in events && Finished(Play(Start(o, r), events))
    ensures
      var s := Play(Start(o, r), events);
      Classify(Result(s)).status.Success? <==> CompletedWithin(s, o, r)
    ensures
      var s := Play(Start(o, r), events);
      Classify(Result(s)).status.Success? ==>
        && s.waited == Some(None)
        && Classify(Result(s)).stdout == Concat(s.wroteOut) && Classify(Result(s)).stderr == Concat(s.wroteErr)
  {
    PlayInv(o, r, events);
    ParentCauseNeedsCancel(o, r, events);
    SuccessOf(Play(Start(o, r), events), o, r);
  }

  /** A run that the parent's cancellation killed can still be reported as SUCCESS. */
  lemma CancelledRunCanSucceed()
    ensures
      var killed := [WriteStdout("part"), ParentCancels, Exit(Some(ExitError(-1))), Select(DoneBranch)];
      var s := Play(Start(10, 10), killed);
      && Finished(s) && s.waited == Some(Some(ExitError(-1)))
      && Classify(Result(s)) == ExecutionResult(Success, "part", "", 0)
  {
    var e := [WriteStdout("part"), ParentCancels, Exit(Some(ExitError(-1))), Select(DoneBranch)];
    assert e[..3][..2] == e[..2] && e[..2][..1] == e[..1] && e[..1][..0] == [];
    var s1 := Step(Start(10, 10), e[0]);
    assert Play(Start(10, 10), e[..1]) == s1;
    assert Play(Start(10, 10), e[..2]) == Step(s1, e[1]);
    assert Play(Start(10, 10), e[..3]) == Step(Step(s1, e[1]), e[2]);
  }

  /** On every result RunProcess can return, Judge's test for a clean run agrees with the classifier. */
  lemma JudgeAgreesWithClassifier(res: ExecResult)
    requires Produced(res)
    ensures JudgeClean(res) <==> Classify(res).status.Success?
  {
    if !exists message :: res == StartFailure(message) {
      var o, e, events :| Finished(Play(Start(o, e), events)) && res == Result(Play(Start(o, e), events));
      PlayInv(o, e, events);
    }
  }

  /**
   Judge and the classifier see the same timeouts. They differ on the output limit in one case:
   where waiting failed on the platform's side, the classifier reports that instead.
   */
  lemma JudgeLimitsAgree(res: ExecResult)
    requires Produced(res)
    ensures res.timeout <==> Classify(res).status.TimeLimitExceeded?
    ensures !res.timeout && res.outputLimit <==>
      Classify(res).status.OutputLimitExceeded? || (Classify(res).status.InternalError? && res.outputLimit)
  {
    if !exists message :: res == StartFailure(message) {
      var o, e, events :| Finished(Play(Start(o, e), events)) && res == Result(Play(Start(o, e), events));
      PlayInv(o, e, events);
    }
  }

  /**
   No error and exit code 0, which is all that Judge asks of a compilation, does not mean success:
   it also holds of every command that its timer stopped, and of one that exceeded an output limit
   unless its own exit won the select with an error.
   */
  lemma NoErrorIff(res: ExecResult)
    requires Produced(res)
    ensures res.error.None? && res.exitCode == 0 <==>
      Classify(res).status.Success? || res.timeout || (res.outputLimit && res.error.None?)
  {
    if !exists message :: res == StartFailure(message) {
      var o, e, events :| Finished(Play(Start(o, e), events)) && res == Result(Play(Start(o, e), events));
      PlayInv(o, e, events);
    }
  }

  /** The same by what happened: the exit won with an error exactly when the result shows one. */
  lemma NoErrorByBranch(o: int, r: int, events: seq<Event>)
    requires Finished(Play(Start(o, r), events))
    ensures
      var s := Play(Start(o, r), events);
      Result(s).error.None? && Result(s).exitCode == 0 <==>
        s.chosen in {Some(TimerBranch), Some(DoneBranch), Some(ExitBranch(None))}
  {
    PlayInv(o, r, events);
  }

  lemma PlayFour(s: State, a: Event, b: Event, c: Event, d: Event)
    ensures Play(s, [a, b, c, d]) == Step(Step(Step(Step(s, a), b), c), d)
  {
    PlayThree(s, a, b, c);
    assert [a, b, c, d][..3] == [a, b, c];
  }

  /** A command that was killed because the parent's context was cancelled. */
  lemma KilledResult() returns (res: ExecResult)
    ensures res == ExecResult("par", "", 0, false, false, None) && Produced(res)
    ensures exists events ::
      && Finished(Play(Start(10, 10), events)) && res == Result(Play(Start(10, 10), events)) && ParentCancels in events
      && Play(Start(10, 10), events).waited == Some(Some(ExitError(-1)))
  {
    var events := [WriteStdout("par"), ParentCancels, Exit(Some(ExitError(-1))), Select(DoneBranch)];
    PlayFour(Start(10, 10), events[0], events[1], events[2], events[3]);
    assert ParentCancels == events[1];
    res := Result(Play(Start(10, 10), events));
  }

  lemma PlayThree(s: State, a: Event, b: Event, c: Event)
    ensures Play(s, [a, b, c]) == Step(Step(Step(s, a), b), c)
  {
    assert [a, b, c][..2] == [a, b] && [a, b][..1] == [a] && [a][..0] == [];
    assert Play(s, [a]) == Step(s, a);
    assert Play(s, [a, b]) == Step(Step(s, a), b);
  }

  /** A killed command whose timer won the select. */
  lemma TimedOutResult() returns (res: ExecResult)
    ensures res == ExecResult("", "", 0, true, false, None) && Produced(res)
  {
    var events := [TimerFires, Exit(Some(ExitError(-1))), Select(TimerBranch)];
    PlayThree(Start(1, 1), events[0], events[1], events[2]);
    res := Result(Play(Start(1, 1), events));
  }

  /** A killed command whose output passed the limit. */
  lemma CutOffResult() returns (res: ExecResult)
    ensures res == ExecResult("a", "", 0, false, true, None) && Produced(res)
  {
    var events := [WriteStdout("abc"), Exit(Some(ExitError(-1))), Select(DoneBranch)];
    PlayThree(Start(1, 1), events[0], events[1], events[2]);
    res := Result(Play(Start(1, 1), events));
  }

  // ----- The program -----

  /** The variables of one RunProcess call. */
  class Runner {
    const outWriter: BoundedWriter
    const errWriter: BoundedWriter
    var errChan: Option<Option<ProcessError>>
    var timerFired: bool
    var cause: Option<Cause>
    var chosen: Option<Branch>
    ghost var wroteOut: seq<string>
    ghost var wroteErr: seq<string>

    ghost predicate Valid() {
      outWriter != errWriter
    }

    ghost function Abstract(): State
      reads this, outWriter, errWriter
    {
      State(outWriter.State(), errWriter.State(), wroteOut, wroteErr, errChan, timerFired, cause, chosen)
    }

    constructor (stdoutLimit: int, stderrLimit: int)
      ensures Valid() && fresh(outWriter) && fresh(errWriter) && Abstract() == Start(stdoutLimit, stderrLimit)
    {
      outWriter := new BoundedWriter(stdoutLimit);
      errWriter := new BoundedWriter(stderrLimit);
      errChan, timerFired, cause, chosen, wroteOut, wroteErr := None, false, None, None, [], [];
    }

    method Cancel(why: Cause)
      modifies this`cause
      ensures cause == Cancelled(old(cause), why)
    {
      if cause.None? {
        cause := Some(why);
      }
    }

    method Stdout(p: string)
      requires Valid()
      modifies this, outWriter
      ensures Abstract() == Step(old(Abstract()), WriteStdout(p))
    {
      if errChan.None? {
        var before := outWriter.cancels;
        var _ := outWriter.Write(p);
        wroteOut := wroteOut + [p];
        if outWriter.cancels > before {
          Cancel(OutputLimit);
        }
      }
    }

    method Stderr(p: string)
      requires Valid()
      modifies this, errWriter
      ensures Abstract() == Step(old(Abstract()), WriteStderr(p))
    {
      if errChan.None? {
        var before := errWriter.cancels;
        var _ := errWriter.Write(p);
        wroteErr := wroteErr + [p];
        if errWriter.cancels > before {
          Cancel(OutputLimit);
        }
      }
    }

    method Choose(branch: Branch)
      modifies this`chosen
      ensures Abstract() == Step(old(Abstract()), Select(branch))
    {
      if chosen.None? {
        match branch {
          case TimerBranch =>
            if timerFired {
              chosen := Some(branch);
            }
          case DoneBranch =>
            if cause.Some? {
              chosen := Some(branch);
            }
          case ExitBranch(error) =>
            if errChan == Some(error) {
              chosen := Some(branch);
            }
        }
      }
    }

    method Handle(e: Event)
      requires Valid()
      modifies this, outWriter, errWriter
      ensures Abstract() == Step(old(Abstract()), e)
    {
      match e {
        case WriteStdout(p) => Stdout(p);
        case WriteStderr(p) => Stderr(p);
        case Exit(error) =>
          if errChan.None? && (error.None? || error.value.OtherError? || error.value.code != 0) {
            errChan := Some(error);
          }
        case TimerFires => timerFired := true;
        case ParentCancels => Cancel(ParentCancelled);
        case Select(branch) => Choose(branch);
      }
    }

    /** From the end of the select on. */
    method Finish() returns (res: ExecResult)
      requires Finished(Abstract())
      ensures res == Result(Abstract())
    {
      var timeoutExceeded := chosen.value.TimerBranch?;
      var exitErr := if chosen.value.ExitBranch? then chosen.value.error else None;
      var outputLimitExceeded := outWriter.exceeded || errWriter.exceeded;
      if cause == Some(OutputLimit) {
        outputLimitExceeded := true;
      }
      var exitCode := 0;
      if exitErr.Some? {
        exitCode := 1;
        if exitErr.value.ExitError? {
          exitCode := exitErr.value.code;
        }
      }
      res := ExecResult(outWriter.buf, errWriter.buf, exitCode, timeoutExceeded, outputLimitExceeded, exitErr);
    }
  }

  /** RunProcess under a schedule; None if the schedule ends before the process does. */
  method RunProcess(stdoutLimit: int, stderrLimit: int, schedule: seq<Event>) returns (res: Option<ExecResult>)
    ensures
      var s := Play(Start(stdoutLimit, stderrLimit), schedule);
      res == if Finished(s) then Some(Result(s)) else None
  {
    var run := new Runner(stdoutLimit, stderrLimit);
    for i := 0 to |schedule|
      invariant fresh(run) && fresh(run.outWriter) && fresh(run.errWriter) && run.Valid()
      invariant run.Abstract() == Play(Start(stdoutLimit, stderrLimit), schedule[..i])
    {
      assert schedule[..i + 1][..i] == schedule[..i];
      run.Handle(schedule[i]);
    }
    assert schedule[..|schedule|] == schedule;
    if run.chosen.None? || run.errChan.None? {
      return None;
    }
    var r := run.Finish();
    res := Some(r);
  }
}
