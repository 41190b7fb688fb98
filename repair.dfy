/** The generate-build-repair loop shared by `run_agent` (agent.py) and the
    `/generate` handler (app.py), as a specification: which generate and
    build calls a session makes, what each receives, and how it ends. */
module Repair {
  import opened Options
  import opened Zener

  /** One attempt: the datasheet text and the `errors` value handed to
      `generate_zener`, the code it answered with, and the outcome of
      `build_zener_code` on that code. Each attempt is exactly one generate
      call followed by one build call. */
  datatype Attempt = Attempt(datasheet: string, errors: Option<string>, code: string, build: BuildOutcome)

  /** The attempt made as call number k with the given inputs. */
  function Step(gen: Generator, pcb: Toolchain, datasheet: string, errors: Option<string>, k: nat): Attempt
  {
    var code := GenerateZener(gen, k, datasheet, errors);
    Attempt(datasheet, errors, code, BuildZenerCode(pcb, k, code))
  }

  /** How many attempts `range(1, limit + 1)` allows. */
  function Bound(limit: int): (n: nat)
    ensures limit >= 0 ==> n == limit
    ensures limit <= 0 ==> n == 0
  {
    if limit < 0 then 0 else limit
  }

  /** The attempts a session makes when its next call is number k, at most
      `remaining` attempts are left and `errors` was carried in: one
      attempt, then, unless its build succeeded, the rest of the session
      with that build's stderr as the new `errors`. */
  function Run(gen: Generator, pcb: Toolchain, datasheet: string, errors: Option<string>, k: nat, remaining: nat)
    : (attempts: seq<Attempt>)
    ensures |attempts| <= remaining
    ensures remaining > 0 ==> |attempts| > 0
    decreases remaining
  {
    if remaining == 0 then []
    else
      var a := Step(gen, pcb, datasheet, errors, k);
      if a.build.success then [a]
      else [a] + Run(gen, pcb, datasheet, Some(a.build.stderr), k + 1, remaining - 1)
  }

  /** Each attempt is one generate call and one build call, on the
      datasheet and the `errors` it records, as call number k + i. */
  ghost predicate StepsMade(gen: Generator, pcb: Toolchain, datasheet: string, k: nat, attempts: seq<Attempt>)
  {
    forall i :: 0 <= i < |attempts| ==> attempts[i] == Step(gen, pcb, datasheet, attempts[i].errors, k + i)
  }

  /** The first attempt gets the `errors` carried in, and every later one
      the stderr of the attempt just before it. */
  ghost predicate Threaded(errors: Option<string>, attempts: seq<Attempt>)
  {
    && (|attempts| > 0 ==> attempts[0].errors == errors)
    && (forall i :: 0 < i < |attempts| ==> attempts[i].errors == Some(attempts[i - 1].build.stderr))
  }

  /** At most `remaining` attempts; only the last may succeed, and the
      session stops early only on a success. */
  ghost predicate StopsAtFirstSuccess(remaining: nat, attempts: seq<Attempt>)
  {
    && |attempts| <= remaining
    && (forall i :: 0 <= i < |attempts| - 1 ==> !attempts[i].build.success)
    && (|attempts| < remaining ==> |attempts| > 0 && attempts[|attempts| - 1].build.success)
  }

  /** What a session's attempts look like, stated attempt by attempt. */
  ghost predicate IsRun(gen: Generator, pcb: Toolchain, datasheet: string, errors: Option<string>, k: nat, remaining: nat,
                        attempts: seq<Attempt>)
  {
    StepsMade(gen, pcb, datasheet, k, attempts) && Threaded(errors, attempts) && StopsAtFirstSuccess(remaining, attempts)
  }

  /** The `errors` value a loop holds after the attempts so far: `None`
      before the first, then the stderr of the latest build. */
  function LastErrors(attempts: seq<Attempt>): Option<string>
  {
    if attempts == [] then None else Some(attempts[|attempts| - 1].build.stderr)
  }

  /** The loop state before each attempt: the attempts so far were made
      from call 0 on, each on the datasheet and the errors of the one
      before, and none of their builds succeeded. */
  ghost predicate FailedSoFar(gen: Generator, pcb: Toolchain, datasheet: string, attempts: seq<Attempt>)
  {
    && StepsMade(gen, pcb, datasheet, 0, attempts)
    && Threaded(None, attempts)
    && forall i :: 0 <= i < |attempts| ==> !attempts[i].build.success
  }

  lemma ExtendMade(gen: Generator, pcb: Toolchain, datasheet: string, attempts: seq<Attempt>, a: Attempt)
    requires FailedSoFar(gen, pcb, datasheet, attempts)
    requires a == Step(gen, pcb, datasheet, LastErrors(attempts), |attempts|)
    ensures StepsMade(gen, pcb, datasheet, 0, attempts + [a]) && Threaded(None, attempts + [a])
    ensures forall i :: 0 <= i < |attempts| ==> !(attempts + [a])[i].build.success
  {
  }

  /** A failed attempt keeps the loop state. */
  lemma AfterFailure(gen: Generator, pcb: Toolchain, datasheet: string, attempts: seq<Attempt>, a: Attempt)
    requires FailedSoFar(gen, pcb, datasheet, attempts)
    requires a == Step(gen, pcb, datasheet, LastErrors(attempts), |attempts|)
    requires !a.build.success
    ensures FailedSoFar(gen, pcb, datasheet, attempts + [a])
  {
    ExtendMade(gen, pcb, datasheet, attempts, a);
  }

  /** A successful attempt within the budget ends the session: the loop
      has made exactly the session's attempts. */
  lemma AfterSuccess(gen: Generator, pcb: Toolchain, datasheet: string, n: nat, attempts: seq<Attempt>, a: Attempt)
    requires FailedSoFar(gen, pcb, datasheet, attempts)
    requires a == Step(gen, pcb, datasheet, LastErrors(attempts), |attempts|)
    requires a.build.success && |attempts| < n
    ensures attempts + [a] == Run(gen, pcb, datasheet, None, 0, n)
  {
    ExtendMade(gen, pcb, datasheet, attempts, a);
    IsRunIsRun(gen, pcb, datasheet, None, 0, n, attempts + [a]);
  }

  /** With the budget used up and no success, the loop has made exactly
      the session's attempts. */
  lemma Exhausted(gen: Generator, pcb: Toolchain, datasheet: string, n: nat, attempts: seq<Attempt>)
    requires FailedSoFar(gen, pcb, datasheet, attempts)
    requires |attempts| == n
    ensures attempts == Run(gen, pcb, datasheet, None, 0, n)
  {
    IsRunIsRun(gen, pcb, datasheet, None, 0, n, attempts);
  }

  lemma {:induction false} RunStepsMade(gen: Generator, pcb: Toolchain, datasheet: string, errors: Option<string>,
                                        k: nat, remaining: nat)
    ensures StepsMade(gen, pcb, datasheet, k, Run(gen, pcb, datasheet, errors, k, remaining))
    decreases remaining
  {
    if remaining > 0 {
      var a := Step(gen, pcb, datasheet, errors, k);
      if !a.build.success {
        var rest := Run(gen, pcb, datasheet, Some(a.build.stderr), k + 1, remaining - 1);
        RunStepsMade(gen, pcb, datasheet, Some(a.build.stderr), k + 1, remaining - 1);
        var attempts := [a] + rest;
        forall i | 0 < i < |attempts|
          ensures attempts[i] == Step(gen, pcb, datasheet, attempts[i].errors, k + i)
        {
          assert attempts[i] == rest[i - 1];
        }
      }
    }
  }

  lemma {:induction false} RunThreaded(gen: Generator, pcb: Toolchain, datasheet: string, errors: Option<string>,
                                       k: nat, remaining: nat)
    ensures Threaded(errors, Run(gen, pcb, datasheet, errors, k, remaining))
    decreases remaining
  {
    if remaining > 0 {
      var a := Step(gen, pcb, datasheet, errors, k);
      if !a.build.success {
        var rest := Run(gen, pcb, datasheet, Some(a.build.stderr), k + 1, remaining - 1);
        RunThreaded(gen, pcb, datasheet, Some(a.build.stderr), k + 1, remaining - 1);
        var attempts := [a] + rest;
        forall i | 0 < i < |attempts|
          ensures attempts[i].errors == Some(attempts[i - 1].build.stderr)
        {
          assert attempts[i] == rest[i - 1];
          if i > 1 { assert attempts[i - 1] == rest[i - 2]; }
        }
      }
    }
  }

  lemma {:induction false} RunStops(gen: Generator, pcb: Toolchain, datasheet: string, errors: Option<string>,
                                    k: nat, remaining: nat)
    ensures StopsAtFirstSuccess(remaining, Run(gen, pcb, datasheet, errors, k, remaining))
    decreases remaining
  {
    if remaining > 0 {
      var a := Step(gen, pcb, datasheet, errors, k);
      if !a.build.success {
        var rest := Run(gen, pcb, datasheet, Some(a.build.stderr), k + 1, remaining - 1);
        RunStops(gen, pcb, datasheet, Some(a.build.stderr), k + 1, remaining - 1);
        var attempts := [a] + rest;
        forall i | 0 < i < |attempts| - 1 ensures !attempts[i].build.success {
          assert attempts[i] == rest[i - 1];
        }
        assert |attempts| < remaining ==> attempts[|attempts| - 1] == rest[|rest| - 1];
      }
    }
  }

  /** The loop meets the attempt-by-attempt description. */
  lemma RunIsRun(gen: Generator, pcb: Toolchain, datasheet: string, errors: Option<string>, k: nat, remaining: nat)
    ensures IsRun(gen, pcb, datasheet, errors, k, remaining, Run(gen, pcb, datasheet, errors, k, remaining))
  {
    RunStepsMade(gen, pcb, datasheet, errors, k, remaining);
    RunThreaded(gen, pcb, datasheet, errors, k, remaining);
    RunStops(gen, pcb, datasheet, errors, k, remaining);
  }

  /** After a failed first attempt, the remaining attempts are a session of
      their own, carrying that attempt's stderr. */
  lemma IsRunTail(gen: Generator, pcb: Toolchain, datasheet: string, errors: Option<string>, k: nat, remaining: nat,
                  attempts: seq<Attempt>)
    requires IsRun(gen, pcb, datasheet, errors, k, remaining, attempts)
    requires |attempts| > 0 && !attempts[0].build.success
    ensures remaining > 0
    ensures IsRun(gen, pcb, datasheet, Some(attempts[0].build.stderr), k + 1, remaining - 1, attempts[1..])
  {
  }

  /** A session with budget left starts with the attempt made from its
      inputs, and stops there if that attempt succeeded. */
  lemma IsRunHead(gen: Generator, pcb: Toolchain, datasheet: string, errors: Option<string>, k: nat, remaining: nat,
                  attempts: seq<Attempt>)
    requires IsRun(gen, pcb, datasheet, errors, k, remaining, attempts)
    requires remaining > 0
    ensures |attempts| > 0 && attempts[0] == Step(gen, pcb, datasheet, errors, k)
    ensures attempts[0].build.success ==> |attempts| == 1
  {
  }

  /** Conversely, only the loop's attempts meet that description: it
      determines the session completely. */
  lemma {:induction false} IsRunIsRun(gen: Generator, pcb: Toolchain, datasheet: string, errors: Option<string>,
                                      k: nat, remaining: nat, attempts: seq<Attempt>)
    requires IsRun(gen, pcb, datasheet, errors, k, remaining, attempts)
    ensures attempts == Run(gen, pcb, datasheet, errors, k, remaining)
    decreases remaining
  {
    if remaining > 0 {
      IsRunHead(gen, pcb, datasheet, errors, k, remaining, attempts);
      var a := attempts[0];
      if a.build.success {
        assert attempts == [a];
      } else {
        IsRunTail(gen, pcb, datasheet, errors, k, remaining, attempts);
        IsRunIsRun(gen, pcb, datasheet, Some(a.build.stderr), k + 1, remaining - 1, attempts[1..]);
        assert attempts == [a] + attempts[1..];
      }
    }
  }

  /** What the session returns: the code of its last attempt when that
      attempt's build succeeded, nothing otherwise. */
  function Verdict(attempts: seq<Attempt>): Option<string>
  {
    if |attempts| > 0 && attempts[|attempts| - 1].build.success then Some(attempts[|attempts| - 1].code) else None
  }

  /** The first successful build ends the session, and that attempt's code
      is the result; with no success the session used up every attempt,
      all failed, and returns nothing. */
  lemma {:induction false} FirstSuccessWins(gen: Generator, pcb: Toolchain, datasheet: string, errors: Option<string>,
                                            k: nat, remaining: nat)
    ensures var attempts := Run(gen, pcb, datasheet, errors, k, remaining);
      && (forall i :: 0 <= i < |attempts| && attempts[i].build.success ==>
            i == |attempts| - 1 && Verdict(attempts) == Some(attempts[i].code))
      && (Verdict(attempts).None? <==> forall i :: 0 <= i < |attempts| ==> !attempts[i].build.success)
      && (Verdict(attempts).None? ==> |attempts| == remaining)
  {
    RunIsRun(gen, pcb, datasheet, errors, k, remaining);
  }

  /** Diagnostic threading: every attempt gets the unchanged datasheet, and
      the prompt it sends starts with it; the first attempt gets the
      `errors` carried in; every later attempt gets exactly the stderr of
      the attempt before it, and the prompt it sends carries that
      diagnostic (when non-empty) and no other. */
  lemma {:induction false} DiagnosticThreading(gen: Generator, pcb: Toolchain, datasheet: string,
                                               errors: Option<string>, k: nat, remaining: nat)
    ensures var attempts := Run(gen, pcb, datasheet, errors, k, remaining);
      && (forall i :: 0 <= i < |attempts| ==>
            attempts[i].datasheet == datasheet && datasheet <= BuildPrompt(datasheet, attempts[i].errors))
      && (|attempts| > 0 ==> attempts[0].errors == errors)
      && (forall i :: 0 < i < |attempts| ==>
            && attempts[i].errors == Some(attempts[i - 1].build.stderr)
            && RecoverErrors(datasheet, BuildPrompt(datasheet, attempts[i].errors)) ==
                 if attempts[i - 1].build.stderr == "" then None else Some(attempts[i - 1].build.stderr))
  {
    var attempts := Run(gen, pcb, datasheet, errors, k, remaining);
    RunIsRun(gen, pcb, datasheet, errors, k, remaining);
    forall i | 0 <= i < |attempts|
      ensures attempts[i].datasheet == datasheet && datasheet <= BuildPrompt(datasheet, attempts[i].errors)
      ensures i > 0 ==> attempts[i].errors == Some(attempts[i - 1].build.stderr)
    {
      assert attempts[i] == Step(gen, pcb, datasheet, attempts[i].errors, k + i);
      PromptCarriesErrors(datasheet, attempts[i].errors);
      if i > 0 {
        assert attempts[i].errors == Some(attempts[i - 1].build.stderr);
      }
    }
    forall i | 0 < i < |attempts|
      ensures RecoverErrors(datasheet, BuildPrompt(datasheet, attempts[i].errors)) ==
                if attempts[i - 1].build.stderr == "" then None else Some(attempts[i - 1].build.stderr)
    {
      PromptCarriesErrors(datasheet, attempts[i].errors);
    }
  }

  /** A prompt depends on the history only through the previous attempt's
      stderr: two sessions on the same datasheet whose attempts i - 1 ended
      with the same stderr send the same prompt on attempt i, whatever came
      before. */
  lemma {:induction false} OnlyLastDiagnosticCarried(gen1: Generator, pcb1: Toolchain, gen2: Generator, pcb2: Toolchain,
                                                     datasheet: string, remaining: nat, i: nat)
    requires 0 < i < |Run(gen1, pcb1, datasheet, None, 0, remaining)|
    requires i < |Run(gen2, pcb2, datasheet, None, 0, remaining)|
    requires Run(gen1, pcb1, datasheet, None, 0, remaining)[i - 1].build.stderr ==
             Run(gen2, pcb2, datasheet, None, 0, remaining)[i - 1].build.stderr
    ensures BuildPrompt(datasheet, Run(gen1, pcb1, datasheet, None, 0, remaining)[i].errors) ==
            BuildPrompt(datasheet, Run(gen2, pcb2, datasheet, None, 0, remaining)[i].errors)
  {
    DiagnosticThreading(gen1, pcb1, datasheet, None, 0, remaining);
    DiagnosticThreading(gen2, pcb2, datasheet, None, 0, remaining);
  }
}
