/** The `/generate` handler of app.py: the same repair loop as `run_agent`,
    with three attempts, behind an HTTP request and a JSON response. */
module App {
  import opened Options
  import opened Zener
  import opened Pdf
  import opened Repair

  /** The handler's attempt budget, `range(3)`. */
  const MaxAttempts: nat := 3

  /** The part of the request the handler reads: the uploaded `file`, if
      any, given as the pages of that PDF document. */
  datatype Request = Request(file: Option<seq<Option<string>>>)

  /** The JSON responses: the 400 reply to a request without a file,
      `{'success': True, 'code': code}` and `{'success': False, 'error': error}`. */
  datatype Response =
    | NoFile
    | Generated(code: string)
    | GenerationFailed(error: string)

  /** The HTTP status each response is sent with. */
  function Status(response: Response): (status: int)
    ensures status == 400 <==> response.NoFile?
  {
    if response.NoFile? then 400 else 200
  }

  /** `generate()`: reject a request without a file before any call;
      otherwise extract the datasheet text, then make at most three
      attempts, pausing (`time.sleep(6.9)`) after each failed one. */
  method Generate(gen: Generator, pcb: Toolchain, request: Request)
    returns (response: Response, attempts: seq<Attempt>, pauses: nat)
    ensures request.file.None? ==> response == NoFile && attempts == [] && pauses == 0
    ensures request.file.Some? ==>
      && attempts == Run(gen, pcb, PdfText(request.file.value), None, 0, MaxAttempts)
      && 0 < |attempts|
      && (response.Generated? || response.GenerationFailed?)
      && (response.Generated? ==> Verdict(attempts) == Some(response.code))
      && (response.GenerationFailed? ==>
            Verdict(attempts) == None && response.error == attempts[|attempts| - 1].build.stderr)
    ensures pauses == |attempts| - (if response.Generated? then 1 else 0)
  {
    if request.file.None? {
      return NoFile, [], 0;
    }
    var datasheetText := ExtractPdf(request.file.value);
    var errors: Option<string> := None;
    attempts, pauses := [], 0;
    for attempt := 0 to MaxAttempts
      invariant |attempts| == attempt == pauses
      invariant errors == LastErrors(attempts)
      invariant FailedSoFar(gen, pcb, datasheetText, attempts)
    {
      var zenCode := GenerateZener(gen, attempt, datasheetText, errors);
      var outcome := BuildZenerCode(pcb, attempt, zenCode);
      var a := Attempt(datasheetText, errors, zenCode, outcome);
      if outcome.success {
        AfterSuccess(gen, pcb, datasheetText, MaxAttempts, attempts, a);
        attempts := attempts + [a];
        return Generated(zenCode), attempts, pauses;
      }
      AfterFailure(gen, pcb, datasheetText, attempts, a);
      attempts := attempts + [a];
      errors := Some(outcome.stderr);
      pauses := pauses + 1;
    }
    Exhausted(gen, pcb, datasheetText, MaxAttempts, attempts);
    response := GenerationFailed(errors.value);
  }

  /** Exhaustion: a session of the handler ends without code only after
      three attempts whose builds all failed. */
  lemma FailureAfterThreeRejections(gen: Generator, pcb: Toolchain, pages: seq<Option<string>>)
    ensures var attempts := Run(gen, pcb, PdfText(pages), None, 0, MaxAttempts);
      Verdict(attempts) == None ==>
        |attempts| == 3 && (forall i :: 0 <= i < 3 ==> !attempts[i].build.success)
  {
    FirstSuccessWins(gen, pcb, PdfText(pages), None, 0, MaxAttempts);
  }
}
