/** `run_agent` of agent.py: read the datasheet, then try at most
    `max_retries` times to generate Zener code that builds, feeding each
    failed build's stderr into the next generation. */
module Agent {
  import opened Options
  import opened Zener
  import opened Pdf
  import opened Repair

  /** `run_agent` on a datasheet document with the given pages. Returns the
      code of the first attempt whose build succeeded, or `None` once the
      attempts are used up; also the attempts made and how many times it
      paused (`time.sleep(30)`) between them. */
  method RunAgent(gen: Generator, pcb: Toolchain, pages: seq<Option<string>>, maxRetries: int)
    returns (result: Option<string>, attempts: seq<Attempt>, pauses: nat)
    ensures attempts == Run(gen, pcb, PdfText(pages), None, 0, Bound(maxRetries))
    ensures result == Verdict(attempts)
    ensures maxRetries <= 0 ==> attempts == [] && result == None
    ensures pauses == |attempts| - (if result.Some? then 1 else 0)
  {
    var datasheetText := ExtractPdf(pages);
    ghost var n := Bound(maxRetries);
    var errors: Option<string> := None;
    result, attempts, pauses := None, [], 0;
    var attempt := 1;
    while attempt <= maxRetries
      invariant 1 <= attempt <= n + 1
      invariant |attempts| == attempt - 1 == pauses
      invariant errors == LastErrors(attempts)
      invariant FailedSoFar(gen, pcb, datasheetText, attempts)
    {
      var zenCode := GenerateZener(gen, attempt - 1, datasheetText, errors);
      var outcome := BuildZenerCode(pcb, attempt - 1, zenCode);
      var a := Attempt(datasheetText, errors, zenCode, outcome);
      if outcome.success {
        AfterSuccess(gen, pcb, datasheetText, n, attempts, a);
        attempts := attempts + [a];
        result := Some(zenCode);
        return;
      }
      AfterFailure(gen, pcb, datasheetText, attempts, a);
      attempts := attempts + [a];
      errors := Some(outcome.stderr);
      pauses := pauses + 1;
      attempt := attempt + 1;
    }
    Exhausted(gen, pcb, datasheetText, n, attempts);
  }
}
