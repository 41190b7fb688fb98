/** The pure pieces of agent.py around one generate-build attempt: the
    prompt that `generate_zener` sends to the code generator, and the way
    `build_zener_code` classifies a run of the `pcb build` toolchain.
    Both collaborators are opaque: they are given as functions. */
module Zener {
  import opened Options

  /** The remote code generator (the Anthropic client). Its k-th call in a
      session, given a prompt, answers with candidate Zener code. The call
      number is an argument so that two calls with the same prompt may
      answer differently. */
  type Generator = (nat, string) -> string

  /** The `pcb build` toolchain. Its k-th run on a piece of code gives the
      process exit code and what the process wrote to stderr. The code is
      written to one fixed file, so this assumes no concurrent session
      rewrites that file between the write and the build. */
  type Toolchain = (nat, string) -> (int, string)

  const ErrorsHeader: string := "\n\nPrevious attempt failed with these errors:\n"
  const ErrorsFooter: string := "\nFix them."

  /** Python truthiness of the `errors` argument: `None` and `""` both mean
      "no errors". */
  predicate HasErrors(errors: Option<string>)
  {
    errors.Some? && errors.value != ""
  }

  /** The prompt of `generate_zener`: the datasheet text, followed by the
      repair instruction only when there are errors to report. */
  function BuildPrompt(datasheet: string, errors: Option<string>): (prompt: string)
  {
    if HasErrors(errors) then datasheet + ErrorsHeader + errors.value + ErrorsFooter
    else datasheet
  }

  /** Reads back the diagnostic that a prompt built over `datasheet`
      carries, if it carries one. */
  function RecoverErrors(datasheet: string, prompt: string): (errors: Option<string>)
  {
    var lo := |datasheet| + |ErrorsHeader|;
    if |prompt| > lo + |ErrorsFooter|
       && prompt[..lo] == datasheet + ErrorsHeader
       && prompt[|prompt| - |ErrorsFooter|..] == ErrorsFooter
    then Some(prompt[lo..|prompt| - |ErrorsFooter|])
    else None
  }

  /** The prompt is exactly the datasheet when there is nothing to report,
      and the datasheet followed by the delimited diagnostic otherwise; the
      diagnostic can be read back from the prompt, so nothing else of the
      errors value reaches the generator and nothing of it is lost. */
  lemma PromptCarriesErrors(datasheet: string, errors: Option<string>)
    ensures datasheet <= BuildPrompt(datasheet, errors)
    ensures !HasErrors(errors) ==> BuildPrompt(datasheet, errors) == datasheet
    ensures HasErrors(errors) ==>
      BuildPrompt(datasheet, errors) == datasheet + ErrorsHeader + errors.value + ErrorsFooter
    ensures RecoverErrors(datasheet, BuildPrompt(datasheet, errors)) ==
      if HasErrors(errors) then errors else None
  {
  }

  /** Conversely, every prompt from which a diagnostic can be read back is
      the prompt built from that diagnostic. */
  lemma RecoveredErrorsRebuildPrompt(datasheet: string, prompt: string)
    requires RecoverErrors(datasheet, prompt).Some?
    ensures HasErrors(RecoverErrors(datasheet, prompt))
    ensures BuildPrompt(datasheet, RecoverErrors(datasheet, prompt)) == prompt
  {
  }

  /** Two `errors` values give the same prompt exactly when they are the
      same under Python truthiness. */
  lemma PromptDeterminesErrors(datasheet: string, e1: Option<string>, e2: Option<string>)
    ensures BuildPrompt(datasheet, e1) == BuildPrompt(datasheet, e2) <==>
      (if HasErrors(e1) then e1 else None) == (if HasErrors(e2) then e2 else None)
  {
    PromptCarriesErrors(datasheet, e1);
    PromptCarriesErrors(datasheet, e2);
  }

  /** `generate_zener`: one call of the generator on the assembled prompt. */
  function GenerateZener(gen: Generator, k: nat, datasheet: string, errors: Option<string>): string
  {
    gen(k, BuildPrompt(datasheet, errors))
  }

  /** The outcome `build_zener_code` reports: whether the build passed, and
      the toolchain's stderr. */
  datatype BuildOutcome = BuildOutcome(success: bool, stderr: string)

  /** The classification of a finished `pcb build` process. */
  function Classify(returncode: int, stderr: string): (outcome: BuildOutcome)
    ensures outcome.success <==> returncode == 0
    ensures outcome.stderr == stderr
  {
    BuildOutcome(returncode == 0, stderr)
  }

  /** `build_zener_code`: the k-th toolchain run on `code`, classified. */
  function BuildZenerCode(pcb: Toolchain, k: nat, code: string): BuildOutcome
  {
    var run := pcb(k, code);
    Classify(run.0, run.1)
  }
}
