# Zener generate-build-repair loop

This project models the core of a small tool that writes Zener hardware
description code from a component datasheet. A remote code generator
writes the code and the `pcb build` toolchain checks it. The core is a
bounded retry loop. Each attempt assembles a prompt from the datasheet text
and the previous build's stderr, asks the generator for code, and builds
that code. The first successful build ends the loop. When the attempts run
out, the loop gives up.

The loop exists twice in the source:

- `run_agent` in agent.py takes `max_retries` attempts and returns the code
  or `None`.
- The `/generate` HTTP handler in app.py takes three attempts and answers
  `{'success': True, 'code': ...}` or `{'success': False, 'error': <last stderr>}`.

Around the loop sit some small string routines. `generate_zener` assembles
the prompt. `build_zener_code` classifies a build. `extract_pdf` joins the
text of the first 78 pages. The `/schematic` handler joins text blocks,
strips whitespace, and cuts out a JSON span.

Modules, one per piece of the program:

- `Options`: `Option`, standing for Python's `None` or a value.
- `Zener` (agent.py:17-20, 819-827): prompt assembly and its inverse, and
  build classification. The generator and the toolchain are opaque function
  parameters. Each takes the call number, so two calls with equal inputs may
  answer differently.
- `Pdf` (agent.py:7-13): `extract_pdf` as a loop over an abstract page list.
  Each page is `None` or its text.
- `Repair`: the loop as a specification, shared by both copies of it.
  - `Run` is a recursive definition of the attempts a session makes.
  - `IsRun` describes the same attempts one by one. It is split into
    `StepsMade`, `Threaded` and `StopsAtFirstSuccess`.
  - `RunIsRun` and `IsRunIsRun` prove that the two definitions agree.
  - The other lemmas state the loop's properties.
- `Agent` (agent.py:832-856): `run_agent` as an imperative loop, proved
  equal to `Run`.
- `App` (app.py:14-34): the `/generate` handler as an imperative loop,
  proved equal to `Run` with three attempts.
- `Schematic` (app.py:60-74): the text handling of `/schematic`.

A session is recorded as the sequence of its attempts. Each attempt holds
the datasheet text and `errors` value passed to `generate_zener`, the code
it returned, and the build outcome. Each attempt is exactly one generate
call followed by one build call. Pauses (`time.sleep`) are counted.

Behaviour of the code worth noting:

- When the attempts run out, `run_agent` returns `None`, while `/generate`
  returns the last stderr.
- `max_retries <= 0` makes zero attempts.
- An empty datasheet text is accepted.
- Both loops pause after every failed build, the last one included.
- A failed build with empty stderr makes the next prompt the bare datasheet.
  This is because `if errors:` treats `""` as false.

agent.py:833 opens a string literal that it never closes (`'ANTHROPIC_API_KEY)`),
so the file does not parse as written. The model follows the evident
intended behaviour of `run_agent`, with the client as an opaque parameter.

## Model

| member | source | states |
|---|---|---|
| `Zener.PromptCarriesErrors` | agent.py:17-20 | With `errors` `None` or empty, the prompt is exactly the datasheet text. Otherwise it is the datasheet, the "Previous attempt failed with these errors:" header, the errors and "Fix them.". The datasheet is always a prefix, and the diagnostic can be read back from the prompt. |
| `Zener.RecoveredErrorsRebuildPrompt` | agent.py:18-20 | Any prompt from which a diagnostic can be read back is the prompt assembled from that (non-empty) diagnostic. |
| `Zener.PromptDeterminesErrors` | agent.py:18-20 | Two `errors` values give the same prompt if and only if they agree under Python truthiness. |
| `Zener.Classify` | agent.py:827 | A build succeeds if and only if the exit code is 0, and the reported diagnostic is stderr verbatim. |
| `Pdf.ExtractPdf` | agent.py:7-13 | The loop returns the in-order concatenation of the texts of the first min(78, n) pages, with a `None` page read as `""`. |
| `Pdf.PagesTextAppend` | agent.py:11-12 | The accumulated text of two runs of pages is the text of the first followed by the text of the second. |
| `Pdf.PageTextInPlace` | agent.py:11-12 | A page's text sits exactly between the text of the pages before it and the text of the pages after it. |
| `Pdf.MissingPageContributesNothing` | agent.py:12 | A page whose extraction gave `None` reads like an empty page and adds nothing. |
| `Pdf.PagesPastCapIgnored` | agent.py:11 | Pages after the 78th never change the datasheet text. |
| `Pdf.ShortDocumentReadWhole` | agent.py:11 | A document of at most 78 pages is read in full. |
| `Repair.Bound` | agent.py:841 | `range(1, max_retries + 1)` allows `max_retries` attempts when that is non-negative, and none otherwise. |
| `Repair.Run` | agent.py:840-856 | A session never makes more attempts than its budget, and with any budget left it makes at least one. |
| `Repair.RunStepsMade` | agent.py:843-846 | Every attempt of a session is one generate call on the recorded datasheet and `errors`, followed by one build of the returned code, with call numbers in order. |
| `Repair.RunThreaded` | agent.py:840-846 | The first attempt gets the initial `errors` (`None`). Every later attempt gets the stderr of the attempt just before it, because the build overwrites `errors`. |
| `Repair.RunStops` | agent.py:841-851 | Every attempt before the last failed. A session ends before its budget only on a successful build. |
| `Repair.RunIsRun` | agent.py:840-856 | The loop meets the attempt-by-attempt description. |
| `Repair.IsRunIsRun` | agent.py:840-856 | Only the loop's attempts meet that description, so the description fixes the session completely. |
| `Repair.FirstSuccessWins` | agent.py:848-851 | A successful build is always the last attempt, and its code is the result. There is no result if and only if every build failed, and then every attempt of the budget was used. |
| `Repair.DiagnosticThreading` | agent.py:837-846 | Every attempt gets the same datasheet text, and every prompt starts with it. The prompt of attempt k > 1 carries exactly the stderr of attempt k-1 when that is non-empty, and no diagnostic otherwise. |
| `Repair.OnlyLastDiagnosticCarried` | agent.py:843-846 | The prompt of an attempt depends on the history only through the previous stderr. Two sessions whose previous builds gave the same stderr send the same prompt. |
| `Agent.RunAgent` | agent.py:832-856 | `run_agent` makes exactly the attempts of `Run` on the extracted datasheet with `max_retries` attempts. It returns the code of the successful attempt, or `None`, and none at all for `max_retries <= 0`. It pauses once per failed attempt and never after a success. |
| `App.Generate` | app.py:14-34 | Without a `file` part, the 400 response with no generate or build call. Otherwise the attempts of `Run` with three attempts. The response is `Generated` with the code of the first attempt that built, or `GenerationFailed` with the last attempt's stderr. It pauses once per failed attempt. |
| `App.Status` | app.py:17 | Only the missing-file response has status 400. |
| `App.FailureAfterThreeRejections` | app.py:27-34 | The handler returns no code only after three attempts whose builds all failed. |
| `Schematic.JoinText` | app.py:61-64 | The loop returns the in-order concatenation of the texts of exactly the blocks whose type is `"text"`. |
| `Schematic.TextOfAppend` | app.py:62-64 | The joined text of two runs of blocks is the text of the first followed by the text of the second. |
| `Schematic.TextOfBlock` | app.py:62-64 | A block of another type adds nothing. A text block adds its text in its place. |
| `Schematic.Strip` | app.py:66 | `strip()` keeps a contiguous slice of the text. What it drops before and after is whitespace in the sense of `str.isspace`, and the slice neither starts nor ends with whitespace. |
| `Schematic.StripIdempotent` | app.py:66 | Stripping a stripped text changes nothing. |
| `Schematic.Find` | app.py:69 | `find('{')` is -1 if and only if there is no `{`. Otherwise it is an index of `{` with none before it. |
| `Schematic.RFind` | app.py:70 | `rfind('}')` is -1 if and only if there is no `}`. Otherwise it is an index of `}` with none after it. |
| `Schematic.JsonSpanMissing` | app.py:69-72 | Span extraction fails if and only if the text has no `{` or no `}`. |
| `Schematic.JsonSpanEmpty` | app.py:69-74 | An extracted span is empty if and only if the last `}` comes before the first `{`. |
| `Schematic.JsonSpanBraces` | app.py:69-74 | A non-empty span is the slice from the first `{` through the last `}`. It opens with `{`, closes with `}`, and the text has no `{` before it and no `}` after it. |
| `Schematic.ExtractJson` | app.py:60-74 | The handler passes `json.loads` the JSON span of the stripped join of the text blocks, and fails exactly where that span is missing. |

## Left out

- The Anthropic client calls and the long system prompts (agent.py:22-814, app.py:41-58) are remote text generation. They are the `Generator` parameter, which may answer each call differently.
- The file write and `subprocess.run(["pcb", "build", ...])` (agent.py:820-826) are external tooling and file-system I/O. They are the `Toolchain` parameter. Only the exit-code/stderr classification is modelled.
- Concurrent sessions: `build_zener_code` always writes the fixed file `output.zen` (agent.py:819-826), and the Flask development server (app.py:81) serves requests on threads. Two concurrent `/generate` requests can overwrite each other's file, so a build outcome may not belong to the attempt's own code. The model assumes one session at a time.
- pdfplumber text extraction (agent.py:10-12) is a foreign library. A document is the sequence of what `extract_text()` returned per page.
- Flask routing, CORS, the temporary file and `jsonify` (app.py:10-24, 80-81) are I/O plumbing. A request is reduced to its optional `file` part and a response is a datatype. The text of the missing-file message is not part of the model.
- The `/schematic` request and model call (app.py:38-58) are left out. So are `json.loads` and the "Parse error" message built from the exception (app.py:75-78): `json.loads` is a library parser. `ExtractJson` stops at the span handed to the parser.
- Collaborator faults, meaning exceptions raised by the generator, the toolchain, pdfplumber or Flask, propagate unhandled in the source. They are not modelled: the oracles are total.
- The pause lengths (30 s in agent.py:854, 6.9 s in app.py:32) are timing. Pauses are only counted.
- The `print` logging (agent.py:836-856) and the hard-coded API keys are left out.
- `Strip` uses the fixed set of characters for which Python's `str.isspace` holds. `Find` and `RFind` index by character.
