/**
 * The checks on the parsed command line (aifr/cli_parser.py): which prompt
 * wins, and when a call without a prompt is still accepted.
 */
module CliParser {
  import opened Wrappers

  /** `CliArgs`: the structured command line. */
  datatype CliArgs = CliArgs(
    prompt: Option<string>,
    file: Option<seq<string>>,
    console: Option<string>,
    model: Option<string>,
    contextLimit: Option<int>,
    reset: bool,
    stats: bool,
    version: bool,
    interactive: bool,
    listModels: bool,
    agent: Option<string>,
    raw: bool,
    rag: bool,
    directory: string,
    execMode: bool
  )

  /** Python's truth value of an optional string. */
  predicate NonEmpty(s: Option<string>) { s.Some? && s.value != "" }

  /** `args.prompt_flag or args.prompt`: a non-empty `-p`/`--ask` value, else the positional prompt as it is. */
  function CombinePrompt(promptFlag: Option<string>, positional: Option<string>): (r: Option<string>)
    ensures NonEmpty(promptFlag) ==> r == promptFlag
    ensures !NonEmpty(promptFlag) ==> r == positional
  {
    if NonEmpty(promptFlag) then promptFlag else positional
  }

  /** The combined prompt is non-empty exactly when one of the two is. */
  lemma {:induction false} CombinedNonEmpty(promptFlag: Option<string>, positional: Option<string>)
    ensures NonEmpty(CombinePrompt(promptFlag, positional)) <==> NonEmpty(promptFlag) || NonEmpty(positional)
  {
  }

  const PromptRequired := "Error: prompt required (provide as argument or use -p/--prompt)"

  /** The call has something to ask: a prompt, piped input, or the interactive mode. */
  predicate HasInput(args: CliArgs, hasStdin: bool) {
    NonEmpty(args.prompt) || hasStdin || args.interactive
  }

  /** The call only resets, prints the version or lists the models. */
  predicate Housekeeping(args: CliArgs) {
    args.reset || args.version || args.listModels
  }

  /**
   * `validate_args`: accepted, without a message, when there is something to
   * ask or only housekeeping to do; refused with the prompt-required message otherwise.
   */
  function ValidateArgs(args: CliArgs, hasStdin: bool): (r: (bool, Option<string>))
    ensures r.0 <==> HasInput(args, hasStdin) || Housekeeping(args)
    ensures r.0 ==> r.1.None?
    ensures !r.0 ==> r.1 == Some(PromptRequired)
  {
    if !NonEmpty(args.prompt) && !hasStdin && !args.interactive then
      if args.reset || args.version || args.listModels then (true, None)
      else (false, Some(PromptRequired))
    else (true, None)
  }

  /** Without a prompt, piped input or the interactive mode, exactly the housekeeping flags are accepted. */
  lemma {:induction false} HousekeepingOnly(args: CliArgs)
    requires !NonEmpty(args.prompt) && !args.interactive
    ensures ValidateArgs(args, false).0 <==> Housekeeping(args)
  {
  }

  /** The other flags do not affect validation. */
  lemma {:induction false} OtherFlagsIgnored(args: CliArgs, hasStdin: bool, file: Option<seq<string>>, model: Option<string>,
      stats: bool, raw: bool, rag: bool)
    ensures ValidateArgs(args.(file := file, model := model, stats := stats, raw := raw, rag := rag), hasStdin)
      == ValidateArgs(args, hasStdin)
  {
  }
}
