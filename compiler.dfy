/**
 * Compiling a snippet with `aegiscc` and turning the process outcome into a
 * `CompileResponse` (backend/src/services/compiler.rs).
 */
module CompilerService {
  import opened Models
  import Services

  /** The process `compile_code` spawns: aegiscc evaluating the code and emitting bytecode. */
  function CompileCommand(host: Services.Host, code: string): (cmd: Command)
    ensures cmd.program == Services.BinaryPath("aegiscc", host)
    ensures cmd.args == ["--eval", code, "--emit-bytecode"]
  {
    Command(Services.BinaryPath("aegiscc", host), ["--eval", code, "--emit-bytecode"])
  }

  /** The fixed tree `parse_ast_from_output` reports: a program with one empty `main`. */
  const PLACEHOLDER_AST: Json :=
    JObject([("type", JString("Program")),
             ("functions", JArray([JObject([("name", JString("main")), ("statements", JArray([]))])]))])

  /** `parse_ast_from_output`: the compiler output is not read; the placeholder tree is always returned. */
  function ParseAstFromOutput(output: string): (ast: Option<Json>)
    ensures ast.Some? && ast.value.JObject?
  {
    Some(PLACEHOLDER_AST)
  }

  /** The data model's invariant: a passed policy check has no violations. */
  predicate PolicyConsistent(r: CompileResponse)
  {
    r.policyValidation.passed ==> r.policyValidation.violations == []
  }

  /** `compile_code`'s `match` on the outcome of running the compiler. */
  function CompileCode(outcome: ProcessOutcome): (r: CompileResponse)
    ensures r.success <==> ExitedSuccessfully(outcome)
    ensures r.policyValidation.passed == r.success
    ensures PolicyConsistent(r)
    ensures r.policyValidation.warnings == []
    ensures r.success ==>
              && r.bytecode == Some(outcome.stdout) && r.output == Some(outcome.stdout)
              && r.ast.Some? && r.error == None
    ensures !r.success ==>
              && r.ast == None && r.bytecode == None && r.output == None
              && |r.policyValidation.violations| == 1 && r.error.Some?
    ensures outcome.Exited? && !r.success ==>
              r.policyValidation.violations == [outcome.stderr] && r.error == Some(outcome.stderr)
    ensures outcome.SpawnFailed? ==>
              && r.policyValidation.violations == ["Failed to run compiler: " + outcome.error]
              && r.error == Some("Compiler error: " + outcome.error)
  {
    match outcome
    case Exited(_, stdout, stderr) =>
      if ExitedSuccessfully(outcome) then
        CompileResponse(
          true,
          ParseAstFromOutput(stdout),
          Some(stdout),
          PolicyValidationResult(true, [], []),
          None,
          Some(stdout))
      else
        CompileResponse(
          false,
          None,
          None,
          PolicyValidationResult(false, [stderr], []),
          Some(stderr),
          None)
    case SpawnFailed(e) =>
      CompileResponse(
        false,
        None,
        None,
        PolicyValidationResult(false, ["Failed to run compiler: " + e], []),
        Some("Compiler error: " + e),
        None)
  }
}
