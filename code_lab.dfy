/**
 * The code lab page (frontend/src/pages/CodeLab.tsx): an editor buffer, a
 * compile button and the last compile result shown beside it.
 */
module CodeLabPage {
  import opened Models
  import CompilerService

  /** The editor's initial text. */
  const DEFAULT_CODE: string :=
    "// Write your AegisLang code here\nfn main() {\n    let x = 42;\n    let y = x * 2;\n    print(y);\n}"

  const BACKEND_VIOLATION := "Failed to connect to backend"
  const BACKEND_ERROR := "Backend connection failed"

  /** The result the page makes up when the compile request fails: nothing but the failure. */
  const BACKEND_FAILURE: CompileResponse :=
    CompileResponse(false, None, None, PolicyValidationResult(false, [BACKEND_VIOLATION], []), Some(BACKEND_ERROR), None)

  /** What `handleCompile` shows: the backend's response as received, or the made-up failure. */
  function ShownResult(fetched: Result<CompileResponse>): (r: CompileResponse)
    ensures fetched.Ok? ==> r == fetched.value
    ensures fetched.Err? ==>
              && !r.success && !r.policyValidation.passed
              && r.policyValidation.violations == [BACKEND_VIOLATION]
              && r.policyValidation.warnings == []
              && r.error == Some(BACKEND_ERROR)
              && r.ast == None && r.bytecode == None && r.output == None
  {
    match fetched
    case Ok(response) => response
    case Err(_) => BACKEND_FAILURE
  }

  /** The page never shows a passed policy check with violations, given a backend that does not send one. */
  lemma ShownResultConsistent(fetched: Result<CompileResponse>)
    requires fetched.Ok? ==> CompilerService.PolicyConsistent(fetched.value)
    ensures CompilerService.PolicyConsistent(ShownResult(fetched))
  {
  }

  /**
   * The made-up failure cannot be mistaken for anything the backend's compile service
   * returns: there, a failed compile's single violation is also its error text, or it
   * names the compiler.
   */
  lemma BackendFailureIsNotACompileResult(outcome: ProcessOutcome)
    ensures CompilerService.CompileCode(outcome) != BACKEND_FAILURE
  {
  }

  /** The component's state slots. */
  class CodeLab {
    var code: string
    var compiling: bool
    var result: Option<CompileResponse>

    constructor ()
      ensures code == DEFAULT_CODE && !compiling && result == None
    {
      code := DEFAULT_CODE;
      compiling := false;
      result := None;
    }

    /** The editor's `onChange`; an undefined value clears the buffer. */
    method SetCode(value: Option<string>)
      modifies this
      ensures code == (if value.Some? then value.value else "")
      ensures compiling == old(compiling) && result == old(result)
    {
      code := if value.Some? then value.value else "";
    }

    /**
     * `handleCompile`: marks the page busy, sends the current code, shows what came
     * back (or the made-up failure) and clears the busy mark in `finally`.
     */
    method HandleCompile(fetched: Result<CompileResponse>) returns (request: CompileRequest)
      modifies this
      ensures request == CompileRequest(old(code))
      ensures result == Some(ShownResult(fetched))
      ensures !compiling
      ensures code == old(code)
    {
      compiling := true;
      request := CompileRequest(code);
      match fetched {
        case Ok(response) =>
          result := Some(response);
        case Err(_) =>
          result := Some(BACKEND_FAILURE);
      }
      compiling := false;
    }
  }
}
