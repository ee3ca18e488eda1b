/**
 * `run_node_script` (main.rs:265-297): run `node <automation dir>/<script>`
 * and turn the process outcome into the application's `Result<String, String>`.
 * The process itself is outside the model: its outcome is an input.
 */
module NodeScript {
  import opened Wrappers
  import opened Text

  /**
   * How one run of a node script ended. `stdout` and `stderr` are taken as
   * already cleaned of ANSI escapes.
   */
  datatype NodeRun =
    | ScriptMissing
    | SpawnFailed(reason: string)
    | Exited(success: bool, stdout: string, stderr: string)

  /** A request to run `script` with `args`. */
  datatype Invocation = Invocation(script: string, args: seq<string>)

  /** The operating system's side of running a node script. */
  type Executor = Invocation -> NodeRun

  const Done := "✅ Done."

  /**
   * A failed run reports stderr, or stdout when stderr is blank; a successful
   * run reports stdout, or `Done` when stdout is blank, so success never
   * reports a blank text.
   */
  function RunNodeScript(script: string, run: NodeRun): (r: Result<string, string>)
    ensures r.Ok? <==> run.Exited? && run.success
    ensures run.Exited? && !run.success ==>
      r == Err("Node script failed:\n" + if IsBlank(run.stderr) then run.stdout else run.stderr)
    ensures run.Exited? && run.success ==> r.value == if IsBlank(run.stdout) then Done else run.stdout
    ensures r.Ok? ==> !IsBlank(r.value)
  {
    match run
    case ScriptMissing => Err("❌ Script not found: " + script)
    case SpawnFailed(e) => Err("Failed running node: " + e)
    case Exited(ok, out, err) =>
      if !ok then Err("Node script failed:\n" + if Trim(err) == [] then out else err)
      else
        assert !IsSpace(Done[0]);
        Ok(if Trim(out) == [] then Done else out)
  }

  /** Ask `exec` to run `script` with `args` and read the outcome as `run_node_script` does. */
  function RunScript(exec: Executor, script: string, args: seq<string>): Result<string, string> {
    RunNodeScript(script, exec(Invocation(script, args)))
  }
}
