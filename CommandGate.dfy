/**
 * The decision part of `send_message` (main.rs:867-926): which chat messages
 * show the logs, which run as a shell command, and which are blocked. Running
 * the command itself is outside the model.
 */
module CommandGate {
  import opened Text

  const LogCommands := ["show logs", "logs", "openclaw logs"]

  /** The allowed command prefixes, in the order they are tried. */
  const Allowlist := ["whoami", "dir", "echo", "openclaw", "node", "npm", "python", "setup openclaw"]

  datatype Verdict =
    | ShowLogs
    | Blocked
    | RunSetup
    | Execute(command: string)

  /** The form a message is matched in: trimmed, then lower-cased. */
  function Normalized(message: string): string {
    ToLower(Trim(message))
  }

  predicate Allowed(msg: string) {
    exists k :: 0 <= k < |Allowlist| && StartsWith(msg, Allowlist[k])
  }

  /** The allowlist scan: does the message start with one of the allowed prefixes? */
  method FindAllowed(msg: string) returns (found: bool)
    ensures found <==> Allowed(msg)
  {
    var i := 0;
    while i < |Allowlist|
      invariant 0 <= i <= |Allowlist|
      invariant forall k :: 0 <= k < i ==> !StartsWith(msg, Allowlist[k])
    {
      if StartsWith(msg, Allowlist[i]) {
        return true;
      }
      i := i + 1;
    }
    return false;
  }

  /** "setup openclaw" is itself on the allowlist. */
  lemma SetupIsAllowed(msg: string)
    requires msg == "setup openclaw"
    ensures Allowed(msg)
  {
    assert StartsWith(msg, Allowlist[7]);
  }

  /** "setup openclaw" is not one of the log requests. */
  lemma SetupIsNotLogRequest(msg: string)
    requires msg in LogCommands
    ensures msg != "setup openclaw"
  {
    assert |LogCommands[0]| != 14 && |LogCommands[1]| != 14 && |LogCommands[2]| != 14;
  }

  /**
   * Log requests come first; anything else must start with an allowed
   * prefix. "setup openclaw" runs the setup; every other allowed message runs
   * as typed, trimmed but not lower-cased.
   */
  method ClassifyMessage(message: string) returns (v: Verdict)
    ensures v == ShowLogs <==> Normalized(message) in LogCommands
    ensures v == Blocked <==> Normalized(message) !in LogCommands && !Allowed(Normalized(message))
    ensures v == RunSetup <==> Normalized(message) == "setup openclaw"
    ensures v.Execute? ==> v.command == Trim(message) && Allowed(Normalized(message))
  {
    var trimmed := Trim(message);
    var msg := ToLower(trimmed);
    assert msg == Normalized(message);
    if msg in LogCommands {
      SetupIsNotLogRequest(msg);
      return ShowLogs;
    }
    var isAllowed := FindAllowed(msg);
    if !isAllowed {
      if msg == "setup openclaw" {
        SetupIsAllowed(msg);
      }
      return Blocked;
    }
    if msg == "setup openclaw" {
      return RunSetup;
    }
    return Execute(trimmed);
  }
}
