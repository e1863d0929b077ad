/**
 * The command runner shared by the two user-management modules.
 * `subprocess.run` is an oracle from the full argument vector to the
 * triple (exit code, stdout, stderr); a runner that raises is the triple
 * (1, "", message), which the oracle can return as well.
 */
module Command {
  import opened Wrappers

  /** How both modules' messages name an account: "User <name>". */
  function Greeting(username: string): string
  {
    "User " + username
  }

  type Argv = seq<string>

  datatype CmdResult = CmdResult(code: int, stdout: string, stderr: string)

  type Runner = Argv -> CmdResult

  /** How a module run ends: `exit_json` with its result fields, or `fail_json` with a message. */
  datatype ModuleResult = Exited(changed: bool, msg: string, userExists: bool) | Failed(msg: string)

  /** A run of (part of) a module's `main`: how it ends and the commands it hands to the runner, in order. */
  datatype Run = Run(result: ModuleResult, issued: seq<Argv>)

  /** Python truthiness of an optional string parameter: neither `None` nor "". */
  predicate Truthy(o: Option<string>)
  {
    o.Some? && o.value != ""
  }

  /** An optional integer parameter as `is not None` sees it. */
  predicate Given(o: Option<int>)
  {
    o.Some?
  }

  /** `_run_command`'s prefix: run as `become` through sudo when it is set. */
  function WithBecome(become: Option<string>, cmd: Argv): Argv
  {
    if Truthy(become) then ["sudo", "-u", become.value] + cmd else cmd
  }

  /**
   * The command always ends the vector, and exactly when `become` is truthy
   * it is preceded by `sudo -u become`.
   */
  lemma WithBecomeShape(become: Option<string>, cmd: Argv)
    ensures var r := WithBecome(become, cmd);
            && |cmd| <= |r| && r[|r| - |cmd|..] == cmd
            && (Truthy(become) <==> |r| > |cmd|)
            && (Truthy(become) ==> |r| == |cmd| + 3 && r[..3] == ["sudo", "-u", become.value])
  {
  }

  /** Drops a leading `sudo -u <user>`. */
  function WithoutBecome(r: Argv): Argv
  {
    if |r| >= 3 && r[0] == "sudo" && r[1] == "-u" then r[3..] else r
  }

  /**
   * Removing the prefix that `WithBecome` added recovers the command, and a
   * command that does not itself start with "sudo" tells whether a
   * prefix was added.
   */
  lemma BecomeRoundTrip(become: Option<string>, cmd: Argv)
    requires cmd == [] || cmd[0] != "sudo"
    ensures WithoutBecome(WithBecome(become, cmd)) == cmd
    ensures WithBecome(become, cmd) == cmd <==> !Truthy(become)
  {
  }
}
