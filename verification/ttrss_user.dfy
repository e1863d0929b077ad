/**
 * The Tiny Tiny RSS user module: it reconciles one tt-rss account with the
 * requested state through the `update.php` command-line interface, whose
 * user commands take a single colon-joined argument.
 */
module TtRss {
  import opened Wrappers
  import opened Text
  import opened Command

  datatype State = Present | Absent

  /** The module's parameters after Ansible has applied their defaults. */
  datatype Params = Params(
    name: string,
    state: State,
    password: Option<string>,
    accessLevel: int,
    apiEnabled: bool,
    phpBinary: string,
    ttrssPath: string,
    becomeUser: Option<string>)

  /** `TtRssUserManager`: its configuration never changes after construction. */
  datatype Manager = Manager(php: string, root: string, become: Option<string>)
  {
    function UpdateScript(): string
    {
      PathJoin(root, "update.php")
    }

    /** `[php, update.php, option, argument]`. */
    function Cmd(option: string, argument: string): Argv
    {
      [php, UpdateScript(), option, argument]
    }

    /** The argument vector `_run_command` hands to the runner for `cmd`. */
    function Full(cmd: Argv): Argv
    {
      WithBecome(become, cmd)
    }
  }

  function ManagerOf(p: Params): Manager
  {
    Manager(p.phpBinary, p.ttrssPath, p.becomeUser)
  }

  // ---------------------------------------------------------------- argument strings

  /** The `--user-add` argument: `user:password:level`. */
  function UserSpec(username: string, password: string, level: int): string
  {
    username + ":" + password + ":" + DecimalText(level)
  }

  /** The argument of both `--user-set-password` and `--user-check-password`: `user:password`. */
  function UserPass(username: string, password: string): string
  {
    username + ":" + password
  }

  /** The `--user-set-access-level` argument: `user:level`. */
  function UserLevel(username: string, level: int): string
  {
    username + ":" + DecimalText(level)
  }

  /** The `--user-enable-api` argument: `user:1` or `user:0`. */
  function ApiSetting(username: string, enabled: bool): string
  {
    username + ":" + (if enabled then "1" else "0")
  }

  lemma NoColonInDigits(n: nat)
    ensures ':' !in Digits(n)
  {
    var d := Digits(n);
    forall i | 0 <= i < |d|
      ensures d[i] != ':'
    {
      assert IsDigit(d[i]);
    }
  }

  /**
   * A user name without a colon is what precedes the first colon of the
   * `--user-add` argument, and the level is the number after the last one,
   * whatever colons the password holds.
   */
  lemma UserSpecFields(username: string, password: string, level: nat)
    requires ':' !in username
    ensures var s := UserSpec(username, password, level);
            && SplitFirst(s, ':').0 == username
            && LastIndex(s, ':') == |username| + 1 + |password|
            && s[|username| + 1..LastIndex(s, ':')] == password
            && s[LastIndex(s, ':') + 1..] == Digits(level)
            && DigitsValue(s[LastIndex(s, ':') + 1..]) == level
  {
    var s := UserSpec(username, password, level);
    UserSpecFirstColon(username, password, level);
    UserSpecLastColon(username, password, level);
    var k := LastIndex(s, ':');
    assert s[k + 1..] == Digits(level);
    DigitsRoundTrip(level);
  }

  lemma UserSpecFirstColon(username: string, password: string, level: int)
    requires ':' !in username
    ensures SplitFirst(UserSpec(username, password, level), ':').0 == username
  {
    var s := UserSpec(username, password, level);
    assert s == username + [':'] + (password + ":" + DecimalText(level));
    FirstIndexAfter(username, ':', password + ":" + DecimalText(level));
  }

  lemma UserSpecLastColon(username: string, password: string, level: nat)
    ensures var s := UserSpec(username, password, level);
            && LastIndex(s, ':') == |username| + 1 + |password|
            && s[|username| + 1..|username| + 1 + |password|] == password
            && s[|username| + 1 + |password| + 1..] == Digits(level)
  {
    var s := UserSpec(username, password, level);
    var digits := Digits(level);
    NoColonInDigits(level);
    assert s == (username + ":" + password) + [':'] + digits;
    LastIndexAfter(username + ":" + password, ':', digits);
  }

  /** A user name without a colon and the password are what the first colon separates. */
  lemma UserPassFields(username: string, password: string)
    requires ':' !in username
    ensures SplitFirst(UserPass(username, password), ':') == (username, password)
  {
    var s := UserPass(username, password);
    assert s == username + [':'] + password;
    FirstIndexAfter(username, ':', password);
    assert s[..|username|] == username && s[|username| + 1..] == password;
  }

  /** The last colon of the `--user-set-access-level` argument separates any user name from the level. */
  lemma UserLevelFields(username: string, level: nat)
    ensures var s := UserLevel(username, level);
            && LastIndex(s, ':') == |username|
            && s[..|username|] == username
            && DigitsValue(s[|username| + 1..]) == level
  {
    var s := UserLevel(username, level);
    NoColonInDigits(level);
    assert s == username + [':'] + Digits(level);
    LastIndexAfter(username, ':', Digits(level));
    assert s[|username| + 1..] == Digits(level);
    DigitsRoundTrip(level);
  }

  /** The API setting ends in '1' exactly when access is enabled, after `user:`. */
  lemma ApiSettingFields(username: string, enabled: bool)
    ensures var s := ApiSetting(username, enabled);
            && |s| == |username| + 2
            && s[..|username| + 1] == username + ":"
            && (s[|s| - 1] == '1' <==> enabled)
            && (s[|s| - 1] == '0' <==> !enabled)
  {
    var s := ApiSetting(username, enabled);
    assert s[..|username| + 1] == username + ":";
  }

  /** Distinct settings give distinct arguments: the encoding loses nothing. */
  lemma ApiSettingInjective(u1: string, e1: bool, u2: string, e2: bool)
    requires ApiSetting(u1, e1) == ApiSetting(u2, e2)
    ensures u1 == u2 && e1 == e2
  {
    ApiSettingFields(u1, e1);
    ApiSettingFields(u2, e2);
    var s := ApiSetting(u1, e1);
    assert u1 == s[..|u1|] && u2 == s[..|u2|];
  }

  // ---------------------------------------------------------------- commands

  function UserExistsCmd(m: Manager, username: string): Argv
  {
    m.Cmd("--user-exists", username)
  }

  function ListUsersCmd(m: Manager): Argv
  {
    [m.php, m.UpdateScript(), "--user-list"]
  }

  function AddUserCmd(m: Manager, username: string, password: string, level: int): Argv
  {
    m.Cmd("--user-add", UserSpec(username, password, level))
  }

  function RemoveUserCmd(m: Manager, username: string): Argv
  {
    m.Cmd("--user-remove", username)
  }

  function SetPasswordCmd(m: Manager, username: string, password: string): Argv
  {
    m.Cmd("--user-set-password", UserPass(username, password))
  }

  function CheckPasswordCmd(m: Manager, username: string, password: string): Argv
  {
    m.Cmd("--user-check-password", UserPass(username, password))
  }

  function AccessLevelCmd(m: Manager, username: string, level: int): Argv
  {
    m.Cmd("--user-set-access-level", UserLevel(username, level))
  }

  function ApiCmd(m: Manager, username: string, enabled: bool): Argv
  {
    m.Cmd("--user-enable-api", ApiSetting(username, enabled))
  }

  /** `user_exists`: the exit status of `--user-exists` alone decides. */
  method UserExists(m: Manager, username: string, run: Runner) returns (exists_: bool)
    ensures exists_ <==> run(m.Full(UserExistsCmd(m, username))).code == 0
  {
    var cmd := [m.php, m.UpdateScript(), "--user-exists", username];
    var res := run(m.Full(cmd));
    exists_ := res.code == 0;
  }

  /** `list_users` on the result of `--user-list`. */
  function ListedUsers(res: CmdResult): (users: seq<string>)
    ensures res.code != 0 || Strip(res.stdout) == [] ==> users == []
    ensures forall i :: 0 <= i < |users| ==> '\n' !in users[i]
  {
    if res.code == 0 && Strip(res.stdout) != [] then Split(Strip(res.stdout), '\n') else []
  }

  /** A successful, non-blank listing is the stripped output cut at its newlines: joining the names back gives it. */
  lemma ListedUsersJoin(res: CmdResult)
    requires res.code == 0 && Strip(res.stdout) != []
    ensures |ListedUsers(res)| >= 1
    ensures Join(ListedUsers(res), "\n") == Strip(res.stdout)
  {
    SplitJoin(Strip(res.stdout), '\n');
  }

  /** `list_users`. */
  method ListUsers(m: Manager, run: Runner) returns (users: seq<string>)
    ensures users == ListedUsers(run(m.Full(ListUsersCmd(m))))
  {
    var cmd := [m.php, m.UpdateScript(), "--user-list"];
    var res := run(m.Full(cmd));
    if res.code == 0 {
      var out := Strip(res.stdout);
      users := if out != [] then Split(out, '\n') else [];
    } else {
      users := [];
    }
  }

  /** `add_user`. */
  method AddUser(m: Manager, username: string, password: string, level: int, run: Runner)
    returns (success: bool, stdout: string, stderr: string)
    ensures var res := run(m.Full(AddUserCmd(m, username, password, level)));
            success == (res.code == 0) && stdout == res.stdout && stderr == res.stderr
  {
    var userSpec := username + ":" + password + ":" + DecimalText(level);
    var cmd := [m.php, m.UpdateScript(), "--user-add", userSpec];
    var res := run(m.Full(cmd));
    success, stdout, stderr := res.code == 0, res.stdout, res.stderr;
  }

  /** `remove_user`. */
  method RemoveUser(m: Manager, username: string, run: Runner) returns (success: bool, stdout: string, stderr: string)
    ensures var res := run(m.Full(RemoveUserCmd(m, username)));
            success == (res.code == 0) && stdout == res.stdout && stderr == res.stderr
  {
    var cmd := [m.php, m.UpdateScript(), "--user-remove", username];
    var res := run(m.Full(cmd));
    success, stdout, stderr := res.code == 0, res.stdout, res.stderr;
  }

  /** `set_password`. */
  method SetPassword(m: Manager, username: string, password: string, run: Runner)
    returns (success: bool, stdout: string, stderr: string)
    ensures var res := run(m.Full(SetPasswordCmd(m, username, password)));
            success == (res.code == 0) && stdout == res.stdout && stderr == res.stderr
  {
    var userPass := username + ":" + password;
    var cmd := [m.php, m.UpdateScript(), "--user-set-password", userPass];
    var res := run(m.Full(cmd));
    success, stdout, stderr := res.code == 0, res.stdout, res.stderr;
  }

  /** `check_password`: the exit status alone decides. */
  method CheckPassword(m: Manager, username: string, password: string, run: Runner) returns (matches: bool)
    ensures matches <==> run(m.Full(CheckPasswordCmd(m, username, password))).code == 0
  {
    var userPass := username + ":" + password;
    var cmd := [m.php, m.UpdateScript(), "--user-check-password", userPass];
    var res := run(m.Full(cmd));
    matches := res.code == 0;
  }

  /** `set_access_level`. */
  method SetAccessLevel(m: Manager, username: string, level: int, run: Runner)
    returns (success: bool, stdout: string, stderr: string)
    ensures var res := run(m.Full(AccessLevelCmd(m, username, level)));
            success == (res.code == 0) && stdout == res.stdout && stderr == res.stderr
  {
    var userLevel := username + ":" + DecimalText(level);
    var cmd := [m.php, m.UpdateScript(), "--user-set-access-level", userLevel];
    var res := run(m.Full(cmd));
    success, stdout, stderr := res.code == 0, res.stdout, res.stderr;
  }

  /** `set_api_access`. */
  method SetApiAccess(m: Manager, username: string, enabled: bool, run: Runner)
    returns (success: bool, stdout: string, stderr: string)
    ensures var res := run(m.Full(ApiCmd(m, username, enabled)));
            success == (res.code == 0) && stdout == res.stdout && stderr == res.stderr
  {
    var apiSetting := username + ":" + (if enabled then "1" else "0");
    var cmd := [m.php, m.UpdateScript(), "--user-enable-api", apiSetting];
    var res := run(m.Full(cmd));
    success, stdout, stderr := res.code == 0, res.stdout, res.stderr;
  }

  // ---------------------------------------------------------------- main

  /** How `main` ends for an existing user once `changes_made` is known. */
  function Summary(username: string, changes: seq<string>): (r: ModuleResult)
    ensures r.Exited? && r.userExists
    ensures r.changed <==> changes != []
  {
    if changes != [] then Exited(true, Greeting(username) + " updated: " + Join(changes, ", "), true)
    else Exited(false, Greeting(username) + " already exists with correct configuration", true)
  }

  /** The note the access-level step adds, given what `--user-set-access-level` returned. */
  function LevelNote(res: CmdResult, level: int): seq<string>
  {
    if res.code == 0 && !Contains(res.stdout, "access level " + DecimalText(level))
    then ["access level set to " + DecimalText(level)] else []
  }

  /** The note the API step adds, given what `--user-enable-api` returned. */
  function ApiNote(res: CmdResult, enabled: bool): seq<string>
  {
    if res.code == 0 then ["API access " + (if enabled then "enabled" else "disabled")] else []
  }

  /**
   * What the password block of `main` leaves behind: the entries it adds to
   * `changes_made`, the commands it runs, and the failure that ends the run.
   */
  datatype PasswordOutcome = PasswordOutcome(notes: seq<string>, issued: seq<Argv>, failure: Option<string>)

  /** The password block of `main`, as a function of what the commands return. */
  function PasswordPhase(m: Manager, p: Params, checkMode: bool, run: Runner): PasswordOutcome
  {
    if !Truthy(p.password) then PasswordOutcome([], [], None)
    else
      var check := m.Full(CheckPasswordCmd(m, p.name, p.password.value));
      var setCmd := m.Full(SetPasswordCmd(m, p.name, p.password.value));
      if run(check).code == 0 then PasswordOutcome([], [check], None)
      else if checkMode then PasswordOutcome(["password would be updated"], [check], None)
      else if run(setCmd).code == 0 then PasswordOutcome(["password updated"], [check] + [setCmd], None)
      else PasswordOutcome([], [check] + [setCmd], Some("Failed to update password for user " + p.name + ": " + run(setCmd).stderr))
  }

  /** `main` for a user that exists, as a function of what the commands return. */
  function UpdateExisting(m: Manager, p: Params, checkMode: bool, run: Runner): Run
  {
    var pw := PasswordPhase(m, p, checkMode, run);
    if pw.failure.Some? then Run(Failed(pw.failure.value), pw.issued)
    else if checkMode then Run(Summary(p.name, pw.notes), pw.issued)
    else
      var level := m.Full(AccessLevelCmd(m, p.name, p.accessLevel));
      var api := m.Full(ApiCmd(m, p.name, p.apiEnabled));
      Run(Summary(p.name, pw.notes + LevelNote(run(level), p.accessLevel) + ApiNote(run(api), p.apiEnabled)),
          pw.issued + [level] + [api])
  }

  /**
   * The password is checked exactly when one is given, and set only when
   * the check fails outside check mode; the only failure is a failed set.
   */
  lemma PasswordPhaseShape(m: Manager, p: Params, checkMode: bool, run: Runner)
    ensures var r := PasswordPhase(m, p, checkMode, run);
            && (|r.issued| >= 1 <==> Truthy(p.password))
            && (Truthy(p.password) ==> r.issued[0] == m.Full(CheckPasswordCmd(m, p.name, p.password.value)))
            && (|r.issued| == 2 <==>
                  Truthy(p.password) && !checkMode && run(m.Full(CheckPasswordCmd(m, p.name, p.password.value))).code != 0)
            && |r.issued| <= 2
            && (r.failure.Some? ==> |r.issued| == 2 && run(r.issued[1]).code != 0)
            && (checkMode ==> r.failure.None?)
  {
  }

  /**
   * In check mode nothing but the password check runs, and the only change
   * reported is the password, exactly when a password is given and the
   * check fails.
   */
  lemma CheckModeOnlyChecks(m: Manager, p: Params, run: Runner)
    ensures var r := UpdateExisting(m, p, true, run);
            var u := p.name;
            && (forall i :: 0 <= i < |r.issued| ==>
                  Truthy(p.password) && r.issued[i] == m.Full(CheckPasswordCmd(m, u, p.password.value)))
            && |r.issued| == (if Truthy(p.password) then 1 else 0)
            && r.result.Exited?
            && (r.result.changed <==> Truthy(p.password) && run(m.Full(CheckPasswordCmd(m, u, p.password.value))).code != 0)
            && (r.result.changed ==> r.result.msg == Greeting(u) + " updated: " + "password would be updated")
  {
    var pw := PasswordPhase(m, p, true, run);
    assert pw.failure.None?;
    assert |pw.issued| == (if Truthy(p.password) then 1 else 0);
    if pw.notes != [] {
      assert pw.notes == ["password would be updated"];
      assert Join(pw.notes, ", ") == "password would be updated";
    }
  }

  /**
   * Outside check mode the access level and the API setting are always
   * sent, last and in that order; a successful API call alone makes the
   * run report a change.
   */
  lemma AlwaysSetsLevelAndApi(m: Manager, p: Params, run: Runner)
    ensures var r := UpdateExisting(m, p, false, run);
            var u := p.name;
            r.result.Exited? ==>
              && |r.issued| >= 2
              && r.issued[|r.issued| - 2] == m.Full(AccessLevelCmd(m, u, p.accessLevel))
              && r.issued[|r.issued| - 1] == m.Full(ApiCmd(m, u, p.apiEnabled))
              && (run(m.Full(ApiCmd(m, u, p.apiEnabled))).code == 0 ==> r.result.changed)
  {
    var pw := PasswordPhase(m, p, false, run);
    if pw.failure.None? {
      var level := m.Full(AccessLevelCmd(m, p.name, p.accessLevel));
      var api := m.Full(ApiCmd(m, p.name, p.apiEnabled));
      var notes := pw.notes + LevelNote(run(level), p.accessLevel) + ApiNote(run(api), p.apiEnabled);
      var issued := pw.issued + [level] + [api];
      assert UpdateExisting(m, p, false, run) == Run(Summary(p.name, notes), issued);
      assert issued[|issued| - 2] == level && issued[|issued| - 1] == api;
      if run(api).code == 0 {
        assert notes[|notes| - 1] == ApiNote(run(api), p.apiEnabled)[0];
      }
    }
  }

  /**
   * Outside check mode the access-level entry is recorded exactly when the
   * call succeeds and its output does not mention the requested level.
   */
  lemma LevelNoteRecorded(m: Manager, p: Params, run: Runner)
    ensures var pw := PasswordPhase(m, p, false, run);
            var res := run(m.Full(AccessLevelCmd(m, p.name, p.accessLevel)));
            var notes := pw.notes + LevelNote(res, p.accessLevel) + ApiNote(run(m.Full(ApiCmd(m, p.name, p.apiEnabled))), p.apiEnabled);
            ("access level set to " + DecimalText(p.accessLevel) in notes)
              <==> res.code == 0 && !Contains(res.stdout, "access level " + DecimalText(p.accessLevel))
  {
    var note := "access level set to " + DecimalText(p.accessLevel);
    var pwNotes := PasswordPhase(m, p, false, run).notes;
    var api := ApiNote(run(m.Full(ApiCmd(m, p.name, p.apiEnabled))), p.apiEnabled);
    assert note[0] == 'a';
    forall i | 0 <= i < |pwNotes|
      ensures pwNotes[i] != note
    {
      assert pwNotes[i][0] == 'p';
    }
    forall i | 0 <= i < |api|
      ensures api[i] != note
    {
      assert api[i][0] == 'A';
    }
    assert note !in pwNotes && note !in api;
  }

  /** The set-password step of `main`, reached when the given password failed its check outside check mode. */
  method SetAfterFailedCheck(m: Manager, p: Params, run: Runner)
    returns (notes: seq<string>, issued: seq<Argv>, failure: Option<string>)
    requires Truthy(p.password)
    ensures var check := m.Full(CheckPasswordCmd(m, p.name, p.password.value));
            run(check).code != 0 ==> PasswordOutcome(notes, [check] + issued, failure) == PasswordPhase(m, p, false, run)
  {
    var name := p.name;
    var setCmd := m.Full(SetPasswordCmd(m, name, p.password.value));
    var success, _, stderr := SetPassword(m, name, p.password.value, run);
    issued := [setCmd];
    if success {
      notes, failure := ["password updated"], None;
    } else {
      notes, failure := [], Some("Failed to update password for user " + name + ": " + stderr);
    }
  }

  /** The password block of `main` (it ends the run when setting the password fails). */
  method UpdatePassword(m: Manager, p: Params, checkMode: bool, run: Runner)
    returns (notes: seq<string>, issued: seq<Argv>, failure: Option<string>)
    ensures PasswordOutcome(notes, issued, failure) == PasswordPhase(m, p, checkMode, run)
  {
    var name := p.name;
    notes, issued, failure := [], [], None;
    if Truthy(p.password) {
      var check := m.Full(CheckPasswordCmd(m, name, p.password.value));
      var matches := CheckPassword(m, name, p.password.value, run);
      issued := [check];
      if !matches {
        if !checkMode {
          var setIssued;
          notes, setIssued, failure := SetAfterFailedCheck(m, p, run);
          issued := issued + setIssued;
        } else {
          notes := notes + ["password would be updated"];
        }
      }
    }
  }

  /** The branch of `main` for a user that exists. */
  method ReconcileExisting(m: Manager, p: Params, checkMode: bool, run: Runner)
    returns (result: ModuleResult, issued: seq<Argv>)
    ensures result == UpdateExisting(m, p, checkMode, run).result
    ensures issued == UpdateExisting(m, p, checkMode, run).issued
  {
    var name := p.name;
    var changesMade, failure;
    changesMade, issued, failure := UpdatePassword(m, p, checkMode, run);
    if failure.Some? {
      return Failed(failure.value), issued;
    }

    ghost var passwordNotes := changesMade;
    if !checkMode {
      var success, stdout, _ := SetAccessLevel(m, name, p.accessLevel, run);
      issued := issued + [m.Full(AccessLevelCmd(m, name, p.accessLevel))];
      if success && !Contains(stdout, "access level " + DecimalText(p.accessLevel)) {
        changesMade := changesMade + ["access level set to " + DecimalText(p.accessLevel)];
      }
      assert changesMade == passwordNotes + LevelNote(run(m.Full(AccessLevelCmd(m, name, p.accessLevel))), p.accessLevel);
    }

    ghost var levelNotes := changesMade;
    if !checkMode {
      var success, _, _ := SetApiAccess(m, name, p.apiEnabled, run);
      issued := issued + [m.Full(ApiCmd(m, name, p.apiEnabled))];
      if success {
        var apiStatus := if p.apiEnabled then "enabled" else "disabled";
        changesMade := changesMade + ["API access " + apiStatus];
      }
      assert changesMade == levelNotes + ApiNote(run(m.Full(ApiCmd(m, name, p.apiEnabled))), p.apiEnabled);
    }

    if changesMade != [] {
      result := Exited(true, Greeting(name) + " updated: " + Join(changesMade, ", "), true);
    } else {
      result := Exited(false, Greeting(name) + " already exists with correct configuration", true);
    }
  }

  /**
   * `main`: brings the account to the requested state. `issued` lists the
   * commands handed to the runner, in order.
   */
  method Reconcile(p: Params, checkMode: bool, run: Runner) returns (result: ModuleResult, issued: seq<Argv>)
    ensures var m := ManagerOf(p);
            |issued| >= 1 && issued[0] == m.Full(UserExistsCmd(m, p.name))
    ensures var m := ManagerOf(p);
            var u := p.name;
            var existed := run(m.Full(UserExistsCmd(m, u))).code == 0;
            && (p.state == Absent && !existed ==>
                  result == Exited(false, Greeting(u) + " does not exist", false) && |issued| == 1)
            && (p.state == Absent && existed && checkMode ==>
                  result == Exited(true, "Would remove user " + u, true) && |issued| == 1)
            && (p.state == Absent && existed && !checkMode ==>
                  var res := run(m.Full(RemoveUserCmd(m, u)));
                  |issued| == 2 && issued[1] == m.Full(RemoveUserCmd(m, u)) &&
                  result == if res.code == 0 then Exited(true, Greeting(u) + " removed successfully", false)
                            else Failed("Failed to remove user " + u + ": " + res.stderr))
    ensures var m := ManagerOf(p);
            var u := p.name;
            var existed := run(m.Full(UserExistsCmd(m, u))).code == 0;
            p.state == Present && !existed ==>
              && (!Truthy(p.password) ==>
                    result == Failed("Password is required when creating a new user") && |issued| == 1)
              && (Truthy(p.password) && checkMode ==>
                    result == Exited(true, "Would create user " + u, false) && |issued| == 1)
              && (Truthy(p.password) && !checkMode ==>
                    var add := run(m.Full(AddUserCmd(m, u, p.password.value, p.accessLevel)));
                    var created := Greeting(u) + " created successfully";
                    && |issued| >= 2 && issued[1] == m.Full(AddUserCmd(m, u, p.password.value, p.accessLevel))
                    && (add.code != 0 ==>
                          result == Failed("Failed to create user " + u + ": " + add.stderr) && |issued| == 2)
                    && (add.code == 0 && !p.apiEnabled ==>
                          result == Exited(true, created, true) && |issued| == 2)
                    && (add.code == 0 && p.apiEnabled ==>
                          var api := run(m.Full(ApiCmd(m, u, true)));
                          |issued| == 3 && issued[2] == m.Full(ApiCmd(m, u, true)) &&
                          result == Exited(true, created + (if api.code == 0 then " with API access enabled"
                                                            else " but failed to enable API access"), true)))
    ensures var m := ManagerOf(p);
            var existed := run(m.Full(UserExistsCmd(m, p.name))).code == 0;
            p.state == Present && existed ==>
              var r := UpdateExisting(m, p, checkMode, run);
              result == r.result && issued[1..] == r.issued
  {
    var m := ManagerOf(p);
    var name := p.name;

    var userExists := UserExists(m, name, run);
    issued := [m.Full(UserExistsCmd(m, name))];

    if p.state == Present {
      if !userExists {
        if !Truthy(p.password) {
          return Failed("Password is required when creating a new user"), issued;
        }
        if checkMode {
          return Exited(true, "Would create user " + name, false), issued;
        }
        var success, _, stderr := AddUser(m, name, p.password.value, p.accessLevel, run);
        issued := issued + [m.Full(AddUserCmd(m, name, p.password.value, p.accessLevel))];
        if success {
          var msg := Greeting(name) + " created successfully";
          if p.apiEnabled {
            var apiSuccess, _, _ := SetApiAccess(m, name, true, run);
            issued := issued + [m.Full(ApiCmd(m, name, true))];
            if apiSuccess {
              msg := msg + " with API access enabled";
            } else {
              msg := msg + " but failed to enable API access";
            }
          }
          result := Exited(true, msg, true);
        } else {
          result := Failed("Failed to create user " + name + ": " + stderr);
        }
      } else {
        var more;
        result, more := ReconcileExisting(m, p, checkMode, run);
        issued := issued + more;
      }
    } else {
      if userExists {
        if checkMode {
          return Exited(true, "Would remove user " + name, true), issued;
        }
        var success, _, stderr := RemoveUser(m, name, run);
        issued := issued + [m.Full(RemoveUserCmd(m, name))];
        if success {
          result := Exited(true, Greeting(name) + " removed successfully", false);
        } else {
          result := Failed("Failed to remove user " + name + ": " + stderr);
        }
      } else {
        result := Exited(false, Greeting(name) + " does not exist", false);
      }
    }
  }
}
