/**
 * The FreshRSS user module: it reconciles one FreshRSS account with the
 * requested state by running the FreshRSS command-line scripts
 * (`list-users.php`, `user-info.php`, `create-user.php`,
 * `update-user.php`, `delete-user.php`) and parsing what they print.
 */
module FreshRss {
  import opened Wrappers
  import opened Text
  import opened Command

  datatype State = Present | Absent

  /** The module's parameters after Ansible has applied their defaults. */
  datatype Params = Params(
    username: string,
    state: State,
    password: Option<string>,
    email: Option<string>,
    apiPassword: Option<string>,
    language: Option<string>,
    token: Option<string>,
    purgeAfterMonths: Option<int>,
    feedMinArticlesDefault: Option<int>,
    feedTtlDefault: Option<int>,
    sinceHoursPostsPerRss: Option<int>,
    maxPostsPerRss: Option<int>,
    noDefaultFeeds: bool,
    phpBinary: string,
    freshrssPath: string,
    becomeUser: Option<string>)

  /** `FreshRssUserManager`: its configuration never changes after construction. */
  datatype Manager = Manager(php: string, root: string, become: Option<string>)
  {
    function CliPath(): string
    {
      PathJoin(root, "cli")
    }

    function Script(name: string): string
    {
      PathJoin(CliPath(), name)
    }

    /** The argument vector `_run_command` hands to the runner for `cmd`. */
    function Full(cmd: Argv): Argv
    {
      WithBecome(become, cmd)
    }
  }

  function ManagerOf(p: Params): Manager
  {
    Manager(p.phpBinary, p.freshrssPath, p.becomeUser)
  }

  // ---------------------------------------------------------------- list_users

  /** A stripped line that `list_users` keeps: not empty and not a header. */
  predicate IsUserLine(x: string)
  {
    x != "" && !StartsWith(x, "FreshRSS") && !StartsWith(x, "=")
  }

  /** The user names `list_users` collects from the lines of the listing, in order. */
  function UserLines(lines: seq<string>): seq<string>
  {
    if |lines| == 0 then []
    else
      var users := UserLines(lines[..|lines| - 1]);
      var clean := Strip(lines[|lines| - 1]);
      if IsUserLine(clean) then users + [clean] else users
  }

  /** Every collected name is a non-empty, stripped, non-header line, and there are no more names than lines. */
  lemma {:induction false} UserLinesClean(lines: seq<string>)
    ensures |UserLines(lines)| <= |lines|
    ensures forall i :: 0 <= i < |UserLines(lines)| ==> IsUserLine(UserLines(lines)[i]) && Stripped(UserLines(lines)[i])
  {
    if |lines| > 0 {
      UserLinesClean(lines[..|lines| - 1]);
    }
  }

  /** A name is listed exactly when it is a kept line and some line strips to it. */
  lemma {:induction false} UserLinesMembers(lines: seq<string>, x: string)
    ensures x in UserLines(lines) <==> IsUserLine(x) && exists i :: 0 <= i < |lines| && Strip(lines[i]) == x
  {
    if |lines| > 0 {
      var init := lines[..|lines| - 1];
      var clean := Strip(lines[|lines| - 1]);
      UserLinesMembers(init, x);
      assert UserLines(lines) == if IsUserLine(clean) then UserLines(init) + [clean] else UserLines(init);
      if x in UserLines(lines) {
        if x in UserLines(init) {
          var i :| 0 <= i < |init| && Strip(init[i]) == x;
          assert lines[i] == init[i];
        } else {
          assert x == clean;
        }
      }
      if IsUserLine(x) && exists i :: 0 <= i < |lines| && Strip(lines[i]) == x {
        var i :| 0 <= i < |lines| && Strip(lines[i]) == x;
        if i < |lines| - 1 {
          assert init[i] == lines[i];
        }
      }
    }
  }

  /** One more line of listing adds its stripped text when it is a kept line. */
  lemma UserLinesSnoc(lines: seq<string>, line: string)
    ensures UserLines(lines + [line]) ==
      if IsUserLine(Strip(line)) then UserLines(lines) + [Strip(line)] else UserLines(lines)
  {
    assert (lines + [line])[..|lines|] == lines;
  }

  /** Filtering keeps the listing's order: the users of two listings back to back are the users of each, in turn. */
  lemma {:induction false} UserLinesAppend(a: seq<string>, b: seq<string>)
    ensures UserLines(a + b) == UserLines(a) + UserLines(b)
  {
    if |b| == 0 {
      assert a + b == a;
    } else {
      var init := b[..|b| - 1];
      var last := b[|b| - 1];
      assert a + b == (a + init) + [last];
      assert b == init + [last];
      UserLinesAppend(a, init);
      UserLinesSnoc(a + init, last);
      UserLinesSnoc(init, last);
    }
  }

  function ListUsersCmd(m: Manager): Argv
  {
    [m.php, m.Script("list-users.php")]
  }

  /** The lines `list_users` examines: the stripped output split at newlines. */
  function ListingLines(res: CmdResult): seq<string>
  {
    Split(Strip(res.stdout), '\n')
  }

  /** What `list_users` returns for the listing command's result. */
  function ListedUsers(res: CmdResult): (users: seq<string>)
    ensures res.code != 0 ==> users == []
  {
    if res.code == 0 then UserLines(ListingLines(res)) else []
  }

  /** `list_users`. */
  method ListUsers(m: Manager, run: Runner) returns (users: seq<string>)
    ensures users == ListedUsers(run(m.Full(ListUsersCmd(m))))
  {
    var res := run(m.Full(ListUsersCmd(m)));
    users := [];
    if res.code == 0 {
      users := CollectUsers(Split(Strip(res.stdout), '\n'));
    }
  }

  /** The loop of `list_users` over the lines of a successful listing. */
  method CollectUsers(lines: seq<string>) returns (users: seq<string>)
    ensures users == UserLines(lines)
  {
    users := [];
    var i := 0;
    while i < |lines|
      invariant 0 <= i <= |lines|
      invariant users == UserLines(lines[..i])
    {
      var line := lines[i];
      if Strip(line) != "" {
        var clean := Strip(line);
        if IsUserLine(clean) {
          users := users + [clean];
        }
      }
      UserLinesSnoc(lines[..i], line);
      assert lines[..i + 1] == lines[..i] + [line];
      i := i + 1;
    }
    assert lines[..|lines|] == lines;
  }

  /** `user_exists`: membership in what `list_users` returns. */
  method UserExists(m: Manager, username: string, run: Runner) returns (exists_: bool)
    ensures exists_ <==> username in ListedUsers(run(m.Full(ListUsersCmd(m))))
  {
    var users := ListUsers(m, run);
    exists_ := username in users;
  }

  /**
   * Which names can be found at all: only a kept line of a successful
   * listing. A user whose name starts with "FreshRSS" or "=", or has
   * surrounding whitespace, is never seen as existing.
   */
  lemma ExistsOnlyIfListed(res: CmdResult, username: string)
    ensures username in ListedUsers(res) <==>
      res.code == 0 && IsUserLine(username) &&
      exists i :: 0 <= i < |ListingLines(res)| && Strip(ListingLines(res)[i]) == username
  {
    if res.code == 0 {
      UserLinesMembers(ListingLines(res), username);
    }
  }

  // ---------------------------------------------------------------- get_user_info

  function UserInfoCmd(m: Manager, username: string): Argv
  {
    [m.php, m.Script("user-info.php"), "--user", username]
  }

  /** The key of a `key: value` line: the text before the first colon, stripped and lower-cased. */
  function InfoKey(line: string): string
    requires ':' in line
  {
    Lower(Strip(SplitFirst(line, ':').0))
  }

  /** The value of a `key: value` line: everything after the first colon, stripped. */
  function InfoValue(line: string): string
    requires ':' in line
  {
    Strip(SplitFirst(line, ':').1)
  }

  /** The dictionary `get_user_info` fills from the lines, one line after another. */
  function InfoOf(lines: seq<string>): map<string, string>
  {
    if |lines| == 0 then map[]
    else
      var info := InfoOf(lines[..|lines| - 1]);
      var line := lines[|lines| - 1];
      if ':' in line then info[InfoKey(line) := InfoValue(line)] else info
  }

  /** Whether line `i` is a `key: value` line for key `k`. */
  predicate DefinesKey(lines: seq<string>, i: int, k: string)
    requires 0 <= i < |lines|
  {
    ':' in lines[i] && InfoKey(lines[i]) == k
  }

  /** One more line adds its key, if it has one, to the keys already there. */
  lemma InfoOfStep(lines: seq<string>, k: string)
    requires |lines| > 0
    ensures k in InfoOf(lines) <==> k in InfoOf(lines[..|lines| - 1]) || DefinesKey(lines, |lines| - 1, k)
  {
  }

  /** A key is present exactly when some line with a colon yields it. */
  lemma {:induction false} InfoOfKeys(lines: seq<string>, k: string)
    ensures k in InfoOf(lines) <==> exists i :: 0 <= i < |lines| && DefinesKey(lines, i, k)
  {
    if |lines| > 0 {
      var n := |lines| - 1;
      var init := lines[..n];
      InfoOfStep(lines, k);
      InfoOfKeys(init, k);
      forall i | 0 <= i < n
        ensures DefinesKey(init, i, k) == DefinesKey(lines, i, k)
      {
        assert init[i] == lines[i];
      }
    }
  }

  /** The value of a key comes from the last line that defines it: later duplicates win. */
  lemma {:induction false} InfoOfLastWins(lines: seq<string>, i: int, k: string)
    requires 0 <= i < |lines| && DefinesKey(lines, i, k)
    requires forall j :: i < j < |lines| ==> !DefinesKey(lines, j, k)
    ensures k in InfoOf(lines) && InfoOf(lines)[k] == InfoValue(lines[i])
  {
    var n := |lines| - 1;
    var init := lines[..n];
    if i < n {
      assert DefinesKey(init, i, k);
      forall j | i < j < n
        ensures !DefinesKey(init, j, k)
      {
        assert init[j] == lines[j];
        assert !DefinesKey(lines, j, k);
      }
      InfoOfLastWins(init, i, k);
      assert !DefinesKey(lines, n, k);
    }
  }

  /** What `get_user_info` returns for the info command's result: `{}` unless it succeeded. */
  function UserInfo(res: CmdResult): (info: map<string, string>)
    ensures res.code != 0 ==> info == map[]
  {
    if res.code == 0 then InfoOf(Split(res.stdout, '\n')) else map[]
  }

  /** `get_user_info`. */
  method GetUserInfo(m: Manager, username: string, run: Runner) returns (info: map<string, string>)
    ensures info == UserInfo(run(m.Full(UserInfoCmd(m, username))))
  {
    var cmd := [m.php, m.Script("user-info.php")];
    cmd := cmd + ["--user", username];
    assert cmd == UserInfoCmd(m, username);
    var res := run(m.Full(cmd));
    info := map[];
    if res.code == 0 {
      info := CollectInfo(Split(res.stdout, '\n'));
    }
  }

  /** The loop of `get_user_info` over the lines of a successful query. */
  method CollectInfo(lines: seq<string>) returns (info: map<string, string>)
    ensures info == InfoOf(lines)
  {
    info := map[];
    var i := 0;
    while i < |lines|
      invariant 0 <= i <= |lines|
      invariant info == InfoOf(lines[..i])
    {
      var line := lines[i];
      if ':' in line {
        var (key, value) := SplitFirst(line, ':');
        info := info[Lower(Strip(key)) := Strip(value)];
      }
      assert lines[..i + 1][..i] == lines[..i];
      i := i + 1;
    }
    assert lines[..|lines|] == lines;
  }

  /** `info.get(key, '')`. */
  function InfoGet(info: map<string, string>, key: string): string
  {
    if key in info then info[key] else ""
  }

  // ---------------------------------------------------------------- argument vectors

  /** A command-line option: a flag with its value, or a flag alone. */
  datatype CliOption = Valued(flag: string, value: string) | Switch(flag: string)

  /** The one flag the scripts take without a value. */
  const NoDefaultFeeds: string := "--no-default-feeds"

  function EncodeOption(o: CliOption): Argv
  {
    match o
    case Valued(f, v) => [f, v]
    case Switch(f) => [f]
  }

  /** The options as they appear on the command line. */
  function Encode(opts: seq<CliOption>): Argv
  {
    if |opts| == 0 then [] else EncodeOption(opts[0]) + Encode(opts[1..])
  }

  lemma {:induction false} EncodeAppend(a: seq<CliOption>, b: seq<CliOption>)
    ensures Encode(a + b) == Encode(a) + Encode(b)
  {
    if |a| == 0 {
      assert a + b == b;
    } else {
      assert (a + b)[0] == a[0];
      assert (a + b)[1..] == a[1..] + b;
      EncodeAppend(a[1..], b);
    }
  }

  /** How the scripts read their options: a flag takes the next word as its value unless it is a switch. */
  function Decode(args: Argv): Option<seq<CliOption>>
  {
    if |args| == 0 then Some([])
    else if args[0] == NoDefaultFeeds then
      match Decode(args[1..])
      case Some(rest) => Some([Switch(args[0])] + rest)
      case None => None
    else if |args| >= 2 then
      match Decode(args[2..])
      case Some(rest) => Some([Valued(args[0], args[1])] + rest)
      case None => None
    else None
  }

  /** Every valued flag is not the switch, and every switch is. */
  predicate WellFormed(opts: seq<CliOption>)
  {
    forall i :: 0 <= i < |opts| ==> (opts[i].Switch? <==> opts[i].flag == NoDefaultFeeds)
  }

  /** Reading the options back from the command line gives exactly the options written. */
  lemma {:induction false} DecodeEncode(opts: seq<CliOption>)
    requires WellFormed(opts)
    ensures Decode(Encode(opts)) == Some(opts)
  {
    if |opts| > 0 {
      DecodeEncode(opts[1..]);
      var args := Encode(opts);
      assert args == EncodeOption(opts[0]) + Encode(opts[1..]);
      match opts[0]
      case Valued(f, v) =>
        assert args[2..] == Encode(opts[1..]);
        assert opts == [Valued(f, v)] + opts[1..];
      case Switch(f) =>
        assert args[1..] == Encode(opts[1..]);
        assert opts == [Switch(f)] + opts[1..];
    }
  }

  /** `[flag, value]` when the string parameter is truthy. */
  function ValuedIf(flag: string, v: Option<string>): seq<CliOption>
  {
    if Truthy(v) then [Valued(flag, v.value)] else []
  }

  /** `[flag, str(n)]` when the integer parameter is not `None`. */
  function NumberIf(flag: string, n: Option<int>): seq<CliOption>
  {
    if Given(n) then [Valued(flag, DecimalText(n.value))] else []
  }

  /** The words `cmd.extend([flag, value])` adds when the string parameter is truthy. */
  function ArgIf(flag: string, v: Option<string>): Argv
  {
    if Truthy(v) then [flag, v.value] else []
  }

  /** The words `cmd.extend([flag, str(n)])` adds when the integer parameter is not `None`. */
  function NumberArgIf(flag: string, n: Option<int>): Argv
  {
    if Given(n) then [flag, DecimalText(n.value)] else []
  }

  /** The options `add_user` passes, in the order it adds them. */
  function CreateOptions(p: Params): seq<CliOption>
  {
    ValuedIf("--password", p.password)
    + ValuedIf("--api-password", p.apiPassword)
    + ValuedIf("--email", p.email)
    + ValuedIf("--language", p.language)
    + ValuedIf("--token", p.token)
    + NumberIf("--purge-after-months", p.purgeAfterMonths)
    + NumberIf("--feed-min-articles-default", p.feedMinArticlesDefault)
    + NumberIf("--feed-ttl-default", p.feedTtlDefault)
    + NumberIf("--since-hours-posts-per-rss", p.sinceHoursPostsPerRss)
    + NumberIf("--max-posts-per-rss", p.maxPostsPerRss)
    + (if p.noDefaultFeeds then [Switch(NoDefaultFeeds)] else [])
  }

  /** The command `add_user` builds. */
  function CreateUserCmd(m: Manager, p: Params): Argv
  {
    [m.php, m.Script("create-user.php"), "--user", p.username]
    + ArgIf("--password", p.password)
    + ArgIf("--api-password", p.apiPassword)
    + ArgIf("--email", p.email)
    + ArgIf("--language", p.language)
    + ArgIf("--token", p.token)
    + NumberArgIf("--purge-after-months", p.purgeAfterMonths)
    + NumberArgIf("--feed-min-articles-default", p.feedMinArticlesDefault)
    + NumberArgIf("--feed-ttl-default", p.feedTtlDefault)
    + NumberArgIf("--since-hours-posts-per-rss", p.sinceHoursPostsPerRss)
    + NumberArgIf("--max-posts-per-rss", p.maxPostsPerRss)
    + (if p.noDefaultFeeds then [NoDefaultFeeds] else [])
  }

  lemma EncodeStep(head: Argv, opts: seq<CliOption>, part: seq<CliOption>, cmd: Argv, partArgs: Argv)
    requires cmd == head + Encode(opts)
    requires Encode(part) == partArgs
    ensures cmd + partArgs == head + Encode(opts + part)
  {
    EncodeAppend(opts, part);
    AppendAssoc(head, Encode(opts), Encode(part));
  }

  /** Solver hint: regroups a concatenation of argument words; it models no source statement. */
  lemma AppendAssoc(a: Argv, b: Argv, c: Argv)
    ensures a + b + c == a + (b + c)
  {
  }

  lemma WellFormedAppend(a: seq<CliOption>, b: seq<CliOption>)
    requires WellFormed(a) && WellFormed(b)
    ensures WellFormed(a + b)
  {
    forall i | 0 <= i < |a + b|
      ensures (a + b)[i].Switch? <==> (a + b)[i].flag == NoDefaultFeeds
    {
      if i >= |a| {
        assert (a + b)[i] == b[i - |a|];
      }
    }
  }

  /** The options of `add_user` are well formed: only the switch stands alone. */
  lemma {:induction false} CreateOptionsWellFormed(p: Params)
    ensures WellFormed(CreateOptions(p))
  {
    assert "--feed-ttl-default"[2] != NoDefaultFeeds[2];
    var acc: seq<CliOption> := [];
    AppendValuedWellFormed(acc, "--password", p.password);
    acc := acc + ValuedIf("--password", p.password);
    assert acc == ValuedIf("--password", p.password);
    AppendValuedWellFormed(acc, "--api-password", p.apiPassword);
    acc := acc + ValuedIf("--api-password", p.apiPassword);
    AppendValuedWellFormed(acc, "--email", p.email);
    acc := acc + ValuedIf("--email", p.email);
    AppendValuedWellFormed(acc, "--language", p.language);
    acc := acc + ValuedIf("--language", p.language);
    AppendValuedWellFormed(acc, "--token", p.token);
    acc := acc + ValuedIf("--token", p.token);
    AppendNumberWellFormed(acc, "--purge-after-months", p.purgeAfterMonths);
    acc := acc + NumberIf("--purge-after-months", p.purgeAfterMonths);
    AppendNumberWellFormed(acc, "--feed-min-articles-default", p.feedMinArticlesDefault);
    acc := acc + NumberIf("--feed-min-articles-default", p.feedMinArticlesDefault);
    AppendNumberWellFormed(acc, "--feed-ttl-default", p.feedTtlDefault);
    acc := acc + NumberIf("--feed-ttl-default", p.feedTtlDefault);
    AppendNumberWellFormed(acc, "--since-hours-posts-per-rss", p.sinceHoursPostsPerRss);
    acc := acc + NumberIf("--since-hours-posts-per-rss", p.sinceHoursPostsPerRss);
    AppendNumberWellFormed(acc, "--max-posts-per-rss", p.maxPostsPerRss);
    acc := acc + NumberIf("--max-posts-per-rss", p.maxPostsPerRss);
    var last: seq<CliOption> := if p.noDefaultFeeds then [Switch(NoDefaultFeeds)] else [];
    WellFormedAppend(acc, last);
  }

  /** Appending one more valued option keeps a list of options well formed. */
  lemma AppendValuedWellFormed(acc: seq<CliOption>, flag: string, v: Option<string>)
    requires WellFormed(acc) && flag != NoDefaultFeeds
    ensures WellFormed(acc + ValuedIf(flag, v))
  {
    WellFormedAppend(acc, ValuedIf(flag, v));
  }

  /** Appending one more numeric option keeps a list of options well formed. */
  lemma AppendNumberWellFormed(acc: seq<CliOption>, flag: string, n: Option<int>)
    requires WellFormed(acc) && flag != NoDefaultFeeds
    ensures WellFormed(acc + NumberIf(flag, n))
  {
    WellFormedAppend(acc, NumberIf(flag, n));
  }

  /** The words after the user name are exactly the options of `add_user`, written out. */
  lemma {:induction false} CreateUserCmdEncodes(m: Manager, p: Params)
    ensures CreateUserCmd(m, p)[..4] == [m.php, m.Script("create-user.php"), "--user", p.username]
    ensures CreateUserCmd(m, p)[4..] == Encode(CreateOptions(p))
  {
    var head := [m.php, m.Script("create-user.php"), "--user", p.username];
    var opts := ValuedIf("--password", p.password);
    var cmd := head + ArgIf("--password", p.password);
    EncodeValuedIf("--password", p.password);
    EncodeValuedIf("--api-password", p.apiPassword);
    EncodeStep(head, opts, ValuedIf("--api-password", p.apiPassword), cmd, ArgIf("--api-password", p.apiPassword));
    opts, cmd := opts + ValuedIf("--api-password", p.apiPassword), cmd + ArgIf("--api-password", p.apiPassword);
    EncodeValuedIf("--email", p.email);
    EncodeStep(head, opts, ValuedIf("--email", p.email), cmd, ArgIf("--email", p.email));
    opts, cmd := opts + ValuedIf("--email", p.email), cmd + ArgIf("--email", p.email);
    EncodeValuedIf("--language", p.language);
    EncodeStep(head, opts, ValuedIf("--language", p.language), cmd, ArgIf("--language", p.language));
    opts, cmd := opts + ValuedIf("--language", p.language), cmd + ArgIf("--language", p.language);
    EncodeValuedIf("--token", p.token);
    EncodeStep(head, opts, ValuedIf("--token", p.token), cmd, ArgIf("--token", p.token));
    opts, cmd := opts + ValuedIf("--token", p.token), cmd + ArgIf("--token", p.token);
    EncodeNumberIf("--purge-after-months", p.purgeAfterMonths);
    EncodeStep(head, opts, NumberIf("--purge-after-months", p.purgeAfterMonths), cmd, NumberArgIf("--purge-after-months", p.purgeAfterMonths));
    opts, cmd := opts + NumberIf("--purge-after-months", p.purgeAfterMonths), cmd + NumberArgIf("--purge-after-months", p.purgeAfterMonths);
    EncodeNumberIf("--feed-min-articles-default", p.feedMinArticlesDefault);
    EncodeStep(head, opts, NumberIf("--feed-min-articles-default", p.feedMinArticlesDefault), cmd, NumberArgIf("--feed-min-articles-default", p.feedMinArticlesDefault));
    opts, cmd := opts + NumberIf("--feed-min-articles-default", p.feedMinArticlesDefault), cmd + NumberArgIf("--feed-min-articles-default", p.feedMinArticlesDefault);
    EncodeNumberIf("--feed-ttl-default", p.feedTtlDefault);
    EncodeStep(head, opts, NumberIf("--feed-ttl-default", p.feedTtlDefault), cmd, NumberArgIf("--feed-ttl-default", p.feedTtlDefault));
    opts, cmd := opts + NumberIf("--feed-ttl-default", p.feedTtlDefault), cmd + NumberArgIf("--feed-ttl-default", p.feedTtlDefault);
    EncodeNumberIf("--since-hours-posts-per-rss", p.sinceHoursPostsPerRss);
    EncodeStep(head, opts, NumberIf("--since-hours-posts-per-rss", p.sinceHoursPostsPerRss), cmd, NumberArgIf("--since-hours-posts-per-rss", p.sinceHoursPostsPerRss));
    opts, cmd := opts + NumberIf("--since-hours-posts-per-rss", p.sinceHoursPostsPerRss), cmd + NumberArgIf("--since-hours-posts-per-rss", p.sinceHoursPostsPerRss);
    EncodeNumberIf("--max-posts-per-rss", p.maxPostsPerRss);
    EncodeStep(head, opts, NumberIf("--max-posts-per-rss", p.maxPostsPerRss), cmd, NumberArgIf("--max-posts-per-rss", p.maxPostsPerRss));
    opts, cmd := opts + NumberIf("--max-posts-per-rss", p.maxPostsPerRss), cmd + NumberArgIf("--max-posts-per-rss", p.maxPostsPerRss);
    var switch: seq<CliOption> := if p.noDefaultFeeds then [Switch(NoDefaultFeeds)] else [];
    var switchArgs: Argv := if p.noDefaultFeeds then [NoDefaultFeeds] else [];
    assert Encode(switch) == switchArgs by {
      if p.noDefaultFeeds {
        assert Encode(switch) == EncodeOption(Switch(NoDefaultFeeds)) + Encode([]);
      }
    }
    EncodeStep(head, opts, switch, cmd, switchArgs);
    opts, cmd := opts + switch, cmd + switchArgs;
    DropHead(head, Encode(opts));
    assert (head + Encode(opts))[..4] == head;
  }

  /**
   * The create command names the user first, and the script reads back
   * exactly the options `add_user` meant to pass.
   */
  lemma CreateUserCmdDecodes(m: Manager, p: Params)
    ensures CreateUserCmd(m, p)[..4] == [m.php, m.Script("create-user.php"), "--user", p.username]
    ensures Decode(CreateUserCmd(m, p)[4..]) == Some(CreateOptions(p))
  {
    CreateOptionsWellFormed(p);
    DecodeEncode(CreateOptions(p));
    CreateUserCmdEncodes(m, p);
  }

  /** The password option is passed exactly when a non-empty password is given. */
  lemma CreateOptionsPassword(p: Params)
    ensures Valued("--password", p.password.GetOr("")) in CreateOptions(p) <==> Truthy(p.password)
  {
    var x := Valued("--password", p.password.GetOr(""));
    assert "--password"[2] != "--language"[2];
    NotValuedIf(x, "--api-password", p.apiPassword);
    NotValuedIf(x, "--email", p.email);
    NotValuedIf(x, "--language", p.language);
    NotValuedIf(x, "--token", p.token);
    NotNumberIf(x, "--purge-after-months", p.purgeAfterMonths);
    NotNumberIf(x, "--feed-min-articles-default", p.feedMinArticlesDefault);
    NotNumberIf(x, "--feed-ttl-default", p.feedTtlDefault);
    NotNumberIf(x, "--since-hours-posts-per-rss", p.sinceHoursPostsPerRss);
    NotNumberIf(x, "--max-posts-per-rss", p.maxPostsPerRss);
  }

  /** The e-mail option is passed exactly when a non-empty address is given. */
  lemma CreateOptionsEmail(p: Params)
    ensures Valued("--email", p.email.GetOr("")) in CreateOptions(p) <==> Truthy(p.email)
  {
    var x := Valued("--email", p.email.GetOr(""));
    assert "--email"[2] != "--token"[2];
    NotValuedIf(x, "--password", p.password);
    NotValuedIf(x, "--api-password", p.apiPassword);
    NotValuedIf(x, "--language", p.language);
    NotValuedIf(x, "--token", p.token);
    NotNumberIf(x, "--purge-after-months", p.purgeAfterMonths);
    NotNumberIf(x, "--feed-min-articles-default", p.feedMinArticlesDefault);
    NotNumberIf(x, "--feed-ttl-default", p.feedTtlDefault);
    NotNumberIf(x, "--since-hours-posts-per-rss", p.sinceHoursPostsPerRss);
    NotNumberIf(x, "--max-posts-per-rss", p.maxPostsPerRss);
  }

  /** The language option is passed exactly when a non-empty language is given. */
  lemma CreateOptionsLanguage(p: Params)
    ensures Valued("--language", p.language.GetOr("")) in CreateOptions(p) <==> Truthy(p.language)
  {
    var x := Valued("--language", p.language.GetOr(""));
    assert "--password"[2] != "--language"[2];
    NotValuedIf(x, "--password", p.password);
    NotValuedIf(x, "--api-password", p.apiPassword);
    NotValuedIf(x, "--email", p.email);
    NotValuedIf(x, "--token", p.token);
    NotNumberIf(x, "--purge-after-months", p.purgeAfterMonths);
    NotNumberIf(x, "--feed-min-articles-default", p.feedMinArticlesDefault);
    NotNumberIf(x, "--feed-ttl-default", p.feedTtlDefault);
    NotNumberIf(x, "--since-hours-posts-per-rss", p.sinceHoursPostsPerRss);
    NotNumberIf(x, "--max-posts-per-rss", p.maxPostsPerRss);
  }

  lemma NotValuedIf(x: CliOption, flag: string, v: Option<string>)
    requires x.Switch? || x.flag != flag
    ensures x !in ValuedIf(flag, v)
  {
  }

  lemma NotNumberIf(x: CliOption, flag: string, n: Option<int>)
    requires x.Switch? || x.flag != flag
    ensures x !in NumberIf(flag, n)
  {
  }

  /** The switch is passed exactly when it is set, and then it comes last. */
  lemma CreateOptionsSwitch(p: Params)
    ensures Switch(NoDefaultFeeds) in CreateOptions(p) <==> p.noDefaultFeeds
    ensures p.noDefaultFeeds ==> CreateOptions(p)[|CreateOptions(p)| - 1] == Switch(NoDefaultFeeds)
  {
    var x := Switch(NoDefaultFeeds);
    NotValuedIf(x, "--password", p.password);
    NotValuedIf(x, "--api-password", p.apiPassword);
    NotValuedIf(x, "--email", p.email);
    NotValuedIf(x, "--language", p.language);
    NotValuedIf(x, "--token", p.token);
    NotNumberIf(x, "--purge-after-months", p.purgeAfterMonths);
    NotNumberIf(x, "--feed-min-articles-default", p.feedMinArticlesDefault);
    NotNumberIf(x, "--feed-ttl-default", p.feedTtlDefault);
    NotNumberIf(x, "--since-hours-posts-per-rss", p.sinceHoursPostsPerRss);
    NotNumberIf(x, "--max-posts-per-rss", p.maxPostsPerRss);
  }

  /** `if value: cmd.extend([flag, value])`. */
  method ExtendIf(cmd: Argv, flag: string, v: Option<string>) returns (r: Argv)
    ensures r == cmd + ArgIf(flag, v)
  {
    r := cmd;
    if Truthy(v) {
      r := r + [flag, v.value];
    }
  }

  /** `if n is not None: cmd.extend([flag, str(n)])`. */
  method ExtendIfGiven(cmd: Argv, flag: string, n: Option<int>) returns (r: Argv)
    ensures r == cmd + NumberArgIf(flag, n)
  {
    r := cmd;
    if Given(n) {
      r := r + [flag, DecimalText(n.value)];
    }
  }

  /** `add_user`: builds the command step by step and reports whether it exited with 0. */
  method AddUser(m: Manager, p: Params, run: Runner) returns (success: bool, stdout: string, stderr: string)
    ensures var res := run(m.Full(CreateUserCmd(m, p)));
            success == (res.code == 0) && stdout == res.stdout && stderr == res.stderr
  {
    var cmd := [m.php, m.Script("create-user.php")];
    cmd := cmd + ["--user", p.username];
    assert cmd == [m.php, m.Script("create-user.php"), "--user", p.username];
    cmd := ExtendIf(cmd, "--password", p.password);
    cmd := ExtendIf(cmd, "--api-password", p.apiPassword);
    cmd := ExtendIf(cmd, "--email", p.email);
    cmd := ExtendIf(cmd, "--language", p.language);
    cmd := ExtendIf(cmd, "--token", p.token);
    cmd := ExtendIfGiven(cmd, "--purge-after-months", p.purgeAfterMonths);
    cmd := ExtendIfGiven(cmd, "--feed-min-articles-default", p.feedMinArticlesDefault);
    cmd := ExtendIfGiven(cmd, "--feed-ttl-default", p.feedTtlDefault);
    cmd := ExtendIfGiven(cmd, "--since-hours-posts-per-rss", p.sinceHoursPostsPerRss);
    cmd := ExtendIfGiven(cmd, "--max-posts-per-rss", p.maxPostsPerRss);
    if p.noDefaultFeeds {
      cmd := cmd + [NoDefaultFeeds];
    }
    assert cmd == CreateUserCmd(m, p);
    var res := run(m.Full(cmd));
    success, stdout, stderr := res.code == 0, res.stdout, res.stderr;
  }

  function DeleteUserCmd(m: Manager, username: string): Argv
  {
    [m.php, m.Script("delete-user.php"), "--user", username]
  }

  /** `remove_user`. */
  method RemoveUser(m: Manager, username: string, run: Runner) returns (success: bool, stdout: string, stderr: string)
    ensures var res := run(m.Full(DeleteUserCmd(m, username)));
            success == (res.code == 0) && stdout == res.stdout && stderr == res.stderr
  {
    var cmd := [m.php, m.Script("delete-user.php")];
    cmd := cmd + ["--user", username];
    assert cmd == DeleteUserCmd(m, username);
    var res := run(m.Full(cmd));
    success, stdout, stderr := res.code == 0, res.stdout, res.stderr;
  }

  /** The options `update_user` passes, in the order it adds them. */
  function UpdateOptions(password: Option<string>, email: Option<string>, language: Option<string>): seq<CliOption>
  {
    ValuedIf("--password", password) + ValuedIf("--email", email) + ValuedIf("--language", language)
  }

  /** The command `update_user` builds. */
  function UpdateUserCmd(m: Manager, username: string, password: Option<string>, email: Option<string>,
                         language: Option<string>): Argv
  {
    [m.php, m.Script("update-user.php"), "--user", username]
    + ArgIf("--password", password) + ArgIf("--email", email) + ArgIf("--language", language)
  }

  lemma EncodeValuedIf(flag: string, v: Option<string>)
    ensures Encode(ValuedIf(flag, v)) == ArgIf(flag, v)
  {
    if Truthy(v) {
      assert Encode(ValuedIf(flag, v)) == EncodeOption(Valued(flag, v.value)) + Encode([]);
    }
  }

  lemma EncodeNumberIf(flag: string, n: Option<int>)
    ensures Encode(NumberIf(flag, n)) == NumberArgIf(flag, n)
  {
    if Given(n) {
      assert Encode(NumberIf(flag, n)) == EncodeOption(Valued(flag, DecimalText(n.value))) + Encode([]);
    }
  }

  /** Solver hint: dropping a prefix of known length leaves the rest; it models no source statement. */
  lemma DropHead(head: Argv, tail: Argv)
    ensures (head + tail)[|head|..] == tail
  {
  }

  /** The words after the user name are exactly the options of `update_user`, written out. */
  lemma UpdateUserCmdEncodes(m: Manager, username: string, password: Option<string>, email: Option<string>,
                             language: Option<string>)
    ensures UpdateUserCmd(m, username, password, email, language)[4..] == Encode(UpdateOptions(password, email, language))
  {
    var a, b, c := ValuedIf("--password", password), ValuedIf("--email", email), ValuedIf("--language", language);
    var x, y, z := ArgIf("--password", password), ArgIf("--email", email), ArgIf("--language", language);
    EncodeValuedIf("--password", password);
    EncodeValuedIf("--email", email);
    EncodeValuedIf("--language", language);
    EncodeAppend(a, b);
    EncodeAppend(a + b, c);
    var head := [m.php, m.Script("update-user.php"), "--user", username];
    DropHead(head, x + y + z);
  }

  /** The update script reads back exactly the options `update_user` meant to pass. */
  lemma UpdateUserCmdDecodes(m: Manager, username: string, password: Option<string>, email: Option<string>,
                             language: Option<string>)
    ensures Decode(UpdateUserCmd(m, username, password, email, language)[4..])
              == Some(UpdateOptions(password, email, language))
  {
    var a, b, c := ValuedIf("--password", password), ValuedIf("--email", email), ValuedIf("--language", language);
    WellFormedAppend(a, b);
    WellFormedAppend(a + b, c);
    DecodeEncode(a + b + c);
    UpdateUserCmdEncodes(m, username, password, email, language);
  }

  /** `update_user`. */
  method UpdateUser(m: Manager, username: string, password: Option<string>, email: Option<string>,
                    language: Option<string>, run: Runner) returns (success: bool, stdout: string, stderr: string)
    ensures var res := run(m.Full(UpdateUserCmd(m, username, password, email, language)));
            success == (res.code == 0) && stdout == res.stdout && stderr == res.stderr
  {
    var cmd := [m.php, m.Script("update-user.php")];
    cmd := cmd + ["--user", username];
    assert cmd == [m.php, m.Script("update-user.php"), "--user", username];
    cmd := ExtendIf(cmd, "--password", password);
    cmd := ExtendIf(cmd, "--email", email);
    cmd := ExtendIf(cmd, "--language", language);
    assert cmd == UpdateUserCmd(m, username, password, email, language);
    var res := run(m.Full(cmd));
    success, stdout, stderr := res.code == 0, res.stdout, res.stderr;
  }

  // ---------------------------------------------------------------- main

  /**
   * `changes_needed`: the dictionary `main` fills for an existing user. It
   * can only ever hold the keys `password`, `email` and `language`, inserted
   * in that order, so each is an optional field here.
   */
  datatype Changes = Changes(password: Option<string>, email: Option<string>, language: Option<string>)
  {
    /** `changes_needed.keys()`, in insertion order. */
    function Keys(): seq<string>
    {
      (if password.Some? then ["password"] else [])
      + (if email.Some? then ["email"] else [])
      + (if language.Some? then ["language"] else [])
    }

    /** `changes_needed.get(key)`. */
    function Get(key: string): Option<string>
    {
      if key == "password" then password
      else if key == "email" then email
      else if key == "language" then language
      else None
    }

    /** Every stored value is a non-empty string. */
    predicate AllTruthy()
    {
      (password.Some? ==> Truthy(password)) && (email.Some? ==> Truthy(email)) && (language.Some? ==> Truthy(language))
    }
  }

  const NoChanges: Changes := Changes(None, None, None)

  /**
   * The changes an existing user needs: the password whenever one is given
   * (the current one cannot be read back), the e-mail address and the
   * language when given and different from what `user-info.php` reports.
   */
  function ChangesNeeded(p: Params, info: map<string, string>): (c: Changes)
    ensures c.password.Some? <==> Truthy(p.password)
    ensures c.email.Some? <==> Truthy(p.email) && InfoGet(info, "email") != p.email.value
    ensures c.language.Some? <==> Truthy(p.language) && InfoGet(info, "language") != p.language.value
    ensures c.password.Some? ==> c.password == p.password
    ensures c.email.Some? ==> c.email == p.email
    ensures c.language.Some? ==> c.language == p.language
    ensures c.AllTruthy()
  {
    Changes(if Truthy(p.password) then p.password else None,
            if Truthy(p.email) && InfoGet(info, "email") != p.email.value then p.email else None,
            if Truthy(p.language) && InfoGet(info, "language") != p.language.value then p.language else None)
  }

  /**
   * Nothing needs changing exactly when no password is given and the given
   * e-mail address and language already match the reported ones.
   */
  lemma NoChangesNeeded(p: Params, info: map<string, string>)
    ensures ChangesNeeded(p, info).Keys() == [] <==>
              && !Truthy(p.password)
              && (Truthy(p.email) ==> InfoGet(info, "email") == p.email.value)
              && (Truthy(p.language) ==> InfoGet(info, "language") == p.language.value)
  {
    var c := ChangesNeeded(p, info);
    assert c.Keys() == [] <==> c == NoChanges;
  }

  /** The update command for the needed changes, built from `changes_needed.get(...)`. */
  function UpdateCmdFor(m: Manager, username: string, c: Changes): Argv
  {
    UpdateUserCmd(m, username, c.Get("password"), c.Get("email"), c.Get("language"))
  }

  /**
   * The update command carries one `--key value` option per needed change,
   * in the order of `changes_needed.keys()`, and nothing else.
   */
  lemma UpdateCarriesChanges(m: Manager, username: string, c: Changes)
    requires c.AllTruthy()
    ensures var opts := UpdateOptions(c.password, c.email, c.language);
            && Decode(UpdateCmdFor(m, username, c)[4..]) == Some(opts)
            && |opts| == |c.Keys()|
            && forall i :: 0 <= i < |opts| ==>
                 c.Get(c.Keys()[i]).Some? && opts[i] == Valued("--" + c.Keys()[i], c.Get(c.Keys()[i]).value)
  {
    UpdateUserCmdDecodes(m, username, c.password, c.email, c.language);
    UpdateOptionsFollowKeys(c);
  }

  /** One `--key value` option per key of `changes_needed`, in the same order. */
  lemma UpdateOptionsFollowKeys(c: Changes)
    requires c.AllTruthy()
    ensures var opts := UpdateOptions(c.password, c.email, c.language);
            && |opts| == |c.Keys()|
            && forall i :: 0 <= i < |opts| ==>
                 c.Get(c.Keys()[i]).Some? && opts[i] == Valued("--" + c.Keys()[i], c.Get(c.Keys()[i]).value)
  {
    FlagSpelling();
    var a := if c.password.Some? then [Valued("--password", c.password.value)] else [];
    var b := if c.email.Some? then [Valued("--email", c.email.value)] else [];
    var d := if c.language.Some? then [Valued("--language", c.language.value)] else [];
    var ka: seq<string> := if c.password.Some? then ["password"] else [];
    var kb: seq<string> := if c.email.Some? then ["email"] else [];
    var kd: seq<string> := if c.language.Some? then ["language"] else [];
    assert UpdateOptions(c.password, c.email, c.language) == a + b + d;
    assert c.Keys() == ka + kb + kd;
    forall i | 0 <= i < |a + b + d|
      ensures (a + b + d)[i] == Valued("--" + (ka + kb + kd)[i], c.Get((ka + kb + kd)[i]).value)
    {
      if i < |a| {
        assert (a + b + d)[i] == a[i] && (ka + kb + kd)[i] == ka[i];
      } else if i < |a| + |b| {
        assert (a + b + d)[i] == b[i - |a|] && (ka + kb + kd)[i] == kb[i - |a|];
      } else {
        assert (a + b + d)[i] == d[i - |a| - |b|] && (ka + kb + kd)[i] == kd[i - |a| - |b|];
      }
    }
  }

  /** Solver hint: the flag literals are `--` followed by the key names; it models no source statement. */
  lemma FlagSpelling()
    ensures "--" + "password" == "--password" && "--" + "email" == "--email" && "--" + "language" == "--language"
  {
  }

  /** The statements of `main` that fill `changes_needed`. */
  method CollectChanges(p: Params, userInfo: map<string, string>) returns (changesNeeded: Changes)
    ensures changesNeeded == ChangesNeeded(p, userInfo)
  {
    changesNeeded := NoChanges;
    if Truthy(p.password) {
      changesNeeded := changesNeeded.(password := p.password);
    }
    if Truthy(p.email) && InfoGet(userInfo, "email") != p.email.value {
      changesNeeded := changesNeeded.(email := p.email);
    }
    if Truthy(p.language) && InfoGet(userInfo, "language") != p.language.value {
      changesNeeded := changesNeeded.(language := p.language);
    }
  }

  /** `main` for a user that exists, as a function of what the commands return. */
  function UpdateExisting(m: Manager, p: Params, checkMode: bool, run: Runner): Run
  {
    var u := p.username;
    var query := m.Full(UserInfoCmd(m, u));
    var c := ChangesNeeded(p, UserInfo(run(query)));
    if c.Keys() == [] then
      Run(Exited(false, Greeting(u) + " already exists with correct configuration", true), [query])
    else if checkMode then
      Run(Exited(true, "Would update user " + u + ": " + Join(c.Keys(), ", "), true), [query])
    else
      var update := m.Full(UpdateCmdFor(m, u, c));
      var res := run(update);
      Run(if res.code == 0 then Exited(true, Greeting(u) + " updated: " + Join(c.Keys(), ", "), true)
          else Failed("Failed to update user " + u + ": " + res.stderr),
          [query] + [update])
  }

  /**
   * For an existing user the information query always runs first; the
   * update runs, second and last, exactly when some change is needed
   * outside check mode; the run reports a change exactly when some change
   * is needed, and it fails only when the update fails.
   */
  lemma UpdateExistingShape(m: Manager, p: Params, checkMode: bool, run: Runner)
    ensures var r := UpdateExisting(m, p, checkMode, run);
            var u := p.username;
            var c := ChangesNeeded(p, UserInfo(run(m.Full(UserInfoCmd(m, u)))));
            && 1 <= |r.issued| <= 2
            && r.issued[0] == m.Full(UserInfoCmd(m, u))
            && (|r.issued| == 2 <==> c.Keys() != [] && !checkMode)
            && (|r.issued| == 2 ==> r.issued[1] == m.Full(UpdateCmdFor(m, u, c)))
            && (r.result.Failed? <==> |r.issued| == 2 && run(r.issued[1]).code != 0)
            && (r.result.Exited? ==> r.result.userExists && (r.result.changed <==> c.Keys() != []))
  {
  }

  /**
   * The branch of `main` for a user that already exists: query its
   * information, work out the changes and apply them.
   */
  method ReconcileExisting(m: Manager, p: Params, checkMode: bool, run: Runner)
    returns (result: ModuleResult, issued: seq<Argv>)
    ensures Run(result, issued) == UpdateExisting(m, p, checkMode, run)
  {
    var username := p.username;
    var userInfo := GetUserInfo(m, username, run);
    issued := [m.Full(UserInfoCmd(m, username))];
    var changesNeeded := CollectChanges(p, userInfo);

    if changesNeeded.Keys() != [] {
      var keys := Join(changesNeeded.Keys(), ", ");
      if checkMode {
        return Exited(true, "Would update user " + username + ": " + keys, true), issued;
      }
      var success, _, stderr := UpdateUser(m, username, changesNeeded.Get("password"),
                                           changesNeeded.Get("email"), changesNeeded.Get("language"), run);
      issued := issued + [m.Full(UpdateCmdFor(m, username, changesNeeded))];
      if success {
        result := Exited(true, Greeting(username) + " updated: " + keys, true);
      } else {
        result := Failed("Failed to update user " + username + ": " + stderr);
      }
    } else {
      result := Exited(false, Greeting(username) + " already exists with correct configuration", true);
    }
  }

  /**
   * `main`: brings the account to the requested state. `issued` lists the
   * commands handed to the runner, in order.
   */
  method Reconcile(p: Params, checkMode: bool, run: Runner) returns (result: ModuleResult, issued: seq<Argv>)
    ensures var m := ManagerOf(p);
            |issued| >= 1 && issued[0] == m.Full(ListUsersCmd(m))
    // in check mode only the listing and the info query run
    ensures var m := ManagerOf(p);
            checkMode ==> |issued| <= 2 && (|issued| == 2 ==> issued[1] == m.Full(UserInfoCmd(m, p.username)))
    ensures var m := ManagerOf(p);
            var u := p.username;
            var existed := u in ListedUsers(run(m.Full(ListUsersCmd(m))));
            && (p.state == Absent && !existed ==>
                  result == Exited(false, Greeting(u) + " does not exist", false) && |issued| == 1)
            && (p.state == Absent && existed && checkMode ==>
                  result == Exited(true, "Would remove user " + u, true) && |issued| == 1)
            && (p.state == Absent && existed && !checkMode ==>
                  var res := run(m.Full(DeleteUserCmd(m, u)));
                  |issued| == 2 && issued[1] == m.Full(DeleteUserCmd(m, u)) &&
                  result == if res.code == 0 then Exited(true, Greeting(u) + " removed successfully", false)
                            else Failed("Failed to remove user " + u + ": " + res.stderr))
            && (p.state == Present && !existed && !Truthy(p.password) ==>
                  result == Failed("Password is required when creating a new user") && |issued| == 1)
            && (p.state == Present && !existed && Truthy(p.password) && checkMode ==>
                  result == Exited(true, "Would create user " + u, false) && |issued| == 1)
            && (p.state == Present && !existed && Truthy(p.password) && !checkMode ==>
                  var res := run(m.Full(CreateUserCmd(m, p)));
                  |issued| == 2 && issued[1] == m.Full(CreateUserCmd(m, p)) &&
                  result == if res.code == 0 then Exited(true, Greeting(u) + " created successfully", true)
                            else Failed("Failed to create user " + u + ": " + res.stderr))
    ensures var m := ManagerOf(p);
            var existed := p.username in ListedUsers(run(m.Full(ListUsersCmd(m))));
            p.state == Present && existed ==>
              var r := UpdateExisting(m, p, checkMode, run);
              result == r.result && issued[1..] == r.issued
  {
    var m := ManagerOf(p);
    var username := p.username;

    var userExists := UserExists(m, username, run);
    issued := [m.Full(ListUsersCmd(m))];

    if p.state == Present {
      if !userExists {
        if !Truthy(p.password) {
          return Failed("Password is required when creating a new user"), issued;
        }
        if checkMode {
          return Exited(true, "Would create user " + username, false), issued;
        }
        var success, _, stderr := AddUser(m, p, run);
        issued := issued + [m.Full(CreateUserCmd(m, p))];
        if success {
          result := Exited(true, Greeting(username) + " created successfully", true);
        } else {
          result := Failed("Failed to create user " + username + ": " + stderr);
        }
      } else {
        var more;
        result, more := ReconcileExisting(m, p, checkMode, run);
        UpdateExistingShape(m, p, checkMode, run);
        issued := issued + more;
      }
    } else {
      if userExists {
        if checkMode {
          return Exited(true, "Would remove user " + username, true), issued;
        }
        var success, _, stderr := RemoveUser(m, username, run);
        issued := issued + [m.Full(DeleteUserCmd(m, username))];
        if success {
          result := Exited(true, Greeting(username) + " removed successfully", false);
        } else {
          result := Failed("Failed to remove user " + username + ": " + stderr);
        }
      } else {
        result := Exited(false, Greeting(username) + " does not exist", false);
      }
    }
  }
}
