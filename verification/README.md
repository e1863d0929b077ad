# ansible-netbsd user modules and mDNS relay, modelled in Dafny

This project models three programs from the ansible-netbsd roles.

- **mdns-proxy** (`roles/netbsd-mdns/files/mdns-proxy.py`). A small daemon
  that relays unicast DNS queries for the `.local.` zone to the mDNS
  multicast group 224.0.0.251:5353 (RFC 6762). It returns the single
  multicast reply to the client with the client's transaction id. It keeps
  the first answer RRset of each successful reply in a cache, keyed by
  `"<qname>:<qtype number>"`. When no reply comes, or the reply cannot be
  read, it answers from that cache. A signal handler sets a shutdown flag,
  and the loop stops when it sees the flag. At start-up in daemon mode it
  refuses to run while the PID file names a live process.
- **freshrss_user** (`roles/netbsd-freshrss/library/freshrss_user.py`). An
  Ansible module that makes one FreshRSS account present or absent. It
  does this by running the FreshRSS command-line scripts and parsing what
  they print.
- **ttrss_user** (`roles/netbsd-ttrss/library/ttrss_user.py`). The same
  kind of module for Tiny Tiny RSS, built on `update.php --user-*`.

The modules are modelled as follows.

- The command runner (`subprocess.run` behind `_run_command`) is a
  function parameter `run: Argv -> CmdResult`. This oracle gives the exit
  code, stdout and stderr for the full argument vector.
- `_run_command`'s `sudo -u <become_user>` prefix is `Command.WithBecome`.
- Each module's `main` is a method `Reconcile`. It returns how the run ends
  (`exit_json` with `changed`, `msg` and `user_exists`, or `fail_json`
  with a message). It also returns the list of commands it handed to the
  runner, in order.
- The existing-user branches are also specification functions
  (`UpdateExisting`). The decision tables about them are proved as lemmas.

The relay is modelled as follows.

- `MdnsProxy.Relay` is the effect of one datagram: what is forwarded, what
  is sent back, and the new cache. The DNS codec is abstract: a datagram
  comes with what `from_wire` made of it, and the multicast round trip is
  an `Outcome` input: the multicast send failing, a reply (which may fail
  to go back to the client), a timeout, or any other receive error.
- The class `MdnsProxy.Proxy` holds the two globals, the cache and the
  shutdown flag. Its `Serve` loop is proved against `Replay`, the fold of
  `Relay` over the events the loop sees.

Properties proved include:

- freshrss argument vectors decode back to exactly the options `add_user`
  and `update_user` chose;
- the exact decision tables of both `main`s, including check mode and
  every failure path;
- the cache serving the last answer stored for a question;
- the serving loop stopping right after the first signal.

Two consequences of the code as written are stated as lemmas rather than
corrected, because the source does not say which behaviour is intended.
`FreshRss.ExistsOnlyIfListed` shows that a FreshRSS user whose name starts
with "FreshRSS" or "=" is never seen as existing.
`TtRss.AlwaysSetsLevelAndApi` shows that an existing Tiny Tiny RSS user is
reported as changed on every run in which the API call succeeds.

## Model

| member | source | states |
|---|---|---|
| Command.WithBecomeShape | roles/netbsd-freshrss/library/freshrss_user.py:158-161 | the runner gets the command unchanged at the end of the vector, preceded by exactly `sudo -u <user>` when `become_user` is truthy and by nothing otherwise |
| Command.BecomeRoundTrip | roles/netbsd-ttrss/library/ttrss_user.py:125-128 | stripping a leading `sudo -u <user>` recovers the command, and the vector equals the command exactly when `become_user` is falsy |
| Text.Strip | roles/netbsd-ttrss/library/ttrss_user.py:153 | `str.strip()` leaves a string with no whitespace at either end that is no longer than the input |
| Text.TrimStartSuffix | roles/netbsd-ttrss/library/ttrss_user.py:153 | the left half of `strip` removes only a run of leading whitespace and keeps the rest as a suffix |
| Text.TrimEndPrefix | roles/netbsd-ttrss/library/ttrss_user.py:153 | the right half of `strip` removes only a run of trailing whitespace and keeps the rest as a prefix |
| Text.StripIdempotent | roles/netbsd-freshrss/library/freshrss_user.py:188-190 | stripping a stripped line changes nothing, so `clean_line` is stripped again to itself |
| Text.Split | roles/netbsd-ttrss/library/ttrss_user.py:153 | `split('\n')` gives at least one piece and no piece contains the separator |
| Text.SplitJoin | roles/netbsd-ttrss/library/ttrss_user.py:153 | joining the pieces of a split with the separator gives back the string |
| Text.SplitFirst | roles/netbsd-freshrss/library/freshrss_user.py:264 | `line.split(':', 1)` gives a key without a colon and a value that, around that colon, rebuild the line |
| Text.FirstIndexAfter | roles/netbsd-ttrss/library/ttrss_user.py:158 | the first colon of `x + ":" + d` is at `len(x)` when `x` has no colon |
| Text.LastIndexAfter | roles/netbsd-mdns/files/mdns-proxy.py:73 | the last colon of `x + ":" + d` is at `len(x)` when `d` has no colon |
| Text.LowerFolds | roles/netbsd-freshrss/library/freshrss_user.py:265 | `lower()` leaves no capital letter, maps each capital to its small letter, keeps every other character in place, and is idempotent |
| Text.Digits | roles/netbsd-ttrss/library/ttrss_user.py:158 | the decimal text of a natural number is non-empty and made of digits only |
| Text.DigitsRoundTrip | roles/netbsd-ttrss/library/ttrss_user.py:158 | reading back the decimal text of a number gives the number |
| Text.DigitsCanonical | roles/netbsd-ttrss/library/ttrss_user.py:158 | the decimal text is canonical: it starts with '0' exactly when the number is zero, whose text is "0" |
| Text.DigitsInjective | roles/netbsd-mdns/files/mdns-proxy.py:73 | different numbers have different decimal texts |
| Text.DecimalTextSign | roles/netbsd-ttrss/library/ttrss_user.py:185 | the text of an integer starts with a minus sign exactly when the integer is negative |
| Text.DecimalTextInjective | roles/netbsd-ttrss/library/ttrss_user.py:185 | distinct integers have distinct texts, so the level in `user:level` names one level |
| Text.PathJoinShape | roles/netbsd-freshrss/library/freshrss_user.py:155 | `os.path.join(a, b)` ends with `b`; an absolute `b` is the whole result; otherwise the result starts with `a`, is exactly as long as `a` and `b` together plus one when `a` is non-empty and does not end with '/', and that extra character is a '/' right after `a`; so the result is `a + b` or `a + "/" + b` |
| Text.ContainsIff | roles/netbsd-ttrss/library/ttrss_user.py:280 | `sub in s` holds exactly when `sub` occurs at some position of `s` |
| Text.JoinHoldsParts | roles/netbsd-ttrss/library/ttrss_user.py:292 | every part of `sep.join(parts)` occurs in it at some position |
| Text.JoinContains | roles/netbsd-freshrss/library/freshrss_user.py:367-379 | the message built with `', '.join` names every changed key, so `key in message` holds for each |
| MdnsProxy.CacheKey | roles/netbsd-mdns/files/mdns-proxy.py:73 | the cache key starts with the query name and a colon and ends with the decimal type number |
| MdnsProxy.CacheKeyInjective | roles/netbsd-mdns/files/mdns-proxy.py:173 | two questions with the same cache key are the same question, so entries never collide |
| MdnsProxy.CachedResponse | roles/netbsd-mdns/files/mdns-proxy.py:64-88 | a cached response exists exactly when the query has a first question and that first question's key is cached; it then carries the query's id and question and exactly the cached RRset as its answer |
| MdnsProxy.Relay | roles/netbsd-mdns/files/mdns-proxy.py:143-202 | an unparsable, question-less or non-`.local.` query sends nothing and leaves the cache alone; a local one is forwarded verbatim to 224.0.0.251:5353, and when that send raises nothing else happens; a reply's first answer is cached when it has one, and the reply goes back with the client's id; when that reply cannot be sent back, the cached response from the updated cache is sent instead; on a timeout or a receive or parse error the cache is unchanged and its response is sent if there is one |
| MdnsProxy.UndeliveredReplyServesOwnAnswer | roles/netbsd-mdns/files/mdns-proxy.py:172-193 | a reply with answers that cannot be sent back is replaced by a response carrying its own first answer under the client's id |
| MdnsProxy.SuccessThenTimeoutServesCached | roles/netbsd-mdns/files/mdns-proxy.py:170-193 | after a reply with answers, the next datagram, when it has the same first question and meets a timeout or receive error, is answered with that reply's first answer |
| MdnsProxy.LastWriteWins | roles/netbsd-mdns/files/mdns-proxy.py:172-174 | a second reply for the same question replaces the first one's cached answer |
| MdnsProxy.OtherQuestionsUnaffected | roles/netbsd-mdns/files/mdns-proxy.py:172-174 | a datagram leaves the cache entry of every other question unchanged |
| MdnsProxy.Consumed | roles/netbsd-mdns/files/mdns-proxy.py:141 | the loop takes events up to and including the first signal, and all of them when there is none |
| MdnsProxy.ReplayKeepsKeys | roles/netbsd-mdns/files/mdns-proxy.py:172-174 | the cache only grows: no run removes an entry |
| MdnsProxy.ReplayNonLocalSilent | roles/netbsd-mdns/files/mdns-proxy.py:155-157 | a run in which no query is relayed sends nothing and leaves the cache unchanged |
| MdnsProxy.Proxy.constructor | roles/netbsd-mdns/files/mdns-proxy.py:26-30 | the cache starts empty and the shutdown flag clear |
| MdnsProxy.Proxy.OnSignal | roles/netbsd-mdns/files/mdns-proxy.py:39-43 | the signal handler sets the flag and changes nothing else |
| MdnsProxy.Proxy.HandleQuery | roles/netbsd-mdns/files/mdns-proxy.py:143-196 | one iteration of the loop has exactly the effect `Relay` specifies on the cache and the traffic |
| MdnsProxy.Proxy.Serve | roles/netbsd-mdns/files/mdns-proxy.py:141-203 | the loop handles `Consumed(events)` events (none when the flag is already set), and ends with the flag set exactly when it stopped on a signal; its cache and traffic are `Replay` of the events it handled |
| MdnsProxy.StartupCheck | roles/netbsd-mdns/files/mdns-proxy.py:236-253 | in daemon mode a PID file naming a live process exits with status 1, an unreadable or stale PID file is removed before going on, and without the daemon flag or without a PID file the proxy simply goes on |
| FreshRss.UserLinesClean | roles/netbsd-freshrss/library/freshrss_user.py:187-192 | every collected name is non-empty, stripped and not a header line, and there are no more names than lines |
| FreshRss.UserLinesMembers | roles/netbsd-freshrss/library/freshrss_user.py:187-192 | a name is collected exactly when it is a kept line and some output line strips to it |
| FreshRss.UserLinesAppend | roles/netbsd-freshrss/library/freshrss_user.py:187-192 | filtering keeps the listing's order: the names from two runs of lines back to back are the names of the first run followed by those of the second |
| FreshRss.ListedUsers | roles/netbsd-freshrss/library/freshrss_user.py:180-194 | a failed listing gives no users |
| FreshRss.ListUsers | roles/netbsd-freshrss/library/freshrss_user.py:180-194 | `list_users` returns the names `ListedUsers` selects from the listing command's result |
| FreshRss.CollectUsers | roles/netbsd-freshrss/library/freshrss_user.py:187-192 | the loop over the output lines collects exactly `UserLines` of them, in order |
| FreshRss.UserExists | roles/netbsd-freshrss/library/freshrss_user.py:175-178 | a user exists exactly when its name is among the listed users |
| FreshRss.ExistsOnlyIfListed | roles/netbsd-freshrss/library/freshrss_user.py:175-194 | a name is found exactly when the listing succeeded and the name is a non-empty, non-header line of it once stripped |
| FreshRss.InfoOfKeys | roles/netbsd-freshrss/library/freshrss_user.py:262-265 | a key is in the dictionary exactly when some line with a colon yields it |
| FreshRss.InfoOfLastWins | roles/netbsd-freshrss/library/freshrss_user.py:262-265 | the value of a key comes from the last line that defines it |
| FreshRss.UserInfo | roles/netbsd-freshrss/library/freshrss_user.py:252-269 | a failed query gives the empty dictionary |
| FreshRss.GetUserInfo | roles/netbsd-freshrss/library/freshrss_user.py:252-269 | `get_user_info` runs `user-info.php --user <name>` and returns `UserInfo` of its result |
| FreshRss.CollectInfo | roles/netbsd-freshrss/library/freshrss_user.py:262-265 | the loop over the output lines builds exactly `InfoOf` of them |
| FreshRss.EncodeAppend | roles/netbsd-freshrss/library/freshrss_user.py:204-225 | writing out two lists of options one after the other is writing out their concatenation |
| FreshRss.DecodeEncode | roles/netbsd-freshrss/library/freshrss_user.py:204-225 | reading a written-out, well-formed list of options back gives the same list |
| FreshRss.EncodeStep | roles/netbsd-freshrss/library/freshrss_user.py:204-225 | each `cmd.extend` step keeps the command equal to the head followed by the options written out so far |
| FreshRss.WellFormedAppend | roles/netbsd-freshrss/library/freshrss_user.py:204-225 | concatenating well-formed option lists keeps them well formed |
| FreshRss.CreateOptionsWellFormed | roles/netbsd-freshrss/library/freshrss_user.py:204-225 | among `add_user`'s options only `--no-default-feeds` is a bare switch |
| FreshRss.CreateUserCmdEncodes | roles/netbsd-freshrss/library/freshrss_user.py:201-225 | after `php create-user.php --user <name>` the command is exactly the options of `add_user` written out |
| FreshRss.CreateUserCmdDecodes | roles/netbsd-freshrss/library/freshrss_user.py:201-225 | the command starts with the script and the user, and the rest reads back as exactly `add_user`'s options, in order |
| FreshRss.CreateOptionsPassword | roles/netbsd-freshrss/library/freshrss_user.py:204-205 | `--password <password>` is passed exactly when the password is truthy |
| FreshRss.CreateOptionsEmail | roles/netbsd-freshrss/library/freshrss_user.py:208-209 | `--email <email>` is passed exactly when the address is truthy |
| FreshRss.CreateOptionsLanguage | roles/netbsd-freshrss/library/freshrss_user.py:210-211 | `--language <language>` is passed exactly when the language is truthy |
| FreshRss.CreateOptionsSwitch | roles/netbsd-freshrss/library/freshrss_user.py:224-225 | `--no-default-feeds` is passed exactly when the flag is set, and then it comes last |
| FreshRss.ExtendIf | roles/netbsd-freshrss/library/freshrss_user.py:204-213 | `if value: cmd.extend([flag, value])` appends the pair exactly when the value is truthy |
| FreshRss.ExtendIfGiven | roles/netbsd-freshrss/library/freshrss_user.py:214-223 | `if n is not None: cmd.extend([flag, str(n)])` appends the pair exactly when the number is given |
| FreshRss.AddUser | roles/netbsd-freshrss/library/freshrss_user.py:196-228 | `add_user` runs `CreateUserCmd` and succeeds exactly when it exits with 0, passing its output through |
| FreshRss.RemoveUser | roles/netbsd-freshrss/library/freshrss_user.py:230-235 | `remove_user` runs `delete-user.php --user <name>` and succeeds exactly when it exits with 0 |
| FreshRss.EncodeValuedIf | roles/netbsd-freshrss/library/freshrss_user.py:242-247 | an optional string option writes out as the pair `cmd.extend` adds, or as nothing |
| FreshRss.EncodeNumberIf | roles/netbsd-freshrss/library/freshrss_user.py:214-223 | an optional numeric option writes out as the pair `cmd.extend` adds, or as nothing |
| FreshRss.UpdateUserCmdEncodes | roles/netbsd-freshrss/library/freshrss_user.py:237-247 | after `php update-user.php --user <name>` the command is exactly the update options written out |
| FreshRss.UpdateUserCmdDecodes | roles/netbsd-freshrss/library/freshrss_user.py:237-247 | the rest of the update command reads back as exactly the password, e-mail and language options that are truthy, in that order |
| FreshRss.UpdateUser | roles/netbsd-freshrss/library/freshrss_user.py:237-250 | `update_user` runs `UpdateUserCmd` and succeeds exactly when it exits with 0 |
| FreshRss.ChangesNeeded | roles/netbsd-freshrss/library/freshrss_user.py:349-362 | the password is a change whenever it is truthy; the e-mail address and the language are changes exactly when truthy and different from `user_info.get(key, '')`; each stored value is the parameter and is non-empty |
| FreshRss.NoChangesNeeded | roles/netbsd-freshrss/library/freshrss_user.py:349-364 | nothing needs changing exactly when there is no password and the e-mail address and language are falsy or already as reported |
| FreshRss.UpdateCarriesChanges | roles/netbsd-freshrss/library/freshrss_user.py:370-375 | the update command carries one `--key value` option per key of `changes_needed`, in key order, and nothing else |
| FreshRss.UpdateOptionsFollowKeys | roles/netbsd-freshrss/library/freshrss_user.py:370-375 | the update options follow the keys of `changes_needed` one to one |
| FreshRss.CollectChanges | roles/netbsd-freshrss/library/freshrss_user.py:349-362 | the statements that fill `changes_needed` compute `ChangesNeeded` |
| FreshRss.UpdateExistingShape | roles/netbsd-freshrss/library/freshrss_user.py:347-383 | for an existing user the info query runs first; the update runs second and last exactly when a change is needed outside check mode; the run reports a change exactly when a change is needed, and fails only when the update fails |
| FreshRss.ReconcileExisting | roles/netbsd-freshrss/library/freshrss_user.py:347-383 | the existing-user branch of `main` ends and issues commands exactly as `UpdateExisting` says |
| FreshRss.Reconcile | roles/netbsd-freshrss/library/freshrss_user.py:321-402 | `main`: the listing runs first; check mode runs nothing but the listing and the info query; absent users are reported unchanged, removed or would-be-removed; creating without a password fails; creation and removal succeed or fail as their command exits; existing users follow `UpdateExisting`; every message and `user_exists` value is stated |
| TtRss.NoColonInDigits | roles/netbsd-ttrss/library/ttrss_user.py:158 | the decimal text of a natural number holds no colon |
| TtRss.UserSpecFields | roles/netbsd-ttrss/library/ttrss_user.py:156-158 | for a user name without a colon, the `--user-add` argument splits back into the name (first colon), the password (between the first and last colons, whatever colons it holds) and the level |
| TtRss.UserSpecFirstColon | roles/netbsd-ttrss/library/ttrss_user.py:158 | the first colon of the `--user-add` argument ends a user name without a colon |
| TtRss.UserSpecLastColon | roles/netbsd-ttrss/library/ttrss_user.py:158 | the last colon of the `--user-add` argument precedes the level digits |
| TtRss.UserPassFields | roles/netbsd-ttrss/library/ttrss_user.py:169-179 | the first colon of `user:password` separates a user name without a colon from the password |
| TtRss.UserLevelFields | roles/netbsd-ttrss/library/ttrss_user.py:183-185 | the last colon of `user:level` separates any user name from the level, which reads back |
| TtRss.ApiSettingFields | roles/netbsd-ttrss/library/ttrss_user.py:190-192 | the API argument is `user:` followed by '1' exactly when enabled and by '0' exactly when disabled |
| TtRss.ApiSettingInjective | roles/netbsd-ttrss/library/ttrss_user.py:190-192 | different users or settings give different API arguments |
| TtRss.UserExists | roles/netbsd-ttrss/library/ttrss_user.py:142-146 | a user exists exactly when `--user-exists <name>` exits with 0 |
| TtRss.ListedUsers | roles/netbsd-ttrss/library/ttrss_user.py:148-154 | a failed or blank listing gives no users, and no name holds a newline |
| TtRss.ListedUsersJoin | roles/netbsd-ttrss/library/ttrss_user.py:148-154 | a successful, non-blank listing gives at least one name, and the names joined by newlines are the stripped output |
| TtRss.ListUsers | roles/netbsd-ttrss/library/ttrss_user.py:148-154 | `list_users` runs `--user-list` and returns `ListedUsers` of its result |
| TtRss.AddUser | roles/netbsd-ttrss/library/ttrss_user.py:156-161 | `add_user` runs `--user-add user:password:level` and succeeds exactly when it exits with 0 |
| TtRss.RemoveUser | roles/netbsd-ttrss/library/ttrss_user.py:163-167 | `remove_user` runs `--user-remove <name>` and succeeds exactly when it exits with 0 |
| TtRss.SetPassword | roles/netbsd-ttrss/library/ttrss_user.py:169-174 | `set_password` runs `--user-set-password user:password` and succeeds exactly when it exits with 0 |
| TtRss.CheckPassword | roles/netbsd-ttrss/library/ttrss_user.py:176-181 | the password matches exactly when `--user-check-password user:password` exits with 0 |
| TtRss.SetAccessLevel | roles/netbsd-ttrss/library/ttrss_user.py:183-188 | `set_access_level` runs `--user-set-access-level user:level` and succeeds exactly when it exits with 0 |
| TtRss.SetApiAccess | roles/netbsd-ttrss/library/ttrss_user.py:190-195 | `set_api_access` runs `--user-enable-api user:1/0` and succeeds exactly when it exits with 0 |
| TtRss.Summary | roles/netbsd-ttrss/library/ttrss_user.py:290-294 | an existing user's run exits with `user_exists` set, and reports a change exactly when `changes_made` is non-empty |
| TtRss.PasswordPhaseShape | roles/netbsd-ttrss/library/ttrss_user.py:265-275 | the password is checked exactly when one is given, and set (second) only when the check fails outside check mode; the only failure is a failed set, and check mode never fails |
| TtRss.CheckModeOnlyChecks | roles/netbsd-ttrss/library/ttrss_user.py:263-294 | in check mode an existing user gets at most the password check; the run reports a change exactly when a given password does not match, and then says "password would be updated" |
| TtRss.AlwaysSetsLevelAndApi | roles/netbsd-ttrss/library/ttrss_user.py:277-288 | outside check mode a run that does not fail always ends with the access-level and then the API command; a successful API call alone makes it report a change |
| TtRss.LevelNoteRecorded | roles/netbsd-ttrss/library/ttrss_user.py:278-281 | "access level set to N" is recorded exactly when the call succeeds and its output does not mention "access level N" |
| TtRss.SetAfterFailedCheck | roles/netbsd-ttrss/library/ttrss_user.py:269-273 | after a failed password check outside check mode, the set command runs and the block ends as `PasswordPhase` says: "password updated" on exit 0, otherwise the failure message with the command's stderr |
| TtRss.UpdatePassword | roles/netbsd-ttrss/library/ttrss_user.py:265-275 | the password block adds the notes, runs the commands and fails exactly as `PasswordPhase` says |
| TtRss.ReconcileExisting | roles/netbsd-ttrss/library/ttrss_user.py:262-294 | the existing-user branch of `main` ends and issues commands exactly as `UpdateExisting` says |
| TtRss.Reconcile | roles/netbsd-ttrss/library/ttrss_user.py:231-313 | `main`: `--user-exists` runs first; absent users are reported unchanged, removed or would-be-removed; creating without a password fails; in check mode creation runs nothing; a created user with `api_enabled` gets `--user-enable-api user:1`, and the message says whether that worked; existing users follow `UpdateExisting`; every message and `user_exists` value is stated |

## Left out

- Sockets, `recvfrom`/`sendto`, the one-second timeouts and the multicast socket options are not modelled. A received datagram is an event, and the multicast round trip is an `Outcome` input.
- The DNS wire codec (`from_wire`, `to_wire`, `make_response`) is abstract. A message is a record of id, questions and answers, and `MakeResponse` keeps only the id and the question. Whether parsing or encoding raises is an input: `Outcome.Reply` with `delivered` false stands for a reply whose `to_wire` or `sendto` raised, and `Outcome.ForwardFailed` for a multicast `sendto` that raised.
- MdnsProxy.Relay: a fallback response whose own `to_wire` or `sendto` raises is reported as sent. That failure reaches the loop's outer handler, which only logs it, so the cache is the same either way.
- `MdnsProxy.CachedResponse`: the model returns a response whenever the key is cached. The source tests that response for truthiness, which is taken to hold for every message object.
- Logging (syslog or stdout), `argparse`, signal registration, `daemonize` with its forks and descriptor redirection, and the writing and removal of the PID file are not modelled. `MdnsProxy.StartupCheck` returns the decision, reading the PID file and `os.kill(pid, 0)` are inputs, and a failing `unlink` is ignored as in the source.
- The cache key is built from the question's name text and its numeric type. A (name, type) pair is the natural key; the code builds the string `"<qname>:<rdtype>"`, and the model follows the code. `CacheKeyInjective` shows that the string identifies the pair.
- `subprocess.run` is an oracle. Its working directory, a raised exception (which `_run_command` turns into `(1, "", message)`, a result the oracle may return) and the real FreshRSS and Tiny Tiny RSS scripts are not modelled.
- Ansible's argument validation (`required_if`, `choices`, defaults and `no_log`) is not modelled. The parameters arrive as already validated records, and `state` is one of two values.
- `fail_json` and `exit_json` end the run. This is modelled by returning at once, and the result fields that are never read after that (`stdout` in the managers) are not part of `ModuleResult`.
- `Text.Strip`, `Text.Lower` and `Text.IsSpace` cover ASCII only. The whitespace set is every ASCII character `str.isspace` accepts, including '\x1c' to '\x1f'; the non-ASCII whitespace (such as '\x85' and '\xa0') and non-ASCII case mappings are left out.
- FreshRss.CreateOptionsPassword, FreshRss.CreateOptionsEmail, FreshRss.CreateOptionsLanguage and FreshRss.CreateOptionsSwitch state presence only for the password, e-mail, language and `--no-default-feeds` options. The other optional flags (`--api-password`, `--token` and the five numeric ones) are covered only through `CreateUserCmdDecodes`, which gives the exact option list.
- The `except Exception: pass` around `get_user_info`'s parsing cannot fire on the modelled string operations, so it is not modelled.
