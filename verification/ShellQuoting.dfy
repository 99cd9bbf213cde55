/** Quoting of provisioning arguments for `sh -c` (internal/tui/wizard/review.go), against a tokeniser for the
    POSIX Shell Command Language (IEEE Std 1003.1, section 2). */
module ShellQuoting {
  import opened FleetTypes

  // ---- the printer ----

  predicate SafeChar(c: char) {
    'a' <= c <= 'z' || 'A' <= c <= 'Z' || '0' <= c <= '9' || c == '-' || c == '_' || c == '.' || c == '/' || c == ':'
  }

  predicate Safe(s: string) {
    forall c <- s :: SafeChar(c)
  }

  const QUOTED_QUOTE := "'\\''"

  /** Every single quote replaced by quote, backslash-quote, quote. */
  function Escape(s: string): string {
    if s == "" then "" else (if s[0] == '\'' then QUOTED_QUOTE else [s[0]]) + Escape(s[1..])
  }

  function Quote(s: string): string {
    if Safe(s) then s else "'" + Escape(s) + "'"
  }

  method ShellQuote(s: string) returns (r: string)
    ensures r == Quote(s)
  {
    var safe := true;
    for i := 0 to |s|
      invariant safe && Safe(s[..i])
    {
      var c := s[i];
      if !(('a' <= c <= 'z') || ('A' <= c <= 'Z') || ('0' <= c <= '9') || c == '-' || c == '_' || c == '.' || c == '/' || c == ':') {
        safe := false;
        assert !SafeChar(s[i]) && s[i] in s;
        break;
      }
      assert s[..i + 1] == s[..i] + [s[i]];
    }
    if safe {
      assert s[..|s|] == s;
      return s;
    }
    r := "'" + Escape(s) + "'";
  }

  function Join(parts: seq<string>): string {
    if parts == [] then "" else if |parts| == 1 then parts[0] else parts[0] + " " + Join(parts[1..])
  }

  function Quoted(args: seq<string>): seq<string> {
    if args == [] then [] else [Quote(args[0])] + Quoted(args[1..])
  }

  // ---- the tokeniser ----

  datatype Mode = Unquoted | InQuotes

  /** Characters section 2.2 wants quoted, other than blanks, backslash, single quote and the semicolon:
      unquoted they start operators, expansions, patterns, comments or assignments. */
  predicate Special(c: char) {
    || c == '|' || c == '&' || c == '<' || c == '>' || c == '(' || c == ')' || c == '$' || c == '`' || c == '"'
    || c == '*' || c == '?' || c == '[' || c == '#' || c == '~' || c == '=' || c == '%' || c == '\n'
  }

  predicate Blank(c: char) {
    c == ' ' || c == '\t'
  }

  /** The words of the first simple command: section 2.3 (blanks delimit, an unquoted semicolon ends the
      command) with section 2.2.1 (backslash) and section 2.2.2 (single quotes). None when a quote stays open
      or anything unquoted would need other rules of the shell. `word` is the word being built. */
  function Words(s: string, mode: Mode, word: Option<string>, done: seq<string>): Option<seq<string>>
    decreases |s|
  {
    if s == "" then (if mode == InQuotes then None else Some(Finish(word, done))) else
    var c, rest := s[0], s[1..];
    if mode == InQuotes then
      if c == '\'' then Words(rest, Unquoted, word, done) else Words(rest, InQuotes, Some(Text(word) + [c]), done)
    else if c == '\'' then Words(rest, InQuotes, Some(Text(word)), done)
    else if c == '\\' then
      if rest == "" then None
      else if rest[0] == '\n' then Words(rest[1..], Unquoted, word, done)
      else Words(rest[1..], Unquoted, Some(Text(word) + [rest[0]]), done)
    else if Blank(c) then Words(rest, Unquoted, None, Finish(word, done))
    else if c == ';' then Some(Finish(word, done))
    else if Special(c) then None
    else Words(rest, Unquoted, Some(Text(word) + [c]), done)
  }

  function Text(word: Option<string>): string {
    match word case Some(w) => w case None => ""
  }

  function Finish(word: Option<string>, done: seq<string>): seq<string> {
    match word case Some(w) => done + [w] case None => done
  }

  function Tokenise(s: string): Option<seq<string>> {
    Words(s, Unquoted, None, [])
  }

  // ---- round trip ----

  /** The word after reading `a`: reading nothing does not start a word. */
  function Longer(word: Option<string>, a: string): Option<string> {
    if a == "" then word else Some(Text(word) + a)
  }

  /** Characters that stand for themselves outside quotes. */
  predicate LiteralChar(c: char) {
    !Special(c) && !Blank(c) && c != '\'' && c != '\\' && c != ';'
  }

  predicate Literal(s: string) {
    forall c <- s :: LiteralChar(c)
  }

  lemma SafeIsLiteral(s: string)
    requires Safe(s)
    ensures Literal(s)
  {
    assert forall c: char :: SafeChar(c) ==> LiteralChar(c);
  }

  lemma {:induction false} WordsLiteral(a: string, tail: string, word: Option<string>, done: seq<string>)
    requires Literal(a)
    ensures Words(a + tail, Unquoted, word, done) == Words(tail, Unquoted, Longer(word, a), done)
  {
    if a == "" {
      assert a + tail == tail;
    } else {
      var c := a[0];
      assert (a + tail)[0] == c && (a + tail)[1..] == a[1..] + tail;
      assert LiteralChar(c);
      assert Words(a + tail, Unquoted, word, done) == Words(a[1..] + tail, Unquoted, Some(Text(word) + [c]), done);
      WordsLiteral(a[1..], tail, Some(Text(word) + [a[0]]), done);
      LongerTwice(word, a);
    }
  }

  lemma LongerTwice(word: Option<string>, a: string)
    requires a != ""
    ensures Longer(Some(Text(word) + [a[0]]), a[1..]) == Longer(word, a)
  {
    assert Text(word) + [a[0]] + a[1..] == Text(word) + a;
    assert a[1..] == "" ==> Text(word) + [a[0]] == Text(word) + a;
  }

  /** Finished words stay, and a word begun keeps its beginning. */
  lemma {:induction false} WordsKeep(s: string, mode: Mode, word: Option<string>, done: seq<string>)
    ensures match Words(s, mode, word, done)
      case None => true
      case Some(r) => done <= r && (word.Some? ==> |r| > |done| && word.value <= r[|done|])
    decreases |s|
  {
    if s == "" {
    } else {
      var c, rest := s[0], s[1..];
      if mode == InQuotes {
        if c == '\'' { WordsKeep(rest, Unquoted, word, done); } else { WordsKeep(rest, InQuotes, Some(Text(word) + [c]), done); }
      } else if c == '\'' {
        WordsKeep(rest, InQuotes, Some(Text(word)), done);
      } else if c == '\\' {
        if rest != "" {
          if rest[0] == '\n' { WordsKeep(rest[1..], Unquoted, word, done); }
          else { WordsKeep(rest[1..], Unquoted, Some(Text(word) + [rest[0]]), done); }
        }
      } else if Blank(c) {
        WordsKeep(rest, Unquoted, None, Finish(word, done));
      } else if LiteralChar(c) {
        WordsKeep(rest, Unquoted, Some(Text(word) + [c]), done);
      }
    }
  }

  lemma {:induction false} WordsEscaped(a: string, tail: string, w: string, done: seq<string>)
    ensures Words(Escape(a) + "'" + tail, InQuotes, Some(w), done) == Words(tail, Unquoted, Some(w + a), done)
  {
    if a == "" {
      assert Escape(a) + "'" + tail == "'" + tail;
      assert ("'" + tail)[1..] == tail;
      assert w + a == w;
    } else {
      var more := Escape(a[1..]) + "'" + tail;
      WordsEscaped(a[1..], tail, w + [a[0]], done);
      assert w + [a[0]] + a[1..] == w + a;
      if a[0] == '\'' {
        WordsQuotedQuote(more, w, done);
        assert Escape(a) + "'" + tail == QUOTED_QUOTE + more;
      } else {
        assert Escape(a) + "'" + tail == [a[0]] + more;
        assert ([a[0]] + more)[1..] == more;
      }
    }
  }

  lemma WordsQuotedQuote(more: string, w: string, done: seq<string>)
    ensures Words(QUOTED_QUOTE + more, InQuotes, Some(w), done) == Words(more, InQuotes, Some(w + "'"), done)
  {
    var s := QUOTED_QUOTE + more;
    assert s[1..] == "\\''" + more;
    assert s[1..][1..] == "''" + more;
    assert s[1..][1..][1..] == "'" + more;
    assert s[1..][1..][1..][1..] == more;
    assert Words(s[1..][1..][1..], Unquoted, Some(w + "'"), done) == Words(more, InQuotes, Some(w + "'"), done);
  }

  /** A quoted argument reads back as itself; the empty one reads as nothing. */
  lemma WordsQuote(a: string, tail: string, done: seq<string>)
    ensures Words(Quote(a) + tail, Unquoted, None, done) == Words(tail, Unquoted, Longer(None, a), done)
  {
    if Safe(a) {
      SafeIsLiteral(a);
      WordsLiteral(a, tail, None, done);
    } else {
      WordsEscaped(a, tail, "", done);
      assert Quote(a) + tail == "'" + (Escape(a) + "'" + tail);
      assert ("'" + (Escape(a) + "'" + tail))[1..] == Escape(a) + "'" + tail;
      assert a != "" && "" + a == a;
    }
  }

  function NonEmpty(args: seq<string>): seq<string> {
    if args == [] then [] else (if args[0] == "" then [] else [args[0]]) + NonEmpty(args[1..])
  }

  /** Where the command line stops: at the end of the text or at a semicolon. */
  predicate Ends(tail: string) {
    tail == "" || tail[0] == ';'
  }

  lemma WordsEnd(tail: string, word: Option<string>, done: seq<string>)
    requires Ends(tail)
    ensures Words(tail, Unquoted, word, done) == Some(Finish(word, done))
  {
  }

  /** One argument and the blank after it. */
  lemma WordsNext(a: string, rest: string, done: seq<string>)
    ensures Words(Quote(a) + (" " + rest), Unquoted, None, done)
         == Words(rest, Unquoted, None, if a == "" then done else done + [a])
  {
    WordsQuote(a, " " + rest, done);
    assert (" " + rest)[1..] == rest && "" + a == a;
  }

  /** The last argument. */
  lemma WordsLast(a: string, tail: string, done: seq<string>)
    requires Ends(tail)
    ensures Words(Quote(a) + tail, Unquoted, None, done) == Some(done + if a == "" then [] else [a])
  {
    WordsQuote(a, tail, done);
    WordsEnd(tail, Longer(None, a), done);
    assert "" + a == a && done + [] == done;
  }

  lemma OneDone(args: seq<string>, done: seq<string>)
    requires args != []
    ensures (if args[0] == "" then done else done + [args[0]]) + NonEmpty(args[1..]) == done + NonEmpty(args)
  {
    var rest := NonEmpty(args[1..]);
    if args[0] == "" {
      assert NonEmpty(args) == [] + rest == rest;
    } else {
      assert NonEmpty(args) == [args[0]] + rest;
      Regrouped(done, args[0], rest);
    }
  }

  lemma Regrouped(done: seq<string>, word: string, rest: seq<string>)
    ensures (done + [word]) + rest == done + ([word] + rest)
  {
  }

  lemma {:induction false} WordsJoined(args: seq<string>, tail: string, done: seq<string>)
    requires Ends(tail)
    ensures Words(Join(Quoted(args)) + tail, Unquoted, None, done) == Some(done + NonEmpty(args))
    decreases |args|
  {
    if args == [] {
      assert Join(Quoted(args)) + tail == tail;
      WordsEnd(tail, None, done);
      assert done + [] == done;
    } else if |args| == 1 {
      var a := args[0];
      assert args[1..] == [] && NonEmpty(args[1..]) == [];
      assert Join(Quoted(args)) == Quote(a);
      WordsLast(a, tail, done);
      assert NonEmpty(args) == if a == "" then [] else [a];
    } else {
      var a, rest := args[0], Join(Quoted(args[1..])) + tail;
      JoinSplits(args);
      assert Join(Quoted(args)) + tail == Quote(a) + (" " + rest);
      WordsNext(a, rest, done);
      WordsJoined(args[1..], tail, if a == "" then done else done + [a]);
      OneDone(args, done);
    }
  }

  lemma JoinSplits(args: seq<string>)
    requires |args| > 1
    ensures Join(Quoted(args)) == Quote(args[0]) + " " + Join(Quoted(args[1..]))
  {
    assert Quoted(args)[1..] == Quoted(args[1..]) && |Quoted(args[1..])| >= 1;
  }

  lemma {:induction false} NonEmptyKeeps(args: seq<string>)
    ensures |NonEmpty(args)| <= |args|
    ensures NonEmpty(args) == args <==> "" !in args
  {
    if args == [] {
    } else {
      NonEmptyKeeps(args[1..]);
      assert args == [args[0]] + args[1..];
      if args[0] != "" && NonEmpty(args) == args {
        assert NonEmpty(args)[1..] == NonEmpty(args[1..]);
      }
    }
  }

  /** Tokenising the joined quoted arguments returns them, up to empty ones, which vanish. */
  lemma RoundTrip(args: seq<string>)
    ensures Tokenise(Join(Quoted(args))) == Some(NonEmpty(args))
    ensures Tokenise(Join(Quoted(args))) == Some(args) <==> "" !in args
  {
    assert Join(Quoted(args)) + "" == Join(Quoted(args));
    WordsJoined(args, "", []);
    assert [] + NonEmpty(args) == NonEmpty(args);
    NonEmptyKeeps(args);
  }
}

/** The provisioning command of the setup wizard. */
module ProvisionCommand {
  import opened FleetTypes
  import opened ShellQuoting
  import opened Texts

  datatype Config = Config(
    role: string,
    deploymentTier: string,
    tunnelToken: string,
    adminKey: string,
    enforcementMode: string,
    requireOSFIPS: bool,
    requireDiskEnc: bool,
    serviceName: string,
    serviceHost: string,
    servicePort: int,
    serviceTLS: bool,
    protocol: string,
    proxyCertFile: string,
    proxyKeyFile: string,
    controllerURL: string,
    enrollmentToken: string,
    nodeName: string,
    nodeRegion: string,
    publicHostname: string,
    hostnameService: string,
    cfAPIToken: string,
    zoneID: string,
    accountID: string,
    tunnelID: string,
    tunnelName: string,
    skipFIPS: bool)

  function TierNumber(tier: string): (r: string)
    ensures r != ""
  {
    if tier == "regional_keyless" then "2" else if tier == "self_hosted" then "3" else "1"
  }

  /** A flag with its value, or nothing when there is no value. */
  function Flagged(flag: string, value: string): seq<string> {
    if value == "" then [] else [flag, value]
  }

  function Switch(flag: string, on: bool): seq<string> {
    if on then [flag] else []
  }

  /** What each role hands to the script. */
  function RoleArgs(cfg: Config): seq<string> {
    if cfg.role == "controller" then
      Flagged("--tunnel-token", cfg.tunnelToken) + Flagged("--admin-key", cfg.adminKey)
      + Flagged("--enforcement-mode", cfg.enforcementMode)
      + Switch("--require-os-fips", cfg.requireOSFIPS) + Switch("--require-disk-enc", cfg.requireDiskEnc)
    else if cfg.role == "server" then
      Flagged("--service-name", cfg.serviceName) + Flagged("--service-host", cfg.serviceHost)
      + (if cfg.servicePort > 0 then ["--service-port", Decimal(cfg.servicePort)] else [])
      + Switch("--service-tls", cfg.serviceTLS)
    else if cfg.role == "proxy" then
      Flagged("--tunnel-token", cfg.tunnelToken) + Flagged("--protocol", cfg.protocol)
      + Flagged("--cert", cfg.proxyCertFile) + Flagged("--key", cfg.proxyKeyFile)
    else []
  }

  function CloudflareArgs(cfg: Config): seq<string> {
    Flagged("--public-hostname", cfg.publicHostname) + Flagged("--hostname-service", cfg.hostnameService)
    + Flagged("--cf-api-token", cfg.cfAPIToken) + Flagged("--cf-zone-id", cfg.zoneID)
    + Flagged("--cf-account-id", cfg.accountID) + Flagged("--cf-tunnel-id", cfg.tunnelID)
    + Flagged("--tunnel-name", cfg.tunnelName)
  }

  function ProvisionArgs(cfg: Config): seq<string> {
    ["--role", cfg.role, "--tier", TierNumber(cfg.deploymentTier)]
    + RoleArgs(cfg)
    + (if cfg.role == "controller" then []
       else Flagged("--controller-url", cfg.controllerURL) + Flagged("--enrollment-token", cfg.enrollmentToken))
    + Flagged("--node-name", cfg.nodeName) + Flagged("--node-region", cfg.nodeRegion)
    + (if cfg.role == "controller" then CloudflareArgs(cfg) else [])
    + Switch("--no-fips", cfg.skipFIPS)
  }

  /** A flag and its value are appended unless the value is empty. */
  method AppendFlag(sofar: seq<string>, flag: string, value: string) returns (args: seq<string>)
    ensures args == sofar + Flagged(flag, value)
    ensures sofar == [] ==> args == Flagged(flag, value)
  {
    args := sofar;
    if value != "" {
      args := args + [flag, value];
    }
  }

  method AppendSwitch(sofar: seq<string>, flag: string, on: bool) returns (args: seq<string>)
    ensures args == sofar + Switch(flag, on)
  {
    args := sofar;
    if on {
      args := args + [flag];
    }
  }

  method RoleFlags(cfg: Config) returns (args: seq<string>)
    ensures args == RoleArgs(cfg)
  {
    args := [];
    if cfg.role == "controller" {
      args := AppendFlag(args, "--tunnel-token", cfg.tunnelToken);
      args := AppendFlag(args, "--admin-key", cfg.adminKey);
      args := AppendFlag(args, "--enforcement-mode", cfg.enforcementMode);
      args := AppendSwitch(args, "--require-os-fips", cfg.requireOSFIPS);
      args := AppendSwitch(args, "--require-disk-enc", cfg.requireDiskEnc);
    } else if cfg.role == "server" {
      args := AppendFlag(args, "--service-name", cfg.serviceName);
      args := AppendFlag(args, "--service-host", cfg.serviceHost);
      if cfg.servicePort > 0 {
        args := AppendFlag(args, "--service-port", Decimal(cfg.servicePort));
      } else {
        assert args + [] == args;
      }
      args := AppendSwitch(args, "--service-tls", cfg.serviceTLS);
    } else if cfg.role == "proxy" {
      args := AppendFlag(args, "--tunnel-token", cfg.tunnelToken);
      args := AppendFlag(args, "--protocol", cfg.protocol);
      args := AppendFlag(args, "--cert", cfg.proxyCertFile);
      args := AppendFlag(args, "--key", cfg.proxyKeyFile);
    }
  }

  method CloudflareFlags(cfg: Config) returns (args: seq<string>)
    ensures args == CloudflareArgs(cfg)
  {
    args := AppendFlag([], "--public-hostname", cfg.publicHostname);
    args := AppendFlag(args, "--hostname-service", cfg.hostnameService);
    args := AppendFlag(args, "--cf-api-token", cfg.cfAPIToken);
    args := AppendFlag(args, "--cf-zone-id", cfg.zoneID);
    args := AppendFlag(args, "--cf-account-id", cfg.accountID);
    args := AppendFlag(args, "--cf-tunnel-id", cfg.tunnelID);
    args := AppendFlag(args, "--tunnel-name", cfg.tunnelName);
  }

  method EnrollmentFlags(cfg: Config) returns (args: seq<string>)
    ensures args == if cfg.role == "controller" then []
      else Flagged("--controller-url", cfg.controllerURL) + Flagged("--enrollment-token", cfg.enrollmentToken)
  {
    args := [];
    if cfg.role != "controller" {
      args := AppendFlag(args, "--controller-url", cfg.controllerURL);
      args := AppendFlag(args, "--enrollment-token", cfg.enrollmentToken);
    }
  }

  method BuildProvisionCommand(cfg: Config) returns (args: seq<string>)
    ensures args == ProvisionArgs(cfg)
  {
    args := ["--role", cfg.role, "--tier", TierNumber(cfg.deploymentTier)];
    var role := RoleFlags(cfg);
    var enrollment := EnrollmentFlags(cfg);
    args := args + role + enrollment;
    args := AppendFlag(args, "--node-name", cfg.nodeName);
    args := AppendFlag(args, "--node-region", cfg.nodeRegion);
    var cloudflare: seq<string> := [];
    if cfg.role == "controller" {
      cloudflare := CloudflareFlags(cfg);
    }
    args := args + cloudflare;
    args := AppendSwitch(args, "--no-fips", cfg.skipFIPS);
  }

  predicate NoEmpty(args: seq<string>) {
    "" !in args
  }

  lemma NoEmptyConcat(a: seq<string>, b: seq<string>)
    ensures NoEmpty(a + b) <==> NoEmpty(a) && NoEmpty(b)
  {
  }

  lemma FlaggedNonEmpty(flag: string, value: string)
    requires flag != ""
    ensures NoEmpty(Flagged(flag, value))
  {
  }

  lemma SwitchNonEmpty(flag: string, on: bool)
    requires flag != ""
    ensures NoEmpty(Switch(flag, on))
  {
  }

  lemma ControllerNonEmpty(cfg: Config)
    requires cfg.role == "controller"
    ensures NoEmpty(RoleArgs(cfg))
  {
    FlaggedNonEmpty("--tunnel-token", cfg.tunnelToken);
    FlaggedNonEmpty("--admin-key", cfg.adminKey);
    FlaggedNonEmpty("--enforcement-mode", cfg.enforcementMode);
    SwitchNonEmpty("--require-os-fips", cfg.requireOSFIPS);
    SwitchNonEmpty("--require-disk-enc", cfg.requireDiskEnc);
  }

  lemma ServerNonEmpty(cfg: Config)
    requires cfg.role == "server"
    ensures NoEmpty(RoleArgs(cfg))
  {
    FlaggedNonEmpty("--service-name", cfg.serviceName);
    FlaggedNonEmpty("--service-host", cfg.serviceHost);
    SwitchNonEmpty("--service-tls", cfg.serviceTLS);
  }

  lemma ProxyNonEmpty(cfg: Config)
    requires cfg.role == "proxy"
    ensures NoEmpty(RoleArgs(cfg))
  {
    FlaggedNonEmpty("--tunnel-token", cfg.tunnelToken);
    FlaggedNonEmpty("--protocol", cfg.protocol);
    FlaggedNonEmpty("--cert", cfg.proxyCertFile);
    FlaggedNonEmpty("--key", cfg.proxyKeyFile);
  }

  lemma RoleArgsNonEmpty(cfg: Config)
    ensures NoEmpty(RoleArgs(cfg))
  {
    if cfg.role == "controller" {
      ControllerNonEmpty(cfg);
    } else if cfg.role == "server" {
      ServerNonEmpty(cfg);
    } else if cfg.role == "proxy" {
      ProxyNonEmpty(cfg);
    }
  }

  lemma CloudflareArgsNonEmpty(cfg: Config)
    ensures NoEmpty(CloudflareArgs(cfg))
  {
  }

  /** The only argument that can be empty is the role. */
  lemma {:induction false} OnlyRoleCanBeEmpty(cfg: Config)
    ensures NoEmpty(ProvisionArgs(cfg)) <==> cfg.role != ""
  {
    var head := ["--role", cfg.role, "--tier", TierNumber(cfg.deploymentTier)];
    var enroll := if cfg.role == "controller" then []
                  else Flagged("--controller-url", cfg.controllerURL) + Flagged("--enrollment-token", cfg.enrollmentToken);
    var name, region := Flagged("--node-name", cfg.nodeName), Flagged("--node-region", cfg.nodeRegion);
    var cloud := if cfg.role == "controller" then CloudflareArgs(cfg) else [];
    assert NoEmpty(head) <==> cfg.role != "" by {
      assert head[1] in head;
    }
    RoleArgsNonEmpty(cfg);
    CloudflareArgsNonEmpty(cfg);
    NoEmptyConcat(head, RoleArgs(cfg));
    NoEmptyConcat(head + RoleArgs(cfg), enroll);
    NoEmptyConcat(head + RoleArgs(cfg) + enroll, name);
    NoEmptyConcat(head + RoleArgs(cfg) + enroll + name, region);
    NoEmptyConcat(head + RoleArgs(cfg) + enroll + name + region, cloud);
    NoEmptyConcat(head + RoleArgs(cfg) + enroll + name + region + cloud, Switch("--no-fips", cfg.skipFIPS));
  }

  /** A script path the shell reads as one plain word; the source does not quote it. */
  predicate PlainPath(script: string) {
    script != "" && Literal(script)
  }

  predicate Quoteless(s: string) {
    '\'' !in s && '\\' !in s
  }

  const PAUSE := ";" + " rc=$?; echo \"\"; echo \"Press Enter to return to wizard...\"; read _; exit $rc"

  function ShellScript(script: string, args: seq<string>, root: bool): string {
    (if root then "" else "sudo ") + (script + " " + Join(Quoted(args))) + PAUSE
  }

  method QuoteAll(args: seq<string>) returns (quoted: seq<string>)
    ensures quoted == Quoted(args)
  {
    quoted := [];
    for i := 0 to |args|
      invariant Quoted(args) == quoted + Quoted(args[i..])
    {
      var q := ShellQuote(args[i]);
      assert args[i..][1..] == args[i + 1..];
      quoted := quoted + [q];
    }
    assert args[|args|..] == [] && quoted + [] == quoted;
  }

  method BuildProvisionExec(script: string, cfg: Config, root: bool) returns (shellScript: string)
    ensures shellScript == ShellScript(script, ProvisionArgs(cfg), root)
  {
    var args := BuildProvisionCommand(cfg);
    var quoted := QuoteAll(args);
    var fullCmd := script + " " + Join(quoted);
    if !root {
      fullCmd := "sudo " + fullCmd;
    }
    shellScript := fullCmd + PAUSE;
    if root {
      assert "" + (script + " " + Join(Quoted(args))) == script + " " + Join(Quoted(args));
    }
  }

  lemma ScriptWords(script: string, args: seq<string>, pause: string, done: seq<string>)
    requires PlainPath(script) && pause != "" && pause[0] == ';'
    ensures Words(script + " " + Join(Quoted(args)) + pause, Unquoted, None, done) == Some(done + [script] + NonEmpty(args))
  {
    var rest := Join(Quoted(args)) + pause;
    assert script + " " + Join(Quoted(args)) + pause == script + (" " + rest);
    WordsLiteral(script, " " + rest, None, done);
    assert (" " + rest)[1..] == rest && "" + script == script;
    WordsJoined(args, pause, done + [script]);
  }

  function Front(script: string, root: bool): seq<string> {
    (if root then [] else ["sudo"]) + [script]
  }

  lemma FirstCommand(script: string, args: seq<string>, root: bool)
    requires PlainPath(script)
    ensures Tokenise(ShellScript(script, args, root)) == Some(Front(script, root) + NonEmpty(args))
  {
    assert PAUSE[0] == ';';
    var command := script + " " + Join(Quoted(args)) + PAUSE;
    if root {
      assert ShellScript(script, args, root) == command;
      ScriptWords(script, args, PAUSE, []);
    } else {
      assert ShellScript(script, args, root) == "sudo" + (" " + command);
      SudoWord(command);
      ScriptWords(script, args, PAUSE, ["sudo"]);
    }
  }

  lemma SudoWord(command: string)
    ensures Words("sudo" + (" " + command), Unquoted, None, []) == Words(command, Unquoted, None, ["sudo"])
  {
    SafeIsLiteral("sudo");
    WordsLiteral("sudo", " " + command, None, []);
    assert (" " + command)[1..] == command && "" + "sudo" == "sudo" && [] + ["sudo"] == ["sudo"];
  }

  // ---- other script paths ----

  /** What follows the script path reads as exactly the non-empty arguments. */
  ghost predicate ReadsAs(tail: string, args: seq<string>) {
    forall done :: Words(tail, Unquoted, None, done) == Some(done + NonEmpty(args))
  }

  lemma TailReads(args: seq<string>, pause: string)
    requires pause != "" && pause[0] == ';'
    ensures ReadsAs(" " + Join(Quoted(args)) + pause, args)
  {
    var rest := Join(Quoted(args)) + pause;
    assert " " + Join(Quoted(args)) + pause == " " + rest;
    assert (" " + rest)[1..] == rest;
    forall done
      ensures Words(" " + rest, Unquoted, None, done) == Some(done + NonEmpty(args))
    {
      WordsJoined(args, pause, done);
    }
  }

  /** A text without quotes, read from the start of a word: nothing comes of it, or nothing but the arguments, or
      a word that starts with a literal character. */
  lemma {:induction false} FirstWord(x: string, tail: string, args: seq<string>, done: seq<string>)
    requires Quoteless(x) && ReadsAs(tail, args)
    ensures match Words(x + tail, Unquoted, None, done)
      case None => true
      case Some(r) => r == done || r == done + NonEmpty(args)
                      || (|r| > |done| && r[|done|] != "" && LiteralChar(r[|done|][0]))
    decreases |x|
  {
    if x == "" {
      assert x + tail == tail;
    } else {
      var c, rest := x[0], x[1..] + tail;
      assert (x + tail)[0] == c && (x + tail)[1..] == rest;
      assert c in x && c != '\'' && c != '\\';
      if Blank(c) {
        assert Quoteless(x[1..]);
        FirstWord(x[1..], tail, args, done);
      } else if LiteralChar(c) {
        WordsKeep(rest, Unquoted, Some([c]), done);
        assert "" + [c] == [c];
      }
    }
  }

  lemma NotTheScript(r: seq<string>, done: seq<string>, script: string, args: seq<string>)
    requires |r| <= |done| + |args| || (|r| > |done| && r[|done|] != script)
    ensures r != done + [script] + args
  {
    assert (done + [script] + args)[|done|] == script;
  }

  /** A path with a special character, a blank or a semicolon is not read as a path. */
  lemma OddPathIsLost(script: string, tail: string, args: seq<string>, done: seq<string>, k: nat)
    requires Quoteless(script) && ReadsAs(tail, args) && args != []
    requires k < |script| && Literal(script[..k]) && !LiteralChar(script[k])
    ensures Words(script + tail, Unquoted, None, done) != Some(done + [script] + args)
  {
    var a, c, b := script[..k], script[k], script[k + 1..];
    assert script + tail == a + ([c] + (b + tail));
    assert ([c] + (b + tail))[1..] == b + tail;
    assert c in script && c != '\'' && c != '\\';
    WordsLiteral(a, [c] + (b + tail), None, done);
    NonEmptyKeeps(args);
    if c == ';' {
      NotTheScript(Finish(Longer(None, a), done), done, script, args);
    } else if Blank(c) {
      BlankPathIsLost(script, tail, args, done, k);
    }
  }

  lemma BlankPathIsLost(script: string, tail: string, args: seq<string>, done: seq<string>, k: nat)
    requires Quoteless(script) && ReadsAs(tail, args) && args != []
    requires k < |script| && Literal(script[..k]) && Blank(script[k])
    ensures Words(script[k + 1..] + tail, Unquoted, None, Finish(Longer(None, script[..k]), done)) != Some(done + [script] + args)
  {
    var a, b := script[..k], script[k + 1..];
    NonEmptyKeeps(args);
    match Words(b + tail, Unquoted, None, Finish(Longer(None, a), done))
    case None =>
    case Some(r) =>
      if k > 0 {
        assert "" + a == a;
        WordsKeep(b + tail, Unquoted, None, done + [a]);
        assert r[|done|] == (done + [a])[|done|];
        NotTheScript(r, done, script, args);
      } else {
        assert Quoteless(b);
        FirstWord(b, tail, args, done);
        NotTheScript(r, done, script, args);
      }
  }

  lemma EmptyPathIsLost(tail: string, args: seq<string>, done: seq<string>)
    requires ReadsAs(tail, args)
    ensures Words("" + tail, Unquoted, None, done) != Some(done + [""] + args)
  {
    assert "" + tail == tail;
    NonEmptyKeeps(args);
    NotTheScript(done + NonEmpty(args), done, "", args);
  }

  /** The first character that does not stand for itself, or the length. */
  function FirstOdd(s: string): (k: nat)
    ensures k <= |s| && Literal(s[..k]) && (k < |s| ==> !LiteralChar(s[k]))
  {
    if s == "" || !LiteralChar(s[0]) then 0 else
      var k := 1 + FirstOdd(s[1..]);
      assert s[..k] == [s[0]] + s[1..][..k - 1];
      k
  }

  lemma PathMustBePlain(script: string, tail: string, args: seq<string>, done: seq<string>)
    requires Quoteless(script) && ReadsAs(tail, args) && args != [] && !PlainPath(script)
    ensures Words(script + tail, Unquoted, None, done) != Some(done + [script] + args)
  {
    var k := FirstOdd(script);
    if k < |script| {
      OddPathIsLost(script, tail, args, done, k);
    } else {
      assert script[..k] == script;
      EmptyPathIsLost(tail, args, done);
    }
  }

  lemma Regroup(prefix: string, a: string, b: string, c: string, d: string)
    ensures prefix + (a + b + c) + d == prefix + (a + (b + c + d))
  {
  }

  lemma ScriptSplits(script: string, args: seq<string>, root: bool, pause: string)
    ensures var tail := " " + Join(Quoted(args)) + pause;
      (if root then "" else "sudo ") + (script + " " + Join(Quoted(args))) + pause
        == if root then script + tail else "sudo" + (" " + (script + tail))
    ensures [] + [script] + args == [script] + args
  {
    var joined := Join(Quoted(args));
    var all := script + (" " + joined + pause);
    Regroup("", script, " ", joined, pause);
    assert "" + all == all;
    Regroup("sudo ", script, " ", joined, pause);
    assert "sudo " + all == "sudo" + (" " + all);
  }

  lemma PlainCommandOnly(script: string, args: seq<string>, root: bool)
    requires Quoteless(script) && args != [] && !PlainPath(script)
    ensures Tokenise(ShellScript(script, args, root)) != Some(Front(script, root) + args)
  {
    assert PAUSE[0] == ';';
    var tail := " " + Join(Quoted(args)) + PAUSE;
    TailReads(args, PAUSE);
    ScriptSplits(script, args, root, PAUSE);
    if root {
      PathMustBePlain(script, tail, args, []);
    } else {
      SudoWord(script + tail);
      PathMustBePlain(script, tail, args, ["sudo"]);
    }
  }

  lemma SameFront(front: seq<string>, a: seq<string>, b: seq<string>)
    ensures front + a == front + b <==> a == b
  {
    assert (front + a)[|front|..] == a && (front + b)[|front|..] == b;
  }

  /** The first command of the script text given to `sh -c` runs the provision script on exactly the
      arguments built from the configuration if and only if the configuration has a role and the script path
      consists of characters that stand for themselves. */
  lemma ArgumentsSurviveShell(script: string, cfg: Config, root: bool)
    requires Quoteless(script)
    ensures (Tokenise(ShellScript(script, ProvisionArgs(cfg), root)) == Some(Front(script, root) + ProvisionArgs(cfg)))
            <==> cfg.role != "" && PlainPath(script)
  {
    var args := ProvisionArgs(cfg);
    assert args[0] == "--role";
    if PlainPath(script) {
      FirstCommand(script, args, root);
      NonEmptyKeeps(args);
      OnlyRoleCanBeEmpty(cfg);
      SameFront(Front(script, root), NonEmpty(args), args);
    } else {
      PlainCommandOnly(script, args, root);
    }
  }
}
