/** The Jenkins CLI helper: how a `java -jar jenkins-cli.jar` call is assembled
    and what its reply means, how the `list-plugins` listing is read into an
    installed-plugin table, how plugins are sorted into categories by keyword,
    and how the pieces are put together into the context handed to the
    generator. Every CLI call is an input: the reply the helper's
    `_run_cli_command` returned (`None` on any failure). */
module JenkinsCli {
  import opened Wrappers
  import opened Text
  import opened Dicts
  import opened Process
  import opened Seqs

  /** The helper's settings once its constructor has applied its defaults. */
  datatype CliConfig = CliConfig(jenkinsUrl: string, username: string, token: Option<string>, cliJar: string)

  /** Python truthiness of an optional string: present and non-empty. */
  predicate Truthy(o: Option<string>) {
    o.Some? && o.value != ""
  }

  /** `self.username and self.token`. */
  predicate HasAuth(cfg: CliConfig) {
    cfg.username != "" && Truthy(cfg.token)
  }

  /** The command line `java -jar <jar> -s <url> [-auth user:token] <command...>`
      that `_run_cli_command` launches; job creation builds the same one. */
  function CliArgv(cfg: CliConfig, command: seq<string>): (argv: seq<string>)
    ensures |argv| == (if HasAuth(cfg) then 7 else 5) + |command|
    ensures argv[..5] == ["java", "-jar", cfg.cliJar, "-s", cfg.jenkinsUrl]
    ensures HasAuth(cfg) ==> argv[5..7] == ["-auth", cfg.username + ":" + cfg.token.value]
    ensures argv[|argv| - |command|..] == command
  {
    ["java", "-jar", cfg.cliJar, "-s", cfg.jenkinsUrl]
    + (if HasAuth(cfg) then ["-auth", cfg.username + ":" + cfg.token.value] else [])
    + command
  }

  /** `_run_cli_command`. `jarExists` is whether the CLI jar is on disk and
      `outcome` what the process run returned. `argv` is the command line that
      was launched (`None` when nothing was launched) and `reply` the method's
      return value. */
  method RunCliCommand(cfg: CliConfig, command: seq<string>, jarExists: bool, outcome: Outcome)
    returns (argv: Option<seq<string>>, reply: Option<string>)
    ensures argv == if jarExists then Some(CliArgv(cfg, command)) else None
    ensures reply.Some? <==> jarExists && ExitedZero(outcome)
    ensures reply.Some? ==> reply.value == Strip(outcome.stdout) && NoOuterSpace(reply.value)
  {
    if !jarExists {
      return None, None;
    }
    var cmd := ["java", "-jar", cfg.cliJar, "-s", cfg.jenkinsUrl];
    if HasAuth(cfg) {
      cmd := cmd + ["-auth", cfg.username + ":" + cfg.token.value];
    }
    cmd := cmd + command;
    argv := Some(cmd);
    match outcome
    case Completed(code, out, _) =>
      if code == 0 {
        reply := Some(Strip(out));
      } else {
        reply := None;
      }
    case TimeoutExpired =>
      reply := None;
    case Raised =>
      reply := None;
  }

  /** `get_jenkins_version`'s dictionary: each entry present only when its CLI
      call gave a non-empty reply. */
  datatype VersionInfo = VersionInfo(jenkinsVersion: Option<string>, systemInfo: Option<string>)

  predicate IsEmptyInfo(v: VersionInfo) {
    v.jenkinsVersion.None? && v.systemInfo.None?
  }

  /** `get_jenkins_version`, given the replies of the `version` and `groovy` calls. */
  method GetJenkinsVersion(versionReply: Option<string>, systemReply: Option<string>) returns (info: VersionInfo)
    ensures info.jenkinsVersion.Some? <==> Truthy(versionReply)
    ensures info.systemInfo.Some? <==> Truthy(systemReply)
    ensures info.jenkinsVersion.Some? ==> info.jenkinsVersion == versionReply
    ensures info.systemInfo.Some? ==> info.systemInfo == systemReply
    ensures IsEmptyInfo(info) <==> !Truthy(versionReply) && !Truthy(systemReply)
  {
    info := VersionInfo(None, None);
    if Truthy(versionReply) {
      info := info.(jenkinsVersion := versionReply);
    }
    if Truthy(systemReply) {
      info := info.(systemInfo := systemReply);
    }
  }

  /** One line of `list-plugins` output, read as `get_installed_plugins` reads
      it: at least two whitespace-separated tokens, the first being the name;
      the rest, re-joined with single spaces, must hold a '(' and a ')', and the
      version is the text between the first '(' and the next ')'. */
  function ParsePluginLine(line: string): (r: Option<(string, string)>)
    ensures r.Some? ==> IsWord(r.value.0)
    ensures r.Some? ==> '(' !in r.value.1 && ')' !in r.value.1
  {
    var t := Strip(line);
    if t == "" then None
    else
      var parts := SplitWs(t);
      if |parts| < 2 then None
      else
        var rest := Join(parts[1..], " ");
        if '(' in rest && ')' in rest then
          var afterOpen := Split(rest, '(')[1];
          var version := Split(afterOpen, ')')[0];
          PrefixLacks(afterOpen, |version|, '(');
          Some((parts[0], version))
        else None
  }

  /** The text between the first '(' and the next ')' of `(version)`. */
  lemma {:induction false} BetweenParens(version: string)
    requires '(' !in version && ')' !in version
    ensures Split(Split("(" + version + ")", '(')[1], ')')[0] == version
  {
    var inner := version + ")";
    assert "(" + version + ")" == [] + ['('] + inner;
    SplitAfter([], '(', inner);
    assert '(' !in inner;
    assert Split(inner, '(') == [inner];
    assert inner == version + [')'] + [];
    SplitAfter(version, ')', []);
  }

  /** A listing line `name (version)` is read back as that name and version. */
  lemma ParsePluginLineRoundTrip(name: string, version: string)
    requires IsWord(name) && IsWord(version)
    requires '(' !in version && ')' !in version
    ensures ParsePluginLine(name + " (" + version + ")") == Some((name, version))
  {
    ListingLineParts(name, version);
  }

  /** The steps of `get_installed_plugins` on a listing line `name (version)`:
      nothing to strip, two words, and the version between the parentheses of
      the second. */
  lemma ListingLineParts(name: string, version: string)
    requires IsWord(name) && IsWord(version)
    requires '(' !in version && ')' !in version
    ensures var w2 := "(" + version + ")";
      && name + " (" + version + ")" == name + " " + w2
      && Strip(name + " " + w2) == name + " " + w2 && name + " " + w2 != ""
      && SplitWs(name + " " + w2) == [name, w2]
      && Join([name, w2][1..], " ") == w2
      && '(' in w2 && ')' in w2
      && Split(Split(w2, '(')[1], ')')[0] == version
  {
    var w2 := "(" + version + ")";
    ListingLineWords(name, version);
    ParenthesisedWord(version);
    StripTwoWords(name, w2);
    SplitWsTwoWords(name, w2);
    assert [name, w2][1..] == [w2];
    BetweenParens(version);
  }

  /** The listing line is the name and the parenthesised version, as two words. */
  lemma ListingLineWords(name: string, version: string)
    ensures name + " (" + version + ")" == name + " " + ("(" + version + ")")
  {
    assert " (" == " " + "(";
    Assoc(name, " ", "(");
    Assoc(name + " ", "(", version);
    Assoc(name + " ", "(" + version, ")");
  }

  /** A version in parentheses is one word, holding both parentheses. */
  lemma ParenthesisedWord(version: string)
    requires IsWord(version)
    ensures IsWord("(" + version + ")")
    ensures '(' in "(" + version + ")" && ')' in "(" + version + ")"
  {
    var w := "(" + version + ")";
    assert w[0] == '(' && w[|w| - 1] == ')';
    forall j | 0 <= j < |w| ensures !IsSpace(w[j]) {
      if 0 < j < |w| - 1 {
        assert w[j] == version[j - 1];
      }
    }
  }

  /** The parsed lines, in order, of a `list-plugins` listing. */
  function ParsedPlugins(lines: seq<string>): seq<(string, string)>
  {
    FilterMap(ParsePluginLine, lines)
  }

  /** The table `get_installed_plugins` returns for a given `list-plugins` reply:
      each parsed line assigned into a dict in turn. */
  function InstalledPlugins(reply: Option<string>): seq<(string, string)>
  {
    if Truthy(reply) then PutAll([], ParsedPlugins(Split(reply.value, '\n'))) else []
  }

  /** `get_installed_plugins`, given the reply of the `list-plugins` call. */
  method GetInstalledPlugins(reply: Option<string>) returns (plugins: seq<(string, string)>)
    ensures plugins == InstalledPlugins(reply)
  {
    plugins := [];
    if !Truthy(reply) {
      return;
    }
    var lines := Split(reply.value, '\n');
    var i := 0;
    while i < |lines|
      invariant 0 <= i <= |lines|
      invariant plugins == PutAll([], ParsedPlugins(lines[..i]))
    {
      var line := lines[i];
      ListingStep(lines, i);
      if Strip(line) != "" {
        match ParsePluginLine(line)
        case Some(p) =>
          plugins := Put(plugins, p.0, p.1);
        case None =>
      }
      i := i + 1;
    }
    TakeAll(lines);
  }

  /** The table after one more listing line: a line that parses puts its
      name and version into the table, any other line leaves it as it was. */
  lemma ListingStep(lines: seq<string>, i: nat)
    requires i < |lines|
    ensures PutAll([], ParsedPlugins(lines[..i + 1]))
         == if Strip(lines[i]) != "" && ParsePluginLine(lines[i]).Some?
            then Put(PutAll([], ParsedPlugins(lines[..i])), ParsePluginLine(lines[i]).value.0, ParsePluginLine(lines[i]).value.1)
            else PutAll([], ParsedPlugins(lines[..i]))
  {
    var before := ParsedPlugins(lines[..i]);
    FilterMapNext(ParsePluginLine, lines, i);
    match ParsePluginLine(lines[i])
    case Some(p) =>
      PutAllNext(before, p);
    case None =>
      AppendEmpty(before);
  }

  lemma PutAllNext(kvs: seq<(string, string)>, p: (string, string))
    ensures PutAll([], kvs + [p]) == Put(PutAll([], kvs), p.0, p.1)
  {
    TakeAppend(kvs, [p], 0);
    AppendEmpty(kvs);
  }

  /** The installed-plugin table has each name once, holding the version on the
      last listing line that named it. */
  lemma InstalledPluginsLastWins(reply: Option<string>, name: string)
    requires Truthy(reply)
    ensures DistinctKeys(InstalledPlugins(reply))
    ensures Get(InstalledPlugins(reply), name) == LastValue(ParsedPlugins(Split(reply.value, '\n')), name)
  {
    PutAllLastWins([], ParsedPlugins(Split(reply.value, '\n')), name);
  }

  /** The category names of `_categorize_plugins`, in table order. */
  const CategoryNames: seq<string> :=
    ["scm", "build", "test", "notification", "deployment", "security", "pipeline", "ui"]

  /** The keywords of each category, in the same order. */
  const Keywords: seq<seq<string>> :=
    [ScmKeywords, BuildKeywords, TestKeywords, NotificationKeywords,
     DeploymentKeywords, SecurityKeywords, PipelineKeywords, UiKeywords]

  const ScmKeywords: seq<string> := ["git", "github", "bitbucket", "gitlab", "subversion", "mercurial"]
  const BuildKeywords: seq<string> := ["maven", "gradle", "nodejs", "ant", "msbuild", "docker"]
  const TestKeywords: seq<string> := ["junit", "testng", "xunit", "cucumber", "sonarqube", "jacoco", "cobertura"]
  const NotificationKeywords: seq<string> := ["slack", "email", "mailer", "teams", "discord", "telegram"]
  const DeploymentKeywords: seq<string> := ["deploy", "kubernetes", "aws", "azure", "ssh", "ansible", "terraform"]
  const SecurityKeywords: seq<string> := ["credentials", "role-strategy", "matrix-auth", "ldap", "saml"]
  const PipelineKeywords: seq<string> := ["workflow", "pipeline", "build-pipeline", "delivery-pipeline"]
  const UiKeywords: seq<string> := ["blueocean", "dashboard", "view", "theme"]

  /** Some keyword of category `c` occurs in the lower-cased plugin name. */
  predicate MatchesCategory(name: string, c: nat)
    requires c < |Keywords|
  {
    exists k :: 0 <= k < |Keywords[c]| && Contains(Lower(name), Keywords[c][k])
  }

  function FirstCategoryFrom(name: string, c: nat): (r: Option<nat>)
    requires c <= |Keywords|
    ensures r.Some? ==> c <= r.value < |Keywords| && MatchesCategory(name, r.value)
    ensures forall j :: c <= j < |Keywords| && (r.None? || j < r.value) ==> !MatchesCategory(name, j)
    decreases |Keywords| - c
  {
    if c == |Keywords| then None
    else if MatchesCategory(name, c) then Some(c)
    else FirstCategoryFrom(name, c + 1)
  }

  /** The category a plugin is filed under: the first, in table order, with a
      keyword occurring in its lower-cased name; `None` stands for `other`. */
  function CategoryOf(name: string): (r: Option<nat>)
    ensures r.Some? ==> r.value < |Keywords| && MatchesCategory(name, r.value)
    ensures forall j :: 0 <= j < |Keywords| && (r.None? || j < r.value) ==> !MatchesCategory(name, j)
  {
    FirstCategoryFrom(name, 0)
  }

  /** The names, in order, that go into the list of category `c`. */
  function Bucket(names: seq<string>, c: Option<nat>): seq<string>
  {
    if names == [] then []
    else
      var n := |names| - 1;
      Bucket(names[..n], c) + (if CategoryOf(names[n]) == c then [names[n]] else [])
  }

  /** The dictionary `_categorize_plugins` returns for plugins named `names`:
      the eight category lists in table order, then `other` if anything is
      left over. */
  function Categories(names: seq<string>): seq<(string, seq<string>)>
  {
    Assemble(FixedLists(names), Bucket(names, None))
  }

  /** The lists of the eight fixed categories, in table order. */
  function FixedLists(names: seq<string>): (lists: seq<seq<string>>)
    ensures |lists| == 8
    ensures forall c :: 0 <= c < 8 ==> lists[c] == Bucket(names, Some(c))
  {
    seq(8, c requires 0 <= c < 8 => Bucket(names, Some(c)))
  }

  /** The inner scan of `_categorize_plugins`: the categories are tried in
      table order and the first whose keyword occurs ends the scan; 8 means
      that none did. */
  method FindCategory(name: string) returns (c: nat)
    ensures c <= 8
    ensures CategoryOf(name) == if c < 8 then Some(c) else None
  {
    c := 0;
    while c < 8
      invariant c <= 8
      invariant forall j :: 0 <= j < c ==> !MatchesCategory(name, j)
    {
      if MatchesCategory(name, c) {
        return;
      }
      c := c + 1;
    }
  }

  /** `_categorize_plugins`, over the installed-plugin table. */
  method CategorizePlugins(plugins: seq<(string, string)>) returns (cats: seq<(string, seq<string>)>)
    ensures cats == Categories(Keys(plugins))
  {
    var names := Keys(plugins);
    var buckets: seq<seq<string>> := seq(8, _ => []);
    var other: seq<string> := [];
    var i := 0;
    while i < |names|
      invariant 0 <= i <= |names|
      invariant buckets == FixedLists(names[..i])
      invariant other == Bucket(names[..i], None)
    {
      var name := names[i];
      TakeNext(names, i);
      FixedListsSnoc(names[..i], name);
      BucketSnoc(names[..i], name, None);
      var c := FindCategory(name);
      if c < 8 {
        buckets := buckets[c := buckets[c] + [name]];
      } else {
        other := other + [name];
      }
      i := i + 1;
    }
    TakeAll(names);
    cats := Assemble(buckets, other);
  }

  /** Filing one more name extends the list of its category and no other. */
  lemma FixedListsSnoc(names: seq<string>, x: string)
    ensures FixedLists(names + [x]) ==
      match CategoryOf(x)
      case Some(c) => FixedLists(names)[c := FixedLists(names)[c] + [x]]
      case None => FixedLists(names)
  {
    var before := FixedLists(names);
    var after := FixedLists(names + [x]);
    match CategoryOf(x) {
      case Some(k) =>
        var expected := before[k := before[k] + [x]];
        forall c | 0 <= c < 8 ensures after[c] == expected[c] {
          BucketSnoc(names, x, Some(c));
          if c == k {
            assert after[c] == before[c] + [x];
          } else {
            AppendEmpty(before[c]);
            assert after[c] == before[c];
          }
        }
        assert after == expected;
      case None =>
        forall c | 0 <= c < 8 ensures after[c] == before[c] {
          BucketSnoc(names, x, Some(c));
          AppendEmpty(before[c]);
        }
        assert after == before;
    }
  }

  /** The dictionary built from the eight category lists and the `other` list. */
  function Assemble(buckets: seq<seq<string>>, other: seq<string>): (cats: seq<(string, seq<string>)>)
    requires |buckets| == 8
  {
    seq(8, c requires 0 <= c < 8 => (CategoryNames[c], buckets[c]))
    + (if other == [] then [] else [("other", other)])
  }

  /** A plugin is in the list of category `c` exactly when it is one of the
      names and `c` is its category. */
  lemma {:induction false} BucketMembership(names: seq<string>, c: Option<nat>, x: string)
    ensures x in Bucket(names, c) <==> x in names && CategoryOf(x) == c
  {
    if names != [] {
      var n := |names| - 1;
      BucketMembership(names[..n], c, x);
      FrontLast(names);
    }
  }

  /** Filing one more name appends it to the list of its own category only. */
  lemma BucketSnoc(names: seq<string>, x: string, c: Option<nat>)
    ensures Bucket(names + [x], c) == Bucket(names, c) + (if CategoryOf(x) == c then [x] else [])
  {
    TakeAppend(names, [x], 0);
    AppendEmpty(names);
  }

  /** Filing preserves order: the lists for a run of names followed by another
      are the lists of the first run followed by those of the second. */
  lemma {:induction false} BucketAppend(a: seq<string>, b: seq<string>, c: Option<nat>)
    ensures Bucket(a + b, c) == Bucket(a, c) + Bucket(b, c)
  {
    if b == [] {
      AppendEmpty(a);
      AppendEmpty(Bucket(a, c));
    } else {
      var n := |b| - 1;
      BucketAppend(a, b[..n], c);
      FrontLast(b);
      Assoc(a, b[..n], [b[n]]);
      BucketSnoc(a + b[..n], b[n], c);
      BucketSnoc(b[..n], b[n], c);
      Assoc(Bucket(a, c), Bucket(b[..n], c), if CategoryOf(b[n]) == c then [b[n]] else []);
    }
  }

  /** The position of a plugin's list in the categorised dictionary. */
  function Slot(name: string): nat {
    match CategoryOf(name)
    case Some(c) => c
    case None => 8
  }

  /** The categorised dictionary starts with the eight fixed keys in table
      order, and `other` follows exactly when some plugin matched no keyword. */
  lemma CategoriesKeys(names: seq<string>)
    ensures var cats := Categories(names);
      && 8 <= |cats| <= 9
      && Keys(cats)[..8] == CategoryNames
      && (|cats| == 9 <==> exists y :: y in names && CategoryOf(y) == None)
      && (|cats| == 9 ==> cats[8].0 == "other")
  {
    var cats := Categories(names);
    assert Keys(cats)[..8] == CategoryNames;
    if exists y :: y in names && CategoryOf(y) == None {
      var y :| y in names && CategoryOf(y) == None;
      BucketMembership(names, None, y);
    } else if Bucket(names, None) != [] {
      BucketMembership(names, None, Bucket(names, None)[0]);
    }
  }

  /** Every plugin sits in exactly one list, the one of its category. */
  lemma CategoriesPlacement(names: seq<string>, x: string)
    requires x in names
    ensures var cats := Categories(names);
      Slot(x) < |cats| && forall i :: 0 <= i < |cats| ==> (x in cats[i].1 <==> i == Slot(x))
  {
    var cats := Categories(names);
    forall i | 0 <= i < |cats| ensures x in cats[i].1 <==> i == Slot(x) {
      BucketMembership(names, if i < 8 then Some(i) else None, x);
    }
    BucketMembership(names, None, x);
  }

  /** The first match decides: `ssh-credentials` holds the security keyword
      `credentials` but is filed under `deployment`, whose keyword `ssh` comes
      earlier in the table. */
  lemma SshCredentialsIsDeployment()
    ensures CategoryOf("ssh-credentials") == Some(4)
    ensures MatchesCategory("ssh-credentials", 5)
  {
    SshCredentialsHasSsh();
    SshCredentialsHasCredentials();
    forall c | 0 <= c < 4 ensures !MatchesCategory("ssh-credentials", c) {
      NoEarlierCategory(c);
    }
  }

  lemma SshCredentialsHasSsh()
    ensures MatchesCategory("ssh-credentials", 4)
  {
    assert Keywords[4][4] == "ssh";
    assert "ssh-credentials"[0..3] == "ssh";
    SshCredentialsMatch(4, 4, 0);
  }

  lemma SshCredentialsHasCredentials()
    ensures MatchesCategory("ssh-credentials", 5)
  {
    assert Keywords[5][0] == "credentials";
    assert "ssh-credentials"[4..15] == "credentials";
    SshCredentialsMatch(5, 0, 4);
  }

  lemma SshCredentialsMatch(c: nat, k: nat, i: nat)
    requires c < |Keywords| && k < |Keywords[c]| && OccursAt("ssh-credentials", Keywords[c][k], i)
    ensures MatchesCategory("ssh-credentials", c)
  {
    SshCredentialsLower();
    ContainsAt("ssh-credentials", Keywords[c][k], i);
  }

  lemma SshCredentialsLower()
    ensures Lower("ssh-credentials") == "ssh-credentials"
  {
    LowerNoUpper("ssh-credentials");
  }

  lemma NoEarlierCategory(c: nat)
    requires c < 4
    ensures !MatchesCategory("ssh-credentials", c)
  {
    SshCredentialsLower();
    forall k | 0 <= k < |Keywords[c]| ensures !Contains("ssh-credentials", Keywords[c][k]) {
      NoSshKeyword(c, k);
    }
  }

  /** None of the keywords of the first four categories occurs in `ssh-credentials`. */
  lemma NoSshKeyword(c: nat, k: nat)
    requires c < 4 && k < |Keywords[c]|
    ensures !Contains("ssh-credentials", Keywords[c][k])
  {
    if c == 0 {
      NoScmKeyword(k);
    } else if c == 1 {
      NoBuildKeyword(k);
    } else if c == 2 {
      NoTestKeyword(k);
    } else {
      NoNotificationKeyword(k);
    }
  }

  lemma NoScmKeyword(k: nat)
    requires k < |ScmKeywords|
    ensures !Contains("ssh-credentials", ScmKeywords[k])
  {
    var kw := ScmKeywords[k];
    AbsentChar("ssh-credentials", kw, if k == 1 then 'b' else if k < 4 then (if k == 2 then 'b' else 'g') else 'u');
  }

  lemma NoBuildKeyword(k: nat)
    requires k < |BuildKeywords|
    ensures !Contains("ssh-credentials", BuildKeywords[k])
  {
    if k == 3 {
      NoAnt();
    } else {
      AbsentChar("ssh-credentials", BuildKeywords[k], if k == 0 || k == 4 then 'm' else if k == 1 then 'g' else 'o');
    }
  }

  lemma NoTestKeyword(k: nat)
    requires k < |TestKeywords|
    ensures !Contains("ssh-credentials", TestKeywords[k])
  {
    var kw := TestKeywords[k];
    AbsentChar("ssh-credentials", kw, if k == 1 then 'g' else if k == 2 then 'x' else if k == 5 then 'j' else 'u');
  }

  lemma NoNotificationKeyword(k: nat)
    requires k < |NotificationKeywords|
    ensures !Contains("ssh-credentials", NotificationKeywords[k])
  {
    var kw := NotificationKeywords[k];
    AbsentChar("ssh-credentials", kw, if k == 0 then 'k' else if k == 4 then 'o' else 'm');
  }

  lemma NoAnt()
    ensures !Contains("ssh-credentials", BuildKeywords[3])
  {
    var name, kw := "ssh-credentials", BuildKeywords[3];
    forall i: nat ensures !OccursAt(name, kw, i) {
      if i + 3 <= |name| && name[i] == kw[0] {
        assert i == 12;
        assert name[i..i + 3][1] != kw[1];
      }
    }
    NotContainsAnywhere(name, kw);
  }

  /** What `get_jenkins_context` hands to the generator. */
  datatype JenkinsContext = JenkinsContext(
    accessible: bool,
    versionInfo: VersionInfo,
    installedPlugins: seq<(string, string)>,
    categories: seq<(string, seq<string>)>)

  /** The category lists the context starts from: seven empty lists, with no
      `pipeline` entry. */
  const DefaultCategories: seq<(string, seq<string>)> :=
    [("scm", []), ("build", []), ("test", []), ("notification", []), ("deployment", []), ("security", []), ("ui", [])]

  /** `get_jenkins_context`, given the replies of the `version`, `groovy` and
      `list-plugins` calls. Jenkins counts as reachable exactly when some version
      information came back; the category lists are computed only when some
      plugin was detected. */
  method GetJenkinsContext(versionReply: Option<string>, systemReply: Option<string>, pluginsReply: Option<string>)
    returns (ctx: JenkinsContext)
    ensures ctx.accessible <==> Truthy(versionReply) || Truthy(systemReply)
    ensures ctx.accessible <==> !IsEmptyInfo(ctx.versionInfo)
    ensures ctx.versionInfo.jenkinsVersion == if Truthy(versionReply) then versionReply else None
    ensures ctx.versionInfo.systemInfo == if Truthy(systemReply) then systemReply else None
    ensures ctx.installedPlugins == InstalledPlugins(pluginsReply)
    ensures ctx.installedPlugins == [] ==> ctx.categories == DefaultCategories
    ensures ctx.installedPlugins != [] ==> ctx.categories == Categories(Keys(ctx.installedPlugins))
  {
    ctx := JenkinsContext(false, VersionInfo(None, None), [], DefaultCategories);
    var info := GetJenkinsVersion(versionReply, systemReply);
    if !IsEmptyInfo(info) {
      ctx := ctx.(accessible := true, versionInfo := info);
    }
    var plugins := GetInstalledPlugins(pluginsReply);
    if plugins != [] {
      var cats := CategorizePlugins(plugins);
      ctx := ctx.(installedPlugins := plugins, categories := cats);
    }
  }

  /** The default lists lack the `pipeline` category that the categorised
      dictionary always has. */
  lemma DefaultCategoriesLackPipeline()
    ensures "pipeline" !in Keys(DefaultCategories)
  {
    var ks := Keys(DefaultCategories);
    assert ks == ["scm", "build", "test", "notification", "deployment", "security", "ui"];
    forall i | 0 <= i < |ks| ensures ks[i] != "pipeline" {
      assert |ks[i]| != 8 || ks[i][0] == 's';
    }
  }

  /** The categorised dictionary always has a `pipeline` list. */
  lemma CategoriesHavePipeline(names: seq<string>)
    ensures "pipeline" in Keys(Categories(names))
  {
    var ks := Keys(Categories(names));
    assert ks[6] == Categories(names)[6].0 == CategoryNames[6];
  }


}
