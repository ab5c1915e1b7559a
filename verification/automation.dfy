/** `JenkinsAutomation`: pushing the generated Jenkinsfile, creating the
    Jenkins job and installing the required plugins. Every prompt answer,
    file and process result is an input; the model decides what the code
    does with them. */
module Automation {
  import opened Wrappers
  import opened Text
  import opened Process
  import opened JenkinsCli
  import opened Seqs

  /** `input(...).strip().lower() in ['y', 'yes']`. */
  predicate Confirms(answer: string) {
    var a := Lower(Strip(answer));
    a == "y" || a == "yes"
  }

  // ---------------------------------------------------------------------
  // The plugin manifest (`_parse_plugins_xml`)
  // ---------------------------------------------------------------------

  datatype Plugin = Plugin(name: string, version: string)

  /** The first position at or after `from` holding `c`, or `|s|`. */
  function FindFrom(s: string, c: char, from: nat): (k: nat)
    requires from <= |s|
    ensures from <= k <= |s|
    ensures forall i :: from <= i < k ==> s[i] != c
    ensures k < |s| ==> s[k] == c
    decreases |s| - from
  {
    if from == |s| || s[from] == c then from else FindFrom(s, c, from + 1)
  }

  /** The match of `<plugin[^>]*>([^<]+)</plugin>` at the start of `s`: its
      group and the length it spans. `[^>]*` can only stop at the first '>'
      and `[^<]+` only at the first '<', so there is at most one. */
  function MatchAt(s: string): (m: Option<(string, nat)>)
    ensures m.Some? ==> 0 < m.value.1 <= |s| && m.value.0 != [] && '<' !in m.value.0
  {
    if !StartsWith(s, "<plugin") then None
    else
      var g := FindFrom(s, '>', 7);
      if g == |s| then None
      else
        var t := FindFrom(s, '<', g + 1);
        if t == g + 1 || !OccursAt(s, "</plugin>", t) then None
        else Some((s[g + 1..t], t + 9))
  }

  /** `re.findall` of that pattern over `s`: the groups of the
      non-overlapping matches, left to right. */
  function FindAll(s: string): (groups: seq<string>)
    ensures forall k :: 0 <= k < |groups| ==> groups[k] != [] && '<' !in groups[k]
    decreases |s|
  {
    if s == [] then []
    else match MatchAt(s)
      case Some((g, n)) => [g] + FindAll(s[n..])
      case None => FindAll(s[1..])
  }

  /** One manifest entry: split at the first '@' into a trimmed name and
      version; no '@' means version `latest`. */
  function ParseEntry(m: string): Plugin
  {
    if '@' in m then
      var i := IndexOf(m, '@');
      Plugin(Strip(m[..i]), Strip(m[i + 1..]))
    else Plugin(Strip(m), "latest")
  }

  /** The entries for a sequence of matches, in order. */
  function Entries(ms: seq<string>): (ps: seq<Plugin>)
    ensures |ps| == |ms|
  {
    Map(ParseEntry, ms)
  }

  /** What `_parse_plugins_xml` returns for the manifest file; a file that
      cannot be read gives no plugins. */
  function ManifestPlugins(f: FileState): seq<Plugin>
  {
    if f.Present? then Entries(FindAll(f.content)) else []
  }

  /** `_parse_plugins_xml`. */
  method ParsePluginsXml(f: FileState) returns (plugins: seq<Plugin>)
    ensures plugins == ManifestPlugins(f)
  {
    plugins := [];
    if !f.Present? {
      return;
    }
    var matches := FindAll(f.content);
    for i := 0 to |matches|
      invariant plugins == Map(ParseEntry, matches[..i])
    {
      MapNext(ParseEntry, matches, i);
      plugins := plugins + [ParseEntry(matches[i])];
    }
    assert matches[..|matches|] == matches;
  }


  // How a manifest in the documented form scans back.

  /** `<plugin` + attributes + `>` + text + `</plugin>`. */
  function Element(attrs: string, x: string): string {
    "<plugin" + attrs + ">" + x + "</plugin>"
  }

  /** The text `name@version` of one plugin. */
  function EntryText(p: Plugin): string {
    p.name + "@" + p.version
  }

  /** One bare `<plugin>` element per text, each followed by a newline,
      then `rest`. */
  function Elements(xs: seq<string>, rest: string): string {
    if xs == [] then rest else Element("", xs[0]) + ("\n" + Elements(xs[1..], rest))
  }

  /** A `required_plugins.xml` in the documented form. */
  function Manifest(ps: seq<Plugin>): string {
    "<plugins>\n" + Elements(EntryTexts(ps), "</plugins>\n")
  }

  /** A plugin whose name and version survive being written as `name@version`
      inside an element and read back. */
  predicate Writable(p: Plugin) {
    && '<' !in p.name && '@' !in p.name && NoOuterSpace(p.name)
    && '<' !in p.version && NoOuterSpace(p.version)
  }

  function EntryTexts(ps: seq<Plugin>): (ts: seq<string>)
    ensures |ts| == |ps|
    ensures forall k :: 0 <= k < |ps| ==> ts[k] == EntryText(ps[k])
  {
    if ps == [] then [] else [EntryText(ps[0])] + EntryTexts(ps[1..])
  }

  /** The first `c` at or after `from` is at `k`. */
  lemma FindFromAt(s: string, c: char, from: nat, k: nat)
    requires from <= k < |s| && s[k] == c
    requires forall i :: from <= i < k ==> s[i] != c
    ensures FindFrom(s, c, from) == k
  {
  }

  /** The match read off from where its '>' and its closing tag are. */
  lemma MatchAtIs(s: string, g: nat, t: nat)
    requires StartsWith(s, "<plugin") && 7 <= g && g + 1 < t && OccursAt(s, "</plugin>", t)
    requires forall i :: 7 <= i < g ==> s[i] != '>'
    requires s[g] == '>'
    requires forall i :: g + 1 <= i < t ==> s[i] != '<'
    ensures MatchAt(s) == Some((s[g + 1..t], t + 9))
  {
    FindFromAt(s, '>', 7, g);
    assert s[t] == s[t..t + 9][0];
    FindFromAt(s, '<', g + 1, t);
  }

  /** An element, attributes and all, is one match whose group is its text. */
  lemma MatchElement(attrs: string, x: string, rest: string)
    requires '>' !in attrs && x != [] && '<' !in x
    ensures MatchAt(Element(attrs, x) + rest) == Some((x, |Element(attrs, x)|))
  {
    var el := Element(attrs, x);
    var s := el + rest;
    var g := 7 + |attrs|;
    var t := g + 1 + |x|;
    assert s[..7] == el[..7] == "<plugin";
    forall i | 7 <= i < g ensures s[i] != '>' {
      assert s[i] == el[i] == attrs[i - 7];
    }
    assert s[g] == el[g] == '>';
    forall i | g + 1 <= i < t ensures s[i] != '<' {
      assert s[i] == el[i] == x[i - g - 1];
    }
    assert s[t..t + 9] == el[t..] == "</plugin>";
    assert s[g + 1..t] == el[g + 1..t] == x;
    MatchAtIs(s, g, t);
  }

  /** No match starts at a character other than '<'. */
  lemma NoMatchAt(s: string)
    requires s != [] && s[0] != '<'
    ensures FindAll(s) == FindAll(s[1..])
  {
    assert !StartsWith(s, "<plugin") by {
      if |s| >= 7 {
        assert s[..7][0] == s[0];
      }
    }
    assert MatchAt(s) == None;
  }

  /** An element and its newline give one match, then scanning goes on after them. */
  lemma ScanOneElement(x: string, rest: string)
    requires x != [] && '<' !in x
    ensures FindAll(Element("", x) + ("\n" + rest)) == [x] + FindAll(rest)
  {
    var el := Element("", x);
    var s := el + ("\n" + rest);
    MatchElement("", x, "\n" + rest);
    assert s[|el|..] == "\n" + rest;
    NoMatchAt("\n" + rest);
    assert ("\n" + rest)[1..] == rest;
  }

  /** Elements scan to their texts, one match per element, in order. */
  lemma {:induction false} ScanElements(xs: seq<string>, rest: string)
    requires forall k :: 0 <= k < |xs| ==> xs[k] != [] && '<' !in xs[k]
    ensures FindAll(Elements(xs, rest)) == xs + FindAll(rest)
  {
    if xs == [] {
    } else {
      var t := Elements(xs[1..], rest);
      calc {
        FindAll(Elements(xs, rest));
        FindAll(Element("", xs[0]) + ("\n" + t));
        { ScanOneElement(xs[0], t); }
        [xs[0]] + FindAll(t);
        { ScanElements(xs[1..], rest); }
        [xs[0]] + (xs[1..] + FindAll(rest));
        { assert xs == [xs[0]] + xs[1..]; }
        xs + FindAll(rest);
      }
    }
  }

  /** `name@version` reads back as the plugin it was written from. */
  lemma ParseEntryText(p: Plugin)
    requires Writable(p)
    ensures ParseEntry(EntryText(p)) == p
  {
    IndexOfAfter(p.name, '@', p.version);
    assert EntryText(p) == p.name + ['@'] + p.version;
    var m := EntryText(p);
    assert m[..|p.name|] == p.name;
    assert m[|p.name| + 1..] == p.version;
  }

  /** With no match at the start, scanning skips every character before the
      next '<'. */
  lemma {:induction false} SkipToOpen(s: string, k: nat)
    requires 0 < k <= |s| && MatchAt(s) == None && '<' !in s[1..k]
    ensures FindAll(s) == FindAll(s[k..])
  {
    if k > 1 {
      assert '<' !in s[1..k - 1] by {
        assert forall c :: c in s[1..k - 1] ==> c in s[1..k];
      }
      SkipToOpen(s, k - 1);
      assert s[k - 1] == s[1..k][k - 2];
      NoMatchAt(s[k - 1..]);
      assert s[k - 1..][1..] == s[k..];
    }
  }

  /** The opening `<plugins>` line matches nothing when the next line opens
      with an element or with `</plugins>`. */
  lemma HeaderSkipped(body: string)
    requires StartsWith(body, "<plugin>") || StartsWith(body, "</plugins>")
    ensures FindAll("<plugins>\n" + body) == FindAll(body)
  {
    var s := "<plugins>\n" + body;
    HeaderNoMatch(body);
    assert s[1..10] == "plugins>\n";
    SkipToOpen(s, 10);
    assert s[10..] == body;
  }

  /** No match starts at `<plugins>`: its group would have to be the newline,
      but the next '<' does not open `</plugin>`. */
  lemma HeaderNoMatch(body: string)
    requires StartsWith(body, "<plugin>") || StartsWith(body, "</plugins>")
    ensures MatchAt("<plugins>\n" + body) == None
  {
    var s := "<plugins>\n" + body;
    assert s[..7] == "<plugin";
    assert s[7] == 's' && s[8] == '>' && s[9] == '\n';
    FindFromAt(s, '>', 7, 8);
    assert s[10] == body[0] == '<';
    FindFromAt(s, '<', 9, 10);
    assert !OccursAt(s, "</plugin>", 10) by {
      if StartsWith(body, "<plugin>") {
        assert s[11] == body[1] == 'p';
      } else {
        assert s[18] == body[8] == 's';
      }
    }
  }

  /** The closing `</plugins>` line matches nothing. */
  lemma FooterSkipped()
    ensures FindAll("</plugins>\n") == []
  {
    var s := "</plugins>\n";
    assert !StartsWith(s, "<plugin") by {
      assert s[1] == '/';
    }
    assert s[1..] == "/plugins>\n";
    SkipToOpen(s, |s|);
    assert s[|s|..] == [];
  }

  /** The texts of a `<plugins>` file with one element per text scan back
      to exactly those texts. */
  lemma ScanManifest(xs: seq<string>)
    requires forall k :: 0 <= k < |xs| ==> xs[k] != [] && '<' !in xs[k]
    ensures FindAll("<plugins>\n" + Elements(xs, "</plugins>\n")) == xs
  {
    var body := Elements(xs, "</plugins>\n");
    ElementsStart(xs);
    HeaderSkipped(body);
    ScanElements(xs, "</plugins>\n");
    FooterSkipped();
    assert xs + [] == xs;
  }

  /** The body of such a file opens with an element or with the closing tag. */
  lemma ElementsStart(xs: seq<string>)
    ensures StartsWith(Elements(xs, "</plugins>\n"), "<plugin>") || StartsWith(Elements(xs, "</plugins>\n"), "</plugins>")
  {
    var body := Elements(xs, "</plugins>\n");
    if xs != [] {
      assert body[..8] == Element("", xs[0])[..8] == "<plugin>";
    } else {
      assert body[..10] == "</plugins>";
    }
  }

  /** A manifest in the documented form parses back to exactly the plugins it
      was written from: one entry per element, in order, duplicates kept. */
  lemma ManifestRoundTrip(ps: seq<Plugin>)
    requires forall k :: 0 <= k < |ps| ==> Writable(ps[k])
    ensures ManifestPlugins(Present(Manifest(ps))) == ps
  {
    var xs := EntryTexts(ps);
    forall k | 0 <= k < |xs| ensures xs[k] != [] && '<' !in xs[k] {
      assert xs[k] == ps[k].name + ("@" + ps[k].version);
    }
    ScanManifest(xs);
    forall k | 0 <= k < |ps| ensures Entries(xs)[k] == ps[k] {
      MapAt(ParseEntry, xs, k);
      ParseEntryText(ps[k]);
    }
  }

  /** An entry with no '@' is the plugin of that name at version `latest`. */
  lemma ParseBareEntry(name: string)
    requires '@' !in name && NoOuterSpace(name)
    ensures ParseEntry(name) == Plugin(name, "latest")
  {
  }

  /** A manifest of bare `<plugin>name</plugin>` elements parses back to
      those names, each at version `latest`, in order, duplicates kept. */
  lemma BareManifestRoundTrip(names: seq<string>)
    requires forall k :: 0 <= k < |names| ==> names[k] != [] && '<' !in names[k] && '@' !in names[k] && NoOuterSpace(names[k])
    ensures var ps := ManifestPlugins(Present("<plugins>\n" + Elements(names, "</plugins>\n")));
            |ps| == |names| && forall k :: 0 <= k < |names| ==> ps[k] == Plugin(names[k], "latest")
  {
    ScanManifest(names);
    forall k | 0 <= k < |names| ensures Entries(names)[k] == Plugin(names[k], "latest") {
      MapAt(ParseEntry, names, k);
      ParseBareEntry(names[k]);
    }
  }

  // ---------------------------------------------------------------------
  // Installing plugins (`_install_jenkins_plugins`, `plugin_installation_phase`)
  // ---------------------------------------------------------------------

  /** The argument of `install-plugin`: the bare name for `latest`, else
      `name:version`. */
  function PluginSpec(p: Plugin): string {
    if p.version == "latest" then p.name else p.name + ":" + p.version
  }

  /** The CLI commands the install loop sends, one per plugin, in order. */
  function InstallCommands(ps: seq<Plugin>): (cs: seq<seq<string>>)
    ensures |cs| == |ps|
    ensures forall k :: 0 <= k < |ps| ==> cs[k] == ["install-plugin", PluginSpec(ps[k])]
  {
    if ps == [] then [] else InstallCommands(ps[..|ps| - 1]) + [["install-plugin", PluginSpec(ps[|ps| - 1])]]
  }

  /** How many install calls returned something (`success_count`). */
  function Successes(replies: seq<Option<string>>): (n: nat)
    ensures n <= |replies|
  {
    if replies == [] then 0
    else Successes(replies[..|replies| - 1]) + (if replies[|replies| - 1].Some? then 1 else 0)
  }

  /** Some install succeeded exactly when the count is positive, and every
      one did exactly when it reaches the number of plugins. */
  lemma {:induction false} SuccessesCount(replies: seq<Option<string>>)
    ensures Successes(replies) > 0 <==> exists k :: 0 <= k < |replies| && replies[k].Some?
    ensures Successes(replies) == |replies| <==> forall k :: 0 <= k < |replies| ==> replies[k].Some?
  {
    if replies != [] {
      var n := |replies| - 1;
      var init := replies[..n];
      SuccessesCount(init);
      assert forall k :: 0 <= k < n ==> init[k] == replies[k];
      if replies[n].None? {
        assert Successes(replies) == Successes(init) <= n;
      }
    }
  }

  /** `_install_jenkins_plugins`, given what each `install-plugin` call
      returned and the answer to the restart prompt. `commands` are the CLI
      commands sent, the `safe-restart` one included; the restart's own
      outcome never changes the result. */
  method InstallJenkinsPlugins(plugins: seq<Plugin>, replies: seq<Option<string>>, restartAnswer: string)
    returns (commands: seq<seq<string>>, ok: bool)
    requires |replies| == |plugins|
    ensures ok <==> plugins == [] || exists k :: 0 <= k < |replies| && replies[k].Some?
    ensures commands == InstallCommands(plugins)
                        + (if AllInstalled(replies) && Confirms(restartAnswer) then [["safe-restart"]] else [])
  {
    var successCount := 0;
    commands := [];
    for i := 0 to |plugins|
      invariant successCount == Successes(replies[..i])
      invariant commands == InstallCommands(plugins[..i])
    {
      assert replies[..i + 1][..i] == replies[..i];
      assert plugins[..i + 1][..i] == plugins[..i];
      var spec := PluginSpec(plugins[i]);
      commands := commands + [["install-plugin", spec]];
      if replies[i].Some? {
        successCount := successCount + 1;
      }
    }
    assert replies[..|replies|] == replies;
    assert plugins[..|plugins|] == plugins;
    SuccessesCount(replies);
    if successCount == |plugins| {
      if Confirms(restartAnswer) {
        commands := commands + [["safe-restart"]];
      }
      ok := true;
    } else if successCount > 0 {
      ok := true;
    } else {
      ok := false;
    }
  }

  /** Every install call returned something. */
  predicate AllInstalled(replies: seq<Option<string>>) {
    forall k :: 0 <= k < |replies| ==> replies[k].Some?
  }

  /** What the plugin phase is given: the manifest file, the answer to
      "Install these plugins?", what each install call returns and the answer
      to the restart prompt. */
  datatype PluginInputs = PluginInputs(manifest: FileState, answer: string,
                                       replies: seq<Option<string>>, restartAnswer: string)

  /** When the plugin phase succeeds: the manifest is there, and it lists no
      plugin or the operator agrees and at least one install succeeds. */
  predicate PluginPhaseOk(pi: PluginInputs) {
    && Exists(pi.manifest)
    && (|| ManifestPlugins(pi.manifest) == []
        || (Confirms(pi.answer) && exists k :: 0 <= k < |pi.replies| && pi.replies[k].Some?))
  }

  /** The oracle gives one reply per plugin the manifest lists. */
  predicate RepliesFit(pi: PluginInputs) {
    |pi.replies| == |ManifestPlugins(pi.manifest)|
  }

  /** The commands the plugin phase sends: none unless the manifest lists
      plugins and the operator agrees; then one install per plugin, and
      `safe-restart` when every install succeeded and the restart is confirmed. */
  function PluginCommands(pi: PluginInputs): seq<seq<string>> {
    if Exists(pi.manifest) && ManifestPlugins(pi.manifest) != [] && Confirms(pi.answer)
    then InstallCommands(ManifestPlugins(pi.manifest))
         + (if AllInstalled(pi.replies) && Confirms(pi.restartAnswer) then [["safe-restart"]] else [])
    else []
  }

  /** `plugin_installation_phase`. */
  method PluginInstallationPhase(pi: PluginInputs) returns (commands: seq<seq<string>>, ok: bool)
    requires RepliesFit(pi)
    ensures ok == PluginPhaseOk(pi)
    ensures commands != [] ==> Exists(pi.manifest) && ManifestPlugins(pi.manifest) != [] && Confirms(pi.answer)
    ensures commands == PluginCommands(pi)
  {
    commands := [];
    if !Exists(pi.manifest) {
      return [], false;
    }
    var plugins := ParsePluginsXml(pi.manifest);
    if plugins == [] {
      return [], true;
    }
    if !Confirms(pi.answer) {
      return [], false;
    }
    commands, ok := InstallJenkinsPlugins(plugins, pi.replies, pi.restartAnswer);
  }

  /** The install argument splits back at its first ':' into the name and
      the version, and has no ':' when the version is `latest`. */
  lemma PluginSpecSplits(p: Plugin)
    requires ':' !in p.name
    ensures p.version == "latest" ==> ':' !in PluginSpec(p)
    ensures p.version != "latest" ==>
              var spec := PluginSpec(p);
              ':' in spec && spec[..IndexOf(spec, ':')] == p.name && spec[IndexOf(spec, ':') + 1..] == p.version
  {
    if p.version != "latest" {
      IndexOfAfter(p.name, ':', p.version);
      var spec := p.name + [':'] + p.version;
      assert PluginSpec(p) == spec;
      assert spec[..|p.name|] == p.name;
      assert spec[|p.name| + 1..] == p.version;
    }
  }

  // ---------------------------------------------------------------------
  // Git (`_get_git_status`, `git_automation_phase`, `_execute_git_operations`)
  // ---------------------------------------------------------------------

  /** `_get_git_status`'s dictionary. */
  datatype GitStatus = GitStatus(isGitRepo: bool, currentBranch: Option<string>, hasJenkinsfile: bool, hasChanges: bool)

  /** `_get_git_status`, given the results of `git rev-parse --git-dir`,
      `git branch --show-current` and `git status --porcelain` and whether the
      checkout holds a Jenkinsfile. A timeout or error ends the checks and
      keeps what was found so far. */
  function GetGitStatus(revParse: Outcome, branch: Outcome, jenkinsfileExists: bool, porcelain: Outcome): (st: GitStatus)
    ensures st.isGitRepo <==> ExitedZero(revParse)
    ensures st.hasJenkinsfile ==> st.isGitRepo && jenkinsfileExists
    ensures st.hasChanges ==> st.isGitRepo && ExitedZero(porcelain)
    ensures st.currentBranch.Some? ==> ExitedZero(branch) && st.currentBranch.value != "" && NoOuterSpace(st.currentBranch.value)
    ensures st.isGitRepo && ExitedZero(branch) ==>
              st.currentBranch == Some(if Strip(branch.stdout) != "" then Strip(branch.stdout) else "main")
    ensures st.isGitRepo && branch.Completed? ==> (st.hasJenkinsfile <==> jenkinsfileExists)
    ensures st.isGitRepo && branch.Completed? && ExitedZero(porcelain) ==> (st.hasChanges <==> Strip(porcelain.stdout) != "")
    ensures st.hasJenkinsfile || st.hasChanges ==> branch.Completed?
  {
    var none := GitStatus(false, None, false, false);
    if !ExitedZero(revParse) then none
    else
      var inRepo := none.(isGitRepo := true);
      if !branch.Completed? then inRepo
      else
        var current := if branch.returncode == 0 then Some(if Strip(branch.stdout) != "" then Strip(branch.stdout) else "main") else None;
        var known := inRepo.(currentBranch := current, hasJenkinsfile := jenkinsfileExists);
        if !porcelain.Completed? then known
        else known.(hasChanges := porcelain.returncode == 0 && Strip(porcelain.stdout) != "")
  }

  const NewBranchName := "feature/jenkins-ci-cd-pipeline"
  const CommitMessage := "Add Jenkins pipeline configuration"

  /** The branch to push: the current one when the checkout already has a
      Jenkinsfile, else the feature branch. */
  function TargetBranch(st: GitStatus): Option<string> {
    if st.hasJenkinsfile then st.currentBranch else Some(NewBranchName)
  }

  datatype StepKind = Checkout | Add | Commit | Push

  /** One git command and what running it gave. */
  datatype GitStep = GitStep(kind: StepKind, argv: seq<string>, outcome: Outcome)

  /** A step lets the sequence go on: it exited 0, or it is the commit and
      git said there was nothing to commit. */
  predicate Passes(st: GitStep) {
    || ExitedZero(st.outcome)
    || (st.kind == Commit && st.outcome.Completed? && Contains(st.outcome.stdout, "nothing to commit"))
  }

  predicate AllPass(steps: seq<GitStep>) {
    forall k :: 0 <= k < |steps| ==> Passes(steps[k])
  }

  /** The branch as a command-line argument. A missing branch (`None` in the
      source) makes `subprocess.run` raise before launching anything. */
  function BranchArg(target: Option<string>): seq<string> {
    if target.Some? then [target.value] else []
  }

  /** The push command: with `--set-upstream origin <branch>` exactly when
      the branch is new. */
  function PushArgv(target: Option<string>, current: Option<string>): seq<string> {
    if target != current then ["git", "push", "--set-upstream", "origin"] + BranchArg(target) else ["git", "push"]
  }

  /** Add, commit and push, with their results. */
  function CommitSteps(pushArgv: seq<string>, add: Outcome, commit: Outcome, push: Outcome): seq<GitStep> {
    [ GitStep(Add, ["git", "add", "Jenkinsfile"], add),
      GitStep(Commit, ["git", "commit", "-m", CommitMessage], commit),
      GitStep(Push, pushArgv, push) ]
  }

  /** The git commands `_execute_git_operations` runs, in order, with their
      results: `checkout -b` only for a new branch, then add, commit and
      push. */
  function GitSteps(target: Option<string>, current: Option<string>,
                    checkout: Outcome, add: Outcome, commit: Outcome, push: Outcome): seq<GitStep>
  {
    (if target != current then [GitStep(Checkout, ["git", "checkout", "-b"] + BranchArg(target), if target.Some? then checkout else Raised)] else [])
    + CommitSteps(PushArgv(target, current), add, commit, push)
  }

  /** The steps that run: each one starts only when the one before it
      passed, so the run stops right after the first failure. */
  function Attempted(steps: seq<GitStep>): seq<GitStep> {
    if steps == [] then []
    else if !Passes(steps[0]) then [steps[0]]
    else [steps[0]] + Attempted(steps[1..])
  }

  /** The steps that run are a prefix of the plan; all of them but the last
      passed; they are the whole plan when every step passes, and otherwise
      the last one that ran is the one that failed. */
  lemma {:induction false} AttemptedShape(steps: seq<GitStep>)
    ensures var a := Attempted(steps);
      && |a| <= |steps| && a == steps[..|a|]
      && (forall k :: 0 <= k < |a| - 1 ==> Passes(a[k]))
      && (AllPass(steps) ==> a == steps)
      && (!AllPass(steps) ==> a != [] && !Passes(a[|a| - 1]))
  {
    if steps != [] && Passes(steps[0]) {
      AttemptedShape(steps[1..]);
      var a := Attempted(steps);
      var b := Attempted(steps[1..]);
      assert a == [steps[0]] + b;
      assert forall k :: 0 < k < |a| ==> a[k] == b[k - 1];
      if !AllPass(steps) {
        var j :| 0 <= j < |steps| && !Passes(steps[j]);
        assert j > 0 && steps[1..][j - 1] == steps[j];
      }
    }
  }

  function Commands(steps: seq<GitStep>): (cs: seq<seq<string>>)
    ensures |cs| == |steps|
    ensures forall k :: 0 <= k < |steps| ==> cs[k] == steps[k].argv
  {
    if steps == [] then [] else [steps[0].argv] + Commands(steps[1..])
  }

  /** Running one more step in front of others. */
  lemma AttemptedCons(st: GitStep, rest: seq<GitStep>)
    ensures Passes(st) ==> Commands(Attempted([st] + rest)) == [st.argv] + Commands(Attempted(rest))
    ensures Passes(st) ==> (AllPass([st] + rest) <==> AllPass(rest))
    ensures !Passes(st) ==> Commands(Attempted([st] + rest)) == [st.argv] && !AllPass([st] + rest)
  {
    var all := [st] + rest;
    assert all[0] == st && all[1..] == rest;
    if Passes(st) {
      assert AllPass(rest) ==> AllPass(all) by {
        if AllPass(rest) {
          forall k | 0 <= k < |all| ensures Passes(all[k]) {
            if k > 0 { assert all[k] == rest[k - 1]; }
          }
        }
      }
      assert AllPass(all) ==> AllPass(rest) by {
        if AllPass(all) {
          forall k | 0 <= k < |rest| ensures Passes(rest[k]) {
            assert rest[k] == all[k + 1];
          }
        }
      }
    }
  }

  /** Add, commit and push, stopping at the first that fails; a commit that
      finds nothing to commit does not stop the sequence. */
  method AddCommitPush(pushArgv: seq<string>, add: Outcome, commit: Outcome, push: Outcome)
    returns (ran: seq<seq<string>>, ok: bool)
    ensures ok <==> AllPass(CommitSteps(pushArgv, add, commit, push))
    ensures ran == Commands(Attempted(CommitSteps(pushArgv, add, commit, push)))
  {
    CommitRun(pushArgv, add, commit, push);
    ran := [["git", "add", "Jenkinsfile"]];
    if !ExitedZero(add) {
      return ran, false;
    }
    ran := ran + [["git", "commit", "-m", CommitMessage]];
    var committed := match commit
      case Completed(code, out, _) => code == 0 || Contains(out, "nothing to commit")
      case _ => false;
    if !committed {
      return ran, false;
    }
    ran := ran + [pushArgv];
    ok := ExitedZero(push);
  }

  /** The commit step lets the sequence go on. */
  predicate Committed(commit: Outcome) {
    Passes(GitStep(Commit, ["git", "commit", "-m", CommitMessage], commit))
  }

  /** Add, commit and push in closed form: the commands that run and whether all pass. */
  lemma CommitRun(pushArgv: seq<string>, add: Outcome, commit: Outcome, push: Outcome)
    ensures Commands(Attempted(CommitSteps(pushArgv, add, commit, push))) ==
        if !ExitedZero(add) then [["git", "add", "Jenkinsfile"]]
        else if !Committed(commit) then [["git", "add", "Jenkinsfile"], ["git", "commit", "-m", CommitMessage]]
        else [["git", "add", "Jenkinsfile"], ["git", "commit", "-m", CommitMessage], pushArgv]
    ensures AllPass(CommitSteps(pushArgv, add, commit, push)) <==>
      ExitedZero(add) && Committed(commit) && ExitedZero(push)
  {
    var addStep := GitStep(Add, ["git", "add", "Jenkinsfile"], add);
    var commitStep := GitStep(Commit, ["git", "commit", "-m", CommitMessage], commit);
    var pushStep := GitStep(Push, pushArgv, push);
    assert CommitSteps(pushArgv, add, commit, push) == [addStep] + ([commitStep] + [pushStep]);
    StepsRun(addStep, commitStep, pushStep);
  }

  /** Three steps run in order, each only when the one before passed. */
  lemma StepsRun(a: GitStep, b: GitStep, c: GitStep)
    ensures Commands(Attempted([a] + ([b] + [c]))) ==
      if !Passes(a) then [a.argv] else if !Passes(b) then [a.argv, b.argv] else [a.argv, b.argv, c.argv]
    ensures AllPass([a] + ([b] + [c])) <==> Passes(a) && Passes(b) && Passes(c)
  {
    AttemptedCons(a, [b] + [c]);
    if Passes(a) {
      AttemptedCons(b, [c]);
      if Passes(b) {
        AttemptedCons(c, []);
      }
    }
  }

  /** `_execute_git_operations`: copy the Jenkinsfile into the checkout
      (`copied` is whether that worked), then run the git steps, returning
      false at the first one that fails. `ran` lists the commands started. */
  method ExecuteGitOperations(copied: bool, target: Option<string>, current: Option<string>,
                              checkout: Outcome, add: Outcome, commit: Outcome, push: Outcome)
    returns (ran: seq<seq<string>>, ok: bool)
    ensures ok <==> copied && AllPass(GitSteps(target, current, checkout, add, commit, push))
    ensures ran == if copied then Commands(Attempted(GitSteps(target, current, checkout, add, commit, push))) else []
  {
    if !copied {
      return [], false;
    }
    var pushArgv := if target != current then ["git", "push", "--set-upstream", "origin"] + BranchArg(target) else ["git", "push"];
    ghost var tail := CommitSteps(pushArgv, add, commit, push);
    if target != current {
      var argv := ["git", "checkout", "-b"] + BranchArg(target);
      var result := if target.Some? then checkout else Raised;
      var step := GitStep(Checkout, argv, result);
      assert GitSteps(target, current, checkout, add, commit, push) == [step] + tail;
      AttemptedCons(step, tail);
      if !ExitedZero(result) {
        return [argv], false;
      }
      var rest;
      rest, ok := AddCommitPush(pushArgv, add, commit, push);
      ran := [argv] + rest;
    } else {
      assert GitSteps(target, current, checkout, add, commit, push) == [] + tail == tail;
      ran, ok := AddCommitPush(pushArgv, add, commit, push);
    }
  }

  /** What the git phase is given: whether the generated Jenkinsfile is in
      the output directory, the repository status, the answer to "commit and
      push?", whether copying the Jenkinsfile worked and what each git
      command gives. */
  datatype GitInputs = GitInputs(generated: bool, status: GitStatus, answer: string, copied: bool,
                                 checkout: Outcome, add: Outcome, commit: Outcome, push: Outcome)

  function PhaseSteps(gi: GitInputs): seq<GitStep> {
    GitSteps(TargetBranch(gi.status), gi.status.currentBranch, gi.checkout, gi.add, gi.commit, gi.push)
  }

  /** When the git phase succeeds: there is a Jenkinsfile to push, the
      checkout is a git repository, the operator agrees, the copy works and
      every git step passes. */
  predicate GitPhaseOk(gi: GitInputs) {
    gi.generated && gi.status.isGitRepo && Confirms(gi.answer) && gi.copied && AllPass(PhaseSteps(gi))
  }

  /** `git_automation_phase`. */
  method GitAutomationPhase(gi: GitInputs) returns (ran: seq<seq<string>>, ok: bool)
    ensures ok == GitPhaseOk(gi)
    ensures ran == if gi.generated && gi.status.isGitRepo && Confirms(gi.answer) && gi.copied
                   then Commands(Attempted(PhaseSteps(gi))) else []
  {
    if !gi.generated {
      return [], false;
    }
    if !gi.status.isGitRepo {
      return [], false;
    }
    if !Confirms(gi.answer) {
      return [], false;
    }
    var target := if gi.status.hasJenkinsfile then gi.status.currentBranch else Some(NewBranchName);
    ran, ok := ExecuteGitOperations(gi.copied, target, gi.status.currentBranch, gi.checkout, gi.add, gi.commit, gi.push);
  }

  /** The branch rules: a checkout that has a Jenkinsfile stays on its
      branch and pushes plainly; otherwise the feature branch is created and
      pushed with its upstream set, unless it is already the current branch. */
  lemma BranchSelection(gi: GitInputs)
    ensures gi.status.hasJenkinsfile ==> PhaseSteps(gi) == CommitSteps(["git", "push"], gi.add, gi.commit, gi.push)
    ensures !gi.status.hasJenkinsfile && gi.status.currentBranch == Some(NewBranchName) ==>
              PhaseSteps(gi) == CommitSteps(["git", "push"], gi.add, gi.commit, gi.push)
    ensures !gi.status.hasJenkinsfile && gi.status.currentBranch != Some(NewBranchName) ==>
              PhaseSteps(gi) == [GitStep(Checkout, ["git", "checkout", "-b", NewBranchName], gi.checkout)]
                                + CommitSteps(["git", "push", "--set-upstream", "origin", NewBranchName], gi.add, gi.commit, gi.push)
  {
    if gi.status.hasJenkinsfile || gi.status.currentBranch == Some(NewBranchName) {
      assert PhaseSteps(gi) == [] + CommitSteps(["git", "push"], gi.add, gi.commit, gi.push);
    } else {
      assert BranchArg(Some(NewBranchName)) == [NewBranchName];
      assert ["git", "checkout", "-b"] + [NewBranchName] == ["git", "checkout", "-b", NewBranchName];
      assert ["git", "push", "--set-upstream", "origin"] + [NewBranchName] == ["git", "push", "--set-upstream", "origin", NewBranchName];
    }
  }

  // ---------------------------------------------------------------------
  // Jobs (`job_creation_phase`, `_get_existing_jenkins_jobs`,
  // `_create_jenkins_job`, `_create_minimal_pipeline_job`)
  // ---------------------------------------------------------------------

  /** The stripped, non-empty lines of `list-jobs` output, in order. */
  function KeptLines(lines: seq<string>): (names: seq<string>)
    ensures forall k :: 0 <= k < |names| ==> names[k] != "" && NoOuterSpace(names[k])
  {
    if lines == [] then []
    else (if Strip(lines[0]) != "" then [Strip(lines[0])] else []) + KeptLines(lines[1..])
  }

  /** `_get_existing_jenkins_jobs`, given the reply of `list-jobs`. */
  function ExistingJobs(reply: Option<string>): seq<string> {
    if reply.Some? && reply.value != "" then KeptLines(Split(reply.value, '\n')) else []
  }

  /** Lines that are already job names are kept as they are. */
  lemma {:induction false} KeptLinesNames(names: seq<string>)
    requires forall k :: 0 <= k < |names| ==> names[k] != "" && NoOuterSpace(names[k])
    ensures KeptLines(names) == names
  {
    if names != [] {
      KeptLinesNames(names[1..]);
    }
  }

  /** A `list-jobs` reply listing one job per line gives back those jobs. */
  lemma ExistingJobsRoundTrip(names: seq<string>)
    requires names != []
    requires forall k :: 0 <= k < |names| ==> names[k] != "" && NoOuterSpace(names[k]) && '\n' !in names[k]
    ensures ExistingJobs(Some(Join(names, "\n"))) == names
  {
    var out := Join(names, "\n");
    assert out != "" by {
      if |names| > 1 {
        assert out == names[0] + "\n" + Join(names[1..], "\n");
      }
    }
    calc {
      ExistingJobs(Some(out));
      KeptLines(Split(out, '\n'));
      { SplitJoin(names, '\n'); }
      KeptLines(names);
      { KeptLinesNames(names); }
      names;
    }
  }

  /** The job name: the trimmed answer, or `<repo>-pipeline` when it is
      empty, so never empty. */
  function ChooseJobName(answer: string, repoName: string): (name: string)
    ensures name != ""
    ensures Strip(answer) != "" ==> name == Strip(answer)
    ensures Strip(answer) == "" ==> name == repoName + "-pipeline"
  {
    var typed := Strip(answer);
    if typed != "" then typed else repoName + "-pipeline"
  }

  const MinimalXmlHead: string :=
    "<?xml version='1.1' encoding='UTF-8'?>\n" +
    "<flow-definition plugin=\"workflow-job@2.40\">\n" +
    "  <actions/>\n" +
    "  <description>Jenkins pipeline for "

  const MinimalXmlMiddle: string :=
    "</description>\n" +
    "  <keepDependencies>false</keepDependencies>\n" +
    "  <properties>\n" +
    "    <jenkins.model.BuildDiscarderProperty>\n" +
    "      <strategy class=\"hudson.tasks.LogRotator\">\n" +
    "        <daysToKeep>-1</daysToKeep>\n" +
    "        <numToKeep>10</numToKeep>\n" +
    "        <artifactDaysToKeep>-1</artifactDaysToKeep>\n" +
    "        <artifactNumToKeep>-1</artifactNumToKeep>\n" +
    "      </strategy>\n" +
    "    </jenkins.model.BuildDiscarderProperty>\n" +
    "  </properties>\n" +
    "  <definition class=\"org.jenkinsci.plugins.workflow.cps.CpsScmFlowDefinition\" plugin=\"workflow-cps@2.80\">\n" +
    "    <scm class=\"hudson.plugins.git.GitSCM\" plugin=\"git@4.8.3\">\n" +
    "      <configVersion>2</configVersion>\n" +
    "      <userRemoteConfigs>\n" +
    "        <hudson.plugins.git.UserRemoteConfig>\n" +
    "          <url>"

  const MinimalXmlTail: string :=
    "</url>\n" +
    "        </hudson.plugins.git.UserRemoteConfig>\n" +
    "      </userRemoteConfigs>\n" +
    "      <branches>\n" +
    "        <hudson.plugins.git.BranchSpec>\n" +
    "          <name>*/main</name>\n" +
    "        </hudson.plugins.git.BranchSpec>\n" +
    "      </branches>\n" +
    "      <doGenerateSubmoduleConfigurations>false</doGenerateSubmoduleConfigurations>\n" +
    "      <submoduleCfg class=\"list\"/>\n" +
    "      <extensions/>\n" +
    "    </scm>\n" +
    "    <scriptPath>Jenkinsfile</scriptPath>\n" +
    "    <lightweight>true</lightweight>\n" +
    "  </definition>\n" +
    "  <triggers/>\n" +
    "  <disabled>false</disabled>\n" +
    "</flow-definition>"

  /** The fallback job definition: a pipeline job reading `Jenkinsfile` from
      the repository's main branch. */
  function MinimalJobXml(repoName: string, repoUrl: string): string {
    MinimalXmlHead + repoName + MinimalXmlMiddle + repoUrl + MinimalXmlTail
  }

  /** When `_create_jenkins_job` succeeds: the configuration can be read and
      either the first `create-job` exits 0 or it exits non-zero and the
      minimal job is created instead. A timeout gets no second try. */
  predicate JobCreated(config: FileState, first: Outcome, fallback: Outcome) {
    && config.Present?
    && (ExitedZero(first) || (first.Completed? && first.returncode != 0 && ExitedZero(fallback)))
  }

  /** The `create-job` runs `_create_jenkins_job` launches, each with the XML
      sent on its standard input: none for an unreadable configuration, the
      configuration first, then the minimal job when the first run exits
      with a non-zero code. */
  function CreateAttempts(cfg: CliConfig, jobName: string, config: FileState, repoName: string, repoUrl: Option<string>,
                          first: Outcome): seq<(seq<string>, string)>
  {
    if !config.Present? then []
    else
      var argv := CliArgv(cfg, ["create-job", jobName]);
      [(argv, config.content)]
      + (if first.Completed? && first.returncode != 0 then [(argv, MinimalJobXml(repoName, repoUrl.GetOr("")))] else [])
  }

  /** `_create_jenkins_job` with its fallback. `attempts` are the
      `create-job` command lines launched, each with the XML sent on its
      standard input. */
  method CreateJenkinsJob(cfg: CliConfig, jobName: string, config: FileState, repoName: string, repoUrl: Option<string>,
                          first: Outcome, fallback: Outcome)
    returns (attempts: seq<(seq<string>, string)>, ok: bool)
    ensures ok <==> JobCreated(config, first, fallback)
    ensures config.Present? ==> |attempts| >= 1 && attempts[0] == (CliArgv(cfg, ["create-job", jobName]), config.content)
    ensures |attempts| == (if !config.Present? then 0 else if first.Completed? && first.returncode != 0 then 2 else 1)
    ensures |attempts| == 2 ==> attempts[1] == (CliArgv(cfg, ["create-job", jobName]), MinimalJobXml(repoName, repoUrl.GetOr("")))
    ensures attempts == CreateAttempts(cfg, jobName, config, repoName, repoUrl, first)
  {
    if !config.Present? {
      return [], false;
    }
    var argv := CliArgv(cfg, ["create-job", jobName]);
    attempts := [(argv, config.content)];
    match first {
      case Completed(code, _, _) =>
        if code == 0 {
          ok := true;
        } else {
          attempts := attempts + [(argv, MinimalJobXml(repoName, repoUrl.GetOr("")))];
          ok := ExitedZero(fallback);
        }
      case TimeoutExpired =>
        ok := false;
      case Raised =>
        ok := false;
    }
  }

  /** What the job phase is given: the generated job configuration, the
      reply of `list-jobs`, the answers to the name and overwrite prompts and
      the results of the two `create-job` runs. */
  datatype JobInputs = JobInputs(config: FileState, listReply: Option<string>, nameAnswer: string,
                                 overwriteAnswer: string, first: Outcome, fallback: Outcome)

  /** The repository the pipeline is for. */
  datatype Repo = Repo(repoName: string, repoUrl: Option<string>)

  /** The operator lets the job be created: it is new, or overwriting is confirmed. */
  predicate MayCreate(ji: JobInputs, repo: Repo) {
    ChooseJobName(ji.nameAnswer, repo.repoName) !in ExistingJobs(ji.listReply) || Confirms(ji.overwriteAnswer)
  }

  /** When the job phase succeeds. */
  predicate JobPhaseOk(ji: JobInputs, repo: Repo) {
    Exists(ji.config) && MayCreate(ji, repo) && JobCreated(ji.config, ji.first, ji.fallback)
  }

  /** The `create-job` runs of the job phase: none when the configuration is
      missing or overwriting is declined, otherwise those of
      `_create_jenkins_job` under the chosen name. */
  function JobAttempts(cfg: CliConfig, repo: Repo, ji: JobInputs): seq<(seq<string>, string)> {
    if Exists(ji.config) && MayCreate(ji, repo)
    then CreateAttempts(cfg, ChooseJobName(ji.nameAnswer, repo.repoName), ji.config, repo.repoName, repo.repoUrl, ji.first)
    else []
  }

  /** `job_creation_phase`. */
  method JobCreationPhase(cfg: CliConfig, repo: Repo, ji: JobInputs)
    returns (attempts: seq<(seq<string>, string)>, ok: bool)
    ensures ok == JobPhaseOk(ji, repo)
    ensures attempts != [] ==> Exists(ji.config) && MayCreate(ji, repo)
    ensures attempts != [] ==> attempts[0].0 == CliArgv(cfg, ["create-job", ChooseJobName(ji.nameAnswer, repo.repoName)])
    ensures attempts == JobAttempts(cfg, repo, ji)
    ensures Exists(ji.config) && MayCreate(ji, repo) && ji.config.Present? ==>
              |attempts| >= 1 && attempts[0] == (CliArgv(cfg, ["create-job", ChooseJobName(ji.nameAnswer, repo.repoName)]), ji.config.content)
  {
    if !Exists(ji.config) {
      return [], false;
    }
    var existing := ExistingJobs(ji.listReply);
    var jobName := ChooseJobName(ji.nameAnswer, repo.repoName);
    if jobName in existing && !Confirms(ji.overwriteAnswer) {
      return [], false;
    }
    attempts, ok := CreateJenkinsJob(cfg, jobName, ji.config, repo.repoName, repo.repoUrl, ji.first, ji.fallback);
  }

  // ---------------------------------------------------------------------
  // The whole flow (`start_automation_flow`)
  // ---------------------------------------------------------------------

  datatype Phase = GitPhase | JobPhase | PluginPhase

  /** `start_automation_flow`: the git phase first; when it fails nothing
      else runs; otherwise the job and plugin phases both run and the result
      is whether all three succeeded. */
  method StartAutomationFlow(cfg: CliConfig, repo: Repo, gi: GitInputs, ji: JobInputs, pi: PluginInputs)
    returns (phases: seq<Phase>, ok: bool)
    requires RepliesFit(pi)
    ensures phases == if GitPhaseOk(gi) then [GitPhase, JobPhase, PluginPhase] else [GitPhase]
    ensures ok <==> GitPhaseOk(gi) && JobPhaseOk(ji, repo) && PluginPhaseOk(pi)
  {
    var _, gitOk := GitAutomationPhase(gi);
    if !gitOk {
      return [GitPhase], false;
    }
    var _, jobOk := JobCreationPhase(cfg, repo, ji);
    var _, pluginOk := PluginInstallationPhase(pi);
    phases := [GitPhase, JobPhase, PluginPhase];
    ok := jobOk && pluginOk;
  }
}
