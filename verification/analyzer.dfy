/** The local repository analyzer: which URL a repository is cloned from and
    where it is checked out, the configuration files read from the checkout,
    the rule table that derives the technology stack from them, the README
    description, the walk over the checkout's files and the summary text
    handed to the pipeline generator. */
module Analyzer {
  import opened Wrappers
  import opened Text
  import opened Process
  import opened Dicts
  import opened Seqs

  // ---------------------------------------------------------------------------
  // Clone URL and checkout location
  // ---------------------------------------------------------------------------

  const GithubPrefix := "https://github.com/"
  const SshPrefix := "git@github.com:"

  /** How a clone URL was obtained: passed through, rewritten to SSH, kept as
      HTTPS because SSH is unavailable, or rebuilt as HTTPS after SSH failed. */
  datatype UrlType = Original | Ssh | Https | HttpsFallback

  /** The owner/repository path of a GitHub URL: every occurrence of the
      GitHub prefix removed, then trailing slashes. */
  function GithubPath(repoUrl: string): string {
    RStripChar(ReplaceAll(repoUrl, GithubPrefix, ""), '/')
  }

  /** Only a GitHub HTTPS URL whose path holds a '/' is rewritten; it becomes
      the SSH form of the same path when SSH works, and stays as it is otherwise. */
  function DetermineCloneUrl(repoUrl: string, sshAvailable: bool): (r: (string, UrlType))
    ensures r.1 != HttpsFallback
    ensures r.1 == Original <==> !StartsWith(repoUrl, GithubPrefix) || '/' !in GithubPath(repoUrl)
    ensures r.1 == Ssh <==> r.1 != Original && sshAvailable
    ensures r.1 == Ssh ==> StartsWith(r.0, SshPrefix) && EndsWith(r.0, ".git")
    ensures r.1 != Ssh ==> r.0 == repoUrl
  {
    if !StartsWith(repoUrl, GithubPrefix) then (repoUrl, Original)
    else
      var path := GithubPath(repoUrl);
      if '/' !in path then (repoUrl, Original)
      else if sshAvailable then (SshPrefix + path + ".git", Ssh)
      else (repoUrl, Https)
  }

  /** The path `clone_and_analyze` splits into owner and repository name. */
  function RepoPath(repoUrl: string): string {
    if StartsWith(repoUrl, GithubPrefix) then GithubPath(repoUrl) else RStripChar(repoUrl, '/')
  }

  /** A successful clone: the owner and repository name, the checkout directory
      name under the repositories directory, and the URLs tried in order. */
  datatype Checkout = Checkout(owner: string, repoName: string, dirName: string, attempts: seq<(string, UrlType)>)

  datatype CloneError =
    | MalformedPath                                   // the path does not split into exactly two parts
    | CloneFailed(attempts: seq<(string, UrlType)>)    // every `git clone` failed

  function Attempts(r: Result<Checkout, CloneError>): seq<(string, UrlType)> {
    match r
    case Ok(c) => c.attempts
    case Err(e) => if e.CloneFailed? then e.attempts else []
  }

  /** Splitting a path into exactly two '/'-separated parts inverts joining them. */
  lemma SplitTwo(s: string)
    requires |Split(s, '/')| == 2
    ensures Split(s, '/')[0] + "/" + Split(s, '/')[1] == s
  {
    var k := IndexOf(s, '/');
    assert Split(s, '/') == [s[..k]] + Split(s[k + 1..], '/');
    assert s == s[..k] + "/" + s[k + 1..];
  }

  /** The path and clone-fallback part of `clone_and_analyze`. `first` is the
      outcome of cloning from the chosen URL, `retry` that of the HTTPS retry;
      a clone succeeds exactly when `git clone` exits with status 0. */
  function CloneRepository(repoUrl: string, sshAvailable: bool, first: Outcome, retry: Outcome): (r: Result<Checkout, CloneError>)
    ensures r == Err(MalformedPath) <==> |Split(RepoPath(repoUrl), '/')| != 2
    ensures r.Ok? ==> r.value.owner + "/" + r.value.repoName == RepoPath(repoUrl)
    ensures r.Ok? ==> '/' !in r.value.owner && '/' !in r.value.repoName
    ensures r.Ok? ==> r.value.dirName == r.value.owner + "_" + r.value.repoName
    ensures r.Ok? <==>
      |Split(RepoPath(repoUrl), '/')| == 2 &&
      (ExitedZero(first) || (DetermineCloneUrl(repoUrl, sshAvailable).1 == Ssh && ExitedZero(retry)))
    ensures r != Err(MalformedPath) ==>
      && 1 <= |Attempts(r)| <= 2
      && Attempts(r)[0] == DetermineCloneUrl(repoUrl, sshAvailable)
      && (|Attempts(r)| == 2 <==> !ExitedZero(first) && DetermineCloneUrl(repoUrl, sshAvailable).1 == Ssh)
      && (|Attempts(r)| == 2 ==> Attempts(r)[1] == (GithubPrefix + RepoPath(repoUrl), HttpsFallback))
  {
    var path := RepoPath(repoUrl);
    var parts := Split(path, '/');
    if |parts| != 2 then Err(MalformedPath)
    else
      SplitTwo(path);
      var (url, urlType) := DetermineCloneUrl(repoUrl, sshAvailable);
      var attempts :=
        if !ExitedZero(first) && urlType == Ssh then [(url, urlType), (GithubPrefix + path, HttpsFallback)]
        else [(url, urlType)];
      var cloned := ExitedZero(first) || (urlType == Ssh && ExitedZero(retry));
      if cloned then Ok(Checkout(parts[0], parts[1], parts[0] + "_" + parts[1], attempts))
      else Err(CloneFailed(attempts))
  }

  /** Removing the GitHub prefix from a URL in which it occurs only at the start. */
  lemma DropGithubPrefix(rest: string)
    requires ':' !in rest
    ensures ReplaceAll(GithubPrefix + rest, GithubPrefix, "") == rest
  {
    var url := GithubPrefix + rest;
    assert ':' in GithubPrefix by { assert GithubPrefix[5] == ':'; }
    AbsentChar(rest, GithubPrefix, ':');
    ReplaceAbsent(rest, GithubPrefix, "");
    assert url[..|GithubPrefix|] == GithubPrefix && url[|GithubPrefix|..] == rest;
  }

  /** A trailing slash after a repository name is stripped; the name keeps its own characters. */
  lemma StripTrailingSlash(path: string, tail: string)
    requires tail in {"", "/"} && path != "" && path[|path| - 1] != '/'
    ensures RStripChar(path + tail, '/') == path
  {
    if tail == "/" {
      assert (path + tail)[..|path|] == path;
    } else {
      assert path + tail == path;
    }
  }

  /** The path of `https://github.com/<owner>/<repo>`, with or without a
      trailing slash, is `<owner>/<repo>`. */
  lemma GithubPathOf(owner: string, repo: string, tail: string)
    requires ':' !in owner && ':' !in repo && tail in {"", "/"}
    requires '/' !in repo && repo != ""
    ensures StartsWith(GithubPrefix + (owner + "/" + repo + tail), GithubPrefix)
    ensures GithubPath(GithubPrefix + (owner + "/" + repo + tail)) == owner + "/" + repo
  {
    var path := owner + "/" + repo;
    assert (GithubPrefix + (path + tail))[..|GithubPrefix|] == GithubPrefix;
    assert ':' !in path + tail;
    assert path[|path| - 1] == repo[|repo| - 1];
    calc {
      GithubPath(GithubPrefix + (path + tail));
      RStripChar(ReplaceAll(GithubPrefix + (path + tail), GithubPrefix, ""), '/');
      { DropGithubPrefix(path + tail); }
      RStripChar(path + tail, '/');
      { StripTrailingSlash(path, tail); }
      path;
    }
  }

  /** `https://github.com/<owner>/<repo>`, with or without a trailing slash, is
      cloned over SSH as `git@github.com:<owner>/<repo>.git` when SSH works and
      over the same HTTPS URL otherwise, and is checked out as `<owner>_<repo>`. */
  lemma GithubCheckout(owner: string, repo: string, tail: string, sshAvailable: bool, first: Outcome, retry: Outcome)
    requires '/' !in owner && ':' !in owner && tail in {"", "/"}
    requires '/' !in repo && ':' !in repo && repo != ""
    ensures var url := GithubPrefix + (owner + "/" + repo + tail);
      && DetermineCloneUrl(url, sshAvailable) ==
        (if sshAvailable then (SshPrefix + (owner + "/" + repo) + ".git", Ssh) else (url, Https))
      && var r := CloneRepository(url, sshAvailable, first, retry);
      r.Ok? ==> r.value.owner == owner && r.value.repoName == repo && r.value.dirName == owner + "_" + repo
  {
    var path := owner + "/" + repo;
    GithubPathOf(owner, repo, tail);
    assert '/' in path by { assert path[|owner|] == '/'; }
    SplitAfter(owner, '/', repo);
    assert Split(path, '/') == [owner, repo];
  }

  // ---------------------------------------------------------------------------
  // Configuration files
  // ---------------------------------------------------------------------------

  /** The configuration files looked for at the top of the checkout. */
  datatype ConfigFile =
    | PackageJson | PackageLock | YarnLock | PnpmLock
    | PomXml | BuildGradle | GradleProperties | SettingsGradle
    | CargoToml | CargoLock
    | RequirementsTxt | PyprojectToml | SetupPy | Pipfile
    | GoMod | GoSum
    | PubspecYaml | PubspecLock
    | ComposerJson | ComposerLock
    | Gemfile | GemfileLock
    | Dockerfile | DockerComposeYml | DockerComposeYaml
    | Makefile | CMakeLists
    | GitIgnore | DockerIgnore
    | TsConfig | WebpackConfig | ViteConfig
    | JestConfig | CypressJson | PytestIni

  function FileName(f: ConfigFile): string {
    match f
    case PackageJson => "package.json"
    case PackageLock => "package-lock.json"
    case YarnLock => "yarn.lock"
    case PnpmLock => "pnpm-lock.yaml"
    case PomXml => "pom.xml"
    case BuildGradle => "build.gradle"
    case GradleProperties => "gradle.properties"
    case SettingsGradle => "settings.gradle"
    case CargoToml => "Cargo.toml"
    case CargoLock => "Cargo.lock"
    case RequirementsTxt => "requirements.txt"
    case PyprojectToml => "pyproject.toml"
    case SetupPy => "setup.py"
    case Pipfile => "Pipfile"
    case GoMod => "go.mod"
    case GoSum => "go.sum"
    case PubspecYaml => "pubspec.yaml"
    case PubspecLock => "pubspec.lock"
    case ComposerJson => "composer.json"
    case ComposerLock => "composer.lock"
    case Gemfile => "Gemfile"
    case GemfileLock => "Gemfile.lock"
    case Dockerfile => "Dockerfile"
    case DockerComposeYml => "docker-compose.yml"
    case DockerComposeYaml => "docker-compose.yaml"
    case Makefile => "Makefile"
    case CMakeLists => "CMakeLists.txt"
    case GitIgnore => ".gitignore"
    case DockerIgnore => ".dockerignore"
    case TsConfig => "tsconfig.json"
    case WebpackConfig => "webpack.config.js"
    case ViteConfig => "vite.config.js"
    case JestConfig => "jest.config.js"
    case CypressJson => "cypress.json"
    case PytestIni => "pytest.ini"
  }

  /** The order in which they are looked for. */
  const ConfigFiles: seq<ConfigFile> := [
    PackageJson, PackageLock, YarnLock, PnpmLock,
    PomXml, BuildGradle, GradleProperties, SettingsGradle,
    CargoToml, CargoLock,
    RequirementsTxt, PyprojectToml, SetupPy, Pipfile,
    GoMod, GoSum,
    PubspecYaml, PubspecLock,
    ComposerJson, ComposerLock,
    Gemfile, GemfileLock,
    Dockerfile, DockerComposeYml, DockerComposeYaml,
    Makefile, CMakeLists,
    GitIgnore, DockerIgnore,
    TsConfig, WebpackConfig, ViteConfig,
    JestConfig, CypressJson, PytestIni
  ]

  /** At most `n` characters from the start: Python's `s[:n]`. */
  function Prefix(s: string, n: nat): (r: string)
    ensures |r| <= n && r <= s
    ensures |s| <= n ==> r == s
  {
    if |s| <= n then s else s[..n]
  }

  /** The key-files dictionary after looking at `names`, whose files are in
      `states` (a directory or an absent path is `Missing`; a file that fails to
      read is skipped). */
  function KeyFilesOf(names: seq<ConfigFile>, states: seq<FileState>): map<ConfigFile, string>
    requires |names| == |states|
  {
    if names == [] then map[]
    else
      var n := |names| - 1;
      var kf := KeyFilesOf(names[..n], states[..n]);
      if states[n].Present? then kf[names[n] := Prefix(states[n].content, 3000)] else kf
  }

  /** The names in `names` that are keys of `kf`, in the order of `names`:
      the iteration order of a dictionary filled by walking `names`. */
  function ListedKeys(names: seq<ConfigFile>, kf: map<ConfigFile, string>): (r: seq<ConfigFile>)
    ensures forall k :: k in r <==> k in names && k in kf
  {
    if names == [] then []
    else ListedKeys(names[..|names| - 1], kf) + (if names[|names| - 1] in kf then [names[|names| - 1]] else [])
  }

  /** A name is recorded exactly when one of its files was read. */
  lemma {:induction false} KeyFilePresent(names: seq<ConfigFile>, states: seq<FileState>, k: ConfigFile)
    requires |names| == |states|
    ensures k in KeyFilesOf(names, states) <==> exists i :: 0 <= i < |names| && names[i] == k && states[i].Present?
  {
    if names != [] {
      var n := |names| - 1;
      var front, frontStates := names[..n], states[..n];
      KeyFilePresent(front, frontStates, k);
      if exists i :: 0 <= i < n && front[i] == k && frontStates[i].Present? {
        var i :| 0 <= i < n && front[i] == k && frontStates[i].Present?;
        assert names[i] == k && states[i].Present?;
      }
      if exists i :: 0 <= i < |names| && names[i] == k && states[i].Present? {
        var i :| 0 <= i < |names| && names[i] == k && states[i].Present?;
        if i < n {
          assert front[i] == k && frontStates[i].Present?;
        }
      }
    }
  }

  /** A recorded name maps to the start of its file, cut at 3000 characters;
      when several states are listed for a name, the last one read wins. */
  lemma {:induction false} KeyFileValue(names: seq<ConfigFile>, states: seq<FileState>, k: ConfigFile, i: nat)
    requires |names| == |states| && i < |names| && names[i] == k && states[i].Present?
    requires forall j :: i < j < |names| && names[j] == k ==> !states[j].Present?
    ensures k in KeyFilesOf(names, states) && KeyFilesOf(names, states)[k] == Prefix(states[i].content, 3000)
  {
    var n := |names| - 1;
    if i < n {
      var front, frontStates := names[..n], states[..n];
      forall j | i < j < n && front[j] == k ensures !frontStates[j].Present? {
        assert names[j] == k;
      }
      assert front[i] == k && frontStates[i].Present?;
      KeyFileValue(front, frontStates, k, i);
    }
  }

  /** `_read_key_files`: `states[i]` is what the checkout holds under
      `ConfigFiles[i]`. */
  method ReadKeyFiles(states: seq<FileState>) returns (keyFiles: map<ConfigFile, string>)
    requires |states| == |ConfigFiles|
    ensures keyFiles == KeyFilesOf(ConfigFiles, states)
  {
    keyFiles := map[];
    for i := 0 to |ConfigFiles|
      invariant keyFiles == KeyFilesOf(ConfigFiles[..i], states[..i])
    {
      assert ConfigFiles[..i + 1][..i] == ConfigFiles[..i];
      assert states[..i + 1][..i] == states[..i];
      match states[i] {
        case Present(content) =>
          keyFiles := keyFiles[ConfigFiles[i] := Prefix(content, 3000)];
        case _ =>
      }
    }
    assert ConfigFiles[..|ConfigFiles|] == ConfigFiles;
    assert states[..|states|] == states;
  }

  // ---------------------------------------------------------------------------
  // Technology stack
  // ---------------------------------------------------------------------------

  /** The technologies the rules can report; `TechName` gives the text shown. */
  datatype Tech =
    | NodeJs | React | Vue | Angular | NextJs | Express | TypeScript
    | Java | SpringBoot | Rust | Python | Django | Flask | FastAPI
    | Go | Flutter | PHP | Docker | JavaScript

  datatype Tool = Npm | Yarn | Maven | Gradle | Cargo | Pip | GoModules | Flutter | Composer | Docker

  datatype TestFramework = Jest | Cypress | JUnit | Pytest

  datatype Language = Unknown | JavaScript | TypeScript | Java | Rust | Python | Go | Dart | PHP

  function TechName(t: Tech): string {
    match t
    case NodeJs => "Node.js"
    case React => "React"
    case Vue => "Vue.js"
    case Angular => "Angular"
    case NextJs => "Next.js"
    case Express => "Express"
    case TypeScript => "TypeScript"
    case Java => "Java"
    case SpringBoot => "Spring Boot"
    case Rust => "Rust"
    case Python => "Python"
    case Django => "Django"
    case Flask => "Flask"
    case FastAPI => "FastAPI"
    case Go => "Go"
    case Flutter => "Flutter"
    case PHP => "PHP"
    case Docker => "Docker"
    case JavaScript => "JavaScript"
  }

  function ToolName(t: Tool): string {
    match t
    case Npm => "npm"
    case Yarn => "Yarn"
    case Maven => "Maven"
    case Gradle => "Gradle"
    case Cargo => "Cargo"
    case Pip => "pip"
    case GoModules => "Go modules"
    case Flutter => "Flutter"
    case Composer => "Composer"
    case Docker => "Docker"
  }

  function TestName(t: TestFramework): string {
    match t
    case Jest => "Jest"
    case Cypress => "Cypress"
    case JUnit => "JUnit"
    case Pytest => "pytest"
  }

  function LanguageName(l: Language): string {
    match l
    case Unknown => "Unknown"
    case JavaScript => "JavaScript"
    case TypeScript => "TypeScript"
    case Java => "Java"
    case Rust => "Rust"
    case Python => "Python"
    case Go => "Go"
    case Dart => "Dart"
    case PHP => "PHP"
  }

  /** What `_analyze_tech_stack` derives from the key files and the extension counts. */
  datatype TechAnalysis = TechAnalysis(
    techStack: seq<Tech>,
    buildTools: seq<Tool>,
    testFrameworks: seq<TestFramework>,
    primaryLanguage: Language)

  /** `f in key_files`. */
  predicate Has(keyFiles: map<ConfigFile, string>, f: ConfigFile) {
    f in keyFiles
  }

  /** `f` was read and its lower-cased text contains `word`. */
  predicate Mentions(keyFiles: map<ConfigFile, string>, f: ConfigFile, word: string) {
    Has(keyFiles, f) && Contains(Lower(keyFiles[f]), word)
  }

  predicate HasPython(keyFiles: map<ConfigFile, string>) {
    Has(keyFiles, RequirementsTxt) || Has(keyFiles, PyprojectToml) || Has(keyFiles, SetupPy)
  }

  predicate HasDocker(keyFiles: map<ConfigFile, string>) {
    Has(keyFiles, Dockerfile) || Has(keyFiles, DockerComposeYml)
  }

  /** `[x]` when `b` holds, nothing otherwise. */
  function Opt<T>(b: bool, x: T): seq<T> {
    if b then [x] else []
  }

  /** The stack entries the `package.json` rule adds: Node.js, then the
      frameworks its lower-cased text names. A framework is only looked for in
      a file that was read, so `Mentions` implies the file is present. */
  function PackageStack(kf: map<ConfigFile, string>): seq<Tech> {
    Opt(Has(kf, PackageJson), NodeJs)
      + Opt(Mentions(kf, PackageJson, "react"), React)
      + Opt(Mentions(kf, PackageJson, "vue"), Vue)
      + Opt(Mentions(kf, PackageJson, "angular"), Angular)
      + Opt(Mentions(kf, PackageJson, "next"), NextJs)
      + Opt(Mentions(kf, PackageJson, "express"), Express)
      + Opt(Mentions(kf, PackageJson, "typescript"), Tech.TypeScript)
  }

  /** The stack entries the `pom.xml` rule adds: Java, then Spring Boot when named. */
  function PomStack(kf: map<ConfigFile, string>): seq<Tech> {
    Opt(Has(kf, PomXml), Tech.Java) + Opt(Mentions(kf, PomXml, "spring"), SpringBoot)
  }

  /** The stack entries the Python rule adds: Python, then the web frameworks
      `pyproject.toml` names. */
  function PythonStack(kf: map<ConfigFile, string>): seq<Tech> {
    Opt(HasPython(kf), Tech.Python)
      + Opt(Mentions(kf, PyprojectToml, "django"), Django)
      + Opt(Mentions(kf, PyprojectToml, "flask"), Flask)
      + Opt(Mentions(kf, PyprojectToml, "fastapi"), FastAPI)
  }

  /** The stack the rules up to `build.gradle` produce, in table order. A
      `build.gradle` contributes Java only when no `pom.xml` did. */
  function EarlyStack(kf: map<ConfigFile, string>): seq<Tech> {
    PackageStack(kf) + PomStack(kf) + Opt(Has(kf, BuildGradle) && !Has(kf, PomXml), Tech.Java)
  }

  /** The build tools the rules up to `build.gradle` produce. */
  function EarlyTools(kf: map<ConfigFile, string>): seq<Tool> {
    Opt(Has(kf, PackageJson), Npm)
      + Opt(Has(kf, YarnLock), Yarn)
      + Opt(Has(kf, PomXml), Maven)
      + Opt(Has(kf, BuildGradle), Gradle)
  }

  /** The test frameworks `package.json` names. */
  function PackageTests(kf: map<ConfigFile, string>): seq<TestFramework> {
    Opt(Mentions(kf, PackageJson, "jest"), Jest) + Opt(Mentions(kf, PackageJson, "cypress"), Cypress)
  }

  /** The language after the rules up to `build.gradle`: Java for either Java
      build file, else JavaScript or TypeScript for `package.json`. */
  function EarlyLanguage(kf: map<ConfigFile, string>): Language {
    if Has(kf, PomXml) || Has(kf, BuildGradle) then Language.Java
    else if Has(kf, PackageJson) then
      (if Mentions(kf, PackageJson, "typescript") then Language.TypeScript else Language.JavaScript)
    else Unknown
  }

  /** The rules from `Cargo.toml` on append their entries to the stack `s`
      the earlier rules left. */
  function LateStack(kf: map<ConfigFile, string>, s: seq<Tech>): seq<Tech> {
    s + Opt(Has(kf, CargoToml), Tech.Rust)
      + PythonStack(kf)
      + Opt(Has(kf, GoMod), Tech.Go)
      + Opt(Has(kf, PubspecYaml), Tech.Flutter)
      + Opt(Has(kf, ComposerJson), Tech.PHP)
      + Opt(HasDocker(kf), Tech.Docker)
  }

  function LateTools(kf: map<ConfigFile, string>, s: seq<Tool>): seq<Tool> {
    s + Opt(Has(kf, CargoToml), Cargo)
      + Opt(HasPython(kf), Pip)
      + Opt(Has(kf, GoMod), GoModules)
      + Opt(Has(kf, PubspecYaml), Tool.Flutter)
      + Opt(Has(kf, ComposerJson), Composer)
      + Opt(HasDocker(kf), Tool.Docker)
  }

  /** The language the last of the rules from `Cargo.toml` on sets, tried
      backwards, or `l` when none fires. Docker sets none. */
  function LateLanguage(kf: map<ConfigFile, string>, l: Language): Language {
    if Has(kf, ComposerJson) then Language.PHP
    else if Has(kf, PubspecYaml) then Dart
    else if Has(kf, GoMod) then Language.Go
    else if HasPython(kf) then Language.Python
    else if Has(kf, CargoToml) then Language.Rust
    else l
  }

  /** The stack all configuration-file rules produce, rule by rule in table order. */
  function ConfigStack(kf: map<ConfigFile, string>): seq<Tech> {
    LateStack(kf, EarlyStack(kf))
  }

  /** The build tools, one per rule that fires, in table order; Yarn has a
      rule of its own. */
  function ConfigTools(kf: map<ConfigFile, string>): seq<Tool> {
    LateTools(kf, EarlyTools(kf))
  }

  /** The test frameworks named in `package.json`, `pom.xml` and `pyproject.toml`. */
  function ConfigTests(kf: map<ConfigFile, string>): seq<TestFramework> {
    PackageTests(kf)
      + Opt(Mentions(kf, PomXml, "junit"), JUnit)
      + Opt(Mentions(kf, PyprojectToml, "pytest"), Pytest)
  }

  /** The language of the last language-setting rule that fires. */
  function ConfigLanguage(kf: map<ConfigFile, string>): Language {
    LateLanguage(kf, EarlyLanguage(kf))
  }

  /** Some rule that adds to the stack fires. */
  predicate RuleFires(kf: map<ConfigFile, string>) {
    || Has(kf, PackageJson) || Has(kf, PomXml) || Has(kf, BuildGradle)
    || Has(kf, CargoToml) || HasPython(kf) || Has(kf, GoMod)
    || Has(kf, PubspecYaml) || Has(kf, ComposerJson) || HasDocker(kf)
  }

  predicate HasExt(extensions: set<string>, ext: string) {
    ext in extensions
  }

  /** The extension rules run only when no configuration rule filled the stack
      and some file was counted. */
  predicate FallsBack(kf: map<ConfigFile, string>, extensions: set<string>) {
    !RuleFires(kf) && extensions != {}
  }

  predicate HasTsExt(extensions: set<string>) {
    HasExt(extensions, ".ts") || HasExt(extensions, ".tsx")
  }

  predicate HasJsExt(extensions: set<string>) {
    HasExt(extensions, ".js") || HasExt(extensions, ".jsx") || HasTsExt(extensions)
  }

  function FallbackStack(extensions: set<string>): seq<Tech> {
    Opt(HasJsExt(extensions), Tech.JavaScript)
      + Opt(HasTsExt(extensions), Tech.TypeScript)
      + Opt(HasExt(extensions, ".py"), Tech.Python)
      + Opt(HasExt(extensions, ".java"), Tech.Java)
      + Opt(HasExt(extensions, ".rs"), Tech.Rust)
      + Opt(HasExt(extensions, ".go"), Tech.Go)
  }

  /** The language of the last extension rule that fires, tried backwards. */
  function FallbackLanguage(extensions: set<string>): Language {
    if HasExt(extensions, ".go") then Language.Go
    else if HasExt(extensions, ".rs") then Language.Rust
    else if HasExt(extensions, ".java") then Language.Java
    else if HasExt(extensions, ".py") then Language.Python
    else if HasTsExt(extensions) then Language.TypeScript
    else if HasJsExt(extensions) then Language.JavaScript
    else Unknown
  }

  /** The `package.json` block of `_analyze_tech_stack`, the first one, run
      on empty lists: Node.js and npm, the frameworks the file names, and
      JavaScript or TypeScript as the language. */
  method PackageJsonRule(kf: map<ConfigFile, string>) returns (t: TechAnalysis)
    ensures t.techStack == PackageStack(kf)
    ensures t.buildTools == Opt(Has(kf, PackageJson), Npm)
    ensures t.testFrameworks == PackageTests(kf)
    ensures t.primaryLanguage ==
      if Mentions(kf, PackageJson, "typescript") then Language.TypeScript
      else if Has(kf, PackageJson) then Language.JavaScript
      else Unknown
  {
    t := TechAnalysis([], [], [], Unknown);
    if PackageJson in kf {
      var content := Lower(kf[PackageJson]);
      var stack := [NodeJs];
      var language := Language.JavaScript;
      stack := stack + Opt(Contains(content, "react"), React);
      stack := stack + Opt(Contains(content, "vue"), Vue);
      stack := stack + Opt(Contains(content, "angular"), Angular);
      stack := stack + Opt(Contains(content, "next"), NextJs);
      stack := stack + Opt(Contains(content, "express"), Express);
      var tests := Opt(Contains(content, "jest"), Jest) + Opt(Contains(content, "cypress"), Cypress);
      if Contains(content, "typescript") {
        stack := stack + [Tech.TypeScript];
        language := Language.TypeScript;
      }
      t := TechAnalysis(stack, [Npm], tests, language);
    }
  }

  /** The `pom.xml` block: Java and Maven, Spring Boot and JUnit when named. */
  method PomXmlRule(kf: map<ConfigFile, string>, t: TechAnalysis) returns (r: TechAnalysis)
    ensures r.techStack == t.techStack + PomStack(kf)
    ensures r.buildTools == t.buildTools + Opt(Has(kf, PomXml), Maven)
    ensures r.testFrameworks == t.testFrameworks + Opt(Mentions(kf, PomXml, "junit"), JUnit)
    ensures r.primaryLanguage == if Has(kf, PomXml) then Language.Java else t.primaryLanguage
  {
    r := t;
    if PomXml in kf {
      var content := Lower(kf[PomXml]);
      var stack := [Tech.Java] + Opt(Contains(content, "spring"), SpringBoot);
      var tests := Opt(Contains(content, "junit"), JUnit);
      r := TechAnalysis(t.techStack + stack, t.buildTools + [Maven], t.testFrameworks + tests, Language.Java);
    }
  }

  /** The `build.gradle` block: Java (and the language) only when the stack
      does not hold it yet; Gradle always. */
  method GradleRule(kf: map<ConfigFile, string>, t: TechAnalysis) returns (r: TechAnalysis)
    ensures r.techStack == t.techStack + Opt(Has(kf, BuildGradle) && Tech.Java !in t.techStack, Tech.Java)
    ensures r.buildTools == t.buildTools + Opt(Has(kf, BuildGradle), Gradle)
    ensures r.testFrameworks == t.testFrameworks
    ensures r.primaryLanguage ==
      if Has(kf, BuildGradle) && Tech.Java !in t.techStack then Language.Java else t.primaryLanguage
  {
    r := t;
    if BuildGradle in kf {
      if Tech.Java !in r.techStack {
        r := r.(techStack := r.techStack + [Tech.Java], primaryLanguage := Language.Java);
      }
      r := r.(buildTools := r.buildTools + [Gradle]);
    }
  }

  /** The Python block: Python and pip for any of its three files, then the
      web frameworks and pytest when `pyproject.toml` names them. */
  method PythonRule(kf: map<ConfigFile, string>, t: TechAnalysis) returns (r: TechAnalysis)
    ensures r.techStack == t.techStack + PythonStack(kf)
    ensures r.buildTools == t.buildTools + Opt(HasPython(kf), Pip)
    ensures r.testFrameworks == t.testFrameworks + Opt(Mentions(kf, PyprojectToml, "pytest"), Pytest)
    ensures r.primaryLanguage == if HasPython(kf) then Language.Python else t.primaryLanguage
  {
    r := t;
    if RequirementsTxt in kf || PyprojectToml in kf || SetupPy in kf {
      var stack := [Tech.Python];
      var tests := [];
      if PyprojectToml in kf {
        var content := Lower(kf[PyprojectToml]);
        stack := stack + Opt(Contains(content, "django"), Django);
        stack := stack + Opt(Contains(content, "flask"), Flask);
        stack := stack + Opt(Contains(content, "fastapi"), FastAPI);
        tests := Opt(Contains(content, "pytest"), Pytest);
      }
      r := TechAnalysis(t.techStack + stack, t.buildTools + [Pip], t.testFrameworks + tests, Language.Python);
    }
  }

  /** A block of the plain shape (`Cargo.toml`, `go.mod`, `pubspec.yaml`,
      `composer.json`, the Docker files): when it fires it adds one
      technology and one build tool and sets the language it names, if any. */
  method PlainRule(t: TechAnalysis, fires: bool, tech: Tech, tool: Tool, language: Option<Language>)
    returns (r: TechAnalysis)
    ensures r.techStack == t.techStack + Opt(fires, tech)
    ensures r.buildTools == t.buildTools + Opt(fires, tool)
    ensures r.testFrameworks == t.testFrameworks
    ensures r.primaryLanguage == if fires && language.Some? then language.value else t.primaryLanguage
  {
    r := t;
    if fires {
      r := r.(techStack := r.techStack + [tech], buildTools := r.buildTools + [tool]);
      if language.Some? {
        r := r.(primaryLanguage := language.value);
      }
    }
  }

  /** The extension rules, run on an empty stack: JavaScript for any script
      extension and TypeScript as well for `.ts`/`.tsx`, then Python, Java,
      Rust and Go; each that fires sets the language, which otherwise stays
      `language`. */
  method ExtensionRules(extensions: set<string>, language: Language) returns (stack: seq<Tech>, primary: Language)
    ensures stack == FallbackStack(extensions)
    ensures primary == if FallbackLanguage(extensions) != Unknown then FallbackLanguage(extensions) else language
  {
    stack := [];
    primary := language;
    if ".js" in extensions || ".jsx" in extensions || ".ts" in extensions || ".tsx" in extensions {
      stack := [Tech.JavaScript];
      primary := Language.JavaScript;
      if ".ts" in extensions || ".tsx" in extensions {
        stack := stack + [Tech.TypeScript];
        primary := Language.TypeScript;
      }
    }
    ghost var scripts := Opt(HasJsExt(extensions), Tech.JavaScript) + Opt(HasTsExt(extensions), Tech.TypeScript);
    assert stack == scripts;
    assert FallbackStack(extensions) == scripts + Opt(HasExt(extensions, ".py"), Tech.Python)
      + Opt(HasExt(extensions, ".java"), Tech.Java) + Opt(HasExt(extensions, ".rs"), Tech.Rust)
      + Opt(HasExt(extensions, ".go"), Tech.Go);
    stack := stack + Opt(".py" in extensions, Tech.Python);
    primary := if ".py" in extensions then Language.Python else primary;
    stack := stack + Opt(".java" in extensions, Tech.Java);
    primary := if ".java" in extensions then Language.Java else primary;
    stack := stack + Opt(".rs" in extensions, Tech.Rust);
    primary := if ".rs" in extensions then Language.Rust else primary;
    stack := stack + Opt(".go" in extensions, Tech.Go);
    primary := if ".go" in extensions then Language.Go else primary;
  }

  /** The configuration-file blocks of `_analyze_tech_stack` up to
      `build.gradle`, from empty lists and the language "Unknown". */
  method EarlyRules(kf: map<ConfigFile, string>) returns (t: TechAnalysis)
    ensures t == TechAnalysis(EarlyStack(kf), EarlyTools(kf), PackageTests(kf) + Opt(Mentions(kf, PomXml, "junit"), JUnit), EarlyLanguage(kf))
  {
    t := PackageJsonRule(kf);
    t := t.(buildTools := t.buildTools + Opt(YarnLock in kf, Yarn));
    t := PomXmlRule(kf, t);
    JavaBeforeGradle(kf);
    t := GradleRule(kf, t);
  }

  /** The blocks from `Cargo.toml` on, appending to what the earlier ones left in `t`. */
  method LateRules(kf: map<ConfigFile, string>, t: TechAnalysis) returns (r: TechAnalysis)
    ensures r == TechAnalysis(LateStack(kf, t.techStack), LateTools(kf, t.buildTools),
      t.testFrameworks + Opt(Mentions(kf, PyprojectToml, "pytest"), Pytest), LateLanguage(kf, t.primaryLanguage))
  {
    r := PlainRule(t, CargoToml in kf, Tech.Rust, Cargo, Some(Language.Rust));
    r := PythonRule(kf, r);
    r := PlainRule(r, GoMod in kf, Tech.Go, GoModules, Some(Language.Go));
    r := PlainRule(r, PubspecYaml in kf, Tech.Flutter, Tool.Flutter, Some(Dart));
    r := PlainRule(r, ComposerJson in kf, Tech.PHP, Composer, Some(Language.PHP));
    r := PlainRule(r, Dockerfile in kf || DockerComposeYml in kf, Tech.Docker, Tool.Docker, None);
  }

  /** `_analyze_tech_stack`: the configuration rules, then the extension rules
      when those left the stack empty and some file was counted. */
  method AnalyzeTechStack(kf: map<ConfigFile, string>, extensions: set<string>) returns (t: TechAnalysis)
    ensures t.techStack == if FallsBack(kf, extensions) then FallbackStack(extensions) else ConfigStack(kf)
    ensures t.buildTools == ConfigTools(kf)
    ensures t.testFrameworks == ConfigTests(kf)
    ensures t.primaryLanguage ==
      if FallsBack(kf, extensions) then FallbackLanguage(extensions) else ConfigLanguage(kf)
  {
    t := EarlyRules(kf);
    t := LateRules(kf, t);
    ConfigStackEmpty(kf);
    if t.techStack == [] && extensions != {} {
      var stack, language := ExtensionRules(extensions, t.primaryLanguage);
      t := t.(techStack := stack, primaryLanguage := language);
    }
  }

  /** The configuration rules leave the stack empty exactly when none of the
      rules that add to it fires. */
  lemma ConfigStackEmpty(kf: map<ConfigFile, string>)
    ensures ConfigStack(kf) == [] <==> !RuleFires(kf)
  {
  }

  /** "Java" is in the stack after the `pom.xml` rule exactly when `pom.xml` was read. */
  lemma JavaBeforeGradle(kf: map<ConfigFile, string>)
    ensures Tech.Java in PackageStack(kf) + PomStack(kf) <==> Has(kf, PomXml)
  {
  }

  /** A checkout whose only configuration file is `go.mod` is a Go project
      built with Go modules, with no test framework; the extension rules do
      not run, whatever files were counted. */
  lemma GoModOnly(content: string, extensions: set<string>)
    ensures var kf := map[GoMod := content];
      && !FallsBack(kf, extensions)
      && ConfigStack(kf) == [Tech.Go]
      && ConfigTools(kf) == [GoModules]
      && ConfigTests(kf) == []
      && ConfigLanguage(kf) == Language.Go
  {
    var kf := map[GoMod := content];
    assert !Has(kf, PackageJson) && !Has(kf, PomXml) && !Has(kf, PyprojectToml);
  }

  /** A later rule overrides the language of an earlier one: `package.json`
      next to `pom.xml` makes a Java project, even when the package names
      TypeScript, while both contribute to the stack. */
  lemma PomOverridesPackage(kf: map<ConfigFile, string>)
    requires Has(kf, PackageJson) && Has(kf, PomXml)
    requires !Has(kf, CargoToml) && !HasPython(kf) && !Has(kf, GoMod) && !Has(kf, PubspecYaml) && !Has(kf, ComposerJson)
    ensures ConfigLanguage(kf) == Language.Java
    ensures ConfigStack(kf)[0] == NodeJs && Tech.Java in ConfigStack(kf)
  {
    JavaBeforeGradle(kf);
  }

  /** `yarn.lock` and the Docker files add build tools but never change the
      language. */
  lemma ToolOnlyFilesKeepLanguage(kf: map<ConfigFile, string>, f: ConfigFile, content: string)
    requires f == YarnLock || f == Dockerfile || f == DockerComposeYml
    ensures ConfigLanguage(kf[f := content]) == ConfigLanguage(kf)
  {
    var kf' := kf[f := content];
    assert Has(kf', PackageJson) == Has(kf, PackageJson) && Has(kf', PomXml) == Has(kf, PomXml);
    assert Mentions(kf', PackageJson, "typescript") == Mentions(kf, PackageJson, "typescript");
  }

  // ---------------------------------------------------------------------------
  // Repository metadata
  // ---------------------------------------------------------------------------

  /** The README files looked for, in order. */
  const ReadmeNames: seq<string> := ["README.md", "README.rst", "README.txt", "readme.md"]

  /** The text of the first README that reads: a missing file and a file
      whose read raises are both passed over. */
  function FirstReadme(readmes: seq<FileState>): Option<string> {
    if readmes == [] then None
    else if readmes[0].Present? then Some(readmes[0].content)
    else FirstReadme(readmes[1..])
  }

  /** The first README read is the first `Present` state. */
  lemma {:induction false} FirstReadmeAt(readmes: seq<FileState>, i: nat)
    requires i < |readmes| && readmes[i].Present?
    requires forall j :: 0 <= j < i ==> !readmes[j].Present?
    ensures FirstReadme(readmes) == Some(readmes[i].content)
  {
    if i > 0 {
      FirstReadmeAt(readmes[1..], i - 1);
    }
  }

  /** No README is used when none reads. */
  lemma {:induction false} FirstReadmeNone(readmes: seq<FileState>)
    ensures FirstReadme(readmes) == None <==> forall j :: 0 <= j < |readmes| ==> !readmes[j].Present?
  {
    if readmes != [] {
      FirstReadmeNone(readmes[1..]);
      if !readmes[0].Present? {
        forall j | 0 < j < |readmes| ensures readmes[j] == readmes[1..][j - 1] { }
      }
    }
  }

  /** A stripped line, or nothing for a blank one. */
  function NonBlank(line: string): Option<string> {
    if Strip(line) == "" then None else Some(Strip(line))
  }

  /** The stripped non-blank lines of `content`, in order. */
  function NonBlankLines(content: string): seq<string> {
    FilterMap(NonBlank, Split(content, '\n'))
  }

  /** `line.startswith('#')`. */
  predicate IsHeading(line: string) {
    |line| > 0 && line[0] == '#'
  }

  /** The position of the first line that is not a heading, or `|lines|`
      when every line is one. */
  function FirstNonHeading(lines: seq<string>): (i: nat)
    ensures i <= |lines|
    ensures forall j :: 0 <= j < i ==> IsHeading(lines[j])
    ensures i < |lines| ==> !IsHeading(lines[i])
  {
    if lines == [] || !IsHeading(lines[0]) then 0 else 1 + FirstNonHeading(lines[1..])
  }

  /** The description taken from the non-blank lines of a README: the first
      line that is not a heading, or else the first line with every '#'
      removed and stripped. */
  function DescriptionOf(lines: seq<string>): (r: string)
    requires lines != []
    ensures !IsHeading(r)
  {
    var i := FirstNonHeading(lines);
    if i < |lines| then lines[i] else Strip(RemoveChar(lines[0], '#'))
  }

  /** The description one README's text gives: none when its first 500
      characters hold only blank lines. */
  function DescriptionIn(content: string): Option<string> {
    var lines := NonBlankLines(Prefix(content, 500));
    if lines == [] then None else Some(DescriptionOf(lines))
  }

  /** The description the READMEs give, if any. */
  function ReadmeDescription(readmes: seq<FileState>): Option<string> {
    match FirstReadme(readmes)
    case None => None
    case Some(content) => DescriptionIn(content)
  }

  /** The first README that reads gives the description. */
  lemma ReadmeDescriptionAt(readmes: seq<FileState>, i: nat)
    requires i < |readmes| && readmes[i].Present?
    requires forall j :: 0 <= j < i ==> !readmes[j].Present?
    ensures ReadmeDescription(readmes) == DescriptionIn(readmes[i].content)
  {
    FirstReadmeAt(readmes, i);
  }

  /** No README that reads, no description. */
  lemma ReadmeDescriptionNone(readmes: seq<FileState>)
    requires forall j :: 0 <= j < |readmes| ==> !readmes[j].Present?
    ensures ReadmeDescription(readmes) == None
  {
    FirstReadmeNone(readmes);
  }

  /** Every line kept is a line of `content`, stripped and not blank. */
  lemma NonBlankLine(content: string, line: string)
    requires line in NonBlankLines(content)
    ensures line != "" && NoOuterSpace(line) && '\n' !in line
    ensures exists l :: l in Split(content, '\n') && Strip(l) == line
  {
    FilterMapIn(NonBlank, Split(content, '\n'), line);
    var l :| l in Split(content, '\n') && NonBlank(l) == Some(line);
    StripLacks(l, '\n');
  }

  /** When a line that is not a heading exists, the description is the first
      such line, whatever headings come before it. */
  lemma DescriptionIsFirstText(lines: seq<string>, i: nat)
    requires i < |lines| && !IsHeading(lines[i])
    requires forall j :: 0 <= j < i ==> IsHeading(lines[j])
    ensures DescriptionOf(lines) == lines[i]
  {
    var k := FirstNonHeading(lines);
    if k < i {
      assert false;
    }
  }

  /** A README of headings only is described by its first heading with the
      '#' characters removed. */
  lemma DescriptionOfHeadings(lines: seq<string>)
    requires lines != [] && forall j :: 0 <= j < |lines| ==> IsHeading(lines[j])
    ensures DescriptionOf(lines) == Strip(RemoveChar(lines[0], '#'))
  {
    var k := FirstNonHeading(lines);
    if k < |lines| {
      assert false;
    }
  }

  /** A description is a single line. */
  lemma DescriptionSingleLine(content: string)
    requires DescriptionIn(content).Some?
    ensures '\n' !in DescriptionIn(content).value
  {
    var lines := NonBlankLines(Prefix(content, 500));
    var k := FirstNonHeading(lines);
    NonBlankLine(Prefix(content, 500), lines[if k < |lines| then k else 0]);
    if k == |lines| {
      RemoveCharLacks(lines[0], '#', '\n');
      StripLacks(RemoveChar(lines[0], '#'), '\n');
    }
  }

  /** A title line followed by a line of text is described by the text. */
  lemma TitleThenText(title: string, text: string)
    requires IsHeading(title) && Strip(title) == title && '\n' !in title
    requires text != "" && !IsHeading(text) && Strip(text) == text && '\n' !in text
    requires |title| + 1 + |text| <= 500
    ensures DescriptionIn(title + "\n" + text) == Some(text)
  {
    var content := title + "\n" + text;
    SplitAfter(title, '\n', text);
    assert Split(content, '\n') == [title, text];
    assert [title, text][..1] == [title];
    assert FilterMap(NonBlank, [title]) == [title];
    assert NonBlankLines(content) == [title, text];
    DescriptionIsFirstText([title, text], 1);
  }

  /** `git branch --show-current`: its stripped output when it exits with 0
      and prints something, "main" otherwise (a failure, a time-out or an
      exception). */
  function DefaultBranch(git: Outcome): (r: string)
    ensures r != "" && NoOuterSpace(r)
    ensures r == "main" || (ExitedZero(git) && r == Strip(git.stdout))
    ensures ExitedZero(git) && Strip(git.stdout) != "" ==> r == Strip(git.stdout)
  {
    if ExitedZero(git) && Strip(git.stdout) != "" then Strip(git.stdout) else "main"
  }

  /** What `_get_repo_metadata` reports; a missing description is `None`. */
  datatype Metadata = Metadata(description: Option<string>, defaultBranch: string)

  /** The README loop of `_get_repo_metadata`: `readmes[i]` is what the
      checkout holds under `ReadmeNames[i]`. The scan stops at the first
      README that reads, even when it yields no description. */
  method ScanReadmes(readmes: seq<FileState>) returns (description: Option<string>)
    requires |readmes| == |ReadmeNames|
    ensures description == ReadmeDescription(readmes)
  {
    description := None;
    var i := 0;
    while i < |readmes|
      invariant i <= |readmes|
      invariant forall j :: 0 <= j < i ==> !readmes[j].Present?
      invariant description == None
    {
      if readmes[i].Present? {
        description := DescriptionIn(readmes[i].content);
        ReadmeDescriptionAt(readmes, i);
        break;
      }
      i := i + 1;
    }
    if i == |readmes| {
      ReadmeDescriptionNone(readmes);
    }
  }

  /** `_get_repo_metadata`: the README description and the current branch,
      `git` being the outcome of asking git for it. */
  method GetRepoMetadata(readmes: seq<FileState>, git: Outcome) returns (m: Metadata)
    requires |readmes| == |ReadmeNames|
    ensures m.description == ReadmeDescription(readmes)
    ensures m.defaultBranch == DefaultBranch(git)
  {
    var description := ScanReadmes(readmes);
    m := Metadata(description, DefaultBranch(git));
  }



  // ---------------------------------------------------------------------------
  // Project structure
  // ---------------------------------------------------------------------------

  /** What the walk finds at a path: a regular file, a directory, or neither
      (a dangling link, a socket). */
  datatype EntryKind = File | Dir | Other

  /** A path the recursive walk of the checkout yields, as its components
      below the checkout directory, with what it is. */
  datatype PathEntry = PathEntry(parts: seq<string>, kind: EntryKind)

  /** What `_analyze_project_structure` reports. The extension dictionary
      maps each extension seen to its number of files, so it is the multiset
      of the counted files' extensions. */
  datatype Structure = Structure(
    directories: seq<string>,
    fileExtensions: multiset<string>,
    totalFiles: nat,
    sourceFiles: nat)

  /** The extensions counted as source code. */
  const SourceExtensions: set<string> := {
    ".js", ".jsx", ".ts", ".tsx", ".mjs",
    ".py", ".pyx",
    ".java", ".kt", ".scala",
    ".rs",
    ".go",
    ".php",
    ".rb",
    ".c", ".cpp", ".cc", ".cxx", ".h", ".hpp",
    ".cs",
    ".swift",
    ".dart",
    ".vue",
    ".html", ".htm", ".css", ".scss", ".sass", ".less",
    ".sql",
    ".sh", ".bash", ".zsh"
  }

  /** A component whose name starts with '.'. */
  predicate HiddenPart(part: string) {
    |part| > 0 && part[0] == '.'
  }

  /** A component that contains one of the ignored names. */
  predicate IgnoredPart(part: string) {
    || Contains(part, "node_modules") || Contains(part, "__pycache__")
    || Contains(part, "target") || Contains(part, "build") || Contains(part, "dist")
  }

  /** Some component of the path is hidden. */
  predicate AnyHidden(path: seq<string>) {
    exists k :: 0 <= k < |path| && HiddenPart(path[k])
  }

  /** The text of the path contains an ignored name. None of those names
      holds a '/', so this is when some component contains one. */
  predicate AnyIgnored(path: seq<string>) {
    exists k :: 0 <= k < |path| && IgnoredPart(path[k])
  }

  /** The walk skips `base + parts`, `base` being the components of the
      checkout directory itself: both tests read the whole path. */
  predicate Skipped(base: seq<string>, e: PathEntry) {
    AnyHidden(base + e.parts) || AnyIgnored(base + e.parts)
  }

  /** `PurePath.name`: the last component. */
  function Name(parts: seq<string>): string {
    if parts == [] then "" else parts[|parts| - 1]
  }

  /** Python's `s.rfind(c)`: the last position of `c`, or -1. */
  function LastIndex(s: string, c: char): (i: int)
    ensures -1 <= i < |s|
    ensures i >= 0 ==> s[i] == c
    ensures forall j :: i < j < |s| ==> s[j] != c
  {
    if s == [] then -1 else if s[|s| - 1] == c then |s| - 1 else LastIndex(s[..|s| - 1], c)
  }

  /** `PurePath.suffix` of a name: from its last '.' on, unless that dot
      starts or ends the name. A suffix is a dot and at least one more
      character, none of them a dot, ending the name. */
  function Suffix(name: string): (r: string)
    ensures r == "" || (2 <= |r| < |name| && r[0] == '.' && '.' !in r[1..] && EndsWith(name, r))
  {
    var i := LastIndex(name, '.');
    if 0 < i < |name| - 1 then name[i..] else ""
  }

  /** A name with a non-empty stem and a dot-free extension has that
      extension, dot included, as its suffix: `main.py` has `.py`. */
  lemma SuffixOfName(stem: string, ext: string)
    requires stem != "" && ext != "" && '.' !in ext
    ensures Suffix(stem + "." + ext) == "." + ext
  {
    var name := stem + "." + ext;
    var i := LastIndex(name, '.');
    assert name[|stem|] == '.';
    forall j | |stem| < j < |name| ensures name[j] != '.' {
      assert name[j] == ext[j - |stem| - 1];
    }
    assert i == |stem|;
    assert name[i..] == "." + ext;
  }

  /** The extension a counted file is filed under: its suffix, lower-cased. */
  function Extension(e: PathEntry): string {
    Lower(Suffix(Name(e.parts)))
  }

  /** One step of the walk. */
  function Visit(s: Structure, base: seq<string>, e: PathEntry): Structure {
    if Skipped(base, e) then s
    else
      match e.kind
      case File =>
        var ext := Extension(e);
        Structure(s.directories, s.fileExtensions + multiset{ext}, s.totalFiles + 1,
          s.sourceFiles + (if ext in SourceExtensions then 1 else 0))
      case Dir =>
        if |e.parts| <= 2 then s.(directories := s.directories + [Join(e.parts, "/")]) else s
      case Other => s
  }

  /** The structure after walking `entries` in order, starting from nothing. */
  function StructureOf(base: seq<string>, entries: seq<PathEntry>): Structure {
    if entries == [] then Structure([], multiset{}, 0, 0)
    else
      var n := |entries| - 1;
      Visit(StructureOf(base, entries[..n]), base, entries[n])
  }

  /** Walking one more entry visits it. */
  lemma StructureNext(base: seq<string>, entries: seq<PathEntry>, i: nat)
    requires i < |entries|
    ensures StructureOf(base, entries[..i + 1]) == Visit(StructureOf(base, entries[..i]), base, entries[i])
  {
    TakeTake(entries, i, i + 1);
  }

  /** The body of the walk's loop for one path: skipped when hidden or
      ignored, counted when a file, listed when a directory at most two
      levels down. */
  method VisitEntry(s: Structure, root: seq<string>, item: PathEntry) returns (r: Structure)
    ensures r == Visit(s, root, item)
  {
    r := s;
    var path := root + item.parts;
    if AnyHidden(path) {
      return;
    }
    if AnyIgnored(path) {
      return;
    }
    if item.kind == File {
      r := r.(totalFiles := r.totalFiles + 1);
      var ext := Extension(item);
      r := r.(fileExtensions := r.fileExtensions + multiset{ext});
      if ext in SourceExtensions {
        r := r.(sourceFiles := r.sourceFiles + 1);
      }
    } else if item.kind == Dir {
      if |item.parts| <= 2 {
        r := r.(directories := r.directories + [Join(item.parts, "/")]);
      }
    }
  }

  /** `_analyze_project_structure` over the paths the walk yields, in its
      order; `root` holds the components of the checkout directory. */
  method AnalyzeProjectStructure(root: seq<string>, entries: seq<PathEntry>) returns (s: Structure)
    ensures s == StructureOf(root, entries)
  {
    s := Structure([], multiset{}, 0, 0);
    for i := 0 to |entries|
      invariant s == StructureOf(root, entries[..i])
    {
      StructureNext(root, entries, i);
      s := VisitEntry(s, root, entries[i]);
    }
    TakeAll(entries);
  }


  /** A path the walk counts as a file: a regular file it does not skip. */
  predicate CountedFile(base: seq<string>, e: PathEntry) {
    !Skipped(base, e) && e.kind == File
  }

  /** A directory the walk lists: not skipped and at most two levels down. */
  predicate ListedDirectory(base: seq<string>, e: PathEntry) {
    !Skipped(base, e) && e.kind == Dir && |e.parts| <= 2
  }

  /** The extensions of the files counted, in walk order. */
  function CountedExtensions(base: seq<string>, entries: seq<PathEntry>): seq<string> {
    if entries == [] then []
    else
      var n := |entries| - 1;
      CountedExtensions(base, entries[..n]) + (if CountedFile(base, entries[n]) then [Extension(entries[n])] else [])
  }

  /** The directories listed, in walk order. */
  function ListedDirectories(base: seq<string>, entries: seq<PathEntry>): seq<string> {
    if entries == [] then []
    else
      var n := |entries| - 1;
      ListedDirectories(base, entries[..n]) + (if ListedDirectory(base, entries[n]) then [Join(entries[n].parts, "/")] else [])
  }

  /** How many of `exts` are source extensions. */
  function SourceCount(exts: seq<string>): (n: nat)
    ensures n <= |exts|
  {
    if exts == [] then 0
    else SourceCount(exts[..|exts| - 1]) + (if exts[|exts| - 1] in SourceExtensions then 1 else 0)
  }

  /** What one step of the walk does to each counter. */
  lemma VisitFields(s: Structure, base: seq<string>, e: PathEntry)
    ensures Visit(s, base, e).directories ==
      s.directories + (if ListedDirectory(base, e) then [Join(e.parts, "/")] else [])
    ensures Visit(s, base, e).fileExtensions ==
      s.fileExtensions + (if CountedFile(base, e) then multiset{Extension(e)} else multiset{})
    ensures Visit(s, base, e).totalFiles == s.totalFiles + (if CountedFile(base, e) then 1 else 0)
    ensures Visit(s, base, e).sourceFiles ==
      s.sourceFiles + (if CountedFile(base, e) && Extension(e) in SourceExtensions then 1 else 0)
  {
    AppendEmpty(s.directories);
  }

  /** One more counted file adds its extension to the source count when it is one. */
  lemma SourceCountNext(exts: seq<string>, x: string)
    ensures SourceCount(exts + [x]) == SourceCount(exts) + (if x in SourceExtensions then 1 else 0)
  {
    assert (exts + [x])[..|exts|] == exts;
  }

  /** The walk's counters, read off the counted files and listed directories:
      the extension dictionary counts each extension as often as a counted
      file has it, the total is the number of counted files, and the source
      count the number of those with a source extension. */
  lemma {:induction false} StructureReference(base: seq<string>, entries: seq<PathEntry>)
    ensures StructureOf(base, entries) ==
      var exts := CountedExtensions(base, entries);
      Structure(ListedDirectories(base, entries), multiset(exts), |exts|, SourceCount(exts))
  {
    if entries != [] {
      var n := |entries| - 1;
      var e := entries[n];
      StructureReference(base, entries[..n]);
      VisitFields(StructureOf(base, entries[..n]), base, e);
      var exts := CountedExtensions(base, entries[..n]);
      if CountedFile(base, e) {
        SourceCountNext(exts, Extension(e));
      } else {
        AppendEmpty(exts);
      }
    }
  }

  /** No more source files than files, and the per-extension counts add up
      to the number of files. */
  lemma StructureCounts(base: seq<string>, entries: seq<PathEntry>)
    ensures StructureOf(base, entries).sourceFiles <= StructureOf(base, entries).totalFiles
    ensures |StructureOf(base, entries).fileExtensions| == StructureOf(base, entries).totalFiles
  {
    StructureReference(base, entries);
  }

  /** Every directory listed is a directory the walk met, at most two levels
      below the checkout, and not skipped. */
  lemma DirectoriesShallow(base: seq<string>, entries: seq<PathEntry>, d: string)
    requires d in StructureOf(base, entries).directories
    ensures exists k :: 0 <= k < |entries| && ListedDirectory(base, entries[k]) && Join(entries[k].parts, "/") == d
  {
    StructureReference(base, entries);
    ListedFrom(base, entries, d);
  }

  lemma {:induction false} ListedFrom(base: seq<string>, entries: seq<PathEntry>, d: string)
    requires d in ListedDirectories(base, entries)
    ensures exists k :: 0 <= k < |entries| && ListedDirectory(base, entries[k]) && Join(entries[k].parts, "/") == d
  {
    var n := |entries| - 1;
    var e := entries[n];
    if !(ListedDirectory(base, e) && Join(e.parts, "/") == d) {
      var front := ListedDirectories(base, entries[..n]);
      assert d in front by {
        if !ListedDirectory(base, e) {
          AppendEmpty(front);
        }
      }
      ListedFrom(base, entries[..n], d);
      var k :| 0 <= k < n && ListedDirectory(base, entries[..n][k]) && Join(entries[..n][k].parts, "/") == d;
      assert entries[..n][k] == entries[k];
    }
  }


  /** The walk as evidently intended: the skip tests read only the path
      below the checkout directory. */
  function IntendedStructureOf(entries: seq<PathEntry>): Structure {
    StructureOf([], entries)
  }

  /** How many of the paths are regular files whose path below the checkout
      has no hidden component and no ignored name. */
  function VisibleFiles(entries: seq<PathEntry>): nat {
    if entries == [] then 0
    else
      var e := entries[|entries| - 1];
      VisibleFiles(entries[..|entries| - 1])
        + (if e.kind == File && !AnyHidden(e.parts) && !AnyIgnored(e.parts) then 1 else 0)
  }

  /** The intended walk counts exactly the visible files, whatever the
      checkout directory is called. */
  lemma {:induction false} IntendedCountsVisibleFiles(entries: seq<PathEntry>)
    ensures IntendedStructureOf(entries).totalFiles == VisibleFiles(entries)
  {
    if entries != [] {
      var n := |entries| - 1;
      IntendedCountsVisibleFiles(entries[..n]);
      VisitFields(StructureOf([], entries[..n]), [], entries[n]);
      AppendEmpty(entries[n].parts);
    }
  }

  /** "main.py" holds no ignored name. */
  lemma MainPyNotIgnored()
    ensures !IgnoredPart("main.py")
  {
    var name := "main.py";
    assert '_' in "node_modules" && '_' in "__pycache__" && '_' !in name by {
      assert "node_modules"[4] == '_' && "__pycache__"[0] == '_';
    }
    assert 'g' in "target" && 'g' !in name by { assert "target"[3] == 'g'; }
    assert 'b' in "build" && 'b' !in name by { assert "build"[0] == 'b'; }
    assert 'd' in "dist" && 'd' !in name by { assert "dist"[0] == 'd'; }
    AbsentChar(name, "node_modules", '_');
    AbsentChar(name, "__pycache__", '_');
    AbsentChar(name, "target", 'g');
    AbsentChar(name, "build", 'b');
    AbsentChar(name, "dist", 'd');
  }

  /** A top-level "main.py" is visible. */
  lemma MainPyVisible()
    ensures !AnyHidden(["main.py"]) && !AnyIgnored(["main.py"])
  {
    var path := ["main.py"];
    assert path[1..] == [];
    MainPyNotIgnored();
  }

  /** A checkout named after `acme/build-tools` contains "build". */
  lemma BuildToolsIgnored(rest: seq<string>)
    ensures AnyIgnored(["repos", "acme_build-tools"] + rest)
  {
    var checkout := "acme_build-tools";
    assert checkout[5..10] == "build";
    ContainsAt(checkout, "build", 5);
    var path := ["repos", "acme_build-tools"] + rest;
    assert path[1..][0] == checkout;
  }

  /** As written, the skip tests also read the checkout directory's own
      path. The repository `acme/build-tools` is checked out as
      `repos/acme_build-tools`, whose name contains "build", so its visible
      top-level `main.py` is not counted (nor is any other file). */
  lemma CheckoutNameHidesFiles()
    ensures VisibleFiles([PathEntry(["main.py"], File)]) == 1
    ensures StructureOf(["repos", "acme_build-tools"], [PathEntry(["main.py"], File)]).totalFiles == 0
  {
    var e := PathEntry(["main.py"], File);
    BuildToolsIgnored(e.parts);
    VisitFields(StructureOf(["repos", "acme_build-tools"], []), ["repos", "acme_build-tools"], e);
    MainPyVisible();
    assert [e][..0] == [];
  }


  // ---------------------------------------------------------------------------
  // Summary
  // ---------------------------------------------------------------------------

  /** Names joined by ", ", or `none` when there are none. */
  function Listing(names: seq<string>, none: string): string {
    if names == [] then none else Join(names, ", ")
  }

  /** At most the first ten directories are shown. */
  function Shown(directories: seq<string>): (r: seq<string>)
    ensures r <= directories && (r == [] <==> directories == [])
    ensures |r| == if |directories| <= 10 then |directories| else 10
  {
    if |directories| <= 10 then directories else directories[..10]
  }

  const SummaryTitle := "Repository Analysis (Local Clone):"
  const LanguageLabel := "Primary Language: "
  const StackLabel := "Technology Stack: "
  const ToolsLabel := "Build Tools: "
  const TestsLabel := "Test Frameworks: "
  const FilesLabel := "Configuration Files: "
  const TotalLabel := "Total Files: "
  const SourceLabel := "Source Files: "
  const DirectoriesLabel := "Main Directories: "
  const DescriptionLabel := "Description: "
  const BranchLabel := "Default Branch: "
  const SshLabel := "SSH Status: "
  const NoneDetected := "None detected"
  const NoDescription := "No description found"
  const SshConfigured := "\U{2705} Configured"
  const SshNotConfigured := "\U{274C} Not configured"

  /** The lines of `_create_summary`, in order; configuration files are listed
      in the order they were looked for, which is the order in which they
      entered the dictionary. */
  function SummaryLines(t: TechAnalysis, keyFiles: map<ConfigFile, string>, s: Structure, m: Metadata, sshAvailable: bool): (lines: seq<string>)
    ensures |lines| == 12
  {
    [ SummaryTitle,
      LanguageLabel + LanguageName(t.primaryLanguage),
      StackLabel + Listing(Map(TechName, t.techStack), "Unknown"),
      ToolsLabel + Listing(Map(ToolName, t.buildTools), NoneDetected),
      TestsLabel + Listing(Map(TestName, t.testFrameworks), NoneDetected),
      FilesLabel + Listing(Map(FileName, ListedKeys(ConfigFiles, keyFiles)), "None found"),
      TotalLabel + NatToString(s.totalFiles),
      SourceLabel + NatToString(s.sourceFiles),
      DirectoriesLabel + Listing(Shown(s.directories), "None"),
      DescriptionLabel + m.description.GetOr(NoDescription),
      BranchLabel + m.defaultBranch,
      SshLabel + (if sshAvailable then SshConfigured else SshNotConfigured) ]
  }

  /** `_create_summary`: the lines joined by newlines. */
  function Summary(t: TechAnalysis, keyFiles: map<ConfigFile, string>, s: Structure, m: Metadata, sshAvailable: bool): string {
    Join(SummaryLines(t, keyFiles, s, m, sshAvailable), "\n")
  }

  /** The summary opens with its title line. */
  lemma SummaryStartsWithTitle(t: TechAnalysis, keyFiles: map<ConfigFile, string>, s: Structure, m: Metadata, sshAvailable: bool)
    ensures StartsWith(Summary(t, keyFiles, s, m, sshAvailable), SummaryTitle + "\n")
  {
    var lines := SummaryLines(t, keyFiles, s, m, sshAvailable);
    StartsWithAppend(SummaryTitle + "\n", SummaryTitle + "\n", Join(lines[1..], "\n"));
  }

  /** Every field line between the title and the SSH status stands on a line
      of its own, with a newline before and after it. */
  lemma SummaryHasLine(t: TechAnalysis, keyFiles: map<ConfigFile, string>, s: Structure, m: Metadata, sshAvailable: bool, k: nat)
    requires 0 < k < 11
    ensures Contains(Summary(t, keyFiles, s, m, sshAvailable), "\n" + SummaryLines(t, keyFiles, s, m, sshAvailable)[k] + "\n")
  {
    JoinHasPiece(SummaryLines(t, keyFiles, s, m, sshAvailable), "\n", k);
  }

}
