# pipe-pilot core, modelled in Dafny

pipe-pilot takes a GitHub repository and turns it into a running Jenkins
pipeline. It clones the repository and analyses the checkout (configuration
files, README, file tree, technology stack). It asks a language model for a
`Jenkinsfile`, a pipeline job configuration and a plugin manifest. Then it
commits and pushes the Jenkinsfile, creates the Jenkins job and installs the
plugins through the Jenkins CLI.

This project models the deterministic core that sits between those external
calls:

- `jenkins_cli.dfy` (module `JenkinsCli`) covers the Jenkins CLI helper:
  - the `java -jar jenkins-cli.jar` command line and the rule that reads its reply;
  - the `list-plugins` line parser and the installed-plugin table;
  - the first-match keyword categorisation of plugins;
  - the assembly of the Jenkins context.
- `generator.dfy` (module `Generator`) covers:
  - the line-by-line decoder that splits the model's structured reply into the three files;
  - the bounded text that tells the model which plugins are already installed.
- `automation.dfy` (module `Automation`) covers the three deployment phases:
  - the plugin-manifest scanner and the install tally;
  - the git branch choice and the add/commit/push sequence that stops at the first failure;
  - job creation with its one fallback;
  - the phase sequencing of `start_automation_flow`.
- `analyzer.dfy` (module `Analyzer`) covers:
  - the clone URL rewrite and the clone fallback;
  - reading the key configuration files;
  - the ordered technology rule table;
  - the README description and default branch;
  - the walk that counts files, extensions and directories;
  - the summary text.
- `text.dfy`, `seqs.dfy`, `dicts.dfy`, `wrappers.dfy` and `process.dfy` are support modules:
  - Python string operations (`strip`, `split`, `join`, `lower`, `title`, `in`);
  - sequence lemmas;
  - insertion-ordered dictionaries as sequences of pairs;
  - `Option`/`Result`;
  - the shape of a subprocess result (`Outcome`) and of a file read (`FileState`).

Every process run, file read, CLI reply and prompt answer is a parameter of
the operation that uses it. Code that changes state step by step is a
`method` whose loop invariants tie it to a specification function. The
properties the code promises are lemmas about those functions.

Where the documented behaviour and the code differ, the model follows the code:

- A failed or declined git phase ends `start_automation_flow` at once. The job
  and plugin phases do not run (src/automation.py:35-37).
- A time-out on the first `create-job` run returns false and does not try the
  minimal job (src/automation.py:405-407).
- In the technology rules, the *last* matching rule sets the primary
  language, not the first one (src/analyzer.py:437-513).
- The README used is the first one that can be read, not merely the first
  one that exists: a README whose read raises is passed over
  (src/analyzer.py:286-304).
- With no plugins detected, the default category table has seven keys and
  no `pipeline` key (src/jenkins_cli.py:140-148).

## Model

| member | source | states |
|---|---|---|
| JenkinsCli.CliArgv | src/jenkins_cli.py:57-66 | the command line is `java -jar <jar> -s <url>`, then `-auth user:token` exactly when both a username and a token are set, then the command itself, unchanged |
| JenkinsCli.RunCliCommand | src/jenkins_cli.py:51-83 | nothing is launched when the jar is missing; a reply comes back exactly when the jar exists and the process exits with 0; the reply is the stripped standard output |
| JenkinsCli.GetJenkinsVersion | src/jenkins_cli.py:85-103 | each entry is present exactly when its CLI reply is non-empty, and then holds that reply; the dictionary is empty exactly when both replies are empty |
| JenkinsCli.ParsePluginLine | src/jenkins_cli.py:114-124 | a parsed name is a single whitespace-free word and a parsed version holds no parenthesis |
| JenkinsCli.BetweenParens | src/jenkins_cli.py:123 | the text between the first '(' and the next ')' of `(version)` is the version |
| JenkinsCli.ParsePluginLineRoundTrip | src/jenkins_cli.py:114-124 | a listing line `name (version)` reads back as exactly that name and version |
| JenkinsCli.GetInstalledPlugins | src/jenkins_cli.py:105-130 | the loop builds the table of the parsed lines assigned in order, and builds nothing for an empty or missing reply |
| JenkinsCli.InstalledPluginsLastWins | src/jenkins_cli.py:109-124 | each name appears once in the table, with the version from the last listing line that named it |
| JenkinsCli.CategoryOf | src/jenkins_cli.py:181-200 | the category is the first one, in table order, with a keyword in the lower-cased name; no earlier category has one; `None` (`other`) means that none has one |
| JenkinsCli.FindCategory | src/jenkins_cli.py:196-200 | the inner scan stops at the category `CategoryOf` names, and runs to the end exactly when there is none |
| JenkinsCli.CategorizePlugins | src/jenkins_cli.py:167-205 | the loop builds the categorised dictionary `Categories` of the plugin names, in the table's iteration order |
| JenkinsCli.FixedListsSnoc | src/jenkins_cli.py:192-200 | filing one more plugin appends it to the list of its own category and changes no other list |
| JenkinsCli.BucketMembership | src/jenkins_cli.py:192-203 | a plugin is in the list of category c exactly when it is one of the plugins and its category is c |
| JenkinsCli.BucketAppend | src/jenkins_cli.py:192-198 | filing keeps the input order within each category |
| JenkinsCli.CategoriesKeys | src/jenkins_cli.py:169-203 | the eight fixed keys always come first, in table order; the `other` key follows exactly when some plugin matched no keyword |
| JenkinsCli.CategoriesPlacement | src/jenkins_cli.py:192-203 | every plugin is in exactly one list: the one of its category |
| JenkinsCli.SshCredentialsIsDeployment | src/jenkins_cli.py:181-200 | `ssh-credentials` contains the security keyword `credentials`, but it is filed under `deployment` because `ssh` comes first |
| JenkinsCli.NoSshKeyword | src/jenkins_cli.py:182-185 | no scm, build, test or notification keyword occurs in `ssh-credentials` |
| JenkinsCli.GetJenkinsContext | src/jenkins_cli.py:132-165 | Jenkins counts as accessible exactly when some version information came back; the plugin table is that of the `list-plugins` reply; with no plugins the categories stay the seven-key default, otherwise they are the categorised dictionary |
| JenkinsCli.DefaultCategoriesLackPipeline | src/jenkins_cli.py:140-148 | the default category table has no `pipeline` key |
| JenkinsCli.CategoriesHavePipeline | src/jenkins_cli.py:169-178 | the categorised dictionary always has a `pipeline` key |
| Generator.ClassifyCases | src/generator.py:216-234 | a line is tested, trimmed, against the four markers in the decoder's order; any other line is text |
| Generator.MarkerTextRecognised | src/generator.py:216-229 | each marker text is recognised as its own marker |
| Generator.MarkerPadded | src/generator.py:216-229 | a marker line is recognised even with leading or trailing whitespace |
| Generator.MarkerRoundTrip | src/generator.py:216-229 | the line of a marker classifies as that marker |
| Generator.FlushSane | src/generator.py:220-238 | storing the open section keeps every key a section name and every value trimmed |
| Generator.ParseStructuredResponse | src/generator.py:206-239 | the loop over the reply's lines computes `Decode`, the decoder that `RunMarker`, `RunTextAt` and the lemmas below characterise |
| Generator.RunMarker | src/generator.py:216-228 | a section marker opens its section with no lines; the job-config and plugins markers first store the open section; the Jenkinsfile marker does not |
| Generator.RunTextAt | src/generator.py:233-234 | a text line is collected when a section is open, and dropped otherwise |
| Generator.RunSane | src/generator.py:209-238 | decoding from sane files gives sane files: keys among the three names, values trimmed |
| Generator.DecodeSane | src/generator.py:216-238 | every key of a decoded reply is `Jenkinsfile`, `pipeline_job_config.xml` or `required_plugins.xml`, and every value has no outer whitespace |
| Generator.RunTexts | src/generator.py:233-234 | text lines go to the open section, in order |
| Generator.RunPreamble | src/generator.py:233-234 | text lines before the first marker are ignored |
| Generator.PreambleIgnored | src/generator.py:233-234 | a reply whose first lines carry no marker decodes as if those lines were absent |
| Generator.RunUpToEnd | src/generator.py:229-232 | two token sequences that agree up to the first end marker decode alike |
| Generator.IgnoresAfterEnd | src/generator.py:229-232 | nothing after the first `=== END ===` line affects the result |
| Generator.OpenSeq | src/generator.py:216-234 | a section marker followed by text lines leaves that section open with exactly those lines |
| Generator.CloseSeq | src/generator.py:229-232 | the end marker stores the open section and stops the scan |
| Generator.DecodeExpected | src/generator.py:215-232 | for the three markers in order followed by `=== END ===`, each section with lines maps to its lines joined by newlines and trimmed; a section with no lines gets no entry |
| Generator.DecodeExpectedText | src/generator.py:213-232 | the same, stated on the reply text split at newlines |
| Generator.TruncatedSection | src/generator.py:216-238 | from any decoder state, a reply that ends with a section marker and its lines, without the end marker, stores that section (its lines joined and trimmed) exactly when it has lines and its file name is still free after the marker; otherwise the files are those the marker left |
| Generator.DecodeTruncated | src/generator.py:236-238 | example: a reply that is only a Jenkinsfile section, cut off before its end marker, still stores that section |
| Generator.TruncatedKeepsStored | src/generator.py:237-238 | example: in a cut-off reply that repeats the job-config section, the first copy stays and the second is ignored |
| Generator.RepeatedSectionOverwrites | src/generator.py:219-226 | a repeated job-config section replaces the earlier entry |
| Generator.JenkinsfileMarkerDropsSection | src/generator.py:216-218 | as written, a job-config section sent before the Jenkinsfile is lost |
| Generator.RunBlocks | src/generator.py:216-232 | in the corrected decoder, every section is stored in turn when the next marker or the end marker arrives |
| Generator.IntendedDecodeBlocks | src/generator.py:216-232 | in the corrected decoder, a reply made of sections in any order decodes to the sections stored one after the other |
| Generator.StoreAllDistinct | src/generator.py:216-232 | when each section occurs once, a section's file holds its own lines whatever the order of the sections |
| Generator.StoreAllKeeps | src/generator.py:220-231 | sections for other keys leave an entry unchanged |
| Generator.Items | src/generator.py:191-193 | there is one `name(version)` item per plugin |
| Generator.ItemsAt | src/generator.py:191-193 | item k names plugin k, with its version from the installed table or `unknown` |
| Generator.ItemList | src/generator.py:190-193 | the loop builds the items of the listed plugins, in order, with the version looked up in the installed table and defaulting to `unknown` |
| Generator.CategoriesText | src/generator.py:187-196 | the loop over the categories builds one line per non-empty category, in order |
| Generator.CreateJenkinsContextInfo | src/generator.py:171-204 | the text is the fixed two-line notice when Jenkins is not accessible; otherwise it is the header, the category lines and the footer; the installed table has distinct names, as a Python dictionary does, so its size is the plugin count |
| Generator.ContextInfoStart | src/generator.py:177-178 | an accessible context's text starts with the `Jenkins Context:` header |
| Generator.ContextInfoEnd | src/generator.py:198-202 | an accessible context's text ends by naming the Jenkins version to stay compatible with, or `LTS` when the version is unknown |
| Generator.EmptyCategoriesSkipped | src/generator.py:187-188 | categories with no plugins add nothing to the text |
| Generator.CategoryLineBound | src/generator.py:188-196 | a non-empty category's line starts with its title-cased name and the `name(version)` items of its first min(count, 10) plugins, one item each; it ends with ` ... and N more`, N = count - 10, when there are more than ten, and ends with the last item's `)` exactly when there are at most ten |
| Generator.CategoryLineNamesTen | src/generator.py:191-196 | only the first ten plugins of a category are named: two categories of the same size that agree on their first ten plugins give the same line |
| Automation.MatchAt | src/automation.py:504 | a match spans at least one character, and its group is non-empty and holds no '<' |
| Automation.FindAll | src/automation.py:504-505 | every group found is non-empty and holds no '<' |
| Automation.MatchElement | src/automation.py:504 | a `<plugin ...>text</plugin>` element, attributes and all, is one match whose group is its text |
| Automation.ScanElements | src/automation.py:504-507 | a run of elements scans to their texts, one match per element, in document order |
| Automation.ParseEntryText | src/automation.py:509-513 | `name@version` splits at its first '@' back into the name and the version |
| Automation.ParsePluginsXml | src/automation.py:492-519 | the loop builds one entry per match, in order; an unreadable or missing file gives no entry |
| Automation.ManifestRoundTrip | src/automation.py:492-519 | a manifest in the documented form parses back to exactly the plugins it was written from, with duplicates kept |
| Automation.ParseBareEntry | src/automation.py:512-513 | an entry with no '@' is the plugin of that name at version `latest` |
| Automation.BareManifestRoundTrip | src/automation.py:492-519 | a manifest of bare `<plugin>name</plugin>` elements parses back to those names, each at version `latest`, in order, with duplicates kept |
| Automation.InstallCommands | src/automation.py:529-536 | one `install-plugin` command per plugin, in order: the bare name for `latest`, else `name:version` |
| Automation.PluginSpecSplits | src/automation.py:530-532 | the install argument splits at its first ':' back into the name and the version, and has no ':' for `latest` |
| Automation.SuccessesCount | src/automation.py:538-558 | the success count is positive exactly when some install call returned something, and equals the number of plugins exactly when all did |
| Automation.InstallJenkinsPlugins | src/automation.py:521-562 | the result is true exactly when the list is empty or some install succeeded; `safe-restart` is sent only when every install succeeded and the operator agreed |
| Automation.PluginInstallationPhase | src/automation.py:136-165 | false when the manifest is missing; true without prompting when it lists nothing; otherwise the operator's consent and the install result decide; the commands sent are exactly `PluginCommands`: nothing without a non-empty manifest and consent, otherwise one `install-plugin` per listed plugin in order, followed by `safe-restart` only when every install succeeded and the restart was confirmed |
| Automation.GetGitStatus | src/automation.py:167-223 | the checkout counts as a repository exactly when `rev-parse` exits with 0; the other facts are recorded only for a repository; a zero-exit `git branch` records its trimmed output, or `main` when that is blank, and a failing one records none; once `git branch` has completed, the Jenkinsfile flag is whether the file exists, and a zero-exit porcelain sets the changes flag exactly when its output is non-blank; a time-out of `git branch` leaves both flags false |
| Automation.AttemptedShape | src/automation.py:225-331 | the git steps that run are a prefix of the plan; all but the last of them passed; they are the whole plan exactly when every step passes; otherwise the last one to run failed |
| Automation.AddCommitPush | src/automation.py:256-324 | add, commit and push run in order and stop at the first failure; a commit that reports `nothing to commit` passes |
| Automation.CommitRun | src/automation.py:256-324 | closed form: which of add, commit and push run, and that the sequence succeeds exactly when add exits with 0, the commit passes and the push exits with 0 |
| Automation.ExecuteGitOperations | src/automation.py:225-331 | nothing runs when the copy fails; otherwise the planned steps run up to the first failure, and the result is whether every step passed |
| Automation.GitAutomationPhase | src/automation.py:51-89 | the phase succeeds exactly when a Jenkinsfile was generated, the checkout is a repository, the operator agrees, the copy works and every git step passes |
| Automation.BranchSelection | src/automation.py:81-86 | with a Jenkinsfile in the checkout the current branch gets a plain `git push`; otherwise the feature branch is created with `checkout -b` and pushed with `--set-upstream origin`, unless it is already the current branch |
| Automation.KeptLines | src/automation.py:341 | every job name kept is non-empty and trimmed |
| Automation.ExistingJobsRoundTrip | src/automation.py:333-349 | a `list-jobs` reply with one job per line gives back exactly those jobs |
| Automation.ChooseJobName | src/automation.py:116-120 | the job name is the trimmed answer, or `<repo>-pipeline` when the answer is blank, so it is never empty |
| Automation.CreateJenkinsJob | src/automation.py:351-411 | an unreadable configuration sends nothing; a non-zero exit of the first `create-job` triggers exactly one attempt with the minimal job, whose result is returned; a time-out gets no second attempt; the runs are exactly `CreateAttempts` |
| Automation.JobCreationPhase | src/automation.py:91-134 | the phase succeeds exactly when the configuration exists, the job is new or overwriting is confirmed, and the job is created; nothing is sent when the configuration is missing or overwriting is declined; otherwise the `create-job` runs are exactly those of `CreateJenkinsJob` under the chosen name: the configuration first (when it reads), then the minimal job after a non-zero exit |
| Automation.StartAutomationFlow | src/automation.py:23-49 | when the git phase fails, no other phase runs and the result is false; otherwise all three phases run and the result is whether all three succeeded |
| Analyzer.DetermineCloneUrl | src/analyzer.py:86-110 | the URL is kept as `original` unless it is a GitHub HTTPS URL whose path holds a '/'; such a URL becomes `git@github.com:<path>.git` when SSH works, and is kept as `https` otherwise |
| Analyzer.CloneRepository | src/analyzer.py:112-146 | the path must split into exactly two parts, the owner and the repository; the checkout is `<owner>_<repo>`; an HTTPS retry happens only after a failed SSH clone; the clone fails only when every attempt failed |
| Analyzer.GithubCheckout | src/analyzer.py:92-122 | `https://github.com/<owner>/<repo>`, with or without a trailing slash, is cloned as `git@github.com:<owner>/<repo>.git` when SSH works, over the same URL otherwise, and is checked out as `<owner>_<repo>` |
| Analyzer.KeyFilePresent | src/analyzer.py:347-357 | a configuration file is recorded exactly when one of its reads succeeded |
| Analyzer.KeyFileValue | src/analyzer.py:347-353 | a recorded file maps to its first 3000 characters |
| Analyzer.ReadKeyFiles | src/analyzer.py:324-359 | the loop over the configuration file names builds `KeyFilesOf`, the dictionary characterised by the two lemmas above |
| Analyzer.PackageJsonRule | src/analyzer.py:434-456 | the `package.json` block adds Node.js and npm, then the frameworks and test tools the file names; TypeScript overrides JavaScript as the language |
| Analyzer.PomXmlRule | src/analyzer.py:461-470 | the `pom.xml` block adds Java and Maven, then Spring Boot and JUnit when named, and sets Java |
| Analyzer.GradleRule | src/analyzer.py:472-476 | the `build.gradle` block adds Java (and sets it) only when the stack lacks it, and always adds Gradle |
| Analyzer.PythonRule | src/analyzer.py:483-498 | any of the three Python files adds Python and pip; the web frameworks and pytest come from `pyproject.toml` only |
| Analyzer.PlainRule | src/analyzer.py:478-517 | a rule of the one-technology shape adds its technology and its tool, and sets its language if it has one |
| Analyzer.ExtensionRules | src/analyzer.py:523-544 | the extension rules give the fallback stack, and the last one that fires sets the language |
| Analyzer.EarlyRules | src/analyzer.py:434-476 | the blocks up to `build.gradle`, run in order, give the stack, tools, tests and language the table defines |
| Analyzer.LateRules | src/analyzer.py:478-517 | the blocks from `Cargo.toml` on append to the earlier results, and the last block that fires sets the language |
| Analyzer.AnalyzeTechStack | src/analyzer.py:424-551 | the extension rules replace the stack and the language only when no configuration rule added to the stack and some file was counted; they never change the build tools or the test frameworks |
| Analyzer.ConfigStackEmpty | src/analyzer.py:520 | the configuration rules leave the stack empty exactly when none of the rules that add to it fires |
| Analyzer.JavaBeforeGradle | src/analyzer.py:461-474 | after the `pom.xml` rule, Java is in the stack exactly when `pom.xml` was read |
| Analyzer.GoModOnly | src/analyzer.py:500-503 | with only `go.mod`: the language is Go, the stack is `[Go]`, the tools are `[Go modules]`, there are no test frameworks, and the fallback does not run |
| Analyzer.PomOverridesPackage | src/analyzer.py:434-464 | `package.json` next to `pom.xml` gives Java as the language, with Node.js and Java both in the stack |
| Analyzer.ToolOnlyFilesKeepLanguage | src/analyzer.py:458-517 | `yarn.lock` and the Docker files never change the language |
| Analyzer.FirstReadmeAt | src/analyzer.py:283-304 | the README used is the first in list order that reads |
| Analyzer.FirstReadmeNone | src/analyzer.py:283-304 | no README is used exactly when none reads |
| Analyzer.DescriptionOf | src/analyzer.py:293-301 | a description never starts with '#' |
| Analyzer.ReadmeDescriptionAt | src/analyzer.py:283-302 | the description comes from the first README that reads, even when that one gives none |
| Analyzer.ReadmeDescriptionNone | src/analyzer.py:283-302 | with no README that reads, there is no description |
| Analyzer.NonBlankLine | src/analyzer.py:291-292 | every line kept is a trimmed, non-blank line of the README's text |
| Analyzer.DescriptionIsFirstText | src/analyzer.py:295-298 | the description is the first line that does not start with '#', whatever headings come before it |
| Analyzer.DescriptionOfHeadings | src/analyzer.py:299-301 | a README of headings only is described by its first heading, with every '#' removed and then trimmed |
| Analyzer.DescriptionSingleLine | src/analyzer.py:291-301 | a description is a single line |
| Analyzer.TitleThenText | src/analyzer.py:288-298 | a `# Title` line followed by a line of text is described by that text |
| Analyzer.DefaultBranch | src/analyzer.py:306-320 | the default branch is the trimmed output of git when git exits with 0 and prints something, and `main` otherwise: after a failure, a time-out, an exception or a blank output |
| Analyzer.ScanReadmes | src/analyzer.py:283-304 | the loop stops at the first README that reads and gives its description |
| Analyzer.GetRepoMetadata | src/analyzer.py:278-322 | the metadata holds the README description and the default branch |
| Analyzer.LastIndex | src/analyzer.py:404 | the last position of the character, or -1 when it is absent |
| Analyzer.Suffix | src/analyzer.py:404 | a suffix is empty, or a final dot-led part of the name of at least two characters with no other dot |
| Analyzer.SuffixOfName | src/analyzer.py:404 | a name made of a non-empty stem, a dot and a non-empty, dot-free extension has that dot and extension as its suffix: `main.py` has `.py` |
| Analyzer.VisitEntry | src/analyzer.py:392-417 | one path: skipped when hidden or ignored; counted with its lower-cased suffix when a file; listed when a directory at most two levels down |
| Analyzer.AnalyzeProjectStructure | src/analyzer.py:361-422 | the loop over the walked paths computes `StructureOf` of them |
| Analyzer.StructureReference | src/analyzer.py:400-417 | the counters read off the walk: the extension counts are the multiset of the counted files' extensions; the total is their number; the source count is how many of them have a source extension; the directories are those listed, in walk order |
| Analyzer.StructureCounts | src/analyzer.py:400-411 | there are no more source files than files, and the per-extension counts add up to the number of files |
| Analyzer.DirectoriesShallow | src/analyzer.py:413-417 | every directory recorded is one the walk met, at most two levels down, and not skipped |
| Analyzer.CheckoutNameHidesFiles | src/analyzer.py:393-398 | as written, the skip tests also read the checkout's own path: `repos/acme_build-tools` contains `build`, so its top-level `main.py` is not counted |
| Analyzer.IntendedCountsVisibleFiles | src/analyzer.py:393-401 | with the skip tests read below the checkout, the file total is the number of visible files, whatever the checkout is called |
| Analyzer.Shown | src/analyzer.py:565 | the directories shown are the first ten of those found, or all of them when there are at most ten |
| Analyzer.SummaryLines | src/analyzer.py:557-568 | the summary has twelve lines: the title and eleven labelled fields |
| Analyzer.SummaryStartsWithTitle | src/analyzer.py:557 | the summary starts with its title line |
| Analyzer.SummaryHasLine | src/analyzer.py:557-568 | every field between the title and the SSH status stands on a line of its own, between two newlines |

## Left out

- External effects are parameters, and their mechanics are not modelled:
  - subprocess runs are an `Outcome`;
  - file reads are a `FileState`;
  - CLI replies are an optional string;
  - prompt answers are strings.
  - Not modelled as a result: the time-out values, `shutil` copies and deletions, directory creation, and all printing.
- The SSH probe (src/analyzer.py:20-84) is not modelled; its result is the `sshAvailable` input.
- `_clone_repository` and `_verify_remote_url` (src/analyzer.py:148-229) are not modelled; only the exit status of `git clone` is used.
- `_analyze_local_repository` (src/analyzer.py:231-276) is not modelled. It only wires the analyses together into a dictionary; each analysis it calls is modelled.
- The CLI jar download and the environment defaults of the helper's constructor (src/jenkins_cli.py:20-49) are not modelled: a `CliConfig` holds the resulting settings.
- `create_jenkins_context_file` (src/jenkins_cli.py:208-242) is not modelled: it writes JSON and prints.
- The generator's constructor, `_load_jenkins_context`, `generate_all_files` and `modify_files` (src/generator.py:16-169) are not modelled. They build prompts around the language-model call; the language model's reply is the decoder's input.
- `_restart_jenkins` (src/automation.py:564-581) is modelled only as the `safe-restart` command being sent, because its result never reaches the caller.
- Automation.CreateJenkinsJob: the description of the minimal job uses the repository name. The source's fallback to the job name when the analysis lacks `repo_name` is not modelled, because the analysis always sets it.
- Analyzer.AnalyzeProjectStructure:
  - the walk's paths and their order are an input;
  - an exception that ends the walk early (src/analyzer.py:419-420) is not modelled;
  - the extension dictionary is a multiset, so the order in which its keys were inserted is not kept.
- Python's `re` is not modelled in general. Only the one scan `<plugin[^>]*>([^<]+)</plugin>` is written out, in `Automation.FindAll`.
- Case is modelled for ASCII only: `Text.Lower` and `Text.Title` change ASCII letters only, whereas Python's change all Unicode letters.
- Generator.Classify only promises that a text token keeps its line. The marker tests on the trimmed line are stated by `Generator.ClassifyCases`.
- JenkinsCli.ParsePluginLine states only the shape of what it returns. What it returns for a well-formed line is stated by `JenkinsCli.ParsePluginLineRoundTrip`; other lines are covered only by the definition.
- Analyzer.SummaryHasLine is not proved to put each field on a single physical line. A value with a newline in it (a configuration file name cannot have one, but a branch name from git is not checked) would split its line.
- Analyzer.SummaryLines states only the number of lines. The content of each line is its definition.

## Findings

| source | as written | input that shows it | evidently intended | confidence | as-written member | corrected member |
|---|---|---|---|---|---|---|
| src/generator.py:216-218 | The `=== JENKINSFILE ===` marker starts a new section without storing the one that is open. The other two markers store it first. | A reply with `=== PIPELINE_JOB_CONFIG ===`, a line `<job/>`, `=== JENKINSFILE ===`, a line `pipeline {}` and `=== END ===` decodes to the Jenkinsfile alone. The job configuration is lost. | Every section marker stores the open section, so the sections can come in any order. | high, not executed | Generator.JenkinsfileMarkerDropsSection | Generator.IntendedDecodeBlocks |
| src/analyzer.py:393-398 | The hidden-part and ignored-name tests read the whole path of each item, including the repositories directory and the checkout's own name. | The repository `acme/build-tools` is checked out as `repos/acme_build-tools` and holds `main.py`. Every path contains `build`, so the total is 0 files. | The tests read the path below the checkout only, so that the total is the number of visible files. | high, not executed | Analyzer.CheckoutNameHidesFiles | Analyzer.IntendedCountsVisibleFiles |
