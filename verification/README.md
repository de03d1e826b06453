# fluvio-helm in Dafny

A model of fluvio-helm, a Rust crate that drives the `helm` command-line
tool. Callers fill in request records (`InstallArg`, `UninstallArg`,
`RepoAddArg`, `GetInstalledArg`, `RegistryLoginArg`, `ChartExportArg`,
`ExportArg`, `ChartPullArg`, `PullArg`). Each record renders to an argument
vector for `helm`. `HelmClient` runs those commands and interprets what comes
back: whether the run succeeded, whether stderr reports an unreachable
Kubernetes cluster, and the JSON records on stdout.

Layout:

- `wrappers.dfy` holds `Option` and `Result`. `types.dfy` holds `HelmError`, `Chart` and `InstalledChart`.
- `text.dfy` covers the string operations the crate uses: substring search, Unicode whitespace trimming, and decimal rendering of numbers.
- `commands.dfy` has the `Command` class, which appends arguments in place as `std::process::Command` does. It also has the argument shapes the builders share:
  - a switch rendered only when set;
  - a flag followed by its value;
  - one pair per list element;
  - the `chart:version` token.
- One file per request record: a datatype for the record and functions for its setters. A specification function gives the rendered vector: `Argv` for most records, and `InstallArgv`, `UpgradeArgv` and `IntoArgv` for `InstallArgs`. The client's lookup vector for `get_installed_chart_by_name` is `Client.ByNameArgv`. Each builder method (`IntoCommand`, and `InstallCommand`/`UpgradeCommand` for `InstallArgs`) builds a fresh `Command` and is proved to produce exactly that vector. Lemmas state the layout properties.
- `process.dfy`: helm itself is outside the model. A `Runner` object answers each invocation through two fixed functions supplied by the caller:
  - `checked` is the `result()` view, where a failed run is already an error;
  - `captured` is the `output()` view, where only a failure to start is an error.

  The Runner also records every invocation in `log`, so contracts can say which commands ran, in what order, and how many. UTF-8 and JSON decoding are likewise functions supplied in `Decoders`.
- `helm_client.dfy` has the pure interpretation steps (`CheckHelmStderr`, `Interpret`, `VersionProbe`, `HelmVersion`, `CountMatches`) and the `HelmClient` class. Each `HelmClient` method states the exact invocation it logs and the result it returns.

Three behaviours of the code may differ from what a reader of the method names would expect; the model follows the code:

- `get_helm_version` drops the first character of helm's answer, whatever that character is. It is not only an optional leading `v`: `3.2.1` becomes `.2.1` (`Client.VersionTextDropsDigit`).
- `list_installed` renders nine boolean switches, which is fewer than `helm list` accepts.
- The `--set` value is quoted (`key="val"`) only by `install()` and `upgrade()`. The `Into<Command>` conversion of `InstallArg` renders `key=val` and adds `--output json` (`InstallArgs.IntoDiffersFromInstall`).

## Model

| member | source | states |
|---|---|---|
| Text.ContainsOccurs | src/helm_client.rs:214 | the substring scan is true exactly when the pattern occurs at some position |
| Text.Trim | src/helm_client.rs:204 | the result is the input with a blank prefix and a blank suffix removed, and it neither starts nor ends with whitespace |
| Text.DecimalString | src/get_installed_arg.rs:101-107 | a number renders as a non-empty run of digits with no leading zero |
| Text.DecimalRoundTrip | src/get_installed_arg.rs:101-107 | reading the decimal text back gives the number |
| Commands.Command.constructor | src/install_arg.rs:75 | a new command holds the program and no arguments yet |
| Commands.Command.Arg | src/install_arg.rs:95 | appends exactly one argument at the end |
| Commands.Command.Args | src/install_arg.rs:91 | appends the given arguments in order at the end |
| Commands.Command.SwitchIfTrue | src/repo_add_optionals.rs:77-81 | appends the flag only for `Some(true)` |
| Commands.Command.PairIfSome | src/repo_add_optionals.rs:95-97 | appends flag and value only when a value is present |
| Commands.OptionItems | src/uninstall_arg.rs:62 | iterating an `Option` yields exactly its value when it is `Some`, and nothing when it is `None` |
| Commands.Pairs | src/install_arg.rs:102-110 | twice as many tokens as elements |
| Commands.PairsAt | src/install_arg.rs:102-110 | pair `i` is the flag followed by element `i`, in element order |
| Commands.ChartRef | src/chart_pull_arg.rs:12 | the token is the chart, a colon and the version |
| Commands.SplitChartRef | src/chart_export_arg.rs:15 | for a chart name without a colon, the token splits back into chart and version |
| Process.Runner.Result | src/helm_client.rs:44 | a run's result is the `checked` answer for this program and arguments, and the invocation is logged |
| Process.Runner.Output | src/helm_client.rs:197-202 | a run's output is the `captured` answer, and the invocation is logged |
| RegistryLoginArgs.IntoCommand | src/registry_login_arg.rs:11-24 | the built command is helm with exactly `Argv` |
| RegistryLoginArgs.Layout | src/registry_login_arg.rs:13-20 | seven tokens: `registry login`, the host, then each credential flag followed by its value |
| ChartExportArgs.IntoCommand | src/chart_export_arg.rs:11-20 | the built command is helm with exactly `Argv` |
| ChartExportArgs.Layout | src/chart_export_arg.rs:13-16 | five tokens: `chart export`, the `chart:version` token, and the destination pair |
| ChartExportArgs.RefDeterminesChart | src/chart_export_arg.rs:15 | the reference token gives back chart and version when the chart has no colon |
| ExportArgs.IntoCommand | src/export_arg.rs:11-23 | the built command is helm with exactly `Argv` |
| ExportArgs.Layout | src/export_arg.rs:13-19 | five tokens: `chart export`, `chart:version`, and the destination pair |
| ExportArgs.SameAsChartExport | src/export_arg.rs:11-23 | an `ExportArg` renders exactly like the `ChartExportArg` with the same fields |
| ChartPullArgs.IntoCommand | src/chart_pull_arg.rs:10-21 | the built command is helm with exactly `Argv` |
| ChartPullArgs.Layout | src/chart_pull_arg.rs:12-17 | three tokens: `chart pull` and the `chart:version` token |
| PullArgs.IntoCommand | src/pull_arg.rs:10-20 | the built command is helm with exactly `Argv` |
| PullArgs.Layout | src/pull_arg.rs:12-16 | three tokens: `chart pull` and `chart:version` |
| PullArgs.SameAsChartPull | src/pull_arg.rs:10-20 | a `PullArg` renders exactly like the `ChartPullArg` with the same fields |
| UninstallArgs.New | src/uninstall_arg.rs:14-22 | every option is off, and the rendering is `uninstall release` alone |
| UninstallArgs.WithNamespace | src/uninstall_arg.rs:25-28 | sets the namespace and changes nothing else |
| UninstallArgs.WithIgnoreNotFound | src/uninstall_arg.rs:31-34 | sets ignore-not-found and changes nothing else |
| UninstallArgs.WithDryRun | src/uninstall_arg.rs:37-40 | sets dry-run and changes nothing else |
| UninstallArgs.WithTimeout | src/uninstall_arg.rs:43-46 | sets the timeout and changes nothing else |
| UninstallArgs.IntoCommand | src/uninstall_arg.rs:49-68 | the built command is helm with exactly `Argv` |
| UninstallArgs.Layout | src/uninstall_arg.rs:50-66 | `uninstall release`, then the namespace pair, then `--dry-run`, then the timeout pair last; each appears only when set |
| UninstallArgs.IgnoreNotFoundNotRendered | src/uninstall_arg.rs:49-68 | ignore-not-found never reaches helm's arguments |
| RepoAddArgs.New | src/repo_add_optionals.rs:20-26 | every option is unset, and the rendering is the fixed prefix alone |
| RepoAddArgs.SetForceUpdate | src/repo_add_optionals.rs:28-31 | sets that option and changes nothing else |
| RepoAddArgs.SetInsecureSkipTlsVerify | src/repo_add_optionals.rs:33-36 | sets that option and changes nothing else |
| RepoAddArgs.SetNoUpdate | src/repo_add_optionals.rs:38-41 | sets that option and changes nothing else |
| RepoAddArgs.SetCaFile | src/repo_add_optionals.rs:43-46 | sets that option and changes nothing else |
| RepoAddArgs.SetCertFile | src/repo_add_optionals.rs:48-51 | sets that option and changes nothing else |
| RepoAddArgs.SetKeyFile | src/repo_add_optionals.rs:53-56 | sets that option and changes nothing else |
| RepoAddArgs.SetPassword | src/repo_add_optionals.rs:58-61 | sets that option and changes nothing else |
| RepoAddArgs.SetUsername | src/repo_add_optionals.rs:63-66 | sets that option and changes nothing else |
| RepoAddArgs.IntoCommand | src/repo_add_optionals.rs:69-115 | the built command is helm with exactly `Argv` |
| RepoAddArgs.Length | src/repo_add_optionals.rs:71-115 | six prefix tokens, plus one per switch that is `Some(true)`, plus two per string option that is present |
| RepoAddArgs.FalseIsUnset | src/repo_add_optionals.rs:77-93 | a switch set to false renders exactly as an unset one |
| RepoAddArgs.FullRendering | src/repo_add_optionals.rs:71-115 | with everything set, the three switches come first, then the five pairs, in declaration order |
| RepoAddArgs.LastSetWins | src/repo_add_optionals.rs:28-66 | setting an option twice keeps only the second value |
| GetInstalledArgs.Default | src/get_installed_arg.rs:4-23 | every option is unset, and the rendering is `list --output json` alone |
| GetInstalledArgs.AppendSwitches | src/get_installed_arg.rs:31-83 | appends exactly the switches that are `Some(true)`, in declaration order |
| GetInstalledArgs.AppendPairs | src/get_installed_arg.rs:85-107 | appends exactly the valued options that are present, numbers in decimal, in declaration order |
| GetInstalledArgs.IntoCommand | src/get_installed_arg.rs:25-110 | the built command is helm with exactly `Argv` |
| GetInstalledArgs.SwitchesLength | src/get_installed_arg.rs:31-83 | one token per switch that is `Some(true)` |
| GetInstalledArgs.ValuedOptionsLength | src/get_installed_arg.rs:85-107 | two tokens per valued option that is present |
| GetInstalledArgs.Layout | src/get_installed_arg.rs:26-107 | the three-token prefix, then the switch count, then twice the pair count |
| GetInstalledArgs.SwitchesBeforePairs | src/get_installed_arg.rs:31-99 | every switch comes before every pair, and only the nine known switches occur |
| GetInstalledArgs.NumbersLast | src/get_installed_arg.rs:101-107 | `--max` then `--offset` end the vector, each followed by its decimal text |
| GetInstalledArgs.NumberReadsBack | src/get_installed_arg.rs:101-103 | the `--max` value is all digits and reads back as the requested number |
| GetInstalledArgs.FullRendering | src/get_installed_arg.rs:25-110 | with everything set, all nine switches come first, then all six pairs, in declaration order |
| InstallArgs.New | src/install_arg.rs:17-27 | every option is off or empty, and `install()` renders `install name chart` alone |
| InstallArgs.WithVersion | src/install_arg.rs:30-33 | sets the version and changes nothing else |
| InstallArgs.WithNamespace | src/install_arg.rs:36-39 | sets the namespace and changes nothing else |
| InstallArgs.WithOpts | src/install_arg.rs:42-45 | replaces the override list and changes nothing else |
| InstallArgs.WithOpt | src/install_arg.rs:48-51 | appends one override after the existing ones and changes nothing else |
| InstallArgs.WithDevelop | src/install_arg.rs:54-57 | sets develop and changes nothing else |
| InstallArgs.WithValues | src/install_arg.rs:60-63 | replaces the value-file list and changes nothing else |
| InstallArgs.WithValue | src/install_arg.rs:66-72 | makes the list present and appends one path (an absent list counts as empty), changing nothing else |
| InstallArgs.ApplyArgs | src/install_arg.rs:89-111 | appends exactly the quoted flag rendering |
| InstallArgs.AppendFlags | src/install_arg.rs:89-111 | appends exactly the flag rendering in the chosen quoting |
| InstallArgs.AppendValueFiles | src/install_arg.rs:102-106 | appends one `--values` pair per path, in order |
| InstallArgs.AppendOverrides | src/install_arg.rs:108-110 | appends one `--set` pair per override, in order |
| InstallArgs.InstallCommand | src/install_arg.rs:74-79 | the built command is helm with exactly `install name chart` and the quoted flags |
| InstallArgs.UpgradeCommand | src/install_arg.rs:81-87 | the built command is helm with exactly `upgrade --install name chart --output json` and the quoted flags |
| InstallArgs.IntoCommand | src/install_arg.rs:114-143 | the built command is helm with exactly `install name chart --output json` and the unquoted flags |
| InstallArgs.LeadLayout | src/install_arg.rs:90-100 | the lead flags are the namespace pair, then `--devel`, then the version pair, each only when set |
| InstallArgs.FlagPieces | src/install_arg.rs:89-111 | the flags split into the lead flags, the value-file pairs and the override pairs, in that order, and nothing else |
| InstallArgs.LeadFlagsFirst | src/install_arg.rs:90-100 | the flags open with the namespace pair, then `--devel`, then the version pair; the total length adds up |
| InstallArgs.ValueFilesNext | src/install_arg.rs:102-106 | after the lead flags comes one `--values` pair per file, in list order |
| InstallArgs.OverridesLast | src/install_arg.rs:108-110 | the flags end with one `--set` pair per override, in insertion order |
| InstallArgs.DevelAndVersion | src/install_arg.rs:94-100 | with both set, `--devel` is directly followed by the version pair |
| InstallArgs.NoValuesNoTokens | src/install_arg.rs:102-106 | an absent value list renders like an empty one and adds no tokens |
| InstallArgs.UpgradeSharesFlags | src/install_arg.rs:74-87 | `upgrade()` has its own six-token head, and its flags equal `install()`'s |
| InstallArgs.QuotingOnlyDifference | src/install_arg.rs:108-140 | the quoted and unquoted renderings agree up to the overrides; each override is `key="val"` in one and `key=val` in the other |
| InstallArgs.SameFlagsBeforeOverrides | src/install_arg.rs:89-140 | both renderings have the same length and the same tokens before the first `--set` |
| InstallArgs.IntoDiffersFromInstall | src/install_arg.rs:114-143 | the conversion is two tokens longer than `install()`: `--output json` follows the chart, and the flags are the unquoted rendering, equal to `install()`'s up to the overrides |
| InstallArgs.WithOptAppendsSet | src/install_arg.rs:48-51 | `opt` adds exactly one `--set` pair at the very end of `install()`'s vector |
| InstallArgs.WithValueAppendsFile | src/install_arg.rs:66-72 | `value` inserts exactly one `--values` pair right after the existing files |
| Client.CheckHelmStderr | src/helm_client.rs:211-220 | empty stderr passes; non-UTF-8 is `Utf8Error`; otherwise the result is `FailedToConnect` exactly when the text contains the unreachable-cluster marker, and it passes exactly when the text does not |
| Client.Interpret | src/helm_client.rs:131-134 | success exactly when the run succeeded, stderr passed and stdout decoded, with the decoded records; run errors pass through; a failing stderr check returns its own error (`FailedToConnect` or `Utf8Error`) before stdout is looked at; decode failures become `Serde` |
| Client.ConnectFailureBeforeDecode | src/helm_client.rs:131-134 | the unreachable-cluster marker wins whatever stdout holds |
| Client.CountMatches | src/helm_client.rs:155-158 | the count never exceeds the number of records |
| Client.CountMatchesPositive | src/helm_client.rs:155-159 | the count is positive exactly when some record has both the name and the version |
| Client.VersionProbe | src/helm_client.rs:26-39 | passes exactly when the run succeeded and its UTF-8 output contains `version`; otherwise the run error, `Utf8Error` or `HelmVersionNotFound` with the text |
| Client.VersionText | src/helm_client.rs:204 | the text without its first character and without surrounding whitespace |
| Client.VersionTextDropsV | src/helm_client.rs:204 | `v3.2.1` with a newline gives `3.2.1` |
| Client.VersionTextDropsDigit | src/helm_client.rs:204 | `3.2.1` gives `.2.1`: the first character is dropped even when it is not `v` |
| Client.HelmVersion | src/helm_client.rs:196-205 | a start failure is `HelmNotInstalled`; non-UTF-8 is `Utf8Error`; the slice panics exactly when the text is empty or starts with a multi-byte character; otherwise the trimmed rest |
| Client.ByNameLayout | src/helm_client.rs:169-178 | the filter is the name anchored by `^` and `$`; the namespace pair comes last and only when given |
| Client.Unit | src/helm_client.rs:44-45 | success exactly when the run succeeded; otherwise its error |
| Client.HelmClient.constructor | src/helm_client.rs:39 | a client holds the runner and decoders, and can only be created when the version probe passes |
| Client.HelmClient.New | src/helm_client.rs:25-40 | runs `helm version` once; a client exists exactly when the probe passes, otherwise the probe's error |
| Client.HelmClient.Registry | src/helm_client.rs:42-46 | runs the rendered login once; the result is that run's success or error |
| Client.HelmClient.ChartPull | src/helm_client.rs:50-54 | runs the rendered pull once; the result is that run's success or error |
| Client.HelmClient.Export | src/helm_client.rs:58-62 | runs the rendered export once; the result is that run's success or error |
| Client.HelmClient.Install | src/helm_client.rs:67-71 | runs `install()`'s vector once; the result is that run's success or error |
| Client.HelmClient.Upgrade | src/helm_client.rs:75-79 | runs `upgrade()`'s vector once; the result is that run's success or error |
| Client.HelmClient.Uninstall | src/helm_client.rs:82-94 | without ignore-not-found, only the uninstall runs; with it, the lookup runs first, a lookup error is returned, an empty lookup returns Ok without uninstalling, and otherwise the uninstall runs after it |
| Client.HelmClient.RepoAdd | src/helm_client.rs:98-104 | runs `repo add chart location --output json` once |
| Client.HelmClient.RepoAddWithOptionals | src/helm_client.rs:106-110 | runs the rendered repo-add vector once |
| Client.HelmClient.RepoUpdate | src/helm_client.rs:114-120 | runs `repo update --output json` once |
| Client.HelmClient.Read | src/helm_client.rs:180-182 | one run, whose answer is interpreted by `Interpret` |
| Client.HelmClient.SearchRepo | src/helm_client.rs:124-135 | runs `search repo chart --version v --output json` once and interprets it as charts |
| Client.HelmClient.Versions | src/helm_client.rs:139-149 | runs `search repo --versions chart --output json --devel` once and interprets it as charts |
| Client.HelmClient.ChartVersionExists | src/helm_client.rs:153-160 | a search error passes through; otherwise true exactly when some returned chart matches both name and version |
| Client.HelmClient.GetInstalledChartByName | src/helm_client.rs:164-183 | runs the anchored list command once and interprets it as installed releases |
| Client.HelmClient.ListInstalled | src/helm_client.rs:186-192 | runs the rendered list vector once and interprets it as installed releases |
| Client.HelmClient.GetHelmVersion | src/helm_client.rs:196-205 | runs `version --short --output json` once through the capturing path and returns `HelmVersion` of the answer |

## Left out

- Process spawning, PATH lookup and exit statuses are not modelled: helm's answer to each invocation is a function supplied with the `Runner`. Every `command.result()?` in `helm_client.rs` needs a conversion from fluvio-command's error into `HelmError`. `src/error.rs` has no such conversion and no variant for a failed command: its only `#[from]` sources are `FromUtf8Error` and `serde_json::Error`. So the code as given does not show which `HelmError` a failed run becomes. The model therefore lets `checked` answer a failed run with any `HelmError` variant, including `FailedToConnect` or `HelmVersionNotFound` for a write operation.
- UTF-8 decoding and JSON deserialisation are functions supplied in `Decoders`, not modelled byte by byte.
- `HelmError` payloads are simplified:
  - the I/O error is a string;
  - the UTF-8 error carries nothing;
  - the serde error is its message.

  The `Display` messages, `Debug` and the `Serialize`/`Deserialize` derives are not modelled.
- Tracing (`#[instrument]`) and the warning logged by `uninstall` are side effects with no bearing on results, and are left out.
- Paths (`PathBuf`) are strings. Paths that are not valid UTF-8 are not represented.
- How helm interprets the `^name$` filter (a regular expression) is not modelled. Only the argument that carries it is.
- InstallArgs.WithValue: `value(&mut self) -> &mut Self` is modelled as a function that returns the updated record. The unique borrow means no other reference could observe the in-place change, but chaining through the returned borrow is not represented.
- Client.VersionText: it requires the text to be sliceable at byte 1, which the source does not check. `Client.HelmVersion` and `Client.HelmClient.GetHelmVersion` cover the other case as `Panics`.
- `lib.rs` declares and re-exports only the `chart`, `error`, `helm_client`, `install_arg`, `installed_chart` and `uninstall_arg` modules. This does not match `helm_client.rs`, which imports `RegistryLoginArg`, `ChartPullArg`, `ChartExportArg`, `RepoAddArg` and `GetInstalledArg` from the crate root (src/helm_client.rs:5-14) although `lib.rs` neither declares their modules nor re-exports them. Neither file mentions `export_arg.rs` or `pull_arg.rs`. Every builder file is modelled as written. The JSON decoding test in `lib.rs` is not modelled, because decoding is supplied by the caller.
