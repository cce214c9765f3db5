# fdfzf: settings resolution, tilde expansion and the `fd` command line

`fdfzf` is a small Rust wrapper. It runs `fd` to list directories or files
under a search root and pipes that list into `fzf`, where the user picks one
line. This Dafny project models the pure parts of `src/main.rs`:

- **Paths** (`paths.dfy`). A path is `Path(absolute, comps)`: an optional root
  followed by normal components. `Path::starts_with`, `Path::strip_prefix` and
  `PathBuf::push` work on components, as Rust's do. `Parse` splits a string at
  `/` and `Render` joins components back into a string. The two are proved
  inverse: `Parse(Render(p)) == p` for every well-formed path, and
  `Render(Parse(s)) == s` for every canonical string.
- **Tilde expansion** (`tilde.dfy`). `ExpandTilde` models `expand_tilde`. The
  home directory is an `Option<Path>` input.
- **Profiles** (`profiles.dfy`). This module holds the parsed configuration
  (`Config` holds an optional map from names to `Profile`). It also has the
  `default` and named-profile lookups and the seed profile that is written
  into a newly generated file.
- **Resolution** (`resolution.dfy`). Each of the four settings is resolved as
  `cli.or(custom).or(default).unwrap_or(constant)`. This is proved equal to a
  reference `FirstPresent` over the list of sources.
- **The `fd` argument vector** (`fd_command.dfy`). `FdArgs` builds the vector.
  An inverse reader `ParseFdArgs` shows that no setting is lost.
- **The entry point** (`invocation.dfy`). `Invoke` gives the outcome of one
  run: the program stops because home is unknown, reports a missing
  directory, or runs `fd` with the given arguments.

Three behaviours of the code are worth stating, because a reader could
expect otherwise. The model follows the code in each case:

- With home equal to `/`, `~/a/b` expands to the **relative** path `a/b`.
  The comment at src/main.rs:179-180 says only the tilde is dropped, but
  `strip_prefix("~")` also drops the root, so no `/a/b` results
  (`Tilde.RootHomeGivesRelative`). As a result,
  `~/.config/fdfzf/config.toml` becomes the relative `.config/fdfzf/config.toml`
  for that home (`Invocation.DefaultConfigPathShape`). A second expansion
  can also change a result (`Tilde.RootHomeNotIdempotent`).
- The argument of `unwrap_or(&get_or_generate_default_config())` is evaluated
  even when `--config` names a file. So the default location is always
  computed, and an unknown home stops the program even with an explicit
  configuration file (`Invocation.ConfigFile`). When the default file is
  missing, the call also creates its directory and writes the seed file
  before the named file is read. A failed write ends the run
  (src/main.rs:191-200). The model does not include that write.
- With a missing search root, the program prints a diagnostic and returns
  normally. It does not exit with an error status (src/main.rs:151-153).

## Model

| member | source | states |
|---|---|---|
| Paths.StartsWith | src/main.rs:171 | a path starts with a prefix exactly when their roots agree and the prefix's components are, one by one, the path's leading components |
| Paths.Render | src/main.rs:131 | an absolute path's text starts with `/`. A well-formed relative path's text does not, and it is empty only for the empty path. `Paths.ParseOfRender` and `Paths.RenderOfParse` prove `Render` and `Parse` inverse |
| Paths.Push | src/main.rs:183 | pushing a relative path appends its components and keeps the base's root; pushing an absolute path replaces the base |
| Paths.StripPrefix | src/main.rs:181 | the result is present exactly when the prefix's root and components lead the path; the remainder is relative, and pushing it back onto the prefix rebuilds the path |
| Paths.StripPrefixOfPush | src/main.rs:183 | stripping a base from the path that was pushed onto it gives the pushed relative path back |
| Paths.Components | src/main.rs:170 | splitting a string gives only non-empty components without separators, and a string that starts with a non-separator has at least one component |
| Paths.Parse | src/main.rs:170 | a parsed path is well formed and is absolute exactly when the string starts with `/` |
| Paths.ComponentsOfJoin | src/main.rs:170 | splitting joined valid components returns the same list |
| Paths.ParseOfRender | src/main.rs:131 | parsing a rendered well-formed path gives the same path |
| Paths.RenderOfParse | src/main.rs:131 | rendering a parsed canonical string gives the same string |
| Tilde.ExpandTilde | src/main.rs:169-187 | a path whose first component is not exactly `~` is returned unchanged, even with no home. `~` alone gives the home value. With home `/`, `~/rest` gives the relative `rest`; with another home `h`, it gives `h` followed by `rest` and keeps `h`'s root. The result is absent exactly when home is unknown and the path starts with `~` |
| Tilde.TildeUserIsLiteral | src/main.rs:171-173 | a string such as `~user/x`, whose first component only begins with `~`, is returned unchanged whatever the home |
| Tilde.RootHomeGivesRelative | src/main.rs:178-181 | with home `/`, expanding `~/rest` gives a relative path whose text is `rest` |
| Tilde.ExpandKeepsValid | src/main.rs:169-187 | expanding a well-formed path with a well-formed home gives a well-formed path |
| Tilde.ExpandIdempotent | src/main.rs:177-186 | for an absolute home other than `/`, expanding a second time changes nothing |
| Tilde.RootHomeNotIdempotent | src/main.rs:178-181 | with home `/`, `~/~/x` expands to `~/x`, and expanding that again gives `x` |
| Profiles.LookupProfile | src/main.rs:63-67 | a profile is found exactly when the table exists and holds the name, and it is the stored profile |
| Profiles.DefaultProfile | src/main.rs:58-61 | the `default` profile is present exactly when the table exists and has a `default` key |
| Profiles.CustomProfile | src/main.rs:62-67 | the named profile is absent, with no error, when no name is given, when there is no table, or when the name is not a key; otherwise it is the stored profile |
| Profiles.SeedConfigShape | src/main.rs:210-222 | the seed configuration holds exactly one profile, `default`, and its path is `~` |
| Resolution.FirstPresent | src/main.rs:68-79 | with every source absent, the result is the fallback; otherwise it is the value of the first present source |
| Resolution.Chain | src/main.rs:68-79 | the combinator chain `cli.or(custom).or(default).unwrap_or(c)` equals the first present of the three sources |
| Resolution.Resolve | src/main.rs:68-117 | each of path, depth, type and hidden is the first present of its CLI value, named-profile field and `default` field. The fallbacks are `~`, `4`, `d` and `false` |
| Resolution.ChainCases | src/main.rs:68-79 | a chain gives the CLI value if present, else the named-profile value, else the `default` value, else the constant |
| Resolution.CliWins | src/main.rs:68-117 | a setting given on the command line always wins, for each of the four settings |
| Resolution.CustomBeatsDefault | src/main.rs:68-117 | without a CLI value, a named-profile field beats the `default` profile's field |
| Resolution.DefaultFillsGaps | src/main.rs:68-117 | with no CLI value and no named-profile field, the `default` profile's field is used |
| Resolution.FallbackConstants | src/main.rs:68-117 | a setting that no source provides becomes `~`, `4`, `d` or `false` |
| Resolution.PathOnlyProfile | src/main.rs:68-117 | a named profile that sets only the path changes only the resolved path; the other fields resolve as if no profile were named |
| Resolution.FieldsIndependent | src/main.rs:68-117 | a resolved field depends only on that field of the CLI overrides, of the named profile and of the `default` profile. Two triples of sources that agree on those three resolve it alike, whatever their other fields hold |
| Resolution.SeedMatchesFallbacks | src/main.rs:192-197 | the seed file's `default` profile resolves to the same settings as no configuration at all |
| FdCommand.HiddenFlag | src/main.rs:106-122 | the flag is `--hidden` exactly when hidden entries are wanted, and `--no-hidden` otherwise |
| FdCommand.FdArgs | src/main.rs:123-132 | the vector is `. --type T --max-depth D FLAG ROOT`, seven strings, with the settings passed through unchanged |
| FdCommand.ParseFdArgs | src/main.rs:124-132 | a vector read back as a request carries that request's type, depth and root in slots 2, 4 and 6 |
| FdCommand.ParseOfFdArgs | src/main.rs:124-132 | reading back a built vector recovers the request |
| FdCommand.FdArgsOfParse | src/main.rs:124-132 | every vector that reads as a request is the vector built from that request |
| FdCommand.FdArgsInjective | src/main.rs:124-132 | different requests give different argument vectors |
| Invocation.DefaultConfigLocationText | src/main.rs:190 | the configuration location's components render as `~/.config/fdfzf/config.toml` |
| Invocation.DefaultConfigLocationParses | src/main.rs:190 | the literal `~/.config/fdfzf/config.toml` parses to the components `~`, `.config`, `fdfzf`, `config.toml` |
| Invocation.DefaultConfigPath | src/main.rs:189-190 | the generated location is absent exactly when home is unknown. It is `.config/fdfzf/config.toml` under home and keeps home's root, except that home `/` gives the relative path |
| Invocation.DefaultConfigPathShape | src/main.rs:225-230 | for an absolute home other than `/`, the location string starts with `/` and ends with `config.toml`; for home `/` it is the relative `.config/fdfzf/config.toml` |
| Invocation.ConfigFile | src/main.rs:50-56 | the file read is the `--config` value when given, otherwise the generated location. Nothing is read when home is unknown, even with `--config` |
| Invocation.RootFor | src/main.rs:68-80 | the search root is absent exactly when home is unknown and the resolved path starts with `~`. A resolved path without `~` is used as parsed, and a resolved `~` gives the home value |
| Invocation.Invoke | src/main.rs:50-153 | the run stops exactly when home is unknown, and the later `expand_tilde(..).unwrap()` never fails. `fd` runs exactly when the expanded root exists, with the resolved type, depth and hidden flag and the rendered root; otherwise the missing root is reported |
| Invocation.InvokeWithDefaults | src/main.rs:68-132 | with no overrides and no profiles, `fd` gets `. --type d --max-depth 4 --no-hidden HOME` |
| Invocation.UnknownProfileIgnored | src/main.rs:62-67 | naming a profile that the table lacks gives the same run as naming none |
| Invocation.FullOverridesIgnoreConfig | src/main.rs:68-117 | when the command line sets all four settings, the configuration's contents make no difference |
| Invocation.SeedConfigLikeNone | src/main.rs:192-197 | a run with the generated seed file is the same as a run with no profiles |
| Invocation.RootPassedVerbatim | src/main.rs:80-131 | a canonical search root without a leading `~` reaches `fd` exactly as written |

## Left out

- Process spawning, the pipe from `fd` to `fzf`, waiting for `fzf` and writing its output to stdout (src/main.rs:123-150). These are OS processes. `Invoke` stops at the argument vector that `fd` would receive.
- Reading the configuration file and TOML parsing (src/main.rs:50-57, 219). `Invoke` takes the parsed `Config` of the file named by `ConfigFile`. A read or parse failure ends the program; the model does not show that.
- Creating the configuration directory and writing the seed file (src/main.rs:191-200). These are file-system effects. They happen on every run whose default file is missing, even with `--config`, and a failed write ends the run. The seed contents are the `SeedConfig` value, and the location is `DefaultConfigPath`.
- `dirs::home_dir`: the home directory is an `Option<Path>` input.
- `Path::exists`: existence is a `set<Path>` input.
- Command-line parsing by clap. The overrides are `Option` inputs. clap limits `--type` to `d` or `f`, and profile values are not checked. With `ArgAction::SetTrue`, clap usually supplies `Some(false)` when `--hidden` is absent, so profile `hidden` values may never be reached. The model keeps the general option chain and does not claim either way.
- Rust path normalisation beyond splitting at `/`. Empty pieces are dropped. A `.` component stays a plain component, and Rust's removal of interior `.` is not modelled.
- Paths.Render: for a non-canonical string such as `a//b/`, Rust passes the original text to `fd`, while the model passes the normalised `a/b`. `Invocation.RootPassedVerbatim` shows that the two agree on canonical strings.
- The UTF-8 conversion panics at src/main.rs:131 and 143. Strings are sequences of characters.
