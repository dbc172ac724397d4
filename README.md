# beach — command construction, registries and launchers

This project models the logic of the `beach` deployment tool that turns an application's
manifest (`beach.json`) into a shell command, and the small protocol around it:

- **Deployer** (`beach/__init__.py`). It builds an environment from the caller's parameters and
  from what each dependency provides, read from the service registry. It then rewrites every
  `${name}` in the manifest's `service` template with the shell-quoted value of that name.
  `deploy` uploads the application as `beach-<name>`, installs the supervisor and sets the
  service up. `run` spawns `sh -c "exec <command>"` in the application's directory, and leaving
  the returned `RunningApplication` sends SIGTERM and then waits.
- **Service registries** (`beach/registries.py`). `InMemoryRegistry` is a dictionary with upsert
  and lookup. `FileRegistry` keeps one file: `register` rewrites the whole file with a single
  entry, and `find_service` indexes the parsed mapping directly.
- **runit supervisor** (`beach/supervisors.py`). It builds an inner `cd`/`exec` script and an
  outer `su` launcher, both with `pipes.quote`. It runs the `create-service` and `install`
  scripts as `sh -c <script text>`.

Modules:

- `Outcomes` holds Option, Result and the errors, which stand for the exceptions the code raises.
- `ShellQuote` is Python 2.7's `pipes.quote`.
- `ShellWords` is a small reader of POSIX shell words and commands (section 2.2 "Quoting" and
  section 2.3 "Token Recognition" of the Shell Command Language, POSIX.1-2017). It is used only to
  state what a shell recovers from the generated text.
- `Templates` is the `re.sub(r"\$\{([^}]+)\}", ...)` rewrite.
- `Registries` holds both registries. `RegistryScenarios` holds the shared registry tests.
- `Supervisors` holds the launcher text and the supervisor.
- `Beach` holds the environment, the resolver and the deployer. `BeachScenarios` holds the
  repository's deploy examples. The example applications' `beach.json` files are not part of
  this model, so their `service` templates are assumed from what the tests expect and what the
  servers read (example-apps/script-with-dependency/server.py:11,14 takes the port and the
  message as its two arguments).

Collaborators are modelled as follows:

- The layout is an abstract function from (service name, path) to (path, identity).
- The supervisor calls, the layout call and the local shell's `spawn` are recorded in a trace.
- A spawned process is a log of the signals and waits it received.
- The supervisor's scripts directory is a map from script name to script text.
- The registry file is the mapping it parses to, or None when it is absent or does not parse.

Facts about the code that the model follows, including where the repository's own tests expect
otherwise:

- `beach/registries.py` defines no `deregister`.
- `FileRegistry.register` drops every other entry (beach/registries.py:20-23), although the
  shared test at tests/registries_tests.py:21-24 expects earlier entries to survive.
- An empty or unparsable registry file is an error on lookup, not an empty registry. The code
  raises no "Registry file was not valid JSON" message (tests/registries_tests.py:42-50 expects
  one).
- The manifest's `install` key is never read, so there is no install step, although
  tests/beach_tests.py:47-53 deploys an application that has one.
- `beach.supervisors.stop_on_exit`, used at tests/beach_tests.py:89, is not defined in
  beach/supervisors.py, so there is no process-spawning supervisor.

## Model

| member | source | states |
|---|---|---|
| ShellQuote.Quote | beach/__init__.py:67 | `pipes.quote` never yields the empty string, and its result starts with a quote or a safe character |
| ShellQuote.QuoteIdentity | beach/__init__.py:67 | quoting leaves `s` unchanged exactly when `s` is non-empty and made only of safe characters |
| ShellQuote.QuoteWraps | beach/__init__.py:67 | a string with an unsafe character and no single quote is wrapped in single quotes and otherwise unchanged |
| ShellQuote.EscapeWithoutQuotes | beach/__init__.py:67 | escaping changes nothing in a string without single quotes |
| ShellWords.QuoteRoundTrip | beach/__init__.py:67 | whatever `s` holds, a POSIX shell reads `quote(s)` back as exactly the one word `s` |
| ShellWords.QuotedLineRoundTrip | beach/supervisors.py:23-26 | a line of quoted words joined by blanks splits back into exactly those words |
| ShellWords.ExecPrefix | beach/__init__.py:38 | `exec ` in front of a script adds the word `exec` to its first command and leaves the rest alone |
| ShellWords.ExecQuotedLine | beach/__init__.py:38 | `exec` before a line of quoted words runs exactly those words |
| Templates.PlaceholderAt | beach/__init__.py:69 | a match at the front is `${`, a non-empty name free of `}`, and `}` |
| Templates.PlaceholderRecognised | beach/__init__.py:69 | `${name}` followed by anything is recognised as a match of exactly `name` |
| Templates.CopiedVerbatim | beach/__init__.py:69 | text in which no match starts is copied verbatim and the rest is rewritten on its own |
| Templates.NoPlaceholderUnchanged | beach/__init__.py:66-69 | a template with no `${...}` match comes back unchanged, whatever the environment |
| Templates.SubstituteComposed | beach/__init__.py:66-69 | the single-pass rewrite replaces each `${k}` by `quote(env[k])`, copies other text verbatim and never rescans values; a missing name fails with no partial result |
| BeachScenarios.DollarBeforePlaceholder | beach/__init__.py:69 | a `$` just before a placeholder stays literal: `$${x}` with `x` = `1` becomes `$1` |
| Templates.TextThenPlaceholder | beach/__init__.py:66-69 | plain text followed by one `${name}` becomes that text followed by the quoted value |
| Registries.Lookup | beach/registries.py:11-12 | `dict.get`: the entry when the name is present, None exactly when it is absent |
| Registries.FileLookup | beach/registries.py:25-32 | indexing the parsed file gives the stored entry; a missing name or an unreadable file is an error, never None |
| Registries.InMemoryRegistry.Register | beach/registries.py:8-9 | upserts the entry for `name` (last write wins); every other entry is unchanged |
| Registries.FileRegistry.Register | beach/registries.py:20-23 | the file afterwards holds exactly `{name: {"provides": p}}`; lookups of every other name fail |
| Registries.View.Find | beach/registries.py:11-32 | what `find_service` gives for each kind of registry: an entry, None, or the error it raises |
| Registries.Registry.View | beach/registries.py:4-32 | the deployer reads exactly what each registry object's `find_service` answers |
| RegistryScenarios.InMemoryKeepsEarlierEntries | beach/registries.py:4-12 | in memory, a never-registered name is None and an earlier entry survives a later registration |
| RegistryScenarios.FileDropsEarlierEntries | beach/registries.py:20-23 | in a file, a second registration drops the first entry, so looking it up fails |
| Supervisors.ExecCommandScript | beach/supervisors.py:23-24 | the inner script is `set -e`, `cd` with exactly `cwd`, then `exec` in front of the command |
| Supervisors.FullCommandScript | beach/supervisors.py:25-26 | for a plain username the launcher is `set -e` and `exec su USER - -c sh -c INNER`, with INNER intact |
| Supervisors.LauncherCarriesCommand | beach/supervisors.py:22-26 | the cwd and the command survive the nesting of the inner script inside the `su` launcher |
| Supervisors.Supervisor.RunScript | beach/supervisors.py:32-36 | runs the named script as `["sh", "-c", text]` with the given overrides, or fails when it is missing |
| Supervisors.Supervisor.Install | beach/supervisors.py:19-20 | exactly one run, of the `install` script, with no overrides |
| Supervisors.Supervisor.SetUp | beach/supervisors.py:22-30 | exactly one run, of `create-service`, with overrides exactly `service_name` and the launcher `command` |
| Beach.Qualified | beach/__init__.py:60-61 | a dependency adds each of its capabilities `k` under `dep.k` with the registry's value, and nothing else |
| Beach.EnvFailure | beach/__init__.py:58-60 | the environment fails exactly when some dependency's lookup fails, with the error of the first one |
| Beach.EnvKeepsParams | beach/__init__.py:57-61 | every parameter stays in the environment and keeps its value unless a dependency writes the same key |
| Beach.EnvOffersDependency | beach/__init__.py:58-61 | each capability of each dependency is present under `dep.k` unless a later dependency overwrites it |
| Beach.EnvKeys | beach/__init__.py:57-61 | every key of the environment is a parameter or a qualified capability of some dependency |
| Beach.GenerateEnv | beach/__init__.py:57-61 | the loop over dependencies builds exactly the specified environment, or its first lookup error |
| Beach.AddProvided | beach/__init__.py:60-61 | the inner loop adds exactly the qualified capabilities of one dependency, in any order |
| Beach.Deployer.GenerateCommand | beach/__init__.py:55-69 | `_generate_command` returns exactly the resolution of the template in that environment |
| Beach.Deployer.Deploy | beach/__init__.py:45-53 | a failed resolution makes no call; otherwise upload `beach-NAME`, install, then set up with the layout's path and account |
| Beach.Deployer.SetUpService | beach/__init__.py:71-73 | install strictly before set up, with the arguments passed through |
| Beach.Deployer.Run | beach/__init__.py:33-43 | spawns `["sh", "-c", "exec " + command]` in the application's directory, or makes no call when resolution fails |
| Beach.RunningApplication.Exit | beach/__init__.py:22-24 | leaving the application sends SIGTERM and then waits, in that order |
| BeachScenarios.StandaloneCommand | beach/__init__.py:66-69 | port `58080` is substituted bare: `server.py ${port} Hello` resolves to `server.py 58080 Hello` |
| BeachScenarios.DependencyCommand | beach/__init__.py:57-69 | `${message.value}` resolves to the registry's value, quoted, for every port and value |
| BeachScenarios.DependencyArguments | beach/__init__.py:37-38 | the server receives exactly the port and the value as its two arguments |
| BeachScenarios.QuotedSentence | beach/__init__.py:67 | `I feel fine` is put in single quotes |
| BeachScenarios.ValueNotRescanned | beach/__init__.py:69 | a value that reads `${b}` is substituted quoted, not expanded |
| BeachScenarios.MissingDependency | beach/__init__.py:58-60 | an unknown dependency fails resolution: None from memory, a missing-entry error from a file |
| BeachScenarios.MissingParameter | beach/__init__.py:66-67 | a placeholder with no value fails with its name |

## Left out

- Reading `beach.json` (file I/O and JSON): the manifest is an input value with `name`,
  `service` and optional `dependencies`.
- The layouts (`beach/layouts.py`): copying, account creation and archive streaming are I/O, so
  a layout is an abstract function giving (path, identity).
- `beach/tarballs.py` and the content selection its tests describe: these are calls to the
  external `tar` binary.
- JSON parsing of the registry file and `shell.open`: the file is the mapping it parses to, or
  None when it is absent, empty or malformed. All of these raise on lookup, and the model does not
  tell them apart.
- Process spawning, signals and waiting: they appear only as recorded calls and events.
- Failures of the collaborators (a failing upload, a non-zero exit of a supervisor script):
  `Beach.Deployer.Deploy` records the calls as always succeeding.
- Locating the scripts directory (`_supervisor`'s path joining) is a file lookup; scripts are
  given as a map from name to text.
- Supervisors.FullCommandScript: it is stated only for a username made of safe characters,
  because the username is inserted unquoted and other names are read by the shell in other ways.
  A layout that reports no identity yields the text `None` there, as `format` does.
- Templates.SubstituteComposed: it covers templates whose literal text holds no `$` directly
  before `{`. A `${` that starts no match (`${}`, or `${name` with no `}` after it) is left to
  Templates.NoPlaceholderUnchanged and Templates.CopiedVerbatim, which state that such text is
  copied verbatim.
- Text encodings: the model has one string type, a sequence of characters that can always be
  formatted. Python 2.7 tells byte strings from `unicode` text (which `json.load` returns), and
  `str.format` raises `UnicodeEncodeError` when given `unicode` text with a non-ASCII character.
  The members below do not capture that error.
- Beach.EnvFailure: fails exactly when a dependency lookup fails; the `UnicodeEncodeError` that
  `"{0}.{1}".format` raises at beach/__init__.py:61 for a non-ASCII dependency name or key is
  not modelled.
- Beach.GenerateEnv: builds the qualified key for every dependency entry; the
  `UnicodeEncodeError` of the format at beach/__init__.py:61 is not modelled.
- Beach.AddProvided: adds every qualified entry; the `UnicodeEncodeError` of the format at
  beach/__init__.py:61 is not modelled.
- Beach.Deployer.GenerateCommand: equals `Resolve`, which succeeds where the format at
  beach/__init__.py:61 raises `UnicodeEncodeError` on a non-ASCII dependency name or key.
- Beach.Deployer.Run: records the spawn for any resolved command; the `UnicodeEncodeError` that
  `"exec {0}".format` raises at beach/__init__.py:38 for a non-ASCII command is not modelled.
- Beach.Deployer.Deploy: records the upload for any application name; the `UnicodeEncodeError`
  that `"beach-{0}".format` raises at beach/__init__.py:49 for a non-ASCII name, before any
  upload, and the one `set_up` raises for a non-ASCII command after the upload and the install,
  are not modelled.
- Supervisors.Supervisor.SetUp: appends the run for any command, cwd and username; the
  `UnicodeEncodeError` that the `format` calls at beach/supervisors.py:22-25 raise for non-ASCII
  text is not modelled.
- ShellWords covers only plain characters, single and double quotes without expansions, blanks
  and newlines. Other shell text reads as "not modelled".
