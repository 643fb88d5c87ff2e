# runContainer, modelled in Dafny

`runContainer` (src/actions/instance.ts) starts the WordPress container of a
development instance. It reads a fully resolved instance configuration and
then does the following:

- appends `relative-url` to the plugins to download;
- writes `DOCKER_BRIDGE_IP` and `DOCKER_CONTAINER_PORT` into the caller's
  `envvars` object;
- renders every environment variable as a `--env key=value` flag;
- double-encodes the environment, the FTP settings and the SSH settings as
  JSON payload flags;
- turns every SSH key into a bind mount and deletes the key's host path from
  the caller's SSH entry;
- under Docker Toolbox on Windows, rewrites the volume paths;
- fills the `docker run` template, runs it, and then follows the container's
  logs.

A failed launch exits the process with status 1. A failed log follow only
prints a notice.

The project has these modules:

- `Text`: the ECMAScript string operations the code uses.
  - `trim`, with its whitespace set.
  - `Array.prototype.join`.
  - The decimal text of an integer.
  - Also `split` by one character. The code never splits; `split` only states that the joined plugin list can be read back.
- `JsValues`: JavaScript values as runContainer sees them.
  - A plain object is an ordered list of properties in insertion order, the order `Object.keys` reports.
  - Property read, assignment and `delete`.
  - Truthiness.
  - The text a template literal substitutes for a value.
- `JsonText`:
  - `JSON.stringify` of those values.
  - The string-literal quoting of the outer `JSON.stringify`, with a parser for string literals (RFC 8259, section 7) and the round trip between them.
- `Volumes`: the three global replacements of the Docker Toolbox path rewriting.
  - The drive and backslash passes are specified position by position.
  - The `:/` pass is specified by two lemmas: every `:/` of its result is followed by a second slash, and collapsing each `://` back gives the input.
- `Launch`: the command as a pure function of the configuration, and `Resolve`, the change runContainer makes to the caller's configuration.
- `Instance`: the imperative model.
  - The caller's configuration is the class `InstanceConfig`, whose methods update `envvars` and `ssh` in place step by step.
  - `RunContainer` is proved against `Launch.Command` and `Launch.Resolve`.
  - The failure policy is the function `Supervise`, over a trace of events.

The processes the code runs are parameters of `RunContainer`, given as
outcomes:

- `prepare` stands for `makeContainers`;
- `launch` stands for `docker run`;
- `follow` stands for `docker logs -f`.

`RunContainer` also takes `platform`, the value of `process.platform`, and
`installPath`, the value of `DOCKER_TOOLBOX_INSTALL_PATH` if it is set. The
Toolbox rewriting applies when the platform is `win32` and the path is a
non-empty string.

Where the code differs from what a reader of its purpose might expect, the
model follows the code:

- `relative-url` is appended even when it is already in the list, so it can appear twice.
- `C:\` is replaced anywhere in a volume string and in either case, not only as a leading drive.
- SSH key mounts carry their own `-v ` prefix. The caller's volumes are therefore complete `-v host:container` flags, joined into the command as they are.
- The `config.envvars ?` guard tests an object, which is always truthy. So `APACHE_ENV_VARS` is always emitted.
- `FTP_CONFIGS` depends on the JavaScript truthiness of `ftp`, so an empty string or `0` emits nothing. `SSH_CONFIGS` is emitted for any SSH list, including an empty one, because an empty array is truthy.
- Deleting `privateKeyPath` changes the caller's SSH entries. A second run on the same configuration mounts the path `undefined`.

## Model

| member | source | states |
|---|---|---|
| Launch.PluginListSpec | src/actions/instance.ts:23-24 | The plugin list is the caller's plugins in order with `relative-url` last. It is appended even when present, so its count grows by exactly one. |
| Launch.PluginsRecoverable | src/actions/instance.ts:24-25 | When no plugin name contains a space, splitting the space-joined PLUGINS value gives back the caller's plugins followed by `relative-url`. |
| Launch.InjectEnvGet | src/actions/instance.ts:27-28 | After the injection, `DOCKER_BRIDGE_IP` holds the trimmed bridge IP and `DOCKER_CONTAINER_PORT` the port, overwriting earlier values. Every other property reads as before. |
| Launch.InjectEnvKeys | src/actions/instance.ts:27-28 | The property order is the caller's keys in place, then each injected key that was missing, bridge IP before port. |
| Launch.InjectEnvDistinct | src/actions/instance.ts:27-28 | The injection never creates a duplicate property. |
| Launch.InjectEnvNonEmpty | src/actions/instance.ts:27-29 | After the injection the environment object holds at least the two injected properties. |
| Launch.InjectEnvIdempotent | src/actions/instance.ts:27-28 | Injecting the same values a second time changes nothing. |
| Launch.InjectEnvAppends | src/actions/instance.ts:27-28 | For an object without the two keys, the injection appends bridge IP then port to the caller's properties. |
| Launch.EnvFlagsAppend | src/actions/instance.ts:32-35 | A property added last contributes its `--env` flag last, after one space. |
| Launch.EnvFlagsAppendTwo | src/actions/instance.ts:32-35 | Two properties added last contribute their flags last, in order, space-separated. This covers the empty object too. |
| Launch.InjectedEnvFlags | src/actions/instance.ts:27-35 | For an object without the two keys, the env flags are the caller's flags in key order, then the trimmed bridge IP flag, then the port flag. |
| Launch.JsonEnvFlagDecodes | src/actions/instance.ts:30 | A JSON payload flag is `--env NAME=` followed by a string literal that decodes to the JSON text of the value. |
| Launch.FtpFragment | src/actions/instance.ts:37-40 | The FTP fragment is non-empty exactly when `ftp` is present and truthy, and then it is the `FTP_CONFIGS` payload flag. |
| Launch.SshFragment | src/actions/instance.ts:42-53 | The SSH fragment is empty exactly when there is no SSH list. |
| Launch.AllVolumesSpec | src/actions/instance.ts:45-52 | Without SSH the volumes are the caller's. With n entries, n mounts `-v <path_i>:/app/ssh/<file_i>` follow the caller's volumes, in entry order. |
| Launch.StripKeyPathsSpec | src/actions/instance.ts:44-47 | Every SSH entry loses `privateKeyPath` and keeps every other property. The count is kept and no duplicates appear. |
| Launch.StripKeyPathProps | src/actions/instance.ts:47 | A stripped entry has no key path and the same key file name. |
| Launch.KeyMountAfterStrip | src/actions/instance.ts:44-48 | After one run has stripped an entry, its mount is `-v undefined:/app/ssh/<file>`. |
| Launch.OneKeyExample | src/actions/instance.ts:44-49 | A single key entry gives the mount `-v <path>:/app/ssh/<file>` and is left holding only its file name. |
| Launch.Resolve | src/actions/instance.ts:27-47 | runContainer changes only `envvars` and `ssh` of the configuration. SSH presence is kept; volumes and plugins are unchanged. |
| Launch.ResolveWellFormed | src/actions/instance.ts:27-47 | The changes keep every object free of duplicate properties. |
| Launch.ResolveIdempotent | src/actions/instance.ts:27-47 | Applying the configuration changes a second time changes nothing. |
| Launch.CommandLayout | src/actions/instance.ts:64-87 | The command is the fixed header, the six synthesised fragments in template order, and the fixed trailer, separated by the continuation gap. |
| Text.Trim | src/actions/instance.ts:27 | `trim` returns the piece of the input that has only whitespace around it and neither starts nor ends with whitespace. |
| Text.TrimIdempotent | src/actions/instance.ts:27 | Trimming twice is trimming once. |
| Text.JoinAppend | src/actions/instance.ts:35 | Joining a concatenation joins the halves around one separator. |
| Text.SplitJoin | src/actions/instance.ts:25 | Splitting undoes joining when no piece contains the separator. |
| Text.DecimalRoundTrip | src/actions/instance.ts:76 | The decimal text of the port reads back as the same integer. |
| JsValues.Get | src/actions/instance.ts:33 | A property read finds a value exactly when the name is a key, and that pair is in the object. |
| JsValues.Set | src/actions/instance.ts:27 | After an assignment the property holds the value, and every other property reads as before. |
| JsValues.SetKeys | src/actions/instance.ts:27 | Assigning an existing property keeps the key order. Assigning a new one appends its key. |
| JsValues.SetDistinct | src/actions/instance.ts:27 | Assignment never creates a duplicate property. |
| JsValues.Delete | src/actions/instance.ts:47 | `delete` leaves every other property reading as before. |
| JsValues.DeleteShape | src/actions/instance.ts:47 | `delete` removes at most the one property of that name and keeps the order of the rest. |
| JsValues.DeleteRemoves | src/actions/instance.ts:47 | In an object, `delete` leaves the property undefined and creates no duplicate. |
| JsonText.QuoteRoundTrip | src/actions/instance.ts:30 | A string-literal parser reads the quoted form of any string back exactly. |
| JsonText.EscapeDecodes | src/actions/instance.ts:30 | The escaped body of a string literal, followed by the closing quote, decodes to the original characters. |
| JsonText.EscapeCharDecodes | src/actions/instance.ts:30 | Each escaped character decodes to the character, and decoding then goes on after it. |
| JsonText.TrimQuote | src/actions/instance.ts:30 | The trailing `trim` never changes a quoted string. |
| JsonText.DoubleEncodedDecodes | src/actions/instance.ts:30 | The double encoding is a quote-delimited literal that decodes to the JSON text of the value. |
| Volumes.ReplaceDriveAt | src/actions/instance.ts:56 | The drive replacement keeps the length and rewrites exactly the `C:\`/`c:\` occurrences, wherever they stand, into `/c/`. |
| Volumes.NoDriveLeft | src/actions/instance.ts:56 | After the drive replacement no drive prefix remains, in either case. |
| Volumes.DriveAnywhere | src/actions/instance.ts:56 | A lower-case `c:\` after other text is rewritten too. |
| Volumes.ReplaceBackslashesAt | src/actions/instance.ts:57 | Every backslash, and nothing else, becomes a slash, in place. |
| Volumes.DoubleColonSlashChars | src/actions/instance.ts:58 | The separator doubling keeps the first character and adds nothing but slashes. |
| Volumes.DoubleColonSlashDoubles | src/actions/instance.ts:58 | Every `:/` in the result of the separator doubling is followed by a second slash: each separator became `://`. |
| Volumes.CollapseUndoesDouble | src/actions/instance.ts:58 | The doubling loses nothing: turning each `://` back into `:/` gives the original. |
| Volumes.ToolboxPathClean | src/actions/instance.ts:56-58 | After the three replacements, no backslash and no drive prefix remains. |
| Volumes.ToolboxMount | src/actions/instance.ts:56-58 | `-v C:\<path>:/<target>` becomes `-v /c/<path with slashes>://<target>`. |
| Volumes.RewriteVolumesAt | src/actions/instance.ts:55-59 | The rewriting keeps the number and order of the volumes. Each is rewritten on its own, and only under Docker Toolbox. |
| Instance.Supervise | src/actions/instance.ts:62-102 | A failed launch prints and logs the error, exits with 1 and runs no log follow. Otherwise the logs are followed, and a failed follow logs only the notice naming the container, with no exit. |
| Instance.InstanceConfig.StripSsh | src/actions/instance.ts:44-49 | The loop over the cloned entries returns one mount per entry from the clone and deletes the key path from the caller's entry at the same index. |
| Instance.InstanceConfig.ToolboxStep | src/actions/instance.ts:55-59 | The three passes over the volumes compute the rewritten volume list. |
| Instance.InstanceConfig.FtpStep | src/actions/instance.ts:37-40 | The FTP statement computes the FTP fragment. |
| Instance.InstanceConfig.SynthesizeEnv | src/actions/instance.ts:23-40 | It computes the plugin flag, the env flags and `APACHE_ENV_VARS` of the injected environment, and the FTP fragment. `envvars` is updated in place and nothing else changes. |
| Instance.InstanceConfig.SynthesizeVolumes | src/actions/instance.ts:42-60 | It computes the SSH fragment and the joined, rewritten volume flags. The SSH entries are stripped in place and nothing else changes. |
| Instance.InstanceConfig.LaunchAndFollow | src/actions/instance.ts:62-102 | The two try/catch blocks produce exactly the trace and ending of the failure policy. |
| Instance.InstanceConfig.RunContainer | src/actions/instance.ts:7-103 | A failed preparation propagates before anything changes. Otherwise the configuration becomes its resolved form, and the process runs `Command` of the original configuration under the failure policy. The Toolbox rewriting is applied exactly when the platform is `win32` and `DOCKER_TOOLBOX_INSTALL_PATH` is a non-empty string (line 55). |

## Left out

- `makeContainers` (src/actions/dbcontainers) is not part of this model. It is the `prepare` outcome, assumed not to change the configuration.
- Process execution (`execSync` with inherited stdio), `console.log`, the logger and `process.exit` are abstracted. They become outcome parameters and events of a trace; exit is an ending of the call. The notice text and its colour codes are reduced to the container name it carries.
- `process.platform` and `process.env` are abstracted: `RunContainer` takes the platform and the optional install path as parameters.
- Shell interpretation of the assembled command is out of scope: the code does no quoting of its own.
- Numbers are integers. Floating-point values, `NaN`, and the exponent notation `JSON.stringify` and template literals use from 1e21 up are not modelled.
- `Object.keys` lists integer-like property names first in JavaScript. The model lists every property in insertion order.
- JSON values cover null, booleans, integers, strings, arrays and plain objects. `undefined`, functions and symbols, which `JSON.stringify` drops or maps to null, do not occur.
- Strings are sequences of code points. Lone surrogates, which `JSON.stringify` escapes as `\udxxx`, are not represented. `Unquote` accordingly refuses surrogate escapes.
- `_.cloneDeep` is a value copy of the SSH list, and aliasing between entries is not modelled. The caller's entries are updated in place through the `ssh` field.
- The header and trailer lines of the template are stated by definition in `Launch.Header` and `Launch.Trailer`. No lemma restates their literal text.
