# dorc, modelled in Dafny

dorc is a blue/green deployment tool. `dorc register` asks for an app's name, release
directory, binary and listen port. It builds an App with two systemd services,
`blue-<name>` and `green-<name>`, with green active. It saves the App to
`/etc/dorc/apps/<name>.toml` and migrates the release into both services: stop, copy the
directory, copy the binary, write the unit, start, enable.

The daemon loads every App configuration in `/etc/dorc/apps/` and proxies each App's
listen port to the port of its active service. On every tick it starts an accept loop for
each idle proxy and takes at most one command from a named pipe. The only command is
`reload <name>`, which runs `systemctl reload` on the App's active service. The earlier
daemon (src/daemon.rs, over the proxy of src/proxy.rs) also watches the apps directory.
It adds, replaces and removes registry entries as files change, and reroutes every proxy
after each change.

Modules and files:

- `Decimal` (decimal.dfy): `u16`, its decimal `Display` rendering, and `u16::from_str`.
- `Text` (text.dfy): `splitn(2, …)` and `trim`, with the Unicode White_Space set.
- `Paths` (paths.dfy): `PathBuf` as `components()` yields it: a root flag, a flag for a
  leading `.` of a relative path, and the normal components. Two paths that differ only in
  repeated separators, a trailing separator or inner `.` pieces are equal, as Rust's
  component-wise comparison makes them.
- `Validators` (validators.dfy) and `DorcCli` (dorc_cli.dfy): the prompt validators. The
  file system is a predicate parameter.
- `ServiceUnit` (service_unit.dfy): `Service` and the systemd unit it maps to. The
  library's defaults are a parameter.
- `Apps` (apps.dfy): the App record.
  - The App-building part of `register` and the save path.
  - `migrate_service` as an ordered list of effects whose outcomes are an oracle.
- `Fifo` (fifo.dfy): the line parser of `watch_fifo`, in the trimming (current) and the
  untrimmed (legacy) version.
- `DaemonProxy` (daemon_proxy.dfy) and `LegacyProxy` (legacy_proxy.dfy): the proxies as
  classes. The listener is a token and the accept outcomes are a script.
- `Daemon` (daemon.dfy) and `LegacyDaemon` (legacy_daemon.dfy): the daemons as classes.
  - The command queue is a sequence.
  - The registry is a map from path to App and proxy.
  - Loading a configuration is a function parameter; the directory listing is a sequence
    of paths.

## Model

| member | source | states |
|---|---|---|
| Decimal.ParseU16 | src/validators.rs:64 | an accepted text ends in a digit; a text starting with `-` is rejected (the full characterisation is `ParseU16Iff`) |
| Decimal.Render | src/daemon/proxy.rs:24 | the decimal text of a number has no leading zero and is one digit exactly for numbers below 10 |
| Decimal.ParseU16Iff | src/validators.rs:64 | `u16` parsing succeeds iff the text is an optional `+` followed by at least one ASCII digit, with value at most 65535, and then yields that value |
| Decimal.ParseU16RejectsNonDigit | src/validators.rs:64 | a `-`, a space or any other non-digit after the optional sign makes parsing fail |
| Decimal.ValueOfRender | src/daemon/proxy.rs:24 | reading back the rendering of a number gives the number |
| Decimal.RenderOfValue | src/daemon/proxy.rs:24 | a digit string without a leading zero is the rendering of its value |
| Decimal.ParseRender | src/validators.rs:64 | parsing the rendering of any port gives that port back |
| Decimal.RenderInjective | src/daemon/proxy.rs:30 | different ports render differently |
| Text.SplitOnce | src/daemon/mod.rs:209 | `splitn(2, sep)` gives one or two parts; the first holds no separator; one part is the whole text; two parts rebuild the text around the first separator |
| Text.SplitOnceAt | src/daemon/mod.rs:209 | the split happens at the first separator, whatever follows it |
| Text.SplitOnceWithout | src/daemon/mod.rs:209 | a text without the separator is a single part |
| Text.TrimStart | src/daemon/mod.rs:225 | the result is a suffix with no leading whitespace, and everything dropped is whitespace |
| Text.TrimEnd | src/daemon/mod.rs:225 | the result is a prefix with no trailing whitespace, and everything dropped is whitespace |
| Text.Trim | src/daemon/mod.rs:225 | `trim` never lengthens its input |
| Text.TrimIsTrimmed | src/daemon/mod.rs:225 | what `trim` returns has no whitespace at either end |
| Text.TrimSlice | src/daemon/mod.rs:225 | `trim` returns the contiguous slice of its input that starts where `trim_start` stops, and drops only whitespace before and after it |
| Text.TrimTrimmed | src/daemon/mod.rs:225 | `trim` leaves a text without surrounding whitespace unchanged |
| Text.TrimLine | src/daemon/mod.rs:225 | `trim` removes the newline that `read_line` leaves at the end of a line |
| Paths.FromStr | src/validators.rs:26 | `Path::new`: no component is empty or `.`; only a relative path can start with `.` |
| Paths.Parent | src/validators.rs:28 | `parent()` is `None` exactly when there is no component and no leading `.`; otherwise the parent plus the last component is the path, and a lone `.` has the empty path as parent |
| Paths.JoinKeepsHead | src/daemon/mod.rs:88 | appending `/` and more text to a non-empty path keeps whether it is rooted and whether it starts with `.` |
| Paths.CollapseSeparator | src/daemon/mod.rs:88 | a doubled `/` names the same path as a single one |
| Paths.SkipCurDir | src/daemon/mod.rs:88 | a `/./` names the same path as a single `/` |
| Paths.DotParents | src/validators.rs:28 | `/.` has no parent; the parent of `/x/.` is `/` |
| Paths.ParentNoneIff | src/validators.rs:28 | `parent()` is `None` exactly for the empty text and the rooted texts whose pieces are all empty or `.` |
| Validators.AllNameChars | src/validators.rs:13 | true exactly when every character is ASCII alphanumeric, `-` or `.` |
| Validators.ValidateAppName | src/validators.rs:8-18 | accepts iff there is no leading `-` and every character is ASCII alphanumeric, `-` or `.`; the leading-dash message takes precedence over the character message |
| Validators.ValidateLocation | src/validators.rs:25-37 | accepts iff the parent, as `Path::parent` computes it, is a directory and the path is absolute; the directory message comes first; a path without a parent is outside the precondition (the `unwrap` panics) |
| Validators.LocationPanicsIff | src/validators.rs:28 | the location validator panics exactly on `""` and on `"/"`, `"//"`, `"/."`, `"/./"`, … |
| Validators.LocationTrailingDot | src/validators.rs:28 | for `/x/.` the validator checks whether `/` is a directory |
| Validators.ValidateFile | src/validators.rs:44-56 | accepts iff the path is a file and absolute; "must be a file" is reported before "must be absolute" |
| Validators.ValidateAddress | src/validators.rs:63-69 | accepts exactly what `u16` parsing accepts, otherwise rejects with the port message |
| Validators.AddressAcceptsRendered | src/validators.rs:64 | every rendered port is accepted |
| Validators.AddressRejects | src/validators.rs:64-67 | the empty text, and any text with a `-` or whitespace character, is rejected |
| DorcCli.ValidateServiceName | dorc/src/main.rs:29-39 | accepts iff there is no leading `-` and every character is ASCII alphanumeric, `-` or `.`; the leading-dash message takes precedence |
| DorcCli.ValidateServiceLocation | dorc/src/main.rs:46-60 | accepts iff the parent, as `Path::parent` computes it, is a directory and the path is absolute; the directory check comes first; a path without a parent is outside the precondition (the `unwrap` panics) |
| DorcCli.NameValidatorsAgree | dorc/src/main.rs:29-39 | the service-name validator accepts the same strings as the app-name validator and rejects a leading dash in the same cases |
| DorcCli.LocationValidatorsAgree | dorc/src/main.rs:46-60 | the two location validators give the same verdict on every path and file system |
| ServiceUnit.ToSystemdService | src/registration/types.rs:17-38 | unit name = qualified name; requires nothing; wanted by `multi-user.target`; working directory = the service's; start = `[on_start]`; reload and stop copied; every other directive keeps its default |
| ServiceUnit.UnitIgnoresPort | src/registration/types.rs:9 | the port does not influence the unit |
| ServiceUnit.UnitDeterminesService | src/registration/types.rs:17-38 | two services with the same unit are equal except possibly for the port |
| Apps.ServiceNamesDistinct | src/main.rs:157-166 | `blue-<name>` and `green-<name>` differ from each other and from the App's name |
| Apps.BuildApp | src/main.rs:175-186 | the registered App keeps the prompted fields; its active service is `green-<name>`; its services are exactly blue and green; the active service is present, as `from_app` needs; its active port is green's |
| Apps.SavePath | src/main.rs:66 | the App is saved to `/etc/dorc/apps/<name>.toml` |
| Apps.MigrationPlan | src/main.rs:70-111 | the migration steps, in order: stop, copy the release directory, copy the binary to `/usr/local/bin/<unit>`, write the unit to `/etc/systemd/system/<unit>.service`, start, enable |
| Apps.Run | src/main.rs:70-111 | the steps performed are a prefix of the plan; every step but the last succeeded; the run succeeds iff all steps ran and succeeded; a failed run ends at its failing step |
| Apps.RunStopsAtFailure | src/main.rs:70-107 | with the first failure at step k, exactly steps 0..k are performed and the run fails |
| Apps.MigrateService | src/main.rs:70-112 | the step-by-step migration with early exits performs what `Run` of the plan says |
| Apps.NonZeroExitDoesNotAbort | src/main.rs:71-73 | a `systemctl` call that ran, whatever its exit status, does not stop the migration |
| Apps.MigrateAll | src/main.rs:191-200 | every service of the App is migrated, each as its own run, a failure in one not skipping another |
| Apps.Register | src/main.rs:175-200 | `register` builds the App; when the file cannot be written, `save` panics and nothing is migrated; otherwise it saves the App under its name and migrates blue and green each by its plan |
| Fifo.SplitLine | src/daemon/mod.rs:209 | `splitn(2, " ")` of a line gives one or two parts |
| Fifo.SplitNeverEmpty | src/daemon/mod.rs:211-218 | the split always has a first part, so the `continue` branch cannot be taken |
| Fifo.ParseLine | src/daemon/mod.rs:209-234 | a command comes out iff the line starts with `reload` and a space; it is `Reload` of the rest, trimmed |
| Fifo.LegacyParseLine | src/daemon.rs:182-205 | a command comes out iff the line starts with `reload` and a space; its argument is the rest, untrimmed |
| Fifo.ParseClientLine | src/daemon/mod.rs:220-226 | `"reload <name>\n"` gives `Reload(name)` for a name without surrounding whitespace |
| Fifo.LegacyParseClientLine | src/daemon.rs:194-199 | `"reload <name>\n"` gives `Reload("<name>\n")` in the legacy reader |
| Fifo.BareReloadRejected | src/daemon/mod.rs:220-232 | `reload` with no argument, with or without a newline, gives no command in either version |
| Fifo.ArgumentKeepsInnerSpaces | src/daemon/mod.rs:209 | only the first space splits; spaces inside the argument stay |
| DaemonProxy.RouteTo | src/daemon/proxy.rs:24 | a route is `127.0.0.1:` followed by a non-empty port text |
| DaemonProxy.RouteRoundTrip | src/daemon/proxy.rs:24 | removing `127.0.0.1:` from a route and parsing the rest gives back the port |
| DaemonProxy.RouteInjective | src/daemon/proxy.rs:30 | different ports give different routes |
| DaemonProxy.Forwards | src/daemon/proxy.rs:37-51 | no more connections are forwarded than events occur |
| DaemonProxy.ForwardsBackends | src/daemon/proxy.rs:35-51 | each forwarded connection goes to the starting route or to a route the proxy was rerouted to during the run |
| DaemonProxy.ForwardsCount | src/daemon/proxy.rs:37-43 | one connection is forwarded per accepted connection before the listener error |
| DaemonProxy.ForwardsWithoutReroute | src/daemon/proxy.rs:38-43 | without a reroute every connection goes to the route the proxy had and the route stays |
| DaemonProxy.ForwardsAcrossReroute | src/daemon/proxy.rs:35-43 | a reroute between accepts sends every later connection to the new route |
| DaemonProxy.RerouteLastWins | src/daemon/proxy.rs:29-31 | after two reroutes the last port is the route |
| DaemonProxy.Proxy.constructor | src/daemon/proxy.rs:20-27 | a new proxy listens on its port, routes to `127.0.0.1:<server port>` and is not listening |
| DaemonProxy.Proxy.RerouteTo | src/daemon/proxy.rs:29-31 | only the route changes, to the given port; so rerouting twice to a port is rerouting once |
| DaemonProxy.Proxy.SetIsListening | src/daemon/proxy.rs:55-58 | only the listening flag changes |
| DaemonProxy.Proxy.Listen | src/daemon/proxy.rs:33-53 | each accepted connection goes to the route current at its accept; timeouts keep the loop running; the first listener error ends it; the flag is false afterwards |
| LegacyProxy.FirstFailure | src/proxy.rs:28 | the position of the first failed accept, all earlier accepts having succeeded |
| LegacyProxy.Proxy.constructor | src/proxy.rs:15-21 | a new proxy listens on its port and routes to `127.0.0.1:<server port>` |
| LegacyProxy.Proxy.RerouteTo | src/proxy.rs:23-25 | only the route changes, to the given port |
| LegacyProxy.Proxy.Listen | src/proxy.rs:27-37 | every connection accepted before the first failure goes to the one route; the loop ends at the first failure |
| Daemon.EntryKey | src/daemon/mod.rs:57-67 | the key of a directory entry is rooted and ends with the file's name |
| Daemon.ReloadKey | src/daemon/mod.rs:88 | the doubled-slash reload key is the key of the directory entry `<arg>.toml` |
| Daemon.ReloadSkipsCurDir | src/daemon/mod.rs:88 | `reload ./<name>` looks up the same key as `reload <name>` |
| Daemon.ReloadFindsSavedApp | src/daemon/mod.rs:88 | the key a reload of an App's name looks up is the file `save` writes the App to |
| Daemon.LoadAll | src/daemon/mod.rs:63-74 | the registry holds exactly the listed paths whose configuration loads, each with what it loads to |
| Daemon.ReloadTarget | src/daemon/mod.rs:87-104 | a missing key is the `unwrap` panic; an App with its active service reloads that service's unit; an App without it does nothing, and only then |
| Daemon.ReloadRegisteredApp | src/daemon/mod.rs:91-99 | reloading a registered App by its name reloads its green (active) service |
| Daemon.ClientReloadReachesApp | src/daemon/mod.rs:88-99 | the line `"reload <name>\n"` a client writes reloads the active service of the App registered under that name |
| Daemon.FromApp | src/daemon/mod.rs:31-37 | a new proxy on the App's listen port routed to its active service's port, not listening |
| Daemon.AddEntry | src/daemon/mod.rs:67 | an entry with a new idle proxy is added; the others are kept; the registry stays well formed and routed |
| Daemon.Populate | src/daemon/mod.rs:63-74 | every listed path that loads gets an entry with a new idle, correctly routed proxy; no two entries share a proxy |
| Daemon.Daemon.constructor | src/daemon/mod.rs:47-77 | the daemon starts with the queue, the registry `LoadAll` gives, and a new idle proxy per entry on the App's port, routed to its active service |
| Daemon.Daemon.RecvCommands | src/daemon/mod.rs:83-107 | an empty queue changes nothing; otherwise exactly the first command is taken and its outcome is `ReloadTarget` of the unchanged registry |
| Daemon.Daemon.SelectIdle | src/daemon/mod.rs:113-120 | exactly the entries whose proxy is not listening |
| Daemon.Daemon.Listen | src/daemon/mod.rs:110-122 | one command is received; unless it panics, an accept task is started for exactly the idle proxies; the registry does not change |
| Daemon.Daemon.RerouteProxies | src/daemon/mod.rs:124-129 | afterwards every proxy routes to its App's active service; the listening flags and the registry are unchanged |
| LegacyDaemon.LegacyReloadTarget | src/daemon.rs:67-86 | as the current lookup, but the service reloaded is the one named like the App, and nothing happens exactly when there is none |
| LegacyDaemon.LegacyReloadNeverFires | src/daemon.rs:73 | for a registered App the legacy reload finds no service and does nothing |
| LegacyDaemon.LegacyReloadMissesEntry | src/daemon.rs:196-198 | the line `"reload <name>\n"` looks up `<name>\n.toml`, which misses the App's file, so the lookup panics |
| LegacyDaemon.FromApp | src/daemon.rs:29-34 | a new legacy proxy on the App's listen port routed to its active service |
| LegacyDaemon.Entered | src/daemon.rs:132-147 | the paths an event enters a new proxy for are among those it names, and each of them loads; a rename onto itself enters nothing |
| LegacyDaemon.ApplyEvent | src/daemon.rs:128-150 | Remove drops its path only; Create/Write enter the path if it loads and otherwise change nothing; Rename drops the old path and enters the new one if it loads; no other key changes |
| LegacyDaemon.ApplyEventKeepsWellFormed | src/daemon.rs:132-147 | after any event every App still has its active service, given that loaded files do |
| LegacyDaemon.RenameOntoItselfDrops | src/daemon.rs:140-147 | a rename onto the same path removes the entry, even if the file loads |
| LegacyDaemon.WriteIdempotent | src/daemon.rs:132-138 | the same write event twice gives the registry one gives |
| LegacyDaemon.AddEntry | src/daemon.rs:137 | an entry with a new idle legacy proxy is added; the others are kept |
| LegacyDaemon.Populate | src/daemon.rs:56-62 | every listed path that loads gets an entry with a new idle, correctly routed proxy |
| LegacyDaemon.Daemon.constructor | src/daemon.rs:43-65 | the daemon starts with the queue, the registry `LoadAll` gives, and a new proxy per entry |
| LegacyDaemon.Daemon.Insert | src/daemon.rs:135-137 | the entry under the key gets the App and a new proxy; the other entries are kept |
| LegacyDaemon.Daemon.Delete | src/daemon.rs:130 | the entry under the key goes; the others are kept |
| LegacyDaemon.Daemon.LoadEntry | src/daemon.rs:133-138 | the path is entered, with a new idle proxy on the App's port, if it loads; otherwise nothing changes |
| LegacyDaemon.Daemon.MoveEntry | src/daemon.rs:140-148 | the new name is entered with a new idle proxy if it loads and differs from the old, then the old name's entry goes; nothing else changes |
| LegacyDaemon.Daemon.RecvCommands | src/daemon.rs:67-86 | an empty queue changes nothing; otherwise the first command is taken and answered by the legacy lookup |
| LegacyDaemon.Daemon.SelectIdle | src/daemon.rs:93-103 | exactly the entries whose proxy is not listening |
| LegacyDaemon.Daemon.Listen | src/daemon.rs:88-104 | one command is received; unless it panics, an accept task is started for exactly the idle proxies |
| LegacyDaemon.Daemon.RerouteProxies | src/daemon.rs:106-111 | afterwards every proxy routes to its App's active service; the listening flags and the registry are unchanged |
| LegacyDaemon.Daemon.ApplyToRegistry | src/daemon.rs:128-150 | the registry becomes `ApplyEvent` of the old one; exactly the `Entered` paths get a new idle proxy on their App's port; every other entry keeps its proxy |
| LegacyDaemon.Daemon.HandleEvent | src/daemon.rs:126-152 | the watcher's handler applies the event and then routes every proxy to its App's active service; entries it did not enter keep their proxy and its listening flag; entered ones have new idle proxies on their App's port |

## Left out

- TCP is not modelled, and neither are the transfer of bytes, the per-connection task or
  the 500 ms accept timeout. Each accept is an outcome in a script.
- A failing bind in `Proxy::new` is not modelled. The listener is a token, so the
  constructor always succeeds and the `unwrap` in `from_app` never panics in the model.
  The ports the proxies hold are not tracked either, with this consequence:
  - LoadEntry, MoveEntry, ApplyToRegistry, HandleEvent, WriteIdempotent: when a file that is
    already registered is created or written again, `from_app` binds the App's listen port
    while the old proxy still holds it, and so does a rename, which inserts before it
    removes. Reading the source, that bind fails and its `unwrap` panics (the comment at
    src/daemon/mod.rs:161 says the same). The model enters the new App instead, so those
    members describe a replacement the source does not reach.
- Populate, Daemon.constructor, LoadEntry, MoveEntry, ApplyToRegistry, HandleEvent (in
  both daemons where they exist): these require every configuration that loads to name an
  active service it has. The source unwraps that lookup in `from_app`
  (src/daemon/mod.rs:32, src/daemon.rs:30) and panics on a loadable file without it, at
  start-up and in the legacy watcher callback. That panic is assumed away.
- Listen (both proxies): the event script must contain the error that ends the accept
  loop, so an accept loop that never ends is not described.
- The legacy proxy of src/proxy.rs has no `is_listening` field, but src/daemon.rs:96 reads
  one. The model gives `LegacyProxy.Proxy` that flag, false at construction and never set.
- `Arc<Mutex<…>>` locking and tokio tasks are not modelled.
  - Spawning an accept task is the set of entries returned by `Listen`.
  - The control loop taking the lock between accepts is a `Rerouted` event in the script.
- The FIFO, the named pipe, the 5 s and 20 ms intervals and the `mpsc` channel are I/O and
  timing. The channel is the `queue` sequence.
- Setting up hotwatch is not modelled. The events it delivers are the `FsEvent` values.
- `systemctl`, `fs_extra`/`std::fs` copies and writes are external processes and file
  system effects.
  - In a migration they are effects with an oracle outcome.
  - `.expect("failed to enable")` in the reload, which panics if `systemctl` cannot be
    spawned, is not modelled: the outcome names the unit that would be reloaded.
- TOML reading and writing in `App::load`/`save`: loading is a function parameter; the
  contents written are not modelled, only the path.
- `read_dir` and its `is_file` filter are I/O: the constructor takes the list of file
  paths. The `unwrap` on `read_dir` is not modelled.
- `Service::from_stdin` and the interactive prompts are user interface. `Register` starts
  from the prompted values.
- dorc-daemon/src/main.rs is not part of this model.
- Logging is left out: `log` macros and `fern`.
- The commented-out watcher in src/daemon/mod.rs is dead code, as is the empty
  `load_app`.
- The `hotwatch` field of the current daemon is never used.
- `Paths`: `..` is kept as an ordinary component, as `components()` keeps it; paths are
  not resolved against the file system. Windows prefixes are not modelled.
- The legacy `start()` awaits `watch_fifo`, which never returns, before its control loop.
  So the legacy `listen` is never reached. The model describes one call of it.
- The legacy control loop holds the daemon lock for a whole `listen`. The watcher's
  handler therefore waits for it. Interleaving is not modelled.
- The library defaults of the systemd unit are the `defaults` parameter.
- The order of a multi-step migration's effects within one service is modelled. The order
  in which the services of a `HashMap` are visited is arbitrary in the source: here it is
  also left open, and each service's result is stated separately.

## Findings

| source | as written | input that shows it | evidently intended | confidence | as-written member | corrected member |
|---|---|---|---|---|---|---|
| src/daemon.rs:73 | the legacy reload looks up the service keyed by `app.app_name` | any App built by `register`: its services are `blue-<name>` and `green-<name>`, so no service is keyed `<name>` and nothing is reloaded | reload the active service, as src/daemon/mod.rs:93 does | not executed | LegacyDaemon.LegacyReloadNeverFires | Daemon.ReloadRegisteredApp |
| src/daemon.rs:196-198 | the legacy FIFO reader passes the argument untrimmed | the client line `"reload app\n"` gives `Reload("app\n")`; the lookup key is `/etc/dorc/apps/app\n.toml`, which misses `/etc/dorc/apps/app.toml`, and the `unwrap` panics | trim the argument, as src/daemon/mod.rs:225 does | not executed | LegacyDaemon.LegacyReloadMissesEntry | Daemon.ClientReloadReachesApp |
