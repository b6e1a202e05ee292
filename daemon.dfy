/**
 * The daemon's registry and control loop (src/daemon/mod.rs). The registry maps the path
 * of each app configuration to the App and its proxy; the command queue is the receiving
 * end of the channel the FIFO reader sends to. Each tick takes at most one command and
 * starts an accept loop for every proxy that has none.
 */
module Daemon {
  import opened Wrappers
  import opened Paths
  import opened Apps
  import opened Fifo
  import opened Text
  import opened DaemonProxy
  import ServiceUnit

  datatype ProxiedApp = ProxiedApp(app: App, proxy: Proxy)

  /**
   * The key of a configuration file found in the apps directory: `read_dir` joins its
   * name to the directory, so the key is rooted and ends with the name.
   */
  function EntryKey(fileName: string): (k: PathBuf)
    ensures k.absolute && !k.curDir
    ensures fileName != [] && fileName != "." && '/' !in fileName ==>
              k.components != [] && k.components[|k.components| - 1] == fileName
  {
    assert APPS_DIR + fileName == "/etc/dorc/apps" + "/" + fileName;
    JoinKeepsHead("/etc/dorc/apps", fileName);
    JoinComponents("/etc/dorc/apps", fileName);
    assert fileName != [] && fileName != "." && '/' !in fileName ==> FromStr(fileName).components == [fileName] by {
      if fileName != [] && fileName != "." && '/' !in fileName {
        SingleComponent(fileName);
      }
    }
    FromStr(APPS_DIR + fileName)
  }

  /**
   * The key `Reload(arg)` looks up: `format!("{}/{}.toml", APPS_DIR, arg)`. The doubled
   * separator does not matter: it is the key of the file `<arg>.toml` of the apps directory.
   */
  function ReloadKey(arg: string): (k: PathBuf)
    ensures k == EntryKey(arg + ".toml")
  {
    var a := "/etc/dorc/apps";
    var b := arg + ".toml";
    assert APPS_DIR + "/" + arg + ".toml" == a + "//" + b;
    assert APPS_DIR + (arg + ".toml") == a + "/" + b;
    CollapseSeparator(a, b);
    FromStr(APPS_DIR + "/" + arg + ".toml")
  }

  /** A `./` in front of the argument is no component either: `reload ./app` finds `app.toml`. */
  lemma ReloadSkipsCurDir(arg: string)
    ensures ReloadKey("./" + arg) == EntryKey(arg + ".toml")
  {
    var b := arg + ".toml";
    assert APPS_DIR + ("./" + arg + ".toml") == "/etc/dorc/apps" + "/./" + b;
    assert APPS_DIR + b == "/etc/dorc/apps" + "/" + b;
    SkipCurDir("/etc/dorc/apps", b);
  }

  /** The file `register` saves an App to is the key a reload of the App's name looks up. */
  lemma ReloadFindsSavedApp(app: App)
    ensures ReloadKey(app.appName) == FromStr(SavePath(app))
  {
    assert APPS_DIR + (app.appName + ".toml") == SavePath(app);
  }

  /**
   * `Daemon::new`'s `filter_map(..).collect()` over the paths of the directory's files:
   * each path whose configuration loads is an entry, in directory order (a later
   * duplicate replaces an earlier one, as `collect` into a map does).
   */
  function LoadAll(entries: seq<PathBuf>, load: PathBuf -> Option<App>): (apps: map<PathBuf, App>)
    ensures apps.Keys == set p | p in entries && load(p).Some?
    ensures forall k :: k in apps ==> load(k) == Some(apps[k])
  {
    if entries == [] then map[]
    else
      var m := LoadAll(entries[..|entries| - 1], load);
      var key := entries[|entries| - 1];
      assert entries == entries[..|entries| - 1] + [key];
      if load(key).Some? then m[key := load(key).value] else m
  }

  lemma LoadAllStep(entries: seq<PathBuf>, i: nat, load: PathBuf -> Option<App>)
    requires i < |entries|
    ensures LoadAll(entries[..i + 1], load) ==
              if load(entries[i]).Some? then LoadAll(entries[..i], load)[entries[i] := load(entries[i]).value]
              else LoadAll(entries[..i], load)
  {
    assert entries[..i + 1][..i] == entries[..i];
  }

  /** What one `recv_commands` call does. */
  datatype RecvOutcome =
    | NoCommand                 // the queue was empty
    | MissingApp(key: PathBuf)  // no entry under the key: `unwrap` panics and the daemon stops
    | NoActiveService           // the App names an active service it does not have: nothing happens
    | Reloaded(unitName: string) // `systemctl reload <unitName>`

  /** The outcome of `Reload(arg)` against the registry: the active service of the App found under the key is reloaded. */
  function ReloadTarget(apps: map<PathBuf, App>, arg: string): (r: RecvOutcome)
    ensures r != NoCommand
    ensures r == MissingApp(ReloadKey(arg)) <==> ReloadKey(arg) !in apps
    ensures r.Reloaded? <==> ReloadKey(arg) in apps && WellFormed(apps[ReloadKey(arg)])
    ensures r == NoActiveService <==> ReloadKey(arg) in apps && !WellFormed(apps[ReloadKey(arg)])
    ensures r.Reloaded? ==>
              var app := apps[ReloadKey(arg)]; r.unitName == app.subservices[app.activeService].qualifiedName
  {
    var key := ReloadKey(arg);
    if key !in apps then MissingApp(key)
    else
      var app := apps[key];
      if app.activeService in app.subservices then Reloaded(app.subservices[app.activeService].qualifiedName)
      else NoActiveService
  }

  /** Reloading a registered App by its name restarts its green service, the active one. */
  lemma ReloadRegisteredApp(apps: map<PathBuf, App>, name: string, releaseDir: string, releaseBin: string,
                            listenPort: Decimal.u16, blue: ServiceUnit.Service, green: ServiceUnit.Service)
    requires var app := BuildApp(name, releaseDir, releaseBin, listenPort, blue, green);
             FromStr(SavePath(app)) in apps && apps[FromStr(SavePath(app))] == app
    ensures ReloadTarget(apps, name) == Reloaded(green.qualifiedName)
  {
    ReloadFindsSavedApp(BuildApp(name, releaseDir, releaseBin, listenPort, blue, green));
  }

  /**
   * From the line the client writes to the reload it causes: `"reload <name>\n"` is
   * trimmed to `name`, whose lookup key is the file the App was saved to.
   */
  lemma ClientReloadReachesApp(apps: map<PathBuf, App>, name: string, releaseDir: string, releaseBin: string,
                               listenPort: Decimal.u16, blue: ServiceUnit.Service, green: ServiceUnit.Service)
    requires Trimmed(name)
    requires var app := BuildApp(name, releaseDir, releaseBin, listenPort, blue, green);
             FromStr(SavePath(app)) in apps && apps[FromStr(SavePath(app))] == app
    ensures ParseLine(RELOAD + " " + name + "\n") == Some(Reload(name))
    ensures ReloadTarget(apps, ParseLine(RELOAD + " " + name + "\n").value.arg) == Reloaded(green.qualifiedName)
  {
    ParseClientLine(name);
    ReloadRegisteredApp(apps, name, releaseDir, releaseBin, listenPort, blue, green);
  }

  /** `ProxiedApp::from_app`: a new proxy listening on the App's port and routed to its active service. */
  method FromApp(app: App) returns (pa: ProxiedApp)
    requires WellFormed(app)
    ensures pa.app == app && fresh(pa.proxy)
    ensures pa.proxy.listener == Listener(app.listenPort)
    ensures pa.proxy.route == RouteTo(ActivePort(app)) && !pa.proxy.isListening
  {
    var proxy := new Proxy(app.listenPort, ActivePort(app));
    pa := ProxiedApp(app, proxy);
  }

  /** Every App of the registry has its active service. */
  ghost predicate AllWellFormed(m: map<PathBuf, ProxiedApp>) {
    forall k :: k in m ==> WellFormed(m[k].app)
  }

  /** No two entries of the registry share a proxy. */
  ghost predicate DistinctProxies(m: map<PathBuf, ProxiedApp>) {
    forall k, l :: k in m && l in m && k != l ==> m[k].proxy != m[l].proxy
  }

  function ProxiesOf(m: map<PathBuf, ProxiedApp>): set<Proxy> {
    set k | k in m :: m[k].proxy
  }

  function AppsOf(m: map<PathBuf, ProxiedApp>): map<PathBuf, App> {
    map k | k in m :: m[k].app
  }

  /** Every proxy of the registry forwards to the port of its App's active service. */
  ghost predicate Routed(m: map<PathBuf, ProxiedApp>)
    reads ProxiesOf(m)
  {
    forall k :: k in m ==> WellFormed(m[k].app) && m[k].proxy.route == RouteTo(ActivePort(m[k].app))
  }

  /** An entry with a proxy no other entry has keeps the registry well formed. */
  lemma InsertEntry(m: map<PathBuf, ProxiedApp>, key: PathBuf, pa: ProxiedApp)
    requires AllWellFormed(m) && DistinctProxies(m) && WellFormed(pa.app)
    requires forall k :: k in m ==> m[k].proxy != pa.proxy
    ensures AllWellFormed(m[key := pa]) && DistinctProxies(m[key := pa])
    ensures AppsOf(m[key := pa]) == AppsOf(m)[key := pa.app]
  {
  }

  /** An entry whose proxy is routed to its App's active service keeps every route right. */
  lemma RoutedInsert(m: map<PathBuf, ProxiedApp>, key: PathBuf, pa: ProxiedApp)
    requires Routed(m) && WellFormed(pa.app) && pa.proxy.route == RouteTo(ActivePort(pa.app))
    ensures Routed(m[key := pa])
  {
  }

  /** `insert(key, ProxiedApp::from_app(app))` on a registry value: the entry under `key` gets a new idle proxy. */
  method AddEntry(m: map<PathBuf, ProxiedApp>, key: PathBuf, app: App) returns (r: map<PathBuf, ProxiedApp>)
    requires AllWellFormed(m) && DistinctProxies(m) && Routed(m) && WellFormed(app)
    ensures AllWellFormed(r) && DistinctProxies(r) && Routed(r)
    ensures AppsOf(r) == AppsOf(m)[key := app]
    ensures key in r && r == m[key := r[key]]
    ensures fresh(r[key].proxy) && !r[key].proxy.isListening
    ensures r[key].proxy.listener == Listener(app.listenPort)
  {
    var pa := FromApp(app);
    assert forall k :: k in m ==> m[k].proxy != pa.proxy;
    InsertEntry(m, key, pa);
    RoutedInsert(m, key, pa);
    r := m[key := pa];
  }

  /** Every proxy of the registry is idle and listens on its App's port, as a proxy `from_app` just built. */
  ghost predicate Idle(m: map<PathBuf, ProxiedApp>)
    reads ProxiesOf(m)
  {
    forall k :: k in m ==> !m[k].proxy.isListening && m[k].proxy.listener == Listener(m[k].app.listenPort)
  }

  lemma IdleInsert(m: map<PathBuf, ProxiedApp>, key: PathBuf, pa: ProxiedApp)
    requires Idle(m) && !pa.proxy.isListening && pa.proxy.listener == Listener(pa.app.listenPort)
    ensures Idle(m[key := pa])
  {
  }

  /**
   * `Daemon::new`'s `filter_map(..).collect()` over the paths of the directory's files:
   * an entry, with a new idle proxy, for every path whose configuration loads.
   */
  method Populate(entries: seq<PathBuf>, load: PathBuf -> Option<App>) returns (m: map<PathBuf, ProxiedApp>)
    requires forall p :: p in entries && load(p).Some? ==> WellFormed(load(p).value)
    ensures AllWellFormed(m) && DistinctProxies(m) && Routed(m) && Idle(m)
    ensures AppsOf(m) == LoadAll(entries, load)
    ensures forall k :: k in m ==> fresh(m[k].proxy)
  {
    m := map[];
    var i := 0;
    while i < |entries|
      invariant 0 <= i <= |entries|
      invariant AllWellFormed(m) && DistinctProxies(m) && Routed(m) && Idle(m)
      invariant AppsOf(m) == LoadAll(entries[..i], load)
      invariant forall k :: k in m ==> fresh(m[k].proxy)
    {
      var key := entries[i];
      LoadAllStep(entries, i, load);
      if load(key).Some? {
        assert key in entries;
        var r := AddEntry(m, key, load(key).value);
        IdleInsert(m, key, r[key]);
        m := r;
      }
      i := i + 1;
    }
    assert entries[..|entries|] == entries;
  }

  class Daemon {
    var queue: seq<Command>
    var apps: map<PathBuf, ProxiedApp>

    /** Every App has its active service, and no two entries share a proxy. */
    ghost predicate Valid()
      reads this
    {
      AllWellFormed(apps) && DistinctProxies(apps)
    }

    function Proxies(): set<Proxy>
      reads this
    {
      ProxiesOf(apps)
    }

    /** The registry without its proxies. */
    function Registry(): map<PathBuf, App>
      reads this
    {
      AppsOf(apps)
    }

    /** Every proxy forwards to the port of its App's active service. */
    ghost predicate RoutesMatchActive()
      reads this, Proxies()
    {
      Routed(apps)
    }

    /** `Daemon::new`: an entry, with a new idle proxy, for every configuration file of the directory that loads. */
    constructor (rx: seq<Command>, entries: seq<PathBuf>, load: PathBuf -> Option<App>)
      requires forall p :: p in entries && load(p).Some? ==> WellFormed(load(p).value)
      ensures Valid() && RoutesMatchActive()
      ensures queue == rx
      ensures Registry() == LoadAll(entries, load)
      ensures forall k :: k in apps ==> fresh(apps[k].proxy) && !apps[k].proxy.isListening
      ensures forall k :: k in apps ==> apps[k].proxy.listener == Listener(apps[k].app.listenPort)
    {
      var m := Populate(entries, load);
      queue := rx;
      apps := m;
    }

    /**
     * `recv_commands`: one `try_recv`. An empty queue changes nothing; otherwise the first
     * command is taken and the registry is consulted, never changed.
     */
    method RecvCommands() returns (outcome: RecvOutcome)
      modifies this`queue
      ensures old(queue) == [] ==> queue == [] && outcome == NoCommand
      ensures old(queue) != [] ==> queue == old(queue)[1..] && outcome == ReloadTarget(Registry(), old(queue)[0].arg)
    {
      if queue == [] {
        return NoCommand;
      }
      var command := queue[0];
      queue := queue[1..];
      match command {
        case Reload(arg) =>
          var key := ReloadKey(arg);
          if key !in apps {
            return MissingApp(key);
          }
          var app := apps[key].app;
          if app.activeService in app.subservices {
            outcome := Reloaded(app.subservices[app.activeService].qualifiedName);
          } else {
            outcome := NoActiveService;
          }
      }
    }

    /** The entries the loop of `listen` spawns an accept task for: those whose proxy is not listening. */
    method SelectIdle() returns (idle: set<PathBuf>)
      ensures idle == set k | k in apps && !apps[k].proxy.isListening
    {
      idle := {};
      var todo := apps.Keys;
      while todo != {}
        invariant todo <= apps.Keys
        invariant idle == set k | k in apps && k !in todo && !apps[k].proxy.isListening
        decreases todo
      {
        var k :| k in todo;
        if !apps[k].proxy.isListening {
          idle := idle + {k};
        }
        todo := todo - {k};
      }
    }

    /**
     * `listen`, one tick of the control loop: receive at most one command, then start an
     * accept task for every idle proxy. A panic in the first step ends the daemon before
     * any task is started.
     */
    method Listen() returns (outcome: RecvOutcome, spawned: set<PathBuf>)
      modifies this`queue
      ensures old(queue) == [] ==> queue == [] && outcome == NoCommand
      ensures old(queue) != [] ==> queue == old(queue)[1..] && outcome == ReloadTarget(Registry(), old(queue)[0].arg)
      ensures apps == old(apps)
      ensures outcome.MissingApp? ==> spawned == {}
      ensures !outcome.MissingApp? ==> spawned == set k | k in apps && !apps[k].proxy.isListening
    {
      outcome := RecvCommands();
      if outcome.MissingApp? {
        return outcome, {};
      }
      spawned := SelectIdle();
    }

    /** `reroute_proxies`: every proxy is routed to its App's active service; nothing else changes. */
    method RerouteProxies()
      requires Valid()
      modifies Proxies()
      ensures RoutesMatchActive()
      ensures apps == old(apps)
      ensures forall k :: k in apps ==> apps[k].proxy.isListening == old(apps[k].proxy.isListening)
    {
      var todo := apps.Keys;
      while todo != {}
        invariant todo <= apps.Keys
        invariant forall k :: k in apps && k !in todo ==> apps[k].proxy.route == RouteTo(ActivePort(apps[k].app))
        invariant forall k :: k in apps ==> apps[k].proxy.isListening == old(apps[k].proxy.isListening)
        decreases todo
      {
        var k :| k in todo;
        apps[k].proxy.RerouteTo(ActivePort(apps[k].app));
        todo := todo - {k};
      }
    }
  }
}
