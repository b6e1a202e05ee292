/**
 * The earlier daemon of src/daemon.rs. Its registry, reload command and accept-task
 * selection have the shape of src/daemon/mod.rs, over the proxies of src/proxy.rs; in
 * addition a file watcher on the apps directory adds, replaces and removes entries as
 * configuration files change, rerouting every proxy after each event.
 */
module LegacyDaemon {
  import opened Wrappers
  import opened Paths
  import opened Apps
  import opened Fifo
  import opened LegacyProxy
  import DaemonProxy
  import Current = Daemon
  import Decimal
  import ServiceUnit

  datatype ProxiedApp = ProxiedApp(app: App, proxy: Proxy)

  /**
   * The legacy `Reload(arg)`: the App under the key is found as in the later daemon, but
   * the service reloaded is the one named like the App itself, not its active service.
   */
  function LegacyReloadTarget(apps: map<PathBuf, App>, arg: string): (r: Current.RecvOutcome)
    ensures r != Current.NoCommand
    ensures r == Current.MissingApp(Current.ReloadKey(arg)) <==> Current.ReloadKey(arg) !in apps
    ensures r.Reloaded? <==> Current.ReloadKey(arg) in apps && apps[Current.ReloadKey(arg)].appName in apps[Current.ReloadKey(arg)].subservices
    ensures r == Current.NoActiveService <==>
              Current.ReloadKey(arg) in apps && apps[Current.ReloadKey(arg)].appName !in apps[Current.ReloadKey(arg)].subservices
    ensures r.Reloaded? ==>
              var app := apps[Current.ReloadKey(arg)]; r.unitName == app.subservices[app.appName].qualifiedName
  {
    var key := Current.ReloadKey(arg);
    if key !in apps then Current.MissingApp(key)
    else
      var app := apps[key];
      if app.appName in app.subservices then Current.Reloaded(app.subservices[app.appName].qualifiedName)
      else Current.NoActiveService
  }

  /**
   * A registered App has the services `blue-<name>` and `green-<name>` and none called
   * `<name>`, so the legacy reload never reaches systemctl for it.
   */
  lemma LegacyReloadNeverFires(apps: map<PathBuf, App>, name: string, releaseDir: string, releaseBin: string,
                               listenPort: Decimal.u16, blue: ServiceUnit.Service, green: ServiceUnit.Service)
    requires var app := BuildApp(name, releaseDir, releaseBin, listenPort, blue, green);
             FromStr(SavePath(app)) in apps && apps[FromStr(SavePath(app))] == app
    ensures LegacyReloadTarget(apps, name) == Current.NoActiveService
  {
    var app := BuildApp(name, releaseDir, releaseBin, listenPort, blue, green);
    Current.ReloadFindsSavedApp(app);
    ServiceNamesDistinct(name);
    assert app.appName !in app.subservices;
  }

  /**
   * The legacy FIFO reader keeps the newline the client writes, so `"reload <name>\n"`
   * looks up `<name>\n.toml`, which is not the file the App was saved to: with only that
   * App registered, the lookup's `unwrap` panics.
   */
  lemma LegacyReloadMissesEntry(apps: map<PathBuf, App>, name: string)
    requires '/' !in name
    requires apps.Keys == {Current.EntryKey(name + ".toml")}
    ensures LegacyParseLine(RELOAD + " " + name + "\n") == Some(Reload(name + "\n"))
    ensures LegacyReloadTarget(apps, name + "\n") == Current.MissingApp(Current.ReloadKey(name + "\n"))
  {
    LegacyParseClientLine(name);
    var missed := name + "\n" + ".toml";
    var saved := name + ".toml";
    assert missed[|name|] == '\n' && '/' !in missed && |missed| > 1;
    assert '/' !in saved && |saved| > 1;
    var k := Current.EntryKey(missed);
    assert k.components[|k.components| - 1] == missed;
    assert |missed| != |saved|;
    assert k != Current.EntryKey(saved);
  }

  /** `ProxiedApp::from_app` over the legacy proxy. */
  method FromApp(app: App) returns (pa: ProxiedApp)
    requires WellFormed(app)
    ensures pa.app == app && fresh(pa.proxy)
    ensures pa.proxy.listener == DaemonProxy.Listener(app.listenPort)
    ensures pa.proxy.route == DaemonProxy.RouteTo(ActivePort(app)) && !pa.proxy.isListening
  {
    var proxy := new Proxy(app.listenPort, ActivePort(app));
    pa := ProxiedApp(app, proxy);
  }

  /** A change the file watcher reports in the apps directory. */
  datatype FsEvent =
    | Remove(path: PathBuf)
    | Create(path: PathBuf)
    | Write(path: PathBuf)
    | Rename(from: PathBuf, to: PathBuf)
    | Other

  /** The paths an event names. */
  function Touched(e: FsEvent): set<PathBuf> {
    match e
    case Remove(p) => {p}
    case Create(p) => {p}
    case Write(p) => {p}
    case Rename(a, b) => {a, b}
    case Other => {}
  }

  /**
   * The paths the handler enters a new proxy for: a created or written file that loads,
   * and the new name of a renamed file that loads, unless it is renamed onto itself.
   */
  function Entered(e: FsEvent, load: PathBuf -> Option<App>): (r: set<PathBuf>)
    ensures r <= Touched(e)
    ensures forall k :: k in r ==> load(k).Some?
    ensures e.Rename? && e.from in r ==> e.from != e.to
  {
    match e
    case Create(p) => if load(p).Some? then {p} else {}
    case Write(p) => if load(p).Some? then {p} else {}
    case Rename(a, b) => if load(b).Some? && b != a then {b} else {}
    case _ => {}
  }

  /**
   * The registry after the watcher's handler has processed one event: a removed file's
   * entry goes; a created or written file that loads is (re-)entered, one that does not
   * load changes nothing; a renamed file is entered under its new name if it loads, and
   * the entry under its old name goes.
   */
  function ApplyEvent(apps: map<PathBuf, App>, e: FsEvent, load: PathBuf -> Option<App>): (r: map<PathBuf, App>)
    ensures forall k :: k !in Touched(e) ==> (k in r <==> k in apps) && (k in r ==> r[k] == apps[k])
    ensures forall k :: k in r ==> (k in apps && r[k] == apps[k]) || load(k) == Some(r[k])
    ensures e.Remove? ==> e.path !in r
    ensures (e.Create? || e.Write?) ==>
              if load(e.path).Some? then e.path in r && r[e.path] == load(e.path).value
              else (e.path in r <==> e.path in apps) && (e.path in r ==> r[e.path] == apps[e.path])
    ensures e.Rename? ==> e.from !in r
    ensures e.Rename? && e.from != e.to ==>
              if load(e.to).Some? then e.to in r && r[e.to] == load(e.to).value
              else (e.to in r <==> e.to in apps) && (e.to in r ==> r[e.to] == apps[e.to])
  {
    match e
    case Remove(p) => apps - {p}
    case Create(p) => if load(p).Some? then apps[p := load(p).value] else apps
    case Write(p) => if load(p).Some? then apps[p := load(p).value] else apps
    case Rename(a, b) => (if load(b).Some? then apps[b := load(b).value] else apps) - {a}
    case Other => apps
  }

  /** Every entry the handler keeps or adds has its active service when every file that loads does. */
  lemma ApplyEventKeepsWellFormed(apps: map<PathBuf, App>, e: FsEvent, load: PathBuf -> Option<App>)
    requires forall k :: k in apps ==> WellFormed(apps[k])
    requires forall p :: load(p).Some? ==> WellFormed(load(p).value)
    ensures forall k :: k in ApplyEvent(apps, e, load) ==> WellFormed(ApplyEvent(apps, e, load)[k])
  {
    var r := ApplyEvent(apps, e, load);
    forall k | k in r
      ensures WellFormed(r[k])
    {
      if !(k in apps && r[k] == apps[k]) {
        assert load(k) == Some(r[k]);
      }
    }
  }

  /** Renaming a file onto its own name drops the entry, even when the file loads. */
  lemma RenameOntoItselfDrops(apps: map<PathBuf, App>, p: PathBuf, load: PathBuf -> Option<App>)
    ensures p !in ApplyEvent(apps, Rename(p, p), load)
    ensures ApplyEvent(apps, Rename(p, p), load) == apps - {p}
  {
  }

  /** Writing a file again with the same contents gives the same registry. */
  lemma {:induction false} WriteIdempotent(apps: map<PathBuf, App>, p: PathBuf, load: PathBuf -> Option<App>)
    ensures ApplyEvent(ApplyEvent(apps, Write(p), load), Write(p), load) == ApplyEvent(apps, Write(p), load)
  {
    var once := ApplyEvent(apps, Write(p), load);
    if load(p).Some? {
      assert once[p := load(p).value] == once;
    }
  }

  /** Every App of the registry has its active service. */
  ghost predicate AllWellFormed(m: map<PathBuf, ProxiedApp>) {
    forall k :: k in m ==> WellFormed(m[k].app)
  }

  /** No two entries of the registry share a proxy. */
  ghost predicate DistinctProxies(m: map<PathBuf, ProxiedApp>) {
    forall k, l :: k in m && l in m && k != l ==> m[k].proxy != m[l].proxy
  }

  function ProxiesOf(m: map<PathBuf, ProxiedApp>): set<Proxy> {
    set k | k in m :: m[k].proxy
  }

  function AppsOf(m: map<PathBuf, ProxiedApp>): map<PathBuf, App> {
    map k | k in m :: m[k].app
  }

  /** Every proxy of the registry forwards to the port of its App's active service. */
  ghost predicate Routed(m: map<PathBuf, ProxiedApp>)
    reads ProxiesOf(m)
  {
    forall k :: k in m ==> WellFormed(m[k].app) && m[k].proxy.route == DaemonProxy.RouteTo(ActivePort(m[k].app))
  }

  /** An entry with a proxy no other entry has keeps the registry well formed. */
  lemma InsertEntry(m: map<PathBuf, ProxiedApp>, key: PathBuf, pa: ProxiedApp)
    requires AllWellFormed(m) && DistinctProxies(m) && WellFormed(pa.app)
    requires forall k :: k in m ==> m[k].proxy != pa.proxy
    ensures AllWellFormed(m[key := pa]) && DistinctProxies(m[key := pa])
    ensures AppsOf(m[key := pa]) == AppsOf(m)[key := pa.app]
  {
  }

  /** An entry whose proxy is routed to its App's active service keeps every route right. */
  lemma RoutedInsert(m: map<PathBuf, ProxiedApp>, key: PathBuf, pa: ProxiedApp)
    requires Routed(m) && WellFormed(pa.app) && pa.proxy.route == DaemonProxy.RouteTo(ActivePort(pa.app))
    ensures Routed(m[key := pa])
  {
  }

  /** Removing an entry keeps the registry well formed and its routes right. */
  lemma RemoveEntry(m: map<PathBuf, ProxiedApp>, key: PathBuf)
    requires AllWellFormed(m) && DistinctProxies(m) && Routed(m)
    ensures AllWellFormed(m - {key}) && DistinctProxies(m - {key}) && Routed(m - {key})
    ensures AppsOf(m - {key}) == AppsOf(m) - {key}
  {
  }

  lemma UpdateThenRemove<K, V>(m: map<K, V>, a: K, b: K, v: V)
    requires a != b
    ensures m[b := v] - {a} == (m - {a})[b := v]
  {
  }

  lemma UpdateThenRemoveSame<K, V>(m: map<K, V>, b: K, v: V)
    ensures m[b := v] - {b} == m - {b}
  {
  }

  /** `insert(key, ProxiedApp::from_app(app))` on a registry value: the entry under `key` gets a new idle proxy. */
  method AddEntry(m: map<PathBuf, ProxiedApp>, key: PathBuf, app: App) returns (r: map<PathBuf, ProxiedApp>)
    requires AllWellFormed(m) && DistinctProxies(m) && Routed(m) && WellFormed(app)
    ensures AllWellFormed(r) && DistinctProxies(r) && Routed(r)
    ensures AppsOf(r) == AppsOf(m)[key := app]
    ensures key in r && r == m[key := r[key]]
    ensures fresh(r[key].proxy) && !r[key].proxy.isListening
    ensures r[key].proxy.listener == DaemonProxy.Listener(app.listenPort)
  {
    var pa := FromApp(app);
    assert forall k :: k in m ==> m[k].proxy != pa.proxy;
    InsertEntry(m, key, pa);
    RoutedInsert(m, key, pa);
    r := m[key := pa];
  }

  /** Every proxy of the registry is idle and listens on its App's port, as a proxy `from_app` just built. */
  ghost predicate Idle(m: map<PathBuf, ProxiedApp>)
    reads ProxiesOf(m)
  {
    forall k :: k in m ==> !m[k].proxy.isListening && m[k].proxy.listener == DaemonProxy.Listener(m[k].app.listenPort)
  }

  lemma IdleInsert(m: map<PathBuf, ProxiedApp>, key: PathBuf, pa: ProxiedApp)
    requires Idle(m) && !pa.proxy.isListening && pa.proxy.listener == DaemonProxy.Listener(pa.app.listenPort)
    ensures Idle(m[key := pa])
  {
  }

  /**
   * `Daemon::new`'s `filter_map(..).collect()` over the paths of the directory's files:
   * an entry, with a new idle proxy, for every path whose configuration loads.
   */
  method Populate(entries: seq<PathBuf>, load: PathBuf -> Option<App>) returns (m: map<PathBuf, ProxiedApp>)
    requires forall p :: p in entries && load(p).Some? ==> WellFormed(load(p).value)
    ensures AllWellFormed(m) && DistinctProxies(m) && Routed(m) && Idle(m)
    ensures AppsOf(m) == Current.LoadAll(entries, load)
    ensures forall k :: k in m ==> fresh(m[k].proxy)
  {
    m := map[];
    var i := 0;
    while i < |entries|
      invariant 0 <= i <= |entries|
      invariant AllWellFormed(m) && DistinctProxies(m) && Routed(m) && Idle(m)
      invariant AppsOf(m) == Current.LoadAll(entries[..i], load)
      invariant forall k :: k in m ==> fresh(m[k].proxy)
    {
      var key := entries[i];
      Current.LoadAllStep(entries, i, load);
      if load(key).Some? {
        assert key in entries;
        var r := AddEntry(m, key, load(key).value);
        IdleInsert(m, key, r[key]);
        m := r;
      }
      i := i + 1;
    }
    assert entries[..|entries|] == entries;
  }

  class Daemon {
    var queue: seq<Command>
    var apps: map<PathBuf, ProxiedApp>

    /** Every App has its active service, and no two entries share a proxy. */
    ghost predicate Valid()
      reads this
    {
      AllWellFormed(apps) && DistinctProxies(apps)
    }

    function Proxies(): set<Proxy>
      reads this
    {
      ProxiesOf(apps)
    }

    /** The registry without its proxies. */
    function Registry(): map<PathBuf, App>
      reads this
    {
      AppsOf(apps)
    }

    /** Every proxy forwards to the port of its App's active service. */
    ghost predicate RoutesMatchActive()
      reads this, Proxies()
    {
      Routed(apps)
    }

    /** `Daemon::new`: an entry, with a new idle proxy, for every configuration file of the directory that loads. */
    constructor (rx: seq<Command>, entries: seq<PathBuf>, load: PathBuf -> Option<App>)
      requires forall p :: p in entries && load(p).Some? ==> WellFormed(load(p).value)
      ensures Valid() && RoutesMatchActive()
      ensures queue == rx
      ensures Registry() == Current.LoadAll(entries, load)
      ensures forall k :: k in apps ==> fresh(apps[k].proxy) && !apps[k].proxy.isListening
      ensures forall k :: k in apps ==> apps[k].proxy.listener == DaemonProxy.Listener(apps[k].app.listenPort)
    {
      var m := Populate(entries, load);
      queue := rx;
      apps := m;
    }

    /** `apps.insert(key, ProxiedApp::from_app(app))`: the entry under `key` gets a new proxy; the others are kept. */
    method Insert(key: PathBuf, app: App)
      requires Valid() && RoutesMatchActive() && WellFormed(app)
      modifies this`apps
      ensures Valid() && RoutesMatchActive()
      ensures Registry() == old(Registry())[key := app]
      ensures key in apps && fresh(apps[key].proxy) && !apps[key].proxy.isListening
      ensures apps[key].proxy.listener == DaemonProxy.Listener(app.listenPort)
      ensures apps == old(apps)[key := apps[key]]
    {
      apps := AddEntry(apps, key, app);
    }

    /** `apps.remove(key)`: the entry under `key` goes; the others are kept. */
    method Delete(key: PathBuf)
      requires Valid() && RoutesMatchActive()
      modifies this`apps
      ensures Valid() && RoutesMatchActive()
      ensures Registry() == old(Registry()) - {key}
      ensures apps == old(apps) - {key}
    {
      RemoveEntry(apps, key);
      apps := apps - {key};
    }

    /** `recv_commands`: one `try_recv`; a command is answered by the legacy lookup. */
    method RecvCommands() returns (outcome: Current.RecvOutcome)
      modifies this`queue
      ensures old(queue) == [] ==> queue == [] && outcome == Current.NoCommand
      ensures old(queue) != [] ==> queue == old(queue)[1..] && outcome == LegacyReloadTarget(Registry(), old(queue)[0].arg)
    {
      if queue == [] {
        return Current.NoCommand;
      }
      var command := queue[0];
      queue := queue[1..];
      match command {
        case Reload(arg) =>
          var key := Current.ReloadKey(arg);
          if key !in apps {
            return Current.MissingApp(key);
          }
          var app := apps[key].app;
          if app.appName in app.subservices {
            outcome := Current.Reloaded(app.subservices[app.appName].qualifiedName);
          } else {
            outcome := Current.NoActiveService;
          }
      }
    }

    /** The entries the loop of `listen` spawns an accept task for: those whose proxy is not listening. */
    method SelectIdle() returns (idle: set<PathBuf>)
      ensures idle == set k | k in apps && !apps[k].proxy.isListening
    {
      idle := {};
      var todo := apps.Keys;
      while todo != {}
        invariant todo <= apps.Keys
        invariant idle == set k | k in apps && k !in todo && !apps[k].proxy.isListening
        decreases todo
      {
        var k :| k in todo;
        if !apps[k].proxy.isListening {
          idle := idle + {k};
        }
        todo := todo - {k};
      }
    }

    /** `listen`, one tick: receive at most one command, then start an accept task for every idle proxy. */
    method Listen() returns (outcome: Current.RecvOutcome, spawned: set<PathBuf>)
      modifies this`queue
      ensures old(queue) == [] ==> queue == [] && outcome == Current.NoCommand
      ensures old(queue) != [] ==> queue == old(queue)[1..] && outcome == LegacyReloadTarget(Registry(), old(queue)[0].arg)
      ensures apps == old(apps)
      ensures outcome.MissingApp? ==> spawned == {}
      ensures !outcome.MissingApp? ==> spawned == set k | k in apps && !apps[k].proxy.isListening
    {
      outcome := RecvCommands();
      if outcome.MissingApp? {
        return outcome, {};
      }
      spawned := SelectIdle();
    }

    /** `reroute_proxies`: every proxy is routed to its App's active service; nothing else changes. */
    method RerouteProxies()
      requires Valid()
      modifies Proxies()
      ensures RoutesMatchActive()
      ensures apps == old(apps)
      ensures forall k :: k in apps ==> apps[k].proxy.isListening == old(apps[k].proxy.isListening)
    {
      var todo := apps.Keys;
      while todo != {}
        invariant todo <= apps.Keys
        invariant forall k :: k in apps && k !in todo ==> apps[k].proxy.route == DaemonProxy.RouteTo(ActivePort(apps[k].app))
        invariant forall k :: k in apps ==> apps[k].proxy.isListening == old(apps[k].proxy.isListening)
        decreases todo
      {
        var k :| k in todo;
        apps[k].proxy.RerouteTo(ActivePort(apps[k].app));
        todo := todo - {k};
      }
    }

    /** `if let Ok(app) = App::load(&p) { apps.insert(p, ProxiedApp::from_app(app)) }`. */
    method LoadEntry(p: PathBuf, load: PathBuf -> Option<App>)
      requires Valid() && RoutesMatchActive()
      requires load(p).Some? ==> WellFormed(load(p).value)
      modifies this`apps
      ensures Valid() && RoutesMatchActive()
      ensures Registry() == if load(p).Some? then old(Registry())[p := load(p).value] else old(Registry())
      ensures load(p).None? ==> apps == old(apps)
      ensures load(p).Some? ==> p in apps && apps == old(apps)[p := apps[p]] && fresh(apps[p].proxy)
      ensures load(p).Some? ==> !apps[p].proxy.isListening && apps[p].proxy.listener == DaemonProxy.Listener(load(p).value.listenPort)
    {
      if load(p).Some? {
        Insert(p, load(p).value);
      }
    }

    /** The `Rename(a, b)` arm: the file under its new name is entered if it loads, then the entry under the old name goes. */
    method MoveEntry(a: PathBuf, b: PathBuf, load: PathBuf -> Option<App>)
      requires Valid() && RoutesMatchActive()
      requires load(b).Some? ==> WellFormed(load(b).value)
      modifies this`apps
      ensures Valid() && RoutesMatchActive()
      ensures Registry() == (if load(b).Some? then old(Registry())[b := load(b).value] else old(Registry())) - {a}
      ensures load(b).None? || a == b ==> apps == old(apps) - {a}
      ensures load(b).Some? && a != b ==> b in apps && apps == (old(apps) - {a})[b := apps[b]]
      ensures load(b).Some? && a != b ==>
                fresh(apps[b].proxy) && !apps[b].proxy.isListening &&
                apps[b].proxy.listener == DaemonProxy.Listener(load(b).value.listenPort)
    {
      ghost var before := apps;
      LoadEntry(b, load);
      ghost var loaded := Registry();
      ghost var entered := apps;
      Delete(a);
      assert Registry() == loaded - {a};
      if load(b).Some? {
        if a != b {
          UpdateThenRemove(before, a, b, entered[b]);
        } else {
          UpdateThenRemoveSame(before, b, entered[b]);
        }
      }
    }

    /**
     * The `match event` of the file watcher's handler: the registry change. Exactly the
     * entered paths get a new idle proxy on their App's port; every other entry is kept.
     */
    method ApplyToRegistry(e: FsEvent, load: PathBuf -> Option<App>)
      requires Valid() && RoutesMatchActive()
      requires forall p :: load(p).Some? ==> WellFormed(load(p).value)
      modifies this`apps
      ensures Valid() && RoutesMatchActive()
      ensures Registry() == ApplyEvent(old(Registry()), e, load)
      ensures forall k :: k in apps && k !in Entered(e, load) ==> k in old(apps) && apps[k] == old(apps[k])
      ensures forall k :: k in Entered(e, load) ==>
                k in apps && fresh(apps[k].proxy) && !apps[k].proxy.isListening &&
                apps[k].proxy.listener == DaemonProxy.Listener(apps[k].app.listenPort)
      ensures forall k :: k in apps ==> apps[k].proxy in old(Proxies()) || fresh(apps[k].proxy)
    {
      ghost var before := Registry();
      match e {
        case Remove(p) =>
          Delete(p);
          assert Registry() == before - {p};
        case Create(p) =>
          LoadEntry(p, load);
        case Write(p) =>
          LoadEntry(p, load);
        case Rename(a, b) =>
          MoveEntry(a, b, load);
        case Other =>
      }
    }

    /** The file watcher's handler: apply one event to the registry, then reroute every proxy. */
    method HandleEvent(e: FsEvent, load: PathBuf -> Option<App>)
      requires Valid() && RoutesMatchActive()
      requires forall p :: load(p).Some? ==> WellFormed(load(p).value)
      modifies this, Proxies()
      ensures Valid() && RoutesMatchActive()
      ensures queue == old(queue)
      ensures Registry() == ApplyEvent(old(Registry()), e, load)
      ensures forall k :: k in apps && k !in Entered(e, load) ==>
                k in old(apps) && apps[k] == old(apps[k]) && apps[k].proxy.isListening == old(apps[k].proxy.isListening)
      ensures forall k :: k in Entered(e, load) ==>
                k in apps && fresh(apps[k].proxy) && !apps[k].proxy.isListening &&
                apps[k].proxy.listener == DaemonProxy.Listener(apps[k].app.listenPort)
    {
      ApplyToRegistry(e, load);
      ghost var registry := Registry();
      RerouteProxies();
      assert Registry() == registry;
    }
  }
}
