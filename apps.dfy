/**
 * The application record and the registration steps that do not talk to the operator
 * (src/main.rs): building the App from the answers, where it is saved, and migrating a
 * release into a service as an ordered sequence of effects on the machine.
 */
module Apps {
  import opened Wrappers
  import opened Decimal
  import opened ServiceUnit

  /** One managed application: its two services, keyed by qualified name, and which is active. */
  datatype App = App(
    appName: string,
    releaseDir: string,
    releaseBin: string,
    listenPort: u16,
    activeService: string,
    subservices: map<string, Service>)

  /** The active service is one of the subservices; the daemon unwraps this lookup. */
  predicate WellFormed(app: App) {
    app.activeService in app.subservices
  }

  /** The port of the active service: the port the proxy forwards to. */
  function ActivePort(app: App): u16
    requires WellFormed(app)
  {
    app.subservices[app.activeService].port
  }

  function BlueName(appName: string): string {
    "blue-" + appName
  }

  function GreenName(appName: string): string {
    "green-" + appName
  }

  /** The two service names of an application are always different. */
  lemma ServiceNamesDistinct(appName: string)
    ensures BlueName(appName) != GreenName(appName)
    ensures BlueName(appName) != appName && GreenName(appName) != appName
  {
    assert BlueName(appName)[0] != GreenName(appName)[0];
  }

  /**
   * The App `register` builds: green is active, and the subservices are exactly the two
   * services under their names (green inserted first, then blue).
   */
  function BuildApp(appName: string, releaseDir: string, releaseBin: string, listenPort: u16,
                    blue: Service, green: Service): (app: App)
    ensures WellFormed(app)
    ensures app.appName == appName && app.listenPort == listenPort
    ensures app.releaseDir == releaseDir && app.releaseBin == releaseBin
    ensures app.activeService == GreenName(appName)
    ensures app.subservices.Keys == {BlueName(appName), GreenName(appName)} && |app.subservices| == 2
    ensures app.subservices[BlueName(appName)] == blue && app.subservices[GreenName(appName)] == green
    ensures ActivePort(app) == green.port
  {
    ServiceNamesDistinct(appName);
    var subservices := map[][GreenName(appName) := green][BlueName(appName) := blue];
    App(appName, releaseDir, releaseBin, listenPort, GreenName(appName), subservices)
  }

  const APPS_DIR := "/etc/dorc/apps/"
  const BIN_DIR := "/usr/local/bin/"
  const UNIT_DIR := "/etc/systemd/system/"

  /** `App::save` writes the configuration here. */
  function SavePath(app: App): (path: string)
    ensures path == APPS_DIR + app.appName + ".toml"
  {
    "/etc/dorc/apps/" + app.appName + ".toml"
  }

  /** One effect of `migrate_service` on the machine. */
  datatype Effect =
    | Systemctl(action: string, unitName: string)
    | CopyDirectory(source: string, destination: string)
    | CopyFile(source: string, destination: string)
    | WriteUnitFile(path: string, unit: SystemdService)

  /**
   * How an effect went. `Completed` carries the exit status of a `systemctl` call (a file
   * operation completes with 0); `Failed` is a call that returned an error: a process that
   * could not be spawned, or a copy or write that failed.
   */
  datatype EffectOutcome = Completed(exitStatus: int) | Failed

  /** What `?` lets through: anything but an error, whatever the exit status. */
  predicate Succeeded(o: EffectOutcome) {
    o.Completed?
  }

  /** The effects a migration performed, in order, and whether it returned `Ok`. */
  datatype Migration = Migration(performed: seq<Effect>, ok: bool)

  /** The steps of `migrate_service`, in the order the function takes them. */
  function MigrationPlan(app: App, service: Service, defaults: SystemdService): (plan: seq<Effect>)
    ensures |plan| == 6
    ensures plan[0] == Systemctl("stop", service.qualifiedName)
    ensures plan[1] == CopyDirectory(app.releaseDir, service.workingDir)
    ensures plan[2] == CopyFile(app.releaseBin, BIN_DIR + service.qualifiedName)
    ensures plan[3].WriteUnitFile? && plan[3].path == UNIT_DIR + service.qualifiedName + ".service"
    ensures plan[3].unit.unit.name == service.qualifiedName && plan[3].unit.execStart == Some([service.onStart])
    ensures plan[4] == Systemctl("start", service.qualifiedName)
    ensures plan[5] == Systemctl("enable", service.qualifiedName)
  {
    var name := service.qualifiedName;
    [ Systemctl("stop", name),
      CopyDirectory(app.releaseDir, service.workingDir),
      CopyFile(app.releaseBin, "/usr/local/bin/" + name),
      WriteUnitFile("/etc/systemd/system/" + name + ".service", ToSystemdService(service, defaults)),
      Systemctl("start", name),
      Systemctl("enable", name) ]
  }

  /**
   * Running a plan with `?` after every step: the steps are performed in order up to and
   * including the first one that fails, and nothing already done is undone.
   */
  function Run(plan: seq<Effect>, outcome: Effect -> EffectOutcome): (m: Migration)
    ensures |m.performed| <= |plan| && m.performed == plan[..|m.performed|]
    ensures forall i :: 0 <= i < |m.performed| - 1 ==> Succeeded(outcome(m.performed[i]))
    ensures m.ok <==> m.performed == plan && forall i :: 0 <= i < |plan| ==> Succeeded(outcome(plan[i]))
    ensures !m.ok ==> m.performed != [] && !Succeeded(outcome(m.performed[|m.performed| - 1]))
  {
    if plan == [] then Migration([], true)
    else if !Succeeded(outcome(plan[0])) then Migration([plan[0]], false)
    else
      var rest := Run(plan[1..], outcome);
      Migration([plan[0]] + rest.performed, rest.ok)
  }

  /** A step failing stops the run there: later steps are not performed. */
  lemma RunStopsAtFailure(plan: seq<Effect>, outcome: Effect -> EffectOutcome, k: nat)
    requires k < |plan| && !Succeeded(outcome(plan[k]))
    requires forall i :: 0 <= i < k ==> Succeeded(outcome(plan[i]))
    ensures Run(plan, outcome) == Migration(plan[..k + 1], false)
  {
    var m := Run(plan, outcome);
    assert m.performed == plan[..k + 1];
  }

  /**
   * `migrate_service`: stop, copy the release directory, copy the binary, write the
   * unit, start, enable; the first step that returns an error ends the migration.
   */
  method MigrateService(app: App, service: Service, defaults: SystemdService, outcome: Effect -> EffectOutcome)
    returns (m: Migration)
    ensures m == Run(MigrationPlan(app, service, defaults), outcome)
  {
    var plan := MigrationPlan(app, service, defaults);
    var done: seq<Effect> := [];
    var name := service.qualifiedName;
    var stop := Systemctl("stop", name);
    done := done + [stop];
    assert done == plan[..1];
    if !Succeeded(outcome(stop)) {
      RunStopsAtFailure(plan, outcome, 0);
      return Migration(done, false);
    }
    var copyDir := CopyDirectory(app.releaseDir, service.workingDir);
    done := done + [copyDir];
    assert done == plan[..2];
    if !Succeeded(outcome(copyDir)) {
      RunStopsAtFailure(plan, outcome, 1);
      return Migration(done, false);
    }
    var copyBin := CopyFile(app.releaseBin, "/usr/local/bin/" + name);
    done := done + [copyBin];
    assert done == plan[..3];
    if !Succeeded(outcome(copyBin)) {
      RunStopsAtFailure(plan, outcome, 2);
      return Migration(done, false);
    }
    var writeUnit := WriteUnitFile("/etc/systemd/system/" + name + ".service", ToSystemdService(service, defaults));
    done := done + [writeUnit];
    assert done == plan[..4];
    if !Succeeded(outcome(writeUnit)) {
      RunStopsAtFailure(plan, outcome, 3);
      return Migration(done, false);
    }
    var start := Systemctl("start", name);
    done := done + [start];
    assert done == plan[..5];
    if !Succeeded(outcome(start)) {
      RunStopsAtFailure(plan, outcome, 4);
      return Migration(done, false);
    }
    var enable := Systemctl("enable", name);
    done := done + [enable];
    assert done == plan[..6];
    if !Succeeded(outcome(enable)) {
      RunStopsAtFailure(plan, outcome, 5);
      return Migration(done, false);
    }
    assert done == plan;
    assert forall i :: 0 <= i < |plan| ==> Succeeded(outcome(plan[i]));
    return Migration(done, true);
  }

  /** A `systemctl` call that ran and exited non-zero does not end a migration. */
  lemma NonZeroExitDoesNotAbort(plan: seq<Effect>, outcome: Effect -> EffectOutcome)
    requires forall i :: 0 <= i < |plan| ==> outcome(plan[i]).Completed?
    ensures Run(plan, outcome) == Migration(plan, true)
  {
  }

  /**
   * The loop of `register` that migrates every subservice, in the map's iteration order.
   * A failed migration is only logged, so every service is attempted.
   */
  method MigrateAll(app: App, defaults: SystemdService, outcome: Effect -> EffectOutcome)
    returns (results: map<string, Migration>)
    ensures results.Keys == app.subservices.Keys
    ensures forall name :: name in results ==>
              results[name] == Run(MigrationPlan(app, app.subservices[name], defaults), outcome)
  {
    results := map[];
    var todo := app.subservices.Keys;
    while todo != {}
      invariant todo <= app.subservices.Keys
      invariant results.Keys == app.subservices.Keys - todo
      invariant forall name :: name in results ==>
                  results[name] == Run(MigrationPlan(app, app.subservices[name], defaults), outcome)
      decreases todo
    {
      var name :| name in todo;
      var m := MigrateService(app, app.subservices[name], defaults, outcome);
      results := results[name := m];
      todo := todo - {name};
    }
  }

  /**
   * The part of `register` after the prompts: build the App, save it, and migrate the
   * release into both services. `written` says whether `save` could create the apps
   * directory and write the file; when it could not, its `expect` panics before any
   * service is migrated. Returns the App, the file it was saved to, and the migration of
   * each service.
   */
  method Register(appName: string, releaseDir: string, releaseBin: string, listenPort: u16,
                  blue: Service, green: Service, defaults: SystemdService, written: bool,
                  outcome: Effect -> EffectOutcome)
    returns (app: App, savedTo: Option<string>, results: map<string, Migration>)
    ensures app == BuildApp(appName, releaseDir, releaseBin, listenPort, blue, green)
    ensures !written ==> savedTo == None && results == map[]
    ensures written ==> savedTo == Some(APPS_DIR + appName + ".toml")
    ensures written ==> results.Keys == {BlueName(appName), GreenName(appName)}
    ensures written ==> results[BlueName(appName)] == Run(MigrationPlan(app, blue, defaults), outcome)
    ensures written ==> results[GreenName(appName)] == Run(MigrationPlan(app, green, defaults), outcome)
  {
    app := BuildApp(appName, releaseDir, releaseBin, listenPort, blue, green);
    if !written {
      return app, None, map[];
    }
    savedTo := Some(SavePath(app));
    results := MigrateAll(app, defaults, outcome);
  }
}
