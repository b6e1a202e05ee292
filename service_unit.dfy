/**
 * The per-copy service record and its systemd unit (src/registration/types.rs). The
 * directives the unit leaves to the `systemd_unit` crate's `Default` implementations are
 * kept abstract: they come in as the `defaults` value and are copied unchanged.
 */
module ServiceUnit {
  import opened Wrappers
  import opened Decimal

  /** One runnable copy of an application. */
  datatype Service = Service(
    qualifiedName: string,
    workingDir: string,
    port: u16,
    onStart: string,
    onReload: Option<seq<string>>,
    onStop: Option<seq<string>>)

  /** `[Unit]`: the fields dorc sets, and the directives left at their defaults. */
  datatype Unit = Unit(name: string, requiredUnits: Option<seq<string>>, otherDirectives: map<string, string>)

  /** `[Install]`. */
  datatype Install = Install(wantedBy: Option<seq<string>>, otherDirectives: map<string, string>)

  /** The execution environment of `[Service]`. */
  datatype Exec = Exec(workingDirectory: Option<string>, otherDirectives: map<string, string>)

  /** `systemd_unit::Service`. */
  datatype SystemdService = SystemdService(
    unit: Unit,
    install: Install,
    exec: Exec,
    execStart: Option<seq<string>>,
    execReload: Option<seq<string>>,
    execStop: Option<seq<string>>,
    otherDirectives: map<string, string>)

  const MULTI_USER_TARGET := "multi-user.target"

  /**
   * `Service::to_systemd_service`. The unit is named after the service, starts it with
   * its one start command, copies its reload and stop commands, runs it in its working
   * directory, is wanted by the multi-user target and requires nothing; every other
   * directive keeps its default.
   */
  function ToSystemdService(s: Service, defaults: SystemdService): (u: SystemdService)
    ensures u.unit.name == s.qualifiedName && u.unit.requiredUnits == None
    ensures u.install.wantedBy == Some([MULTI_USER_TARGET])
    ensures u.exec.workingDirectory == Some(s.workingDir)
    ensures u.execStart == Some([s.onStart])
    ensures u.execReload == s.onReload && u.execStop == s.onStop
    ensures u.unit.otherDirectives == defaults.unit.otherDirectives
    ensures u.install.otherDirectives == defaults.install.otherDirectives
    ensures u.exec.otherDirectives == defaults.exec.otherDirectives
    ensures u.otherDirectives == defaults.otherDirectives
  {
    defaults.(
      unit := defaults.unit.(name := s.qualifiedName, requiredUnits := None),
      install := defaults.install.(wantedBy := Some([MULTI_USER_TARGET])),
      exec := defaults.exec.(workingDirectory := Some(s.workingDir)),
      execStart := Some([s.onStart]),
      execReload := s.onReload,
      execStop := s.onStop)
  }

  /** The service's port plays no part in its unit. */
  lemma UnitIgnoresPort(s: Service, port: u16, defaults: SystemdService)
    ensures ToSystemdService(s.(port := port), defaults) == ToSystemdService(s, defaults)
  {
  }

  /** Two services with the same unit agree on every field except, possibly, the port. */
  lemma UnitDeterminesService(s: Service, t: Service, defaults: SystemdService)
    requires ToSystemdService(s, defaults) == ToSystemdService(t, defaults)
    ensures s.(port := t.port) == t
  {
    assert ToSystemdService(s, defaults).execStart == Some([s.onStart]);
    assert [s.onStart][0] == s.onStart;
  }
}
