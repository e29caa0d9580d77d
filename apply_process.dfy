/** cmd/apply.go, `process`: the installation run. Every external step (a
    script, a helm call, a template rendering, a file write) is an oracle
    `outcome` that returns the step's error or None; the cert-manager readiness
    check is an oracle `ready` giving the check's output at each attempt. The run is a fixed
    sequence of phases: fatal steps end the run with their error, the other
    steps only log it. */
module ApplyProcess {
  import opened Wrappers
  import opened Types
  import ApplySecrets

  /** The command-line switches that skip parts of the installation. */
  datatype InstallPreferences = InstallPreferences(skipMinio: bool, skipSealedSecrets: bool, skipCreateSecrets: bool)

  /** One external step, with the values it is given. */
  datatype Step =
    | CreateNamespaces
    | HelmRepoAddStable
    | HelmRepoUpdate
    | InstallIngressController(env: seq<string>)
    | CreateSecrets(names: seq<string>)
    | PatchFnServiceAccount
    | InstallMinio
    | InstallCertManager
    | CreateFunctionsAuth
    | InstallOpenFaaS(env: seq<string>)
    | CertManagerReady(attempt: nat)
    | IngressApply
    | TlsApply
    | StackApply
    | InstallSealedSecrets
    | ExportSealedSecretPubCert
    | WritePubCert
    | CloneCloudComponents(tag: string)
    | DeployCloudComponents(env: seq<string>)

  type Outcomes = Step -> Option<string>
  /** The standard output of the cert-manager check script at each attempt. */
  type Readiness = nat -> string

  /** certManagerReady: the check's output is exactly "True". */
  const ReadyOutput := "True"

  predicate Ready(stdout: string)
  {
    stdout == ReadyOutput
  }

  /** The steps whose failure ends the run. */
  predicate Fatal(s: Step)
  {
    || s.CreateNamespaces? || s.HelmRepoAddStable? || s.HelmRepoUpdate? || s.InstallIngressController?
    || s.InstallCertManager? || s.InstallSealedSecrets? || s.WritePubCert?
    || s.CloneCloudComponents? || s.DeployCloudComponents?
  }

  /** How often cert-manager's readiness is asked for at most. */
  const Retries := 260
  const DefaultVersion := "master"
  const HostNetworkSet :=
    "ADDITIONAL_SET=,controller.hostNetwork=true,controller.daemonset.useHostPort=true,dnsPolicy=ClusterFirstWithHostNet,controller.kind=DaemonSet"

  /** strconv.FormatBool */
  function FormatBool(b: bool): string
  {
    if b then "true" else "false"
  }

  /** installIngressController's environment: host networking for `ingress: host`. */
  function IngressEnv(ingress: string): seq<string>
  {
    if ingress == "host" then [HostNetworkSet] else []
  }

  /** installOpenfaas's environment. */
  function OpenFaaSEnv(scaleToZero: bool, ingressOperator: bool): seq<string>
  {
    ["FAAS_IDLER_DRY_RUN=" + FormatBool(!scaleToZero), "INSTALL_INGRESS_OPERATOR=" + FormatBool(ingressOperator)]
  }

  /** deployCloudComponents's environment: always four entries, each empty
      unless its setting is on. */
  function DeployEnv(plan: Plan): seq<string>
  {
    [ if plan.enableOAuth then "ENABLE_OAUTH=true" else "",
      if plan.scm == GitLabSCM then "GITLAB=true" else "",
      if plan.networkPolicies then "ENABLE_NETWORK_POLICIES=true" else "",
      if plan.enableEcr then "ENABLE_AWS_ECR=true" else "" ]
  }

  /** The plan process works with: an unset OpenFaaS Cloud version becomes "master". */
  function WithDefaultVersion(plan: Plan): Plan
  {
    if plan.openFaaSCloudVersion == "" then plan.(openFaaSCloudVersion := DefaultVersion) else plan
  }

  /** What process reads from the plan, once the version is defaulted. */
  datatype Settings = Settings(
    ingressEnv: seq<string>,
    secretNames: seq<string>,
    tls: bool,
    openFaaSEnv: seq<string>,
    version: string,
    deployEnv: seq<string>)

  function SettingsOf(plan: Plan): Settings
  {
    Settings(IngressEnv(plan.ingress),
             ApplySecrets.Names(ApplySecrets.EnabledSecrets(plan.features, plan.secrets)),
             plan.tls,
             OpenFaaSEnv(plan.scaleToZero, plan.ingressOperator),
             plan.openFaaSCloudVersion,
             DeployEnv(plan))
  }

  /** The number of phases, and the phase that polls cert-manager. */
  const Phases := 19
  const PollPhase := 10

  /** The step of phase `k` (other than the poll), or None when the plan or the
      preferences skip it. */
  function Phase(k: nat, cfg: Settings, prefs: InstallPreferences): Option<Step>
    requires k < Phases && k != PollPhase
  {
    if k == 0 then Some(CreateNamespaces)
    else if k == 1 then Some(HelmRepoAddStable)
    else if k == 2 then Some(HelmRepoUpdate)
    else if k == 3 then Some(InstallIngressController(cfg.ingressEnv))
    else if k == 4 then (if prefs.skipCreateSecrets then None else Some(CreateSecrets(cfg.secretNames)))
    else if k == 5 then Some(PatchFnServiceAccount)
    else if k == 6 then (if prefs.skipMinio then None else Some(InstallMinio))
    else if k == 7 then (if cfg.tls then Some(InstallCertManager) else None)
    else if k == 8 then Some(CreateFunctionsAuth)
    else if k == 9 then Some(InstallOpenFaaS(cfg.openFaaSEnv))
    else if k == 11 then Some(IngressApply)
    else if k == 12 then (if cfg.tls then Some(TlsApply) else None)
    else if k == 13 then Some(StackApply)
    else if k == 14 then (if prefs.skipSealedSecrets then None else Some(InstallSealedSecrets))
    else if k == 15 then (if prefs.skipSealedSecrets then None else Some(ExportSealedSecretPubCert))
    else if k == 16 then (if prefs.skipSealedSecrets then None else Some(WritePubCert))
    else if k == 17 then Some(CloneCloudComponents(cfg.version))
    else Some(DeployCloudComponents(cfg.deployEnv))
  }

  /** The readiness checks from attempt `i` on: one per attempt, stopping after
      the first ready answer or the last allowed attempt. */
  function Poll(i: nat, ready: Readiness): seq<Step>
    requires i < Retries
    decreases Retries - i
  {
    [CertManagerReady(i)] + (if Ready(ready(i)) || i + 1 == Retries then [] else Poll(i + 1, ready))
  }

  /** The steps a run performed, and the error it returned. */
  datatype Run = Run(trace: seq<Step>, err: Option<string>)

  function Prepend(steps: seq<Step>, r: Run): Run
  {
    Run(steps + r.trace, r.err)
  }

  /** The run from phase `k` on. */
  function RunFrom(k: nat, cfg: Settings, prefs: InstallPreferences, outcome: Outcomes, ready: Readiness): Run
    decreases Phases - k
  {
    if k >= Phases then Run([], None)
    else if k == PollPhase then
      var rest := RunFrom(k + 1, cfg, prefs, outcome, ready);
      if cfg.tls then Prepend(Poll(0, ready), rest) else rest
    else
      match Phase(k, cfg, prefs)
      case None => RunFrom(k + 1, cfg, prefs, outcome, ready)
      case Some(s) =>
        if Fatal(s) && outcome(s).Some? then Run([s], outcome(s))
        else Prepend([s], RunFrom(k + 1, cfg, prefs, outcome, ready))
  }

  /** A phase whose step goes on to the next phase. */
  lemma Advance(k: nat, cfg: Settings, prefs: InstallPreferences, outcome: Outcomes, ready: Readiness, s: Step)
    requires k < Phases && k != PollPhase && Phase(k, cfg, prefs) == Some(s)
    requires !(Fatal(s) && outcome(s).Some?)
    ensures RunFrom(k, cfg, prefs, outcome, ready) == Prepend([s], RunFrom(k + 1, cfg, prefs, outcome, ready))
  {
  }

  /** A phase whose fatal step fails ends the run. */
  lemma Stop(k: nat, cfg: Settings, prefs: InstallPreferences, outcome: Outcomes, ready: Readiness, s: Step)
    requires k < Phases && k != PollPhase && Phase(k, cfg, prefs) == Some(s)
    requires Fatal(s) && outcome(s).Some?
    ensures RunFrom(k, cfg, prefs, outcome, ready) == Run([s], outcome(s))
  {
  }

  /** A skipped phase. */
  lemma Skip(k: nat, cfg: Settings, prefs: InstallPreferences, outcome: Outcomes, ready: Readiness)
    requires k < Phases && k != PollPhase && Phase(k, cfg, prefs) == None
    ensures RunFrom(k, cfg, prefs, outcome, ready) == RunFrom(k + 1, cfg, prefs, outcome, ready)
  {
  }

  lemma PrependAssoc(a: seq<Step>, b: seq<Step>, r: Run)
    ensures Prepend(a, Prepend(b, r)) == Prepend(a + b, r)
  {
    assert a + (b + r.trace) == (a + b) + r.trace;
  }

  /** From `trace` with `r` still to run, the run reached `trace'`: either
      a fatal step failed with `err` and the run ends there, or `r'` is still
      to run. */
  predicate Reaches(trace: seq<Step>, r: Run, trace': seq<Step>, r': Run, err: Option<string>)
  {
    if err.Some? then Prepend(trace, r) == Run(trace', err) else Prepend(trace, r) == Prepend(trace', r')
  }

  /** Running phases `k` up to `k'` took the run from `trace` to `trace'`. */
  predicate Steps(k: nat, k': nat, cfg: Settings, prefs: InstallPreferences, outcome: Outcomes, ready: Readiness,
                  trace: seq<Step>, trace': seq<Step>, err: Option<string>)
  {
    Reaches(trace, RunFrom(k, cfg, prefs, outcome, ready), trace', RunFrom(k', cfg, prefs, outcome, ready), err)
  }

  /** One phase of process whose step is fatal: its failure ends the run. */
  method Perform(k: nat, cfg: Settings, prefs: InstallPreferences, outcome: Outcomes, ready: Readiness,
                 s: Step, trace: seq<Step>) returns (trace': seq<Step>, stop: Option<string>)
    requires k < Phases && k != PollPhase && Phase(k, cfg, prefs) == Some(s) && Fatal(s)
    ensures stop == outcome(s)
    ensures Steps(k, k + 1, cfg, prefs, outcome, ready, trace, trace', stop)
  {
    trace' := trace + [s];
    stop := outcome(s);
    if stop.Some? {
      Stop(k, cfg, prefs, outcome, ready, s);
    } else {
      Advance(k, cfg, prefs, outcome, ready, s);
      PrependAssoc(trace, [s], RunFrom(k + 1, cfg, prefs, outcome, ready));
    }
  }

  /** One phase of process whose step's failure is only logged. */
  method Attempt(k: nat, cfg: Settings, prefs: InstallPreferences, outcome: Outcomes, ready: Readiness,
                 s: Step, trace: seq<Step>) returns (trace': seq<Step>)
    requires k < Phases && k != PollPhase && Phase(k, cfg, prefs) == Some(s) && !Fatal(s)
    ensures Steps(k, k + 1, cfg, prefs, outcome, ready, trace, trace', None)
  {
    trace' := trace + [s];
    var logged := outcome(s);
    Advance(k, cfg, prefs, outcome, ready, s);
    PrependAssoc(trace, [s], RunFrom(k + 1, cfg, prefs, outcome, ready));
  }

  /** A phase the plan or the preferences skip. */
  lemma Skipped(k: nat, cfg: Settings, prefs: InstallPreferences, outcome: Outcomes, ready: Readiness, trace: seq<Step>)
    requires k < Phases && k != PollPhase && Phase(k, cfg, prefs) == None
    ensures Steps(k, k + 1, cfg, prefs, outcome, ready, trace, trace, None)
  {
    Skip(k, cfg, prefs, outcome, ready);
  }

  /** Chaining two stretches of phases. */
  lemma Chain(t0: seq<Step>, r0: Run, t1: seq<Step>, r1: Run, t2: seq<Step>, r2: Run, err: Option<string>)
    requires Reaches(t0, r0, t1, r1, None)
    requires Reaches(t1, r1, t2, r2, err)
    ensures Reaches(t0, r0, t2, r2, err)
  {
  }

  /** The cert-manager poll: ask up to 260 times, stop at the first ready answer. */
  method PollCertManager(ready: Readiness) returns (attempts: seq<Step>)
    ensures attempts == Poll(0, ready)
  {
    attempts := [];
    var i := 0;
    while i < Retries
      invariant 0 <= i <= Retries
      invariant i < Retries ==> Poll(0, ready) == attempts + Poll(i, ready)
      invariant i == Retries ==> Poll(0, ready) == attempts
      decreases Retries - i
    {
      var stdout := ready(i);
      ghost var rest := if Ready(stdout) || i + 1 == Retries then [] else Poll(i + 1, ready);
      assert Poll(i, ready) == [CertManagerReady(i)] + rest;
      assert attempts + Poll(i, ready) == (attempts + [CertManagerReady(i)]) + rest;
      attempts := attempts + [CertManagerReady(i)];
      if Ready(stdout) {
        break;
      }
      i := i + 1;
    }
  }

  /** Namespaces, helm repositories and the ingress controller: all fatal. */
  method InstallBase(cfg: Settings, prefs: InstallPreferences, outcome: Outcomes, ready: Readiness, trace: seq<Step>)
    returns (trace': seq<Step>, err: Option<string>)
    ensures Steps(0, 4, cfg, prefs, outcome, ready, trace, trace', err)
  {
    var t1, t2, t3: seq<Step>;
    t1, err := Perform(0, cfg, prefs, outcome, ready, CreateNamespaces, trace);
    if err.Some? { return t1, err; }
    t2, err := Perform(1, cfg, prefs, outcome, ready, HelmRepoAddStable, t1);
    if err.Some? { return t2, err; }
    Chain(trace, RunFrom(0, cfg, prefs, outcome, ready), t1, RunFrom(1, cfg, prefs, outcome, ready), t2, RunFrom(2, cfg, prefs, outcome, ready), None);
    t3, err := Perform(2, cfg, prefs, outcome, ready, HelmRepoUpdate, t2);
    Chain(trace, RunFrom(0, cfg, prefs, outcome, ready), t2, RunFrom(2, cfg, prefs, outcome, ready), t3, RunFrom(3, cfg, prefs, outcome, ready), err);
    if err.Some? { return t3, err; }
    trace', err := Perform(3, cfg, prefs, outcome, ready, InstallIngressController(cfg.ingressEnv), t3);
    Chain(trace, RunFrom(0, cfg, prefs, outcome, ready), t3, RunFrom(3, cfg, prefs, outcome, ready), trace', RunFrom(4, cfg, prefs, outcome, ready), err);
  }

  /** createSecrets, unless skipped: a failure is only logged. */
  method CreateSecretsStage(plan: Plan, cfg: Settings, prefs: InstallPreferences, outcome: Outcomes, ready: Readiness,
                            trace: seq<Step>) returns (trace': seq<Step>)
    requires cfg.secretNames == ApplySecrets.Names(ApplySecrets.EnabledSecrets(plan.features, plan.secrets))
    ensures Steps(4, 5, cfg, prefs, outcome, ready, trace, trace', None)
  {
    if prefs.skipCreateSecrets {
      Skipped(4, cfg, prefs, outcome, ready, trace);
      return trace;
    }
    var created := ApplySecrets.CreateSecrets(plan);
    trace' := Attempt(4, cfg, prefs, outcome, ready, CreateSecrets(ApplySecrets.Names(created)), trace);
  }

  /** Minio, unless skipped: a failure is only logged. */
  method MinioStage(cfg: Settings, prefs: InstallPreferences, outcome: Outcomes, ready: Readiness, trace: seq<Step>)
    returns (trace': seq<Step>)
    ensures Steps(6, 7, cfg, prefs, outcome, ready, trace, trace', None)
  {
    if prefs.skipMinio {
      Skipped(6, cfg, prefs, outcome, ready, trace);
      return trace;
    }
    trace' := Attempt(6, cfg, prefs, outcome, ready, InstallMinio, trace);
  }

  /** Secrets, the service account patch and Minio: failures are only logged. */
  method InstallSecrets(plan: Plan, cfg: Settings, prefs: InstallPreferences, outcome: Outcomes, ready: Readiness,
                        trace: seq<Step>) returns (trace': seq<Step>)
    requires cfg.secretNames == ApplySecrets.Names(ApplySecrets.EnabledSecrets(plan.features, plan.secrets))
    ensures Steps(4, 7, cfg, prefs, outcome, ready, trace, trace', None)
  {
    var t1, t2: seq<Step>;
    t1 := CreateSecretsStage(plan, cfg, prefs, outcome, ready, trace);
    t2 := Attempt(5, cfg, prefs, outcome, ready, PatchFnServiceAccount, t1);
    Chain(trace, RunFrom(4, cfg, prefs, outcome, ready), t1, RunFrom(5, cfg, prefs, outcome, ready), t2, RunFrom(6, cfg, prefs, outcome, ready), None);
    trace' := MinioStage(cfg, prefs, outcome, ready, t2);
    Chain(trace, RunFrom(4, cfg, prefs, outcome, ready), t2, RunFrom(6, cfg, prefs, outcome, ready), trace', RunFrom(7, cfg, prefs, outcome, ready), None);
  }

  /** cert-manager, when TLS is on: fatal. */
  method CertManagerStage(cfg: Settings, prefs: InstallPreferences, outcome: Outcomes, ready: Readiness, trace: seq<Step>)
    returns (trace': seq<Step>, err: Option<string>)
    ensures Steps(7, 8, cfg, prefs, outcome, ready, trace, trace', err)
  {
    if !cfg.tls {
      Skipped(7, cfg, prefs, outcome, ready, trace);
      return trace, None;
    }
    trace', err := Perform(7, cfg, prefs, outcome, ready, InstallCertManager, trace);
  }

  /** cert-manager, functions auth and OpenFaaS. */
  method InstallOpenFaaSStage(cfg: Settings, prefs: InstallPreferences, outcome: Outcomes, ready: Readiness, trace: seq<Step>)
    returns (trace': seq<Step>, err: Option<string>)
    ensures Steps(7, 10, cfg, prefs, outcome, ready, trace, trace', err)
  {
    var t1, t2: seq<Step>;
    t1, err := CertManagerStage(cfg, prefs, outcome, ready, trace);
    if err.Some? { return t1, err; }
    t2 := Attempt(8, cfg, prefs, outcome, ready, CreateFunctionsAuth, t1);
    Chain(trace, RunFrom(7, cfg, prefs, outcome, ready), t1, RunFrom(8, cfg, prefs, outcome, ready), t2, RunFrom(9, cfg, prefs, outcome, ready), None);
    trace' := Attempt(9, cfg, prefs, outcome, ready, InstallOpenFaaS(cfg.openFaaSEnv), t2);
    Chain(trace, RunFrom(7, cfg, prefs, outcome, ready), t2, RunFrom(9, cfg, prefs, outcome, ready), trace', RunFrom(10, cfg, prefs, outcome, ready), None);
    err := None;
  }

  /** Waiting for cert-manager, when TLS is on. */
  method WaitForCertManager(cfg: Settings, prefs: InstallPreferences, outcome: Outcomes, ready: Readiness, trace: seq<Step>)
    returns (trace': seq<Step>)
    ensures Steps(10, 11, cfg, prefs, outcome, ready, trace, trace', None)
  {
    if cfg.tls {
      var attempts := PollCertManager(ready);
      PrependAssoc(trace, attempts, RunFrom(PollPhase + 1, cfg, prefs, outcome, ready));
      trace' := trace + attempts;
    } else {
      trace' := trace;
    }
  }

  /** The TLS issuer templates, when TLS is on: a failure is only logged. */
  method TlsStage(cfg: Settings, prefs: InstallPreferences, outcome: Outcomes, ready: Readiness, trace: seq<Step>)
    returns (trace': seq<Step>)
    ensures Steps(12, 13, cfg, prefs, outcome, ready, trace, trace', None)
  {
    if !cfg.tls {
      Skipped(12, cfg, prefs, outcome, ready, trace);
      return trace;
    }
    trace' := Attempt(12, cfg, prefs, outcome, ready, TlsApply, trace);
  }

  /** The ingress, TLS and stack templates: failures are only logged. */
  method ApplyTemplates(cfg: Settings, prefs: InstallPreferences, outcome: Outcomes, ready: Readiness, trace: seq<Step>)
    returns (trace': seq<Step>)
    ensures Steps(11, 14, cfg, prefs, outcome, ready, trace, trace', None)
  {
    var t1, t2: seq<Step>;
    t1 := Attempt(11, cfg, prefs, outcome, ready, IngressApply, trace);
    t2 := TlsStage(cfg, prefs, outcome, ready, t1);
    Chain(trace, RunFrom(11, cfg, prefs, outcome, ready), t1, RunFrom(12, cfg, prefs, outcome, ready), t2, RunFrom(13, cfg, prefs, outcome, ready), None);
    trace' := Attempt(13, cfg, prefs, outcome, ready, StackApply, t2);
    Chain(trace, RunFrom(11, cfg, prefs, outcome, ready), t2, RunFrom(13, cfg, prefs, outcome, ready), trace', RunFrom(14, cfg, prefs, outcome, ready), None);
  }

  /** SealedSecrets and its public certificate. */
  method InstallSealedSecretsStage(cfg: Settings, prefs: InstallPreferences, outcome: Outcomes, ready: Readiness, trace: seq<Step>)
    returns (trace': seq<Step>, err: Option<string>)
    ensures Steps(14, 17, cfg, prefs, outcome, ready, trace, trace', err)
  {
    if prefs.skipSealedSecrets {
      Skipped(14, cfg, prefs, outcome, ready, trace);
      Skipped(15, cfg, prefs, outcome, ready, trace);
      Skipped(16, cfg, prefs, outcome, ready, trace);
      return trace, None;
    }
    var t1, t2: seq<Step>;
    t1, err := Perform(14, cfg, prefs, outcome, ready, InstallSealedSecrets, trace);
    if err.Some? { return t1, err; }
    t2 := Attempt(15, cfg, prefs, outcome, ready, ExportSealedSecretPubCert, t1);
    Chain(trace, RunFrom(14, cfg, prefs, outcome, ready), t1, RunFrom(15, cfg, prefs, outcome, ready), t2, RunFrom(16, cfg, prefs, outcome, ready), None);
    trace', err := Perform(16, cfg, prefs, outcome, ready, WritePubCert, t2);
    Chain(trace, RunFrom(14, cfg, prefs, outcome, ready), t2, RunFrom(16, cfg, prefs, outcome, ready), trace', RunFrom(17, cfg, prefs, outcome, ready), err);
  }

  /** Cloning and deploying the OpenFaaS Cloud components: both fatal. */
  method DeployCloud(cfg: Settings, prefs: InstallPreferences, outcome: Outcomes, ready: Readiness, trace: seq<Step>)
    returns (trace': seq<Step>, err: Option<string>)
    ensures err.None? ==> Prepend(trace, RunFrom(17, cfg, prefs, outcome, ready)) == Run(trace', None)
    ensures err.Some? ==> Prepend(trace, RunFrom(17, cfg, prefs, outcome, ready)) == Run(trace', err)
  {
    var t1: seq<Step>;
    t1, err := Perform(17, cfg, prefs, outcome, ready, CloneCloudComponents(cfg.version), trace);
    if err.Some? { return t1, err; }
    trace', err := Perform(18, cfg, prefs, outcome, ready, DeployCloudComponents(cfg.deployEnv), t1);
    assert Steps(17, 19, cfg, prefs, outcome, ready, trace, trace', err);
  }

  /** process: the phases in order; returns the steps performed and the error
      that ended the run, if any. */
  method Process(plan0: Plan, prefs: InstallPreferences, outcome: Outcomes, ready: Readiness)
    returns (trace: seq<Step>, err: Option<string>)
    ensures Run(trace, err) == RunFrom(0, SettingsOf(WithDefaultVersion(plan0)), prefs, outcome, ready)
    ensures Follows(Run(trace, err), Planned(0, SettingsOf(WithDefaultVersion(plan0)), prefs, ready), outcome)
  {
    var plan := plan0;
    if plan.openFaaSCloudVersion == "" {
      plan := plan.(openFaaSCloudVersion := DefaultVersion);
    }
    var cfg := SettingsOf(plan);
    RunFromSpec(0, cfg, prefs, outcome, ready);
    var t1, t2, t3, t4, t5, t6: seq<Step>;
    t1, err := InstallBase(cfg, prefs, outcome, ready, []);
    assert Prepend([], RunFrom(0, cfg, prefs, outcome, ready)) == RunFrom(0, cfg, prefs, outcome, ready);
    if err.Some? { return t1, err; }
    t2 := InstallSecrets(plan, cfg, prefs, outcome, ready, t1);
    Chain([], RunFrom(0, cfg, prefs, outcome, ready), t1, RunFrom(4, cfg, prefs, outcome, ready), t2, RunFrom(7, cfg, prefs, outcome, ready), None);
    t3, err := InstallOpenFaaSStage(cfg, prefs, outcome, ready, t2);
    Chain([], RunFrom(0, cfg, prefs, outcome, ready), t2, RunFrom(7, cfg, prefs, outcome, ready), t3, RunFrom(10, cfg, prefs, outcome, ready), err);
    if err.Some? { return t3, err; }
    t4 := WaitForCertManager(cfg, prefs, outcome, ready, t3);
    Chain([], RunFrom(0, cfg, prefs, outcome, ready), t3, RunFrom(10, cfg, prefs, outcome, ready), t4, RunFrom(11, cfg, prefs, outcome, ready), None);
    t5 := ApplyTemplates(cfg, prefs, outcome, ready, t4);
    Chain([], RunFrom(0, cfg, prefs, outcome, ready), t4, RunFrom(11, cfg, prefs, outcome, ready), t5, RunFrom(14, cfg, prefs, outcome, ready), None);
    t6, err := InstallSealedSecretsStage(cfg, prefs, outcome, ready, t5);
    Chain([], RunFrom(0, cfg, prefs, outcome, ready), t5, RunFrom(14, cfg, prefs, outcome, ready), t6, RunFrom(17, cfg, prefs, outcome, ready), err);
    if err.Some? { return t6, err; }
    trace, err := DeployCloud(cfg, prefs, outcome, ready, t6);
  }

  // ---- What a run does ----

  /** The steps from phase `k` on when no step fails: an independent,
      phase-by-phase reference for the run. */
  function Planned(k: nat, cfg: Settings, prefs: InstallPreferences, ready: Readiness): seq<Step>
    decreases Phases - k
  {
    if k >= Phases then []
    else if k == PollPhase then (if cfg.tls then Poll(0, ready) else []) + Planned(k + 1, cfg, prefs, ready)
    else
      match Phase(k, cfg, prefs)
      case None => Planned(k + 1, cfg, prefs, ready)
      case Some(s) => [s] + Planned(k + 1, cfg, prefs, ready)
  }

  /** No fatal step among `steps` fails. */
  predicate NoFatalFailure(steps: seq<Step>, outcome: Outcomes)
  {
    forall i | 0 <= i < |steps| :: !(Fatal(steps[i]) && outcome(steps[i]).Some?)
  }

  /** The readiness poll: at least one attempt and at most 260, numbered
      from `i`; every attempt but the last was not ready, and the last was
      ready or the 260th. */
  lemma {:induction false} PollSpec(i: nat, ready: Readiness)
    requires i < Retries
    ensures var p := Poll(i, ready);
      && 1 <= |p| <= Retries - i
      && (forall j | 0 <= j < |p| :: p[j] == CertManagerReady(i + j))
      && (forall a | i <= a < i + |p| - 1 :: !Ready(ready(a)))
      && (Ready(ready(i + |p| - 1)) || i + |p| == Retries)
    decreases Retries - i
  {
    if !(Ready(ready(i)) || i + 1 == Retries) {
      PollSpec(i + 1, ready);
      var p, q := Poll(i, ready), Poll(i + 1, ready);
      assert p == [CertManagerReady(i)] + q;
      forall j | 0 <= j < |p|
        ensures p[j] == CertManagerReady(i + j)
      {
        if j > 0 { assert p[j] == q[j - 1]; }
      }
    }
  }

  /** The poll never fails the run. */
  lemma PollNeverFatal(ready: Readiness, outcome: Outcomes)
    ensures NoFatalFailure(Poll(0, ready), outcome)
  {
    PollSpec(0, ready);
  }

  lemma {:induction false} NoFatalFailureAppend(a: seq<Step>, b: seq<Step>, outcome: Outcomes)
    ensures NoFatalFailure(a + b, outcome) <==> NoFatalFailure(a, outcome) && NoFatalFailure(b, outcome)
  {
    if NoFatalFailure(a, outcome) && NoFatalFailure(b, outcome) {
      forall i | 0 <= i < |a + b|
        ensures !(Fatal((a + b)[i]) && outcome((a + b)[i]).Some?)
      {
        if i >= |a| { assert (a + b)[i] == b[i - |a|]; }
      }
    }
    if NoFatalFailure(a + b, outcome) {
      forall i | 0 <= i < |a|
        ensures !(Fatal(a[i]) && outcome(a[i]).Some?)
      {
        assert (a + b)[i] == a[i];
      }
      forall i | 0 <= i < |b|
        ensures !(Fatal(b[i]) && outcome(b[i]).Some?)
      {
        assert (a + b)[|a| + i] == b[i];
      }
    }
  }

  /** Run `r` performed planned steps `p` in order. It ended without error
      exactly when no fatal step of `p` fails, and then it performed all of
      `p`; otherwise it stopped right after the first fatal step that failed
      and returned that step's error. */
  predicate Follows(r: Run, p: seq<Step>, outcome: Outcomes)
  {
    && (r.err.None? <==> NoFatalFailure(p, outcome))
    && (r.err.None? ==> r.trace == p)
    && (r.err.Some? ==>
          && 0 < |r.trace| <= |p|
          && r.trace == p[..|r.trace|]
          && Fatal(r.trace[|r.trace| - 1])
          && r.err == outcome(r.trace[|r.trace| - 1])
          && NoFatalFailure(r.trace[..|r.trace| - 1], outcome))
  }

  /** Steps that do not end the run, followed by a run that follows its plan. */
  lemma {:induction false} FollowsPrepend(q: seq<Step>, r: Run, p: seq<Step>, outcome: Outcomes)
    requires NoFatalFailure(q, outcome) && Follows(r, p, outcome)
    ensures Follows(Prepend(q, r), q + p, outcome)
  {
    NoFatalFailureAppend(q, p, outcome);
    if r.err.Some? {
      var n := |r.trace|;
      assert (q + r.trace)[..|q| + n] == q + p[..n];
      assert (q + r.trace)[..|q| + n - 1] == q + r.trace[..n - 1];
      NoFatalFailureAppend(q, r.trace[..n - 1], outcome);
    }
  }

  /** A fatal step that fails ends the run. */
  lemma {:induction false} FollowsStop(s: Step, p: seq<Step>, outcome: Outcomes)
    requires Fatal(s) && outcome(s).Some?
    ensures Follows(Run([s], outcome(s)), [s] + p, outcome)
  {
    assert ([s] + p)[..1] == [s];
    assert !NoFatalFailure([s] + p, outcome) by {
      assert ([s] + p)[0] == s;
    }
    assert NoFatalFailure([s][..0], outcome);
  }

  /** One ordinary phase keeps the run on its plan. */
  lemma PhaseFollows(k: nat, cfg: Settings, prefs: InstallPreferences, outcome: Outcomes, ready: Readiness)
    requires k < Phases && k != PollPhase
    requires Follows(RunFrom(k + 1, cfg, prefs, outcome, ready), Planned(k + 1, cfg, prefs, ready), outcome)
    ensures Follows(RunFrom(k, cfg, prefs, outcome, ready), Planned(k, cfg, prefs, ready), outcome)
  {
    var r', p' := RunFrom(k + 1, cfg, prefs, outcome, ready), Planned(k + 1, cfg, prefs, ready);
    var ph := Phase(k, cfg, prefs);
    if ph.Some? {
      var s := ph.value;
      if Fatal(s) && outcome(s).Some? {
        FollowsStop(s, p', outcome);
      } else {
        assert NoFatalFailure([s], outcome);
        FollowsPrepend([s], r', p', outcome);
      }
    }
  }

  /** The poll phase keeps the run on its plan. */
  lemma PollFollows(cfg: Settings, prefs: InstallPreferences, outcome: Outcomes, ready: Readiness)
    requires Follows(RunFrom(PollPhase + 1, cfg, prefs, outcome, ready), Planned(PollPhase + 1, cfg, prefs, ready), outcome)
    ensures Follows(RunFrom(PollPhase, cfg, prefs, outcome, ready), Planned(PollPhase, cfg, prefs, ready), outcome)
  {
    var r', p' := RunFrom(PollPhase + 1, cfg, prefs, outcome, ready), Planned(PollPhase + 1, cfg, prefs, ready);
    if cfg.tls {
      var q := Poll(0, ready);
      assert RunFrom(PollPhase, cfg, prefs, outcome, ready) == Prepend(q, r');
      assert Planned(PollPhase, cfg, prefs, ready) == q + p';
      PollNeverFatal(ready, outcome);
      FollowsPrepend(q, r', p', outcome);
    } else {
      assert Planned(PollPhase, cfg, prefs, ready) == [] + p' == p';
    }
  }

  /** A run from phase `k` follows the planned steps from phase `k`. */
  lemma {:induction false} RunFromSpec(k: nat, cfg: Settings, prefs: InstallPreferences, outcome: Outcomes, ready: Readiness)
    ensures Follows(RunFrom(k, cfg, prefs, outcome, ready), Planned(k, cfg, prefs, ready), outcome)
    decreases Phases - k
  {
    if k >= Phases {
      assert NoFatalFailure([], outcome);
    } else {
      RunFromSpec(k + 1, cfg, prefs, outcome, ready);
      if k == PollPhase {
        PollFollows(cfg, prefs, outcome, ready);
      } else {
        PhaseFollows(k, cfg, prefs, outcome, ready);
      }
    }
  }

  /** Failures of steps that are not fatal change nothing: two oracles that
      agree on the fatal steps give the same run. */
  lemma {:induction false} SoftFailuresIgnored(k: nat, cfg: Settings, prefs: InstallPreferences,
                                               outcome1: Outcomes, outcome2: Outcomes, ready: Readiness)
    requires forall s: Step | Fatal(s) :: outcome1(s) == outcome2(s)
    ensures RunFrom(k, cfg, prefs, outcome1, ready) == RunFrom(k, cfg, prefs, outcome2, ready)
    decreases Phases - k
  {
    if k < Phases {
      SoftFailuresIgnored(k + 1, cfg, prefs, outcome1, outcome2, ready);
    }
  }

  // ---- The order of the installation ----

  function When(b: bool, steps: seq<Step>): seq<Step>
  {
    if b then steps else []
  }

  /** The installation order when nothing fails: namespaces, helm
      repositories, the ingress controller, secrets, the service account
      patch, Minio, cert-manager, functions auth, OpenFaaS, the readiness
      poll, the ingress, TLS and stack templates, SealedSecrets and its
      certificate, then cloning and deploying the cloud components; each
      optional step present exactly when its setting asks for it. */
  lemma PlannedOrder(cfg: Settings, prefs: InstallPreferences, ready: Readiness)
    ensures Planned(0, cfg, prefs, ready)
         == [CreateNamespaces, HelmRepoAddStable, HelmRepoUpdate, InstallIngressController(cfg.ingressEnv)]
            + (When(!prefs.skipCreateSecrets, [CreateSecrets(cfg.secretNames)])
            + ([PatchFnServiceAccount]
            + (When(!prefs.skipMinio, [InstallMinio])
            + (When(cfg.tls, [InstallCertManager])
            + ([CreateFunctionsAuth, InstallOpenFaaS(cfg.openFaaSEnv)]
            + (When(cfg.tls, Poll(0, ready))
            + ([IngressApply]
            + (When(cfg.tls, [TlsApply])
            + ([StackApply]
            + (When(!prefs.skipSealedSecrets, [InstallSealedSecrets, ExportSealedSecretPubCert, WritePubCert])
            + [CloneCloudComponents(cfg.version), DeployCloudComponents(cfg.deployEnv)]))))))))))
  {
    PlannedFrom0(cfg, prefs, ready);
    PlannedFrom4(cfg, prefs, ready);
    PlannedFrom7(cfg, prefs, ready);
    PlannedFrom11(cfg, prefs, ready);
    PlannedFrom14(cfg, prefs, ready);
  }

  /** The step of an ordinary phase, as a sequence of zero or one steps. */
  function PhaseSteps(k: nat, cfg: Settings, prefs: InstallPreferences): seq<Step>
    requires k < Phases && k != PollPhase
  {
    match Phase(k, cfg, prefs)
    case None => []
    case Some(s) => [s]
  }

  lemma PlannedStep(k: nat, cfg: Settings, prefs: InstallPreferences, ready: Readiness)
    requires k < Phases && k != PollPhase
    ensures Planned(k, cfg, prefs, ready) == PhaseSteps(k, cfg, prefs) + Planned(k + 1, cfg, prefs, ready)
  {
  }

  /** Associativity steps that turn a literal list followed by `p` into the
      right-nested form PlannedStep produces; kept apart from the lemmas that
      unfold Planned so that each proof stays small. */
  lemma Cons2(a: Step, b: Step, p: seq<Step>)
    ensures [a, b] + p == [a] + ([b] + p)
  {
  }

  lemma Cons3(a: Step, b: Step, c: Step, p: seq<Step>)
    ensures [a, b, c] + p == [a] + ([b] + ([c] + p))
  {
  }

  lemma Cons4(a: Step, b: Step, c: Step, d: Step, p: seq<Step>)
    ensures [a, b, c, d] + p == [a] + ([b] + ([c] + ([d] + p)))
  {
  }

  lemma PlannedFrom0(cfg: Settings, prefs: InstallPreferences, ready: Readiness)
    ensures Planned(0, cfg, prefs, ready)
         == [CreateNamespaces, HelmRepoAddStable, HelmRepoUpdate, InstallIngressController(cfg.ingressEnv)]
            + Planned(4, cfg, prefs, ready)
  {
    PlannedStep(0, cfg, prefs, ready);
    PlannedStep(1, cfg, prefs, ready);
    PlannedStep(2, cfg, prefs, ready);
    PlannedStep(3, cfg, prefs, ready);
    Cons4(CreateNamespaces, HelmRepoAddStable, HelmRepoUpdate, InstallIngressController(cfg.ingressEnv),
          Planned(4, cfg, prefs, ready));
  }

  lemma PlannedFrom4(cfg: Settings, prefs: InstallPreferences, ready: Readiness)
    ensures Planned(4, cfg, prefs, ready)
         == When(!prefs.skipCreateSecrets, [CreateSecrets(cfg.secretNames)])
            + ([PatchFnServiceAccount] + (When(!prefs.skipMinio, [InstallMinio]) + Planned(7, cfg, prefs, ready)))
  {
    PlannedStep(4, cfg, prefs, ready);
    PlannedStep(5, cfg, prefs, ready);
    PlannedStep(6, cfg, prefs, ready);
  }

  lemma PlannedFrom7(cfg: Settings, prefs: InstallPreferences, ready: Readiness)
    ensures Planned(7, cfg, prefs, ready)
         == When(cfg.tls, [InstallCertManager])
            + ([CreateFunctionsAuth, InstallOpenFaaS(cfg.openFaaSEnv)]
            + (When(cfg.tls, Poll(0, ready)) + Planned(11, cfg, prefs, ready)))
  {
    PlannedStep(7, cfg, prefs, ready);
    PlannedStep(8, cfg, prefs, ready);
    PlannedStep(9, cfg, prefs, ready);
    assert Planned(PollPhase, cfg, prefs, ready) == When(cfg.tls, Poll(0, ready)) + Planned(11, cfg, prefs, ready);
    Cons2(CreateFunctionsAuth, InstallOpenFaaS(cfg.openFaaSEnv), Planned(PollPhase, cfg, prefs, ready));
  }

  lemma PlannedFrom11(cfg: Settings, prefs: InstallPreferences, ready: Readiness)
    ensures Planned(11, cfg, prefs, ready)
         == [IngressApply] + (When(cfg.tls, [TlsApply]) + ([StackApply] + Planned(14, cfg, prefs, ready)))
  {
    PlannedStep(11, cfg, prefs, ready);
    PlannedStep(12, cfg, prefs, ready);
    PlannedStep(13, cfg, prefs, ready);
  }

  lemma PlannedFrom14(cfg: Settings, prefs: InstallPreferences, ready: Readiness)
    ensures Planned(14, cfg, prefs, ready)
         == When(!prefs.skipSealedSecrets, [InstallSealedSecrets, ExportSealedSecretPubCert, WritePubCert])
            + [CloneCloudComponents(cfg.version), DeployCloudComponents(cfg.deployEnv)]
  {
    PlannedStep(14, cfg, prefs, ready);
    PlannedStep(15, cfg, prefs, ready);
    PlannedStep(16, cfg, prefs, ready);
    PlannedStep(17, cfg, prefs, ready);
    PlannedStep(18, cfg, prefs, ready);
    var p := [CloneCloudComponents(cfg.version), DeployCloudComponents(cfg.deployEnv)];
    assert Planned(Phases, cfg, prefs, ready) == [];
    assert Planned(17, cfg, prefs, ready) == p;
    if !prefs.skipSealedSecrets {
      Cons3(InstallSealedSecrets, ExportSealedSecretPubCert, WritePubCert, p);
    }
  }

  // ---- What process reads from the plan ----

  /** The cloud components are always cloned at a named version: the plan's,
      or "master" when the plan leaves it empty. */
  lemma CloneTagDefaulted(plan: Plan)
    ensures SettingsOf(WithDefaultVersion(plan)).version != ""
    ensures plan.openFaaSCloudVersion != "" ==> SettingsOf(WithDefaultVersion(plan)).version == plan.openFaaSCloudVersion
    ensures plan.openFaaSCloudVersion == "" ==> SettingsOf(WithDefaultVersion(plan)).version == DefaultVersion
  {
  }

  /** installIngressController: host networking exactly for a host ingress. */
  lemma IngressEnvSpec(ingress: string)
    ensures IngressEnv(ingress) != [] <==> ingress == "host"
    ensures |IngressEnv(ingress)| <= 1
  {
  }

  /** installOpenfaas: the idler runs dry exactly when scale to zero is off,
      and the ingress operator switch is passed through. */
  lemma OpenFaaSEnvSpec(scaleToZero: bool, ingressOperator: bool)
    ensures |OpenFaaSEnv(scaleToZero, ingressOperator)| == 2
    ensures OpenFaaSEnv(scaleToZero, ingressOperator)[0] == "FAAS_IDLER_DRY_RUN=true" <==> !scaleToZero
    ensures OpenFaaSEnv(scaleToZero, ingressOperator)[1] == "INSTALL_INGRESS_OPERATOR=true" <==> ingressOperator
  {
    assert "FAAS_IDLER_DRY_RUN=" + FormatBool(false) != "FAAS_IDLER_DRY_RUN=true" by {
      assert ("FAAS_IDLER_DRY_RUN=" + FormatBool(false))[19] == 'f';
    }
    assert "INSTALL_INGRESS_OPERATOR=" + FormatBool(false) != "INSTALL_INGRESS_OPERATOR=true" by {
      assert ("INSTALL_INGRESS_OPERATOR=" + FormatBool(false))[25] == 'f';
    }
  }

  /** deployCloudComponents: always four entries, each empty unless its
      setting is on. */
  lemma DeployEnvSpec(plan: Plan)
    ensures |DeployEnv(plan)| == 4
    ensures DeployEnv(plan)[0] != "" <==> plan.enableOAuth
    ensures DeployEnv(plan)[1] != "" <==> plan.scm == GitLabSCM
    ensures DeployEnv(plan)[2] != "" <==> plan.networkPolicies
    ensures DeployEnv(plan)[3] != "" <==> plan.enableEcr
  {
  }
}
