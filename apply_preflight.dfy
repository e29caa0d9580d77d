/** cmd/apply.go, the checks made before anything is installed: that the tools
    answer, that the files the enabled secrets read exist, and that the registry
    credentials file is usable. Running a tool, `os.Stat` and reading a file are
    oracles. */
module ApplyPreflight {
  import opened Wrappers
  import opened GoStrings
  import opened Types
  import ApplyFeatures
  import Validators
  import Base64

  /** What running a tool's command line gives: an execution error, or its stdout. */
  datatype ToolRun = RunError(error: string) | Stdout(out: string)

  /** taskGivesStdout: None when the tool ran and printed something. */
  function ToolCheck(tool: string, run: string -> ToolRun): (r: Option<string>)
    ensures r.None? <==> run(tool).Stdout? && run(tool).out != ""
  {
    match run(tool)
    case RunError(e) => Some("could not run: '" + tool + "', error: " + e)
    case Stdout(out) =>
      if |out| == 0 then Some("error executing '" + FirstField(tool) + "', no output was given - tool is available in PATH")
      else None
  }

  /** validateTools: the first failing tool's error, or None when all pass. */
  method ValidateTools(tools: seq<string>, run: string -> ToolRun) returns (err: Option<string>)
    ensures err.None? <==> forall i | 0 <= i < |tools| :: ToolCheck(tools[i], run).None?
    ensures err.Some? ==> exists i | 0 <= i < |tools| ::
      err == ToolCheck(tools[i], run) && forall j | 0 <= j < i :: ToolCheck(tools[j], run).None?
  {
    for i := 0 to |tools|
      invariant forall j | 0 <= j < i :: ToolCheck(tools[j], run).None?
    {
      var e := ToolCheck(tools[i], run);
      if e.Some? {
        return e;
      }
    }
    return None;
  }

  /** Whether a file must exist before secrets are created: only files that are
      not produced by a value command are checked. */
  predicate MustExist(f: FileSecret)
  {
    f.valueCommand == ""
  }

  /** The `os.Stat` error of the first file that must exist and does not, or
      None when there is none. `stat(path)` is None when the path exists. */
  function FirstStatError(files: seq<FileSecret>, home: string, stat: string -> Option<string>): Option<string>
  {
    if files == [] then None
    else if MustExist(files[0]) && stat(ExpandValueFrom(files[0], home)).Some? then stat(ExpandValueFrom(files[0], home))
    else FirstStatError(files[1..], home, stat)
  }

  /** filesExists: the `os.Stat` error of the first missing file that no value
      command produces. */
  method FilesExist(files: seq<FileSecret>, home: string, stat: string -> Option<string>) returns (err: Option<string>)
    ensures err == FirstStatError(files, home, stat)
    ensures err.None? <==> forall i | 0 <= i < |files| && MustExist(files[i]) :: stat(ExpandValueFrom(files[i], home)).None?
    ensures err.Some? ==> exists i | 0 <= i < |files| && MustExist(files[i]) ::
      && err == stat(ExpandValueFrom(files[i], home))
      && forall j | 0 <= j < i && MustExist(files[j]) :: stat(ExpandValueFrom(files[j], home)).None?
  {
    for i := 0 to |files|
      invariant forall j | 0 <= j < i && MustExist(files[j]) :: stat(ExpandValueFrom(files[j], home)).None?
      invariant FirstStatError(files, home, stat) == FirstStatError(files[i..], home, stat)
    {
      assert files[i..][1..] == files[i + 1..];
      if |files[i].valueCommand| == 0 {
        var e := stat(ExpandValueFrom(files[i], home));
        if e.Some? {
          return e;
        }
      }
    }
    return None;
  }

  /** The files of a secret are all present (or produced by a command). */
  predicate FilesPresent(s: KeyValueNamespaceTuple, home: string, stat: string -> Option<string>)
  {
    forall i | 0 <= i < |s.files| && MustExist(s.files[i]) :: stat(ExpandValueFrom(s.files[i], home)).None?
  }

  /** validatePlan: fails exactly when some secret enabled by the plan's
      features has a file that must exist and does not; the error is the first
      such secret's first `os.Stat` error, passed on unchanged. */
  method ValidatePlan(plan: Plan, home: string, stat: string -> Option<string>) returns (err: Option<string>)
    ensures err.None? <==> forall k | 0 <= k < |plan.secrets| ::
      ApplyFeatures.Intersects(plan.features, plan.secrets[k].filters) ==> FilesPresent(plan.secrets[k], home, stat)
    ensures err.Some? ==> exists k | 0 <= k < |plan.secrets| ::
      && ApplyFeatures.Intersects(plan.features, plan.secrets[k].filters)
      && err == FirstStatError(plan.secrets[k].files, home, stat)
      && forall k' | 0 <= k' < k ::
           ApplyFeatures.Intersects(plan.features, plan.secrets[k'].filters) ==> FilesPresent(plan.secrets[k'], home, stat)
  {
    var secrets := plan.secrets;
    for k := 0 to |secrets|
      invariant forall k' | 0 <= k' < k ::
        ApplyFeatures.Intersects(plan.features, secrets[k'].filters) ==> FilesPresent(secrets[k'], home, stat)
    {
      var enabled := ApplyFeatures.FeatureEnabled(plan.features, secrets[k].filters);
      if enabled {
        err := FilesExist(secrets[k].files, home, stat);
        if err.Some? {
          return;
        }
      }
    }
    return None;
  }

  /** The name of the secret that holds the registry credentials file. */
  const RegistrySecretName := "registry-secret"

  /** What validateRegistryAuth gives for the credentials secret `s`. */
  function CheckRegistrySecret(regEndpoint: string, s: KeyValueNamespaceTuple, home: string,
                               readFile: string -> Result<seq<Base64.byte>>,
                               unmarshal: seq<Base64.byte> -> Result<Validators.DockerConfigJson>): Exit<Option<string>>
  {
    if |s.files| == 0 then Exited(PanicStatus)
    else
      match readFile(ExpandValueFrom(s.files[0], home))
      case Err(e) => Done(Some(e))
      case Ok(fileBytes) => Done(Validators.ValidateRegistryAuth(regEndpoint, fileBytes, unmarshal))
  }

  /** validateRegistryAuth: nothing to check with ECR; otherwise the first
      secret named `registry-secret` decides, through its first file (a secret
      with no files makes the Go code panic); no such secret passes. */
  method ValidateRegistryAuth(regEndpoint: string, planSecrets: seq<KeyValueNamespaceTuple>, enableECR: bool,
                              home: string, readFile: string -> Result<seq<Base64.byte>>,
                              unmarshal: seq<Base64.byte> -> Result<Validators.DockerConfigJson>)
    returns (r: Exit<Option<string>>)
    ensures enableECR ==> r == Done(None)
    ensures !enableECR && (forall k | 0 <= k < |planSecrets| :: planSecrets[k].name != RegistrySecretName) ==> r == Done(None)
    ensures !enableECR && (exists k | 0 <= k < |planSecrets| :: planSecrets[k].name == RegistrySecretName) ==> exists k | 0 <= k < |planSecrets| ::
      && planSecrets[k].name == RegistrySecretName
      && (forall k' | 0 <= k' < k :: planSecrets[k'].name != RegistrySecretName)
      && r == CheckRegistrySecret(regEndpoint, planSecrets[k], home, readFile, unmarshal)
  {
    if enableECR {
      return Done(None);
    }
    for k := 0 to |planSecrets|
      invariant forall k' | 0 <= k' < k :: planSecrets[k'].name != RegistrySecretName
    {
      var planSecret := planSecrets[k];
      if planSecret.name == RegistrySecretName {
        if |planSecret.files| == 0 {
          return Exited(PanicStatus);
        }
        var confFileLocation := ExpandValueFrom(planSecret.files[0], home);
        var fileBytes := readFile(confFileLocation);
        if fileBytes.Err? {
          return Done(Some(fileBytes.error));
        }
        return Done(Validators.ValidateRegistryAuth(regEndpoint, fileBytes.value, unmarshal));
      }
    }
    return Done(None);
  }
}
