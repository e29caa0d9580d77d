# ofc-bootstrap plan pipeline, modelled in Dafny

ofc-bootstrap installs OpenFaaS Cloud into a Kubernetes cluster from one or
more YAML plan files. This project models the part of the tool that decides
what to do, leaving out how it is done:

- **Plan merging** (`MergePlans`, twice in the repository). Plans are folded
  left to right, mergo-style: a later non-empty field overrides an earlier
  one. Zero plans is an error, and a single plan is returned as it is.
- **Feature derivation** (`filterFeatures` and its two filters). The
  `default`, `ecr`, SCM, DNS and `auth` tags are appended in a fixed order.
- **Secret gating** (`featureEnabled`). A secret is created, and its files
  checked, only when its filters meet the plan's features.
- **Pre-flight checks.** These cover tools, secret files and the registry
  credentials file.
- **The installation run** (`process`). This is a fixed order of external
  steps: some abort the run, some are only logged. It includes a bounded
  cert-manager readiness poll.
- **Secret command builders.** These produce the `kubectl` and `docker`
  command lines; random values come from an injected generator.
- **Registry credentials.** `registry-login` generates them, and the
  validator checks them against the registry endpoint.
- **Small string helpers:**
  - custom-template formatting;
  - `~` expansion;
  - the ordered, conditional choice of the stack templates.

External effects are parameters of the model:

| effect | modelled as |
|---|---|
| a script or helm call, and each step of `process` | an oracle returning an error or none |
| rendering one stack template | an oracle: rendered, an error, or a `template.Must` parse panic |
| readiness probe | the check's standard output at each attempt |
| random-value generator | the result of its k-th call |
| `os.Stat`, file reading, JSON decoding | functions passed in |
| HOME | a string parameter |

Go's `os.Exit` is the `Exited(status)` case of an `Exit` result. A Go panic
is `Exited(2)`.

Two behaviours of the code worth knowing:

- Plan secrets are not reconciled by name when plans are merged. The merge
  treats them like any other field, so a later non-empty list replaces the
  earlier one.
- `installMinio` and `installOpenfaas` failures are only logged.

`cmd/apply.go` uses plan fields (`EnableECR`, `IngressOperator`, `DryRun`)
and constants (`ECRFeature`, `Cloudflare`, `CloudflareDNS`) that this
revision of `pkg/types/types.go` does not declare. The `Plan` datatype
carries those fields. `Cloudflare` is `"cloudflare"`. `ECRFeature` and
`CloudflareDNS` are stand-in values distinct from every other tag.

Modules:

| module | contents |
|---|---|
| `Wrappers` | `Option`, `Result`, `Exit` |
| `GoStrings` | `strings.Replace`, `TrimRight`, first field of `Split` |
| `Types` | the plan schema |
| `Merge` / `CmdMerge` | the two merge functions |
| `TypesSecrets` / `UtilsSecrets` | the two secret builders |
| `Base64` | standard encoding and the decoder's acceptance test (section 4 of RFC 4648) |
| `Validators` | credentials-file validation |
| `RegistryLogin` | credentials-file generation |
| `Stack` | `stack.Apply` |
| `ApplyFeatures`, `ApplyPreflight`, `ApplySecrets`, `ApplyProcess` | `cmd/apply.go` |

## Model

| member | source | states |
|---|---|---|
| GoStrings.ReplaceAllAbsent | pkg/types/types.go:94 | replacing a character that does not occur leaves the string unchanged |
| GoStrings.ReplaceAllRemoves | pkg/types/types.go:94 | when the replacement does not contain the character, no occurrence of it is left |
| GoStrings.TrimRight | pkg/types/types.go:73 | the result is a prefix of the input, does not end in a cutset character, and only cutset characters were removed |
| GoStrings.TrimRightSuffix | pkg/types/types.go:73 | trimming a string that ends cleanly, followed by cutset characters only, gives back exactly that string |
| GoStrings.FirstField | cmd/apply.go:189-199 | the command name is the longest space-free prefix of the tool line, followed by a space or the end |
| Types.FormatCustomTemplates | pkg/types/types.go:66-74 | the loop-and-trim method computes the specified formatting, and its result never ends in a space or comma |
| Types.AccumulatedIsJoinPlusSeparator | pkg/types/types.go:68-71 | the accumulated string of a non-empty list is the ", "-joined list followed by one ", " |
| Types.FormattedIsJoin | pkg/types/types.go:66-74 | when the last URL is non-empty and does not end in a space or comma, the result is exactly the ", "-joined list |
| Types.FormattedExamples | pkg/types/types.go:66-74 | for such URLs: none gives "", one gives itself, and two URLs a and b give a + ", " + b |
| Types.ExpandValueFromSpec | pkg/types/types.go:92-96 | a path without `~` is returned unchanged; with a `~`-free HOME, no `~` remains |
| Types.ExpandLeadingTilde | pkg/types/types.go:92-96 | a leading `~` (and no other) becomes HOME |
| Types.ExpandValueFromExample | pkg/types/types.go:92-96 | `~/.docker/config.json` with HOME `/home/user` expands to `/home/user/.docker/config.json` |
| Merge.MergeIntoFieldwise0 | pkg/types/merge.go:24-30 | merging one plan into another overrides each field of the first quarter of fields with the source's value exactly when that value is non-empty |
| Merge.MergeIntoFieldwise1 | pkg/types/merge.go:24-30 | the same for the second quarter of fields |
| Merge.MergeIntoFieldwise2 | pkg/types/merge.go:24-30 | the same for the third quarter of fields |
| Merge.MergeIntoFieldwise3 | pkg/types/merge.go:24-30 | the same for the last quarter of fields |
| Merge.MergeIntoFieldwise | pkg/types/merge.go:24-30 | every field of a merge is the source's value when non-empty, else the destination's |
| Merge.EmptyPlanIsZero | pkg/types/merge.go:14 | every field of the starting plan is empty |
| Merge.FoldMergeIsLastSet | pkg/types/merge.go:14-30 | each field of the fold is the last non-empty value of that field across the plans, or empty when no plan sets it |
| Merge.MergeIntoEmpty | pkg/types/merge.go:14-30 | merging a plan into the empty plan gives that plan |
| Merge.MergeIntoAssociative | pkg/types/merge.go:24-30 | merging is associative, so the fold does not depend on grouping |
| Merge.MergeIntoIdempotent | pkg/types/merge.go:24-30 | merging the same plan twice changes nothing further |
| Merge.SingleShortcutAgreesWithFold | pkg/types/merge.go:16-18 | the one-plan shortcut returns what the fold would have returned |
| Merge.TwoPlans | pkg/types/merge.go:24-30 | with two plans, a field set only in one survives, and when both set it the second wins |
| Merge.MergePlans | pkg/types/merge.go:12-32 | error "at least one plan is required" exactly for zero plans; one plan is returned unchanged; otherwise every field is the last non-empty value |
| CmdMerge.MergePlans | cmd/merge.go:13-33 | the same contract, and the same result as `Merge.MergePlans` on every input |
| TypesSecrets.ResolveSpec | pkg/types/secrets.go:25-37 | non-empty literal values are kept verbatim; each empty one gets the result of the next generator call; the run fails exactly when one of those calls fails |
| TypesSecrets.ResolveFailsAt | pkg/types/secrets.go:27-32 | a failed generation at literal i aborts the whole command |
| TypesSecrets.ValueCommandsSpec | pkg/types/secrets.go:39-49 | every non-empty value command of the files is run, and no empty one |
| TypesSecrets.AppendFiles | pkg/types/secrets.go:39-52 | appends one `--from-file=<name>=<expanded path>` per file in order, and runs each non-empty value command whatever its result |
| TypesSecrets.CreateK8sSecret | pkg/types/secrets.go:22-55 | the method computes the specified command; a generator failure exits with status 1 before any value command runs |
| TypesSecrets.K8sSecretShape | pkg/types/secrets.go:22-55 | the command begins with `kubectl create secret generic -n <ns> <name>`; it exits exactly when an empty literal's generation fails |
| TypesSecrets.NoEmptyLiteralNoGeneration | pkg/types/secrets.go:26-34 | without empty literals the generator is never called and the command is always built |
| TypesSecrets.DockerSecret | pkg/types/secrets.go:12-20 | `echo <generated> \| docker secret create <name>`, or exit status 1 when generation fails |
| UtilsSecrets.DefaultSecretGenerator | pkg/utils/secrets.go:29-43 | a nil descriptor is replaced by the default one (16 characters, 4 digits, 4 symbols) |
| UtilsSecrets.CreateDockerSecret | pkg/utils/secrets.go:45-58 | exits with status 1 exactly when the (defaulted) generator fails, else `echo <value> \| docker secret create <name>` |
| UtilsSecrets.CreateK8sSecret | pkg/utils/secrets.go:60-78 | exits with status 1 exactly when the generator fails, else the `--from-literal s3-access-key="<value>"` command |
| UtilsSecrets.DefaultDockerSecretConforms | pkg/utils/secrets.go:20-58 | with no injected generator, the value has 16 characters, 4 digits and 4 symbols, given a password generator that honours its descriptor |
| UtilsSecrets.DefaultK8sSecretConforms | pkg/utils/secrets.go:20-43 | the same for the Kubernetes command |
| UtilsSecrets.InjectedGeneratorUsed | pkg/utils/secrets.go:45-78 | an injected generator replaces the default one entirely |
| Base64.EncodeLength | cmd/registry_login.go:96 | the encoding of n bytes has 4·⌈n/3⌉ characters |
| Base64.EncodeChars | cmd/registry_login.go:96 | the encoding uses only the standard alphabet and `=` |
| Base64.EncodeQuanta | cmd/registry_login.go:96 | the encoding is a sequence of well-formed 4-character quanta |
| Base64.EncodeIsValid | pkg/validators/validators.go:53 | the decoder accepts everything the encoder produces |
| Base64.EncodeNonEmpty | cmd/registry_login.go:96 | non-empty input encodes to a non-empty string |
| Base64.StripNoNewlines | pkg/validators/validators.go:53 | the decoder's CR/LF skipping leaves a newline-free string unchanged |
| Base64.ValidityExamples | pkg/validators/validators.go:53 | `Zm9vOmJhcgo=` is accepted and `ds:\/onosc` is rejected |
| Base64.EncodeRune | cmd/registry_login.go:96 | UTF-8 encodes a character in 1 to 4 bytes, 1 exactly for ASCII |
| Base64.Utf8 | cmd/registry_login.go:96 | a string's UTF-8 bytes number between one and four per character |
| Validators.LookupKey | pkg/validators/validators.go:45-50 | endpoints starting with `docker.io` are looked up as `https://index.docker.io/v1/`; others verbatim |
| Validators.Validate | pkg/validators/validators.go:44-60 | succeeds exactly when the key is present with a non-empty, valid base64 auth string; a missing key or empty auth gives its specific error |
| Validators.ValidateRegistryAuth | pkg/validators/validators.go:29-42 | a parse error is returned before any lookup; otherwise the validation result |
| Validators.DockerHubEndpointsAgree | pkg/validators/validators.go:46-50 | all `docker.io…` endpoints validate alike |
| Validators.SingleEntry | pkg/validators/validators.go:44-60 | a one-entry file with good credentials validates exactly the endpoints that look up its key |
| RegistryLogin.GenerateRegistryAuth | cmd/registry_login.go:91-106 | errors exactly when server, username or password is empty; else exactly one key, the server, mapped to base64(`user:pass`) |
| RegistryLogin.GenerateECRRegistryAuth | cmd/registry_login.go:108-123 | errors exactly when account or region is empty; else `ecr-login` and one helper `<account>.dkr.ecr.<region>.amazonaws.com` |
| RegistryLogin.AsDockerConfig | cmd/registry_login.go:140-146 | the generated file read back by the validator has the same keys and auth strings |
| RegistryLogin.EncodedCredentialsValid | cmd/registry_login.go:96 | the encoded credentials are non-empty valid base64 |
| RegistryLogin.GeneratedFileValidates | cmd/registry_login.go:96-101 | for a server not starting with `docker.io`, the generated file validates against that server |
| RegistryLogin.DefaultServerValidatesDockerHub | cmd/registry_login.go:26 | a file generated for the default server validates for every `docker.io…` endpoint |
| RegistryLogin.DockerIoServerRejected | cmd/registry_login.go:91-101 | a file generated for a server named `docker.io…` is rejected for that same server: the registry is reported missing |
| Stack.Scheme | pkg/stack/stack.go:33-36 | `https` exactly with TLS, else `http` |
| Stack.Templates | pkg/stack/stack.go:38-104 | one template per selected name, in order, each with the configuration built from the plan |
| Stack.RenderAll | pkg/stack/stack.go:38-104 | the templates attempted are a prefix of the list |
| Stack.RenderAllStopsAtFirstError | pkg/stack/stack.go:48-123 | for `Stack.Apply` (the rendering of `Stack.Templates`): no error exactly when every template renders, and then all were generated; otherwise generation stops at the first template that does not render and returns its read, execute or write error, or ends the process with exit status 2 when `template.Must` panics on a template that does not parse |
| Stack.TemplateSelection | pkg/stack/stack.go:38-104 | gateway_config, github and slack come first and stack last; gitlab is rendered exactly for SCM `gitlab` and edge-auth-dep exactly with OAuth; five templates plus those two |
| Stack.SelectedDistinct | pkg/stack/stack.go:38-104 | no template is generated twice |
| Stack.TemplateValues | pkg/stack/stack.go:38-100 | the scheme is passed to gateway and auth; the stack's GitHub flag is set exactly for SCM `github`; the OAuth provider is the SCM; the gateway's custom templates are the formatted list |
| Stack.FileNameInjective | pkg/stack/stack.go:38-98 | distinct templates have distinct names |
| Stack.OutputPathInjective | pkg/stack/stack.go:129-134 | distinct templates write to distinct `tmp/generated-<name>.yml` files |
| ApplyFeatures.FeatureEnabled | cmd/apply.go:733-742 | true exactly when some feature occurs among the filters; never for an empty filter list |
| ApplyFeatures.FilterGitRepositoryManager | cmd/apply.go:787-796 | `gitlab` and `github` append their tag; any other SCM adds nothing and reports it |
| ApplyFeatures.FilterDNSFeature | cmd/apply.go:772-785 | the four supported DNS services append their tag; any other value adds nothing and reports it |
| ApplyFeatures.FilterFeaturesSpec | cmd/apply.go:744-770 | `ApplyFeatures.FilterFeatures` (filterFeatures) fails exactly for an unsupported SCM, or an unsupported DNS service with TLS; the error is wrapped and the plan keeps the tags added so far; on success it appends `default`, `ecr` (with ECR), the SCM tag, the DNS tag (with TLS) and `auth` (with OAuth), in that order |
| ApplyFeatures.DefaultAlwaysFirst | cmd/apply.go:747 | the first added tag is always `default`, even when filtering fails |
| ApplyFeatures.DnsTagsDistinct | cmd/apply.go:772-785 | the four DNS services map to four distinct tags; without TLS the DNS service is never consulted |
| ApplyFeatures.EmptyPlanFeatures | cmd/apply.go:744-756 | an empty plan yields `[default]` and the unsupported-SCM error for "" |
| ApplyPreflight.ToolCheck | cmd/apply.go:187-211 | a tool passes exactly when it runs and prints something |
| ApplyPreflight.ValidateTools | cmd/apply.go:213-224 | no error exactly when every tool passes; otherwise the first failing tool's error |
| ApplyPreflight.FilesExist | cmd/apply.go:255-266 | the error is the `os.Stat` error of the first file that has no value command and is missing, with every earlier such file present; no error exactly when all such files exist |
| ApplyPreflight.ValidatePlan | cmd/apply.go:243-253 | no error exactly when every enabled secret's checked files exist; otherwise the error is the first such secret's first `os.Stat` error, passed on unchanged |
| ApplyPreflight.ValidateRegistryAuth | cmd/apply.go:226-241 | nothing is checked with ECR or without a `registry-secret`; otherwise the first such secret decides through its first file: the read error, the validation result, or a panic (exit status 2) when it has no files |
| ApplySecrets.CreateSecrets | cmd/apply.go:611-630 | the loop creates exactly the enabled secrets, in plan order |
| ApplySecrets.EnabledSecretsSpec | cmd/apply.go:613-614 | a secret is created exactly when its filters meet the features |
| ApplyProcess.PollCertManager | cmd/apply.go:331-341 | the loop asks exactly the attempts the poll specification asks |
| ApplyProcess.PollSpec | cmd/apply.go:331-341 | at least 1 and at most 260 attempts, numbered in order; every attempt but the last saw output other than "True"; the last saw "True" or was the 260th |
| ApplyProcess.PollNeverFatal | cmd/apply.go:331-341 | the poll never ends the run |
| ApplyProcess.InstallBase | cmd/apply.go:275-295 | namespaces, helm repo add, helm repo update and the ingress controller run in order; the first failure ends the run with its error |
| ApplyProcess.CreateSecretsStage | cmd/apply.go:297-299 | creates the enabled secrets unless skipped, and never fails the run |
| ApplyProcess.MinioStage | cmd/apply.go:306-311 | installs Minio unless skipped, and never fails the run |
| ApplyProcess.InstallSecrets | cmd/apply.go:297-311 | secrets, service-account patch and Minio, all only logged |
| ApplyProcess.CertManagerStage | cmd/apply.go:313-319 | with TLS, a cert-manager failure ends the run |
| ApplyProcess.InstallOpenFaaSStage | cmd/apply.go:313-329 | cert-manager is fatal; functions-auth and OpenFaaS failures are only logged |
| ApplyProcess.WaitForCertManager | cmd/apply.go:331-341 | polls only with TLS |
| ApplyProcess.TlsStage | cmd/apply.go:348-353 | applies the TLS issuer only with TLS, and never fails the run |
| ApplyProcess.ApplyTemplates | cmd/apply.go:343-360 | ingress, TLS and stack are applied, and their returned errors are only logged; the template panics are listed under Left out |
| ApplyProcess.InstallSealedSecretsStage | cmd/apply.go:362-375 | unless skipped: the install and the certificate write are fatal, and the export is not |
| ApplyProcess.DeployCloud | cmd/apply.go:377-387 | clone then deploy; either failure ends the run |
| ApplyProcess.Process | cmd/apply.go:268-388 | the run is the one specified phase by phase for the defaulted plan: a prefix of the planned steps, ending without error exactly when no fatal step fails, otherwise right after the first fatal failure with its error |
| ApplyProcess.RunFromSpec | cmd/apply.go:268-388 | every run from any phase on follows the planned steps in that way |
| ApplyProcess.SoftFailuresIgnored | cmd/apply.go:297-360 | outcomes that agree on the fatal steps give the same run: logged failures change nothing |
| ApplyProcess.PlannedOrder | cmd/apply.go:275-385 | the planned steps in full order, each optional one present exactly when TLS or the skip switches ask for it |
| ApplyProcess.CloneTagDefaulted | cmd/apply.go:270-273 | the clone tag is the plan's version, or `master` when it is empty |
| ApplyProcess.IngressEnvSpec | cmd/apply.go:456-467 | host-network settings are passed exactly for ingress `host` |
| ApplyProcess.OpenFaaSEnvSpec | cmd/apply.go:504-513 | `FAAS_IDLER_DRY_RUN=true` exactly when scale to zero is off, and `INSTALL_INGRESS_OPERATOR=true` exactly with the operator |
| ApplyProcess.DeployEnvSpec | cmd/apply.go:690-719 | four entries, each non-empty exactly when its setting (OAuth, GitLab, network policies, ECR) is on |

## Left out

- Process spawning is not modelled: `pkg/execute`, PATH changes, the helm download, and the real commands in `taskGivesStdout`. Each command is an oracle result.
- YAML reading and unmarshalling, `runApplyCommandE`'s wiring, and printing and logging are left out. These are I/O.
- File writing is left out: the registry file, the generated templates, `tmp/pubcert.pem` (a step outcome) and JSON marshalling. `generateRegistryAuth` is modelled as the map it marshals.
- Waiting is left out: `time.Sleep` between attempts and `sealedSecretsReady`, which `process` does not call.
- `BuildSecretTask` is not part of this model. `createSecrets` is modelled by which secrets it creates and in what order.
- `generateSecret` (SHA-256 of a script's output) and go-password's random generation are abstracted. Generator outputs are oracle values.
- `UtilsSecrets.DefaultDockerSecretConforms` and `UtilsSecrets.DefaultK8sSecretConforms` assume, in their requires, that the password generator honours its descriptor. The library's guarantee is not modelled.
- `Validators.Validate` returns the missing-registry message with the endpoint in plain quotes. Go's `%q` escaping and the decoder's error offset are not modelled.
- `pkg/tls`, `pkg/ingress`, `cmd/create_github.go`, `pkg/github`, `pkg/of-stack`, `main.go` and `cmd/root.go` are outside the model. Their outcomes in `process` are oracle results.
- `ApplyProcess.Process` takes the `additionalPaths` argument out of the model: it only extends the scripts' PATH.
- `ApplyProcess.ApplyTemplates`: the `IngressApply`, `TlsApply` and `StackApply` steps are oracles that return an error or none. `ingress.Apply`, `tls.Apply` and `stack.Apply` all parse their templates with `template.Must`. A template that does not parse panics there and ends the process with exit status 2, and the run model does not capture that. `Stack.RenderAllStopsAtFirstError` states the panic for `stack.Apply` alone.
- `Merge.MergePlans` and `CmdMerge.MergePlans` have no error path for `mergo.Merge`. mergo only returns an error when the destination is not a pointer to a struct, or when the source is not a struct of the same type. Here the destination is always a `*Plan` and the source a `Plan`.
