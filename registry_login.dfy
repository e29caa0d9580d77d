/** cmd/registry_login.go: the credentials file the `registry-login` command
    writes, as the map it marshals (the JSON text and the file write are not
    modelled). */
module RegistryLogin {
  import opened Wrappers
  import opened GoStrings
  import Base64
  import Validators

  /** RegistryAuth: `auths` maps a server to its base64 `auth` string. */
  datatype RegistryAuth = RegistryAuth(authConfigs: map<string, string>)

  /** ECRRegistryAuth: a credential store and per-registry helpers. */
  datatype ECRRegistryAuth = ECRRegistryAuth(credsStore: string, credHelpers: map<string, string>)

  /** The `--server` flag's default. */
  const DefaultServer := "https://index.docker.io/v1/"
  const EcrLogin := "ecr-login"

  const MissingCredentialsError :=
    "both --username and --password must be used, and provided, for us to generate a valid file"
  const MissingEcrSettingsError := "you must provide an --account-id and --region when using --ecr"

  /** The `user:password` pair, base64 over its UTF-8 bytes. */
  function EncodedCredentials(username: string, password: string): string
  {
    Base64.Encode(Base64.Utf8(username + ":" + password))
  }

  /** generateRegistryAuth */
  function GenerateRegistryAuth(server: string, username: string, password: string): (r: Result<RegistryAuth>)
    ensures r.Err? <==> username == "" || password == "" || server == ""
    ensures r.Err? ==> r.error == MissingCredentialsError
    ensures r.Ok? ==> r.value.authConfigs.Keys == {server}
    ensures r.Ok? ==> r.value.authConfigs[server] == EncodedCredentials(username, password)
  {
    if |username| == 0 || |password| == 0 || |server| == 0 then Err(MissingCredentialsError)
    else Ok(RegistryAuth(map[server := EncodedCredentials(username, password)]))
  }

  /** The ECR helper host for an account and region. */
  function EcrHost(accountID: string, region: string): string
  {
    accountID + ".dkr.ecr." + region + ".amazonaws.com"
  }

  /** generateECRRegistryAuth */
  function GenerateECRRegistryAuth(accountID: string, region: string): (r: Result<ECRRegistryAuth>)
    ensures r.Err? <==> accountID == "" || region == ""
    ensures r.Err? ==> r.error == MissingEcrSettingsError
    ensures r.Ok? ==> r.value.credsStore == EcrLogin
    ensures r.Ok? ==> r.value.credHelpers == map[EcrHost(accountID, region) := EcrLogin]
  {
    if |accountID| == 0 || |region| == 0 then Err(MissingEcrSettingsError)
    else Ok(ECRRegistryAuth(EcrLogin, map[EcrHost(accountID, region) := EcrLogin]))
  }

  /** What the validator reads back from the written file: the `auths` object
      under the same key, each value in the `auth` field. */
  function AsDockerConfig(ra: RegistryAuth): (d: Validators.DockerConfigJson)
    ensures d.authConfigs.Keys == ra.authConfigs.Keys
    ensures forall k | k in ra.authConfigs :: d.authConfigs[k].auth == ra.authConfigs[k]
  {
    Validators.DockerConfigJson(map k | k in ra.authConfigs :: Validators.AuthConfig(ra.authConfigs[k]))
  }

  /** The auth string written is never empty and always decodes. */
  lemma EncodedCredentialsValid(username: string, password: string)
    ensures EncodedCredentials(username, password) != ""
    ensures Base64.IsValid(EncodedCredentials(username, password))
  {
    var b := Base64.Utf8(username + ":" + password);
    Base64.EncodeNonEmpty(b);
    Base64.EncodeIsValid(b);
  }

  /** Round trip: a file generated for a server outside Docker Hub passes
      validation for that same server. */
  lemma GeneratedFileValidates(server: string, username: string, password: string)
    requires GenerateRegistryAuth(server, username, password).Ok?
    requires !HasPrefix(server, Validators.DockerHubPrefix)
    ensures Validators.Validate(AsDockerConfig(GenerateRegistryAuth(server, username, password).value), server).None?
  {
    EncodedCredentialsValid(username, password);
  }

  /** Round trip for Docker Hub: a file generated with the default server passes
      validation for any `docker.io...` registry in the plan. */
  lemma DefaultServerValidatesDockerHub(username: string, password: string, endpoint: string)
    requires username != "" && password != ""
    requires HasPrefix(endpoint, Validators.DockerHubPrefix)
    ensures Validators.Validate(AsDockerConfig(GenerateRegistryAuth(DefaultServer, username, password).value), endpoint).None?
  {
    EncodedCredentialsValid(username, password);
  }

  /** A file generated with a `docker.io...` server name is rejected when that
      name is also the plan's registry: the validator looks the entry up under
      the Docker Hub key instead. */
  lemma DockerIoServerRejected(server: string, username: string, password: string)
    requires GenerateRegistryAuth(server, username, password).Ok?
    requires HasPrefix(server, Validators.DockerHubPrefix)
    ensures Validators.Validate(AsDockerConfig(GenerateRegistryAuth(server, username, password).value), server)
            == Some(Validators.MissingRegistryError(server))
  {
    assert server[0] == 'd';
    assert Validators.DockerHubKey[0] == 'h';
  }
}
