/** pkg/validators/validators.go: checks that a Docker credentials file holds a
    usable entry for the registry the plan names. JSON decoding is an oracle
    `unmarshal` that yields the parsed `auths` map or a parse error. */
module Validators {
  import opened Wrappers
  import opened GoStrings
  import Base64

  /** One entry of the `auths` map. */
  datatype AuthConfig = AuthConfig(auth: string)

  /** The parsed credentials file. */
  datatype DockerConfigJson = DockerConfigJson(authConfigs: map<string, AuthConfig>)

  /** The key Docker itself uses for Docker Hub. */
  const DockerHubKey := "https://index.docker.io/v1/"
  const DockerHubPrefix := "docker.io"

  const NoBase64Error := "docker credentials file is not valid (no base64 credentials). Please re-create this file"
  /** The decoder's error; the byte offset it names is not modelled. */
  const IllegalBase64Error := "illegal base64 data"

  /** `%q` of a string without characters that need escaping. */
  function Quoted(s: string): string
  {
    "\"" + s + "\""
  }

  function MissingRegistryError(endpoint: string): string
  {
    "docker auth file does not contain registry " + Quoted(endpoint)
      + " that you specified in config. Please use docker login"
  }

  /** The map key an endpoint is looked up under: every `docker.io...`
      endpoint means Docker Hub, anything else is used verbatim. */
  function LookupKey(endpoint: string): (k: string)
    ensures HasPrefix(endpoint, DockerHubPrefix) ==> k == DockerHubKey
    ensures !HasPrefix(endpoint, DockerHubPrefix) ==> k == endpoint
  {
    if HasPrefix(endpoint, DockerHubPrefix) then DockerHubKey else endpoint
  }

  /** validate: None is the nil error. */
  function Validate(data: DockerConfigJson, endpoint: string): (r: Option<string>)
    ensures var k := LookupKey(endpoint);
      && (r.None? <==> k in data.authConfigs && data.authConfigs[k].auth != ""
                       && Base64.IsValid(data.authConfigs[k].auth))
      && (k !in data.authConfigs ==> r == Some(MissingRegistryError(endpoint)))
      && (k in data.authConfigs && data.authConfigs[k].auth == "" ==> r == Some(NoBase64Error))
  {
    var fileEndpoint := LookupKey(endpoint);
    if fileEndpoint in data.authConfigs then
      var endpointConfig := data.authConfigs[fileEndpoint];
      if endpointConfig.auth != "" then
        if Base64.IsValid(endpointConfig.auth) then None else Some(IllegalBase64Error)
      else Some(NoBase64Error)
    else Some(MissingRegistryError(endpoint))
  }

  /** ValidateRegistryAuth: parse the file, then validate it. */
  function ValidateRegistryAuth(registryEndpoint: string, configFileBytes: seq<Base64.byte>,
                                unmarshal: seq<Base64.byte> -> Result<DockerConfigJson>): (r: Option<string>)
    ensures unmarshal(configFileBytes).Err? ==> r == Some(unmarshal(configFileBytes).error)
    ensures unmarshal(configFileBytes).Ok? ==> r == Validate(unmarshal(configFileBytes).value, registryEndpoint)
  {
    match unmarshal(configFileBytes)
    case Err(e) => Some(e)
    case Ok(registryData) => Validate(registryData, registryEndpoint)
  }

  /** Whether a lookup succeeds depends only on the key the endpoint maps to:
      all `docker.io...` endpoints are judged alike. */
  lemma DockerHubEndpointsAgree(data: DockerConfigJson, e1: string, e2: string)
    requires HasPrefix(e1, DockerHubPrefix) && HasPrefix(e2, DockerHubPrefix)
    ensures Validate(data, e1).None? <==> Validate(data, e2).None?
  {
  }

  /** The test cases with a single entry: a valid entry for the key the endpoint
      maps to passes, an entry under any other key is reported missing. */
  lemma SingleEntry(key: string, auth: string, endpoint: string)
    requires auth != "" && Base64.IsValid(auth)
    ensures Validate(DockerConfigJson(map[key := AuthConfig(auth)]), endpoint).None? <==> LookupKey(endpoint) == key
  {
  }
}
