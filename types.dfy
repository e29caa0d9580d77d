/** The plan schema of pkg/types/types.go: the records a YAML plan file is read
    into, the feature / SCM / DNS constants, and the two small helpers defined on
    the records (custom-template formatting and home-directory expansion). */
module Types {
  import opened GoStrings

  // Feature tags that gate secret creation (a secret is created when one of its
  // filters is among the plan's features).
  const DefaultFeature := "default"
  const GitHubFeature := "scm_github"
  const GitLabFeature := "scm_gitlab"
  const Auth := "auth"
  const GCPDNS := "gcp_dns01"
  const DODNS := "do_dns01"
  const Route53DNS := "route53_dns01"
  // The revision of types.go that defines these two tags is not part of this
  // model; the values stand for two further tags distinct from all the others.
  const ECRFeature := "ecr"
  const CloudflareDNS := "cloudflare_dns01"

  // Values of `tls_config.dns_service`.
  const CloudDNS := "clouddns"
  const DigitalOcean := "digitalocean"
  const Route53 := "route53"
  const Cloudflare := "cloudflare"

  // Values of `scm`.
  const GitLabSCM := "gitlab"
  const GitHubSCM := "github"

  datatype Github = Github(appId: string, privateKeyFile: string)
  datatype Gitlab = Gitlab(gitLabInstance: string)
  datatype Slack = Slack(url: string)
  datatype OAuth = OAuth(clientId: string, oauthProviderBaseUrl: string)
  datatype S3 = S3(url: string, region: string, tls: bool, bucket: string)
  datatype TLSConfig = TLSConfig(email: string, dnsService: string, projectId: string,
                                 issuerType: string, region: string, accessKeyId: string)

  /** The `deployment` section: custom function-template repositories. */
  datatype Deployment = Deployment(customTemplates: seq<string>)

  /** A literal secret entry; an empty value means "generate one". */
  datatype KeyValueTuple = KeyValueTuple(name: string, value: string)

  /** A file secret entry; `valueCommand`, when set, is run to produce the file. */
  datatype FileSecret = FileSecret(name: string, valueFrom: string, valueCommand: string)

  /** One secret to create in the cluster, gated by its `filters`. */
  datatype KeyValueNamespaceTuple = KeyValueNamespaceTuple(
    name: string,
    literals: seq<KeyValueTuple>,
    namespace: string,
    files: seq<FileSecret>,
    secretType: string,
    filters: seq<string>)

  /** The whole plan. `features` is derived, never written by users. */
  datatype Plan = Plan(
    features: seq<string>,
    orchestration: string,
    secrets: seq<KeyValueNamespaceTuple>,
    rootDomain: string,
    registry: string,
    customersUrl: string,
    scm: string,
    github: Github,
    gitlab: Gitlab,
    tls: bool,
    oauth: OAuth,
    s3: S3,
    enableOAuth: bool,
    tlsConfig: TLSConfig,
    slack: Slack,
    ingress: string,
    deployment: Deployment,
    enableDockerfileLang: bool,
    scaleToZero: bool,
    openFaaSCloudVersion: string,
    networkPolicies: bool,
    enableEcr: bool,
    ingressOperator: bool,
    dryRun: bool)

  /** Go's zero value `Plan{}`. */
  const EmptyPlan := Plan([], "", [], "", "", "", "", Github("", ""), Gitlab(""), false,
                          OAuth("", ""), S3("", "", false, ""), false,
                          TLSConfig("", "", "", "", "", ""), Slack(""), "", Deployment([]),
                          false, false, "", false, false, false, false)

  /** Characters TrimRight removes at the end of the formatted list. */
  const TemplateCutset: set<char> := {' ', ','}

  /** The loop's accumulator after visiting `ts`: each URL followed by ", ". */
  function Accumulated(ts: seq<string>): string
  {
    if ts == [] then "" else Accumulated(ts[..|ts| - 1]) + ts[|ts| - 1] + ", "
  }

  /** What FormatCustomTemplates returns. */
  function FormattedTemplates(ts: seq<string>): string
  {
    TrimRight(Accumulated(ts), TemplateCutset)
  }

  /** The intended rendering: the URLs joined by ", ". */
  function JoinComma(ts: seq<string>): string
  {
    if ts == [] then "" else if |ts| == 1 then ts[0]
    else JoinComma(ts[..|ts| - 1]) + ", " + ts[|ts| - 1]
  }

  /** Deployment.FormatCustomTemplates: accumulate "url, " per template, then trim
      trailing spaces and commas. */
  method FormatCustomTemplates(d: Deployment) returns (r: string)
    ensures r == FormattedTemplates(d.customTemplates)
    ensures r == [] || r[|r| - 1] !in TemplateCutset
  {
    var val := "";
    var i := 0;
    while i < |d.customTemplates|
      invariant 0 <= i <= |d.customTemplates|
      invariant val == Accumulated(d.customTemplates[..i])
    {
      assert d.customTemplates[..i + 1][..i] == d.customTemplates[..i];
      val := val + d.customTemplates[i] + ", ";
      i := i + 1;
    }
    assert d.customTemplates[..i] == d.customTemplates;
    r := TrimRight(val, TemplateCutset);
  }

  /** A URL that is non-empty and does not itself end in a space or a comma. */
  predicate CleanUrl(u: string)
  {
    u != [] && u[|u| - 1] !in TemplateCutset
  }

  /** For a non-empty list, the accumulator is the joined list plus one separator. */
  lemma {:induction false} AccumulatedIsJoinPlusSeparator(ts: seq<string>)
    requires ts != []
    ensures Accumulated(ts) == JoinComma(ts) + ", "
  {
    if |ts| == 1 {
      assert ts[..0] == [];
    } else {
      var init := ts[..|ts| - 1];
      AccumulatedIsJoinPlusSeparator(init);
    }
  }

  /** When the last URL is clean, the formatted list is exactly the URLs joined
      by ", ": empty for no URLs, the URL itself for one, "a, b" for two. */
  lemma FormattedIsJoin(ts: seq<string>)
    requires ts == [] || CleanUrl(ts[|ts| - 1])
    ensures FormattedTemplates(ts) == JoinComma(ts)
  {
    if ts != [] {
      AccumulatedIsJoinPlusSeparator(ts);
      var j := JoinComma(ts);
      if |ts| > 1 {
        assert j[|j| - 1] == ts[|ts| - 1][|ts[|ts| - 1]| - 1];
      }
      TrimRightSuffix(j, ", ", TemplateCutset);
    }
  }

  lemma FormattedExamples(a: string, b: string)
    requires CleanUrl(a) && CleanUrl(b)
    ensures FormattedTemplates([]) == ""
    ensures FormattedTemplates([a]) == a
    ensures FormattedTemplates([a, b]) == a + ", " + b
  {
    FormattedIsJoin([a]);
    FormattedIsJoin([a, b]);
    assert [a, b][..1] == [a];
  }

  /** FileSecret.ExpandValueFrom with the HOME environment variable passed in:
      every `~` in the path is replaced by `home`. */
  function ExpandValueFrom(f: FileSecret, home: string): string
  {
    ReplaceAll(f.valueFrom, '~', home)
  }

  /** A path without `~` is returned unchanged, and when HOME holds no `~` the
      expanded path holds none either. */
  lemma ExpandValueFromSpec(f: FileSecret, home: string)
    ensures '~' !in f.valueFrom ==> ExpandValueFrom(f, home) == f.valueFrom
    ensures '~' !in home ==> '~' !in ExpandValueFrom(f, home)
  {
    if '~' !in f.valueFrom {
      ReplaceAllAbsent(f.valueFrom, '~', home);
    }
    if '~' !in home {
      ReplaceAllRemoves(f.valueFrom, '~', home);
    }
  }

  /** A path starting with `~` and holding no other `~` is the home directory
      followed by the rest of the path. */
  lemma ExpandLeadingTilde(f: FileSecret, rest: string, home: string)
    requires f.valueFrom == ['~'] + rest && '~' !in rest
    ensures ExpandValueFrom(f, home) == home + rest
  {
    assert f.valueFrom[1..] == rest;
    ReplaceAllAbsent(rest, '~', home);
  }

  /** The documented example: with HOME=/home/user, "~/.docker/config.json"
      expands to "/home/user/.docker/config.json". */
  lemma ExpandValueFromExample(f: FileSecret, home: string)
    requires f.valueFrom == "~/.docker/config.json" && home == "/home/user"
    ensures ExpandValueFrom(f, home) == "/home/user/.docker/config.json"
  {
    var rest := "/.docker/config.json";
    assert f.valueFrom == ['~'] + rest;
    ExpandLeadingTilde(f, rest, home);
  }
}
