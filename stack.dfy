/** pkg/stack/stack.go: which configuration templates `stack.Apply` renders for
    a plan, in which order and with which values. Rendering one template
    (reading `templates/<name>.yml`, parsing and executing it, writing
    `tmp/generated-<name>.yml`) is an oracle `render`: it renders, fails with
    an error, or panics because `template.Must` met a template that does not
    parse. */
module Stack {
  import opened Wrappers
  import opened Types

  /** The values handed to each template. */
  datatype TemplateConfig =
    | GatewayConfig(registry: string, rootDomain: string, customersUrl: string, scheme: string,
                    s3: S3, customTemplates: string, enableDockerfileLang: bool)
    | GithubConfig(github: Github)
    | SlackConfig(slack: Slack)
    | GitlabConfig(gitlab: Gitlab)
    | AuthConfig(rootDomain: string, clientId: string, customersUrl: string, scheme: string,
                 oauthProvider: string, oauthProviderBaseUrl: string)
    | StackConfig(gitHub: bool)

  /** The templates stack.Apply knows about. */
  datatype TemplateName = GatewayConfigT | GithubT | SlackT | GitlabT | DashboardConfigT | EdgeAuthDepT | StackT

  /** The file name (without directory and extension) of each template. */
  function FileName(n: TemplateName): string
  {
    match n
    case GatewayConfigT => "gateway_config"
    case GithubT => "github"
    case SlackT => "slack"
    case GitlabT => "gitlab"
    case DashboardConfigT => "dashboard_config"
    case EdgeAuthDepT => "edge-auth-dep"
    case StackT => "stack"
  }

  /** One generateTemplate call: which template and its values. */
  datatype Template = Template(name: TemplateName, config: TemplateConfig)

  /** What rendering one template gives: success, the error of reading,
      executing or writing it, or the panic of `template.Must` on a template
      that does not parse. */
  datatype Rendering = Rendered | Failed(error: string) | ParsePanic

  /** What Apply did: the templates it tried, in order, and either the error it
      returned (None for success) or the exit of the panicking process. */
  datatype Outcome = Outcome(attempted: seq<Template>, result: Exit<Option<string>>)

  type Renderer = Template -> Rendering

  /** "http", plus "s" when the plan enables TLS. */
  function Scheme(plan: Plan): (s: string)
    ensures s == (if plan.tls then "https" else "http")
  {
    "http" + (if plan.tls then "s" else "")
  }

  /** The file a template is read from. */
  function TemplatePath(name: TemplateName): string
  {
    "templates/" + FileName(name) + ".yml"
  }

  /** The file a rendered template is written to. */
  function OutputPath(name: TemplateName): string
  {
    "tmp/generated-" + FileName(name) + ".yml"
  }

  /** The templates Apply renders, in order; gitlab only for a GitLab plan,
      edge-auth-dep only with OAuth enabled. */
  function Selected(plan: Plan): seq<TemplateName>
  {
    [GatewayConfigT, GithubT, SlackT]
    + (if plan.scm == "gitlab" then [GitlabT] else [])
    + [DashboardConfigT]
    + (if plan.enableOAuth then [EdgeAuthDepT] else [])
    + [StackT]
  }

  /** The values each template is rendered with. */
  function Config(plan: Plan, n: TemplateName): TemplateConfig
  {
    var scheme := Scheme(plan);
    match n
    case GatewayConfigT =>
      GatewayConfig(plan.registry, plan.rootDomain, plan.customersUrl, scheme, plan.s3,
                    FormattedTemplates(plan.deployment.customTemplates), plan.enableDockerfileLang)
    case GithubT => GithubConfig(Github(plan.github.appId, plan.github.privateKeyFile))
    case SlackT => SlackConfig(Slack(plan.slack.url))
    case GitlabT => GitlabConfig(Gitlab(plan.gitlab.gitLabInstance))
    case DashboardConfigT => GatewayConfig("", plan.rootDomain, "", scheme, S3("", "", false, ""), "", false)
    case EdgeAuthDepT =>
      AuthConfig(plan.rootDomain, plan.oauth.clientId, plan.customersUrl, scheme,
                 plan.scm, plan.oauth.oauthProviderBaseUrl)
    case StackT => StackConfig(plan.scm == "github")
  }

  /** The generateTemplate calls of Apply, in order. */
  function Templates(plan: Plan): (ts: seq<Template>)
    ensures |ts| == |Selected(plan)|
    ensures forall i | 0 <= i < |ts| :: ts[i].name == Selected(plan)[i]
    ensures forall i | 0 <= i < |ts| :: ts[i].config == Config(plan, ts[i].name)
  {
    var ns := Selected(plan);
    seq(|ns|, i requires 0 <= i < |ns| => Template(ns[i], Config(plan, ns[i])))
  }

  /** Render the templates in order; the first error stops the run and is
      returned, and a parse panic ends the process. */
  function RenderAll(ts: seq<Template>, render: Renderer): (o: Outcome)
    ensures |o.attempted| <= |ts| && o.attempted == ts[..|o.attempted|]
  {
    if ts == [] then Outcome([], Done(None))
    else
      match render(ts[0])
      case Failed(e) => Outcome([ts[0]], Done(Some(e)))
      case ParsePanic => Outcome([ts[0]], Exited(PanicStatus))
      case Rendered =>
        var rest := RenderAll(ts[1..], render);
        Outcome([ts[0]] + rest.attempted, rest.result)
  }

  /** stack.Apply */
  function Apply(plan: Plan, render: Renderer): Outcome
  {
    RenderAll(Templates(plan), render)
  }

  /** Apply succeeds exactly when every template renders, and then all were
      rendered. Otherwise it stops at the first template that does not render,
      renders nothing after it, and returns that template's error, or ends the
      process with the panic status when the template does not parse. */
  lemma {:induction false} RenderAllStopsAtFirstError(ts: seq<Template>, render: Renderer)
    ensures var o := RenderAll(ts, render);
      && (o.result == Done(None) <==> forall i | 0 <= i < |ts| :: render(ts[i]).Rendered?)
      && (o.result == Done(None) ==> o.attempted == ts)
      && (o.result != Done(None) ==>
            && o.attempted != []
            && var last := render(o.attempted[|o.attempted| - 1]);
            && (last.Failed? ==> o.result == Done(Some(last.error)))
            && (last.ParsePanic? ==> o.result == Exited(PanicStatus))
            && !last.Rendered?
            && forall i | 0 <= i < |o.attempted| - 1 :: render(o.attempted[i]).Rendered?)
  {
    if ts != [] && render(ts[0]).Rendered? {
      RenderAllStopsAtFirstError(ts[1..], render);
      var rest := RenderAll(ts[1..], render);
      assert forall i | 1 <= i < |ts| :: ts[i] == ts[1..][i - 1];
      if rest.result != Done(None) {
        var o := RenderAll(ts, render);
        assert o.attempted[|o.attempted| - 1] == rest.attempted[|rest.attempted| - 1];
        assert forall i | 1 <= i < |o.attempted| - 1 :: o.attempted[i] == rest.attempted[i - 1];
      }
    }
  }

  /** The order and the conditional entries of the template list. */
  lemma TemplateSelection(plan: Plan)
    ensures var ns := Selected(plan);
      && ns[0] == GatewayConfigT && ns[1] == GithubT && ns[2] == SlackT
      && ns[|ns| - 1] == StackT
      && (GitlabT in ns <==> plan.scm == "gitlab")
      && (EdgeAuthDepT in ns <==> plan.enableOAuth)
      && |ns| == 5 + (if plan.scm == "gitlab" then 1 else 0) + (if plan.enableOAuth then 1 else 0)
  {
  }

  /** No template is rendered twice. */
  lemma SelectedDistinct(plan: Plan)
    ensures forall i, j | 0 <= i < j < |Selected(plan)| :: Selected(plan)[i] != Selected(plan)[j]
  {
  }

  /** Every template that carries a scheme carries "https" exactly when TLS is
      on; the stack template's GitHub flag is set exactly for a GitHub plan;
      the auth template names the plan's SCM as its OAuth provider; the gateway
      gets the formatted custom-template list. */
  lemma TemplateValues(plan: Plan)
    ensures forall t | t in Templates(plan) && (t.config.GatewayConfig? || t.config.AuthConfig?) ::
      t.config.scheme == (if plan.tls then "https" else "http")
    ensures forall t | t in Templates(plan) && t.config.StackConfig? :: t.config.gitHub <==> plan.scm == "github"
    ensures forall t | t in Templates(plan) && t.config.AuthConfig? :: t.config.oauthProvider == plan.scm
    ensures Templates(plan)[0].config.customTemplates == FormattedTemplates(plan.deployment.customTemplates)
  {
    forall t | t in Templates(plan)
      ensures t.config == Config(plan, t.name)
    {
    }
  }

  /** Each template has its own file name. */
  lemma FileNameInjective(a: TemplateName, b: TemplateName)
    requires a != b
    ensures FileName(a) != FileName(b)
  {
    if |FileName(a)| == |FileName(b)| {
      if {a, b} == {GithubT, GitlabT} {
        assert FileName(a)[3] != FileName(b)[3];
      } else {
        assert {a, b} == {SlackT, StackT};
        assert FileName(a)[1] != FileName(b)[1];
      }
    }
  }

  /** Distinct templates are written to distinct files, so no template
      overwrites another. */
  lemma OutputPathInjective(a: TemplateName, b: TemplateName)
    requires a != b
    ensures OutputPath(a) != OutputPath(b)
  {
    FileNameInjective(a, b);
    var pa, pb := OutputPath(a), OutputPath(b);
    assert pa[14..|pa| - 4] == FileName(a);
    assert pb[14..|pb| - 4] == FileName(b);
  }
}
