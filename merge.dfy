/** pkg/types/merge.go: MergePlans folds plans left to right into an empty
    Plan with mergo.Merge(..., WithOverride). mergo walks nested structs field
    by field; a source field that is not Go's zero value replaces the
    destination field, a zero one leaves it alone. Slices are replaced whole
    (the secrets list included: the code does no reconciliation by name). */
module Merge {
  import opened Wrappers
  import opened Types

  const NoPlansError := "at least one plan is required"

  function PickString(dst: string, src: string): string { if src != "" then src else dst }
  function PickBool(dst: bool, src: bool): bool { if src then src else dst }
  function PickSeq<T>(dst: seq<T>, src: seq<T>): seq<T> { if src != [] then src else dst }

  /** mergo.Merge(&dst, src, mergo.WithOverride) on one Plan. */
  function MergeInto(dst: Plan, src: Plan): Plan
  {
    Plan(
      PickSeq(dst.features, src.features),
      PickString(dst.orchestration, src.orchestration),
      PickSeq(dst.secrets, src.secrets),
      PickString(dst.rootDomain, src.rootDomain),
      PickString(dst.registry, src.registry),
      PickString(dst.customersUrl, src.customersUrl),
      PickString(dst.scm, src.scm),
      Github(PickString(dst.github.appId, src.github.appId),
             PickString(dst.github.privateKeyFile, src.github.privateKeyFile)),
      Gitlab(PickString(dst.gitlab.gitLabInstance, src.gitlab.gitLabInstance)),
      PickBool(dst.tls, src.tls),
      OAuth(PickString(dst.oauth.clientId, src.oauth.clientId),
            PickString(dst.oauth.oauthProviderBaseUrl, src.oauth.oauthProviderBaseUrl)),
      S3(PickString(dst.s3.url, src.s3.url), PickString(dst.s3.region, src.s3.region),
         PickBool(dst.s3.tls, src.s3.tls), PickString(dst.s3.bucket, src.s3.bucket)),
      PickBool(dst.enableOAuth, src.enableOAuth),
      TLSConfig(PickString(dst.tlsConfig.email, src.tlsConfig.email),
                PickString(dst.tlsConfig.dnsService, src.tlsConfig.dnsService),
                PickString(dst.tlsConfig.projectId, src.tlsConfig.projectId),
                PickString(dst.tlsConfig.issuerType, src.tlsConfig.issuerType),
                PickString(dst.tlsConfig.region, src.tlsConfig.region),
                PickString(dst.tlsConfig.accessKeyId, src.tlsConfig.accessKeyId)),
      Slack(PickString(dst.slack.url, src.slack.url)),
      PickString(dst.ingress, src.ingress),
      Deployment(PickSeq(dst.deployment.customTemplates, src.deployment.customTemplates)),
      PickBool(dst.enableDockerfileLang, src.enableDockerfileLang),
      PickBool(dst.scaleToZero, src.scaleToZero),
      PickString(dst.openFaaSCloudVersion, src.openFaaSCloudVersion),
      PickBool(dst.networkPolicies, src.networkPolicies),
      PickBool(dst.enableEcr, src.enableEcr),
      PickBool(dst.ingressOperator, src.ingressOperator),
      PickBool(dst.dryRun, src.dryRun))
  }

  /** Every leaf field of a Plan, nested records flattened. */
  datatype Field =
    | Features | Orchestration | Secrets | RootDomain | Registry | CustomersUrl | Scm
    | GithubAppId | GithubPrivateKeyFile | GitlabInstance | Tls
    | OAuthClientId | OAuthProviderBaseUrl
    | S3Url | S3Region | S3Tls | S3Bucket | EnableOAuth
    | TlsEmail | TlsDnsService | TlsProjectId | TlsIssuerType | TlsRegion | TlsAccessKeyId
    | SlackUrl | Ingress | CustomTemplates | EnableDockerfileLang | ScaleToZero
    | OpenFaaSCloudVersion | NetworkPolicies | EnableEcr | IngressOperator | DryRun

  /** The value held in one leaf field. */
  datatype Value =
    | Text(s: string)
    | Flag(b: bool)
    | Tags(tags: seq<string>)
    | SecretSpecs(specs: seq<KeyValueNamespaceTuple>)

  /** Go's zero value test that mergo applies to the source field. */
  predicate IsZero(v: Value)
  {
    match v
    case Text(s) => s == ""
    case Flag(b) => !b
    case Tags(t) => t == []
    case SecretSpecs(l) => l == []
  }

  function Get(p: Plan, f: Field): Value
  {
    match f
    case Features => Tags(p.features)
    case Orchestration => Text(p.orchestration)
    case Secrets => SecretSpecs(p.secrets)
    case RootDomain => Text(p.rootDomain)
    case Registry => Text(p.registry)
    case CustomersUrl => Text(p.customersUrl)
    case Scm => Text(p.scm)
    case GithubAppId => Text(p.github.appId)
    case GithubPrivateKeyFile => Text(p.github.privateKeyFile)
    case GitlabInstance => Text(p.gitlab.gitLabInstance)
    case Tls => Flag(p.tls)
    case OAuthClientId => Text(p.oauth.clientId)
    case OAuthProviderBaseUrl => Text(p.oauth.oauthProviderBaseUrl)
    case S3Url => Text(p.s3.url)
    case S3Region => Text(p.s3.region)
    case S3Tls => Flag(p.s3.tls)
    case S3Bucket => Text(p.s3.bucket)
    case EnableOAuth => Flag(p.enableOAuth)
    case TlsEmail => Text(p.tlsConfig.email)
    case TlsDnsService => Text(p.tlsConfig.dnsService)
    case TlsProjectId => Text(p.tlsConfig.projectId)
    case TlsIssuerType => Text(p.tlsConfig.issuerType)
    case TlsRegion => Text(p.tlsConfig.region)
    case TlsAccessKeyId => Text(p.tlsConfig.accessKeyId)
    case SlackUrl => Text(p.slack.url)
    case Ingress => Text(p.ingress)
    case CustomTemplates => Tags(p.deployment.customTemplates)
    case EnableDockerfileLang => Flag(p.enableDockerfileLang)
    case ScaleToZero => Flag(p.scaleToZero)
    case OpenFaaSCloudVersion => Text(p.openFaaSCloudVersion)
    case NetworkPolicies => Flag(p.networkPolicies)
    case EnableEcr => Flag(p.enableEcr)
    case IngressOperator => Flag(p.ingressOperator)
    case DryRun => Flag(p.dryRun)
  }

  /** The override rule for one field: a non-zero source value wins. */
  function Override(dst: Value, src: Value): Value
  {
    if IsZero(src) then dst else src
  }

  /** The values of field `f` across `plans`, in order. */
  function Column(plans: seq<Plan>, f: Field): (c: seq<Value>)
    ensures |c| == |plans|
  {
    if plans == [] then [] else Column(plans[..|plans| - 1], f) + [Get(plans[|plans| - 1], f)]
  }

  /** The last non-zero value of a column, or `zero` when every value is zero. */
  function LastSet(vs: seq<Value>, zero: Value): Value
  {
    if vs == [] then zero
    else if !IsZero(vs[|vs| - 1]) then vs[|vs| - 1]
    else LastSet(vs[..|vs| - 1], zero)
  }

  /** The functional reading of the loop: fold `plans` into the empty plan. */
  function FoldMerge(plans: seq<Plan>): Plan
  {
    if plans == [] then EmptyPlan else MergeInto(FoldMerge(plans[..|plans| - 1]), plans[|plans| - 1])
  }

  /** What MergePlans returns for `plans`. */
  function MergeSpec(plans: seq<Plan>): Result<Plan>
  {
    if |plans| == 1 then Ok(plans[0])
    else if |plans| == 0 then Err(NoPlansError)
    else Ok(FoldMerge(plans))
  }

  /** Which quarter of the field list a field falls in (used to keep proofs small). */
  function Quarter(f: Field): nat
  {
    match f
    case Features => 0
    case Orchestration => 0
    case Secrets => 0
    case RootDomain => 0
    case Registry => 0
    case CustomersUrl => 0
    case Scm => 0
    case GithubAppId => 0
    case GithubPrivateKeyFile => 0
    case GitlabInstance => 1
    case Tls => 1
    case OAuthClientId => 1
    case OAuthProviderBaseUrl => 1
    case S3Url => 1
    case S3Region => 1
    case S3Tls => 1
    case S3Bucket => 1
    case EnableOAuth => 1
    case TlsEmail => 2
    case TlsDnsService => 2
    case TlsProjectId => 2
    case TlsIssuerType => 2
    case TlsRegion => 2
    case TlsAccessKeyId => 2
    case SlackUrl => 2
    case Ingress => 2
    case CustomTemplates => 3
    case EnableDockerfileLang => 3
    case ScaleToZero => 3
    case OpenFaaSCloudVersion => 3
    case NetworkPolicies => 3
    case EnableEcr => 3
    case IngressOperator => 3
    case DryRun => 3
  }

  lemma MergeIntoFieldwise0(dst: Plan, src: Plan)
    ensures forall f | Quarter(f) == 0 :: Get(MergeInto(dst, src), f) == Override(Get(dst, f), Get(src, f))
  {
    var m := MergeInto(dst, src);
    forall f | Quarter(f) == 0 ensures Get(m, f) == Override(Get(dst, f), Get(src, f)) {
      match f
      case Features =>
      case Orchestration =>
      case Secrets =>
      case RootDomain =>
      case Registry =>
      case CustomersUrl =>
      case Scm =>
      case GithubAppId =>
      case GithubPrivateKeyFile =>
      case _ =>
    }
  }

  lemma MergeIntoFieldwise1(dst: Plan, src: Plan)
    ensures forall f | Quarter(f) == 1 :: Get(MergeInto(dst, src), f) == Override(Get(dst, f), Get(src, f))
  {
    var m := MergeInto(dst, src);
    forall f | Quarter(f) == 1 ensures Get(m, f) == Override(Get(dst, f), Get(src, f)) {
      match f
      case GitlabInstance =>
      case Tls =>
      case OAuthClientId =>
      case OAuthProviderBaseUrl =>
      case S3Url =>
      case S3Region =>
      case S3Tls =>
      case S3Bucket =>
      case EnableOAuth =>
      case _ =>
    }
  }

  lemma MergeIntoFieldwise2(dst: Plan, src: Plan)
    ensures forall f | Quarter(f) == 2 :: Get(MergeInto(dst, src), f) == Override(Get(dst, f), Get(src, f))
  {
    var m := MergeInto(dst, src);
    forall f | Quarter(f) == 2 ensures Get(m, f) == Override(Get(dst, f), Get(src, f)) {
      match f
      case TlsEmail =>
      case TlsDnsService =>
      case TlsProjectId =>
      case TlsIssuerType =>
      case TlsRegion =>
      case TlsAccessKeyId =>
      case SlackUrl =>
      case Ingress =>
      case _ =>
    }
  }

  lemma MergeIntoFieldwise3(dst: Plan, src: Plan)
    ensures forall f | Quarter(f) == 3 :: Get(MergeInto(dst, src), f) == Override(Get(dst, f), Get(src, f))
  {
    var m := MergeInto(dst, src);
    forall f | Quarter(f) == 3 ensures Get(m, f) == Override(Get(dst, f), Get(src, f)) {
      match f
      case CustomTemplates =>
      case EnableDockerfileLang =>
      case ScaleToZero =>
      case OpenFaaSCloudVersion =>
      case NetworkPolicies =>
      case EnableEcr =>
      case IngressOperator =>
      case DryRun =>
      case _ =>
    }
  }

  /** One merge step overrides each field independently. */
  lemma MergeIntoFieldwise(dst: Plan, src: Plan)
    ensures forall f :: Get(MergeInto(dst, src), f) == Override(Get(dst, f), Get(src, f))
  {
    MergeIntoFieldwise0(dst, src);
    MergeIntoFieldwise1(dst, src);
    MergeIntoFieldwise2(dst, src);
    MergeIntoFieldwise3(dst, src);
    forall f ensures Get(MergeInto(dst, src), f) == Override(Get(dst, f), Get(src, f)) {
      assert Quarter(f) < 4;
    }
  }

  /** The empty plan is zero in every field. */
  lemma EmptyPlanIsZero()
    ensures forall f :: IsZero(Get(EmptyPlan, f))
  {
  }

  /** Folding gives, in every field, the last non-zero value among the plans,
      and the zero value when no plan sets the field. */
  lemma {:induction false} FoldMergeIsLastSet(plans: seq<Plan>)
    ensures forall f :: Get(FoldMerge(plans), f) == LastSet(Column(plans, f), Get(EmptyPlan, f))
  {
    if plans != [] {
      var init := plans[..|plans| - 1];
      var last := plans[|plans| - 1];
      FoldMergeIsLastSet(init);
      MergeIntoFieldwise(FoldMerge(init), last);
      forall f ensures Get(FoldMerge(plans), f) == LastSet(Column(plans, f), Get(EmptyPlan, f)) {
        var c := Column(plans, f);
        assert c[..|c| - 1] == Column(init, f);
        assert c[|c| - 1] == Get(last, f);
      }
    }
  }

  /** The empty plan is a left identity of a merge step. */
  lemma MergeIntoEmpty(p: Plan)
    ensures MergeInto(EmptyPlan, p) == p
  {
  }

  /** Merging is associative, so folding left to right gives the same plan as
      any other grouping of the same sequence. */
  lemma MergeIntoAssociative(a: Plan, b: Plan, c: Plan)
    ensures MergeInto(MergeInto(a, b), c) == MergeInto(a, MergeInto(b, c))
  {
  }

  /** Merging the same plan twice changes nothing more. */
  lemma MergeIntoIdempotent(a: Plan, b: Plan)
    ensures MergeInto(MergeInto(a, b), b) == MergeInto(a, b)
  {
  }

  /** The single-plan shortcut returns what the fold would have returned. */
  lemma SingleShortcutAgreesWithFold(p: Plan)
    ensures FoldMerge([p]) == p
  {
    assert [p][..0] == [];
    MergeIntoEmpty(p);
  }

  /** Two plans: a field set only in the first or only in the second survives,
      a field set in both takes the second's value, a field set in neither stays zero. */
  lemma TwoPlans(p1: Plan, p2: Plan, f: Field)
    ensures Get(FoldMerge([p1, p2]), f) ==
      if !IsZero(Get(p2, f)) then Get(p2, f)
      else if !IsZero(Get(p1, f)) then Get(p1, f)
      else Get(EmptyPlan, f)
  {
    FoldMergeIsLastSet([p1, p2]);
    var g1, g2, z := Get(p1, f), Get(p2, f), Get(EmptyPlan, f);
    assert [p1, p2][..1] == [p1];
    assert [p1][..0] == [];
    assert Column([p1, p2], f) == [g1, g2];
    assert [g1, g2][..1] == [g1];
    assert [g1][..0] == [];
    assert LastSet([g1], z) == if !IsZero(g1) then g1 else z;
    assert LastSet([g1, g2], z) == if !IsZero(g2) then g2 else LastSet([g1], z);
  }

  /** MergePlans (pkg/types/merge.go): the one-plan shortcut, the error for no
      plans, otherwise an in-place fold of every plan into an empty master plan. */
  method MergePlans(plans: seq<Plan>) returns (r: Result<Plan>)
    ensures r.Err? <==> |plans| == 0
    ensures r.Err? ==> r.error == NoPlansError
    ensures |plans| == 1 ==> r == Ok(plans[0])
    ensures |plans| > 1 ==>
      r.Ok? && forall f :: Get(r.value, f) == LastSet(Column(plans, f), Get(EmptyPlan, f))
    ensures r == MergeSpec(plans)
  {
    var master := EmptyPlan;
    if |plans| == 1 {
      return Ok(plans[0]);
    }
    if |plans| == 0 {
      return Err(NoPlansError);
    }
    var i := 0;
    while i < |plans|
      invariant 0 <= i <= |plans|
      invariant master == FoldMerge(plans[..i])
    {
      assert plans[..i + 1][..i] == plans[..i];
      master := MergeInto(master, plans[i]);
      i := i + 1;
    }
    assert plans[..i] == plans;
    FoldMergeIsLastSet(plans);
    r := Ok(master);
  }
}
