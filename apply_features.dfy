/** cmd/apply.go, feature derivation: the list-intersection test that gates
    secrets, and the tags a plan's settings add to its `features`. */
module ApplyFeatures {
  import opened Wrappers
  import opened Types

  /** Some feature equals some filter. */
  predicate Intersects(features: seq<string>, filters: seq<string>)
  {
    exists i, j | 0 <= i < |features| && 0 <= j < |filters| :: features[i] == filters[j]
  }

  /** featureEnabled: the nested search with an early return. */
  method FeatureEnabled(features: seq<string>, secretFeatures: seq<string>) returns (r: bool)
    ensures r <==> Intersects(features, secretFeatures)
    ensures secretFeatures == [] ==> !r
  {
    for i := 0 to |features|
      invariant forall i', j | 0 <= i' < i && 0 <= j < |secretFeatures| :: features[i'] != secretFeatures[j]
    {
      for j := 0 to |secretFeatures|
        invariant forall j' | 0 <= j' < j :: features[i] != secretFeatures[j']
      {
        if features[i] == secretFeatures[j] {
          return true;
        }
      }
    }
    return false;
  }

  /** The features a filter leaves the plan with, and its error. The filters
      change nothing else in the plan they receive, so only the features list
      is returned; the plan itself is `plan.(features := r.features)`. */
  datatype Filtered = Filtered(features: seq<string>, err: Option<string>)

  const FilterErrorPrefix := "Error while filtering features: "

  function UnsupportedScmError(scm: string): string
  {
    "Error unsupported Git repository manager: " + scm
  }

  function UnavailableDnsError(dns: string): string
  {
    "Error unavailable DNS service provider: " + dns
  }

  /** The tag an SCM value adds, if it is a supported one. */
  function ScmTag(scm: string): Option<string>
  {
    if scm == GitLabSCM then Some(GitLabFeature)
    else if scm == GitHubSCM then Some(GitHubFeature)
    else None
  }

  /** The tag a DNS service adds, if it is a supported one. */
  function DnsTag(dns: string): Option<string>
  {
    if dns == DigitalOcean then Some(DODNS)
    else if dns == CloudDNS then Some(GCPDNS)
    else if dns == Route53 then Some(Route53DNS)
    else if dns == Cloudflare then Some(CloudflareDNS)
    else None
  }

  /** filterGitRepositoryManager */
  function FilterGitRepositoryManager(features: seq<string>, scm: string): (r: Filtered)
    ensures r.err.None? <==> ScmTag(scm).Some?
    ensures r.err.None? ==> r.features == features + [ScmTag(scm).value]
    ensures r.err.Some? ==> r.features == features && r.err.value == UnsupportedScmError(scm)
  {
    if scm == GitLabSCM then Filtered(features + [GitLabFeature], None)
    else if scm == GitHubSCM then Filtered(features + [GitHubFeature], None)
    else Filtered(features, Some(UnsupportedScmError(scm)))
  }

  /** filterDNSFeature */
  function FilterDNSFeature(features: seq<string>, dns: string): (r: Filtered)
    ensures r.err.None? <==> DnsTag(dns).Some?
    ensures r.err.None? ==> r.features == features + [DnsTag(dns).value]
    ensures r.err.Some? ==> r.features == features && r.err.value == UnavailableDnsError(dns)
  {
    if dns == DigitalOcean then Filtered(features + [DODNS], None)
    else if dns == CloudDNS then Filtered(features + [GCPDNS], None)
    else if dns == Route53 then Filtered(features + [Route53DNS], None)
    else if dns == Cloudflare then Filtered(features + [CloudflareDNS], None)
    else Filtered(features, Some(UnavailableDnsError(dns)))
  }

  /** filterFeatures: `default`, then `ecr`, then the SCM tag, then (with TLS)
      the DNS tag, then `auth`; a failing filter stops the chain and its error
      is wrapped. */
  function FilterFeatures(plan: Plan): Filtered
  {
    var f1 := plan.features + [DefaultFeature];
    var f2 := if plan.enableEcr then f1 + [ECRFeature] else f1;
    var g := FilterGitRepositoryManager(f2, plan.scm);
    if g.err.Some? then Filtered(g.features, Some(FilterErrorPrefix + g.err.value))
    else
      var d := if plan.tls then FilterDNSFeature(g.features, plan.tlsConfig.dnsService) else Filtered(g.features, None);
      if d.err.Some? then Filtered(d.features, Some(FilterErrorPrefix + d.err.value))
      else Filtered(if plan.enableOAuth then d.features + [Auth] else d.features, None)
  }

  /** The tags up to and including the ECR tag. */
  function BaseTags(plan: Plan): seq<string>
  {
    [DefaultFeature] + (if plan.enableEcr then [ECRFeature] else [])
  }

  /** The tags a successful filterFeatures appends, in order. */
  function Tags(plan: Plan): seq<string>
    requires ScmTag(plan.scm).Some? && (plan.tls ==> DnsTag(plan.tlsConfig.dnsService).Some?)
  {
    BaseTags(plan) + [ScmTag(plan.scm).value]
    + (if plan.tls then [DnsTag(plan.tlsConfig.dnsService).value] else [])
    + (if plan.enableOAuth then [Auth] else [])
  }

  /** What filterFeatures does: it fails exactly for an unsupported SCM, or an
      unsupported DNS service with TLS on, and returns the wrapped error of the
      failing filter with the tags added before it; on success it appends
      `default`, `ecr` (with ECR), the SCM tag, the DNS tag (with TLS) and
      `auth` (with OAuth), in that order. */
  lemma FilterFeaturesSpec(plan: Plan)
    ensures var r := FilterFeatures(plan);
      && (r.err.None? <==> ScmTag(plan.scm).Some? && (plan.tls ==> DnsTag(plan.tlsConfig.dnsService).Some?))
      && (ScmTag(plan.scm).None? ==>
            r == Filtered(plan.features + BaseTags(plan), Some(FilterErrorPrefix + UnsupportedScmError(plan.scm))))
      && (ScmTag(plan.scm).Some? && plan.tls && DnsTag(plan.tlsConfig.dnsService).None? ==>
            r == Filtered(plan.features + BaseTags(plan) + [ScmTag(plan.scm).value],
                          Some(FilterErrorPrefix + UnavailableDnsError(plan.tlsConfig.dnsService))))
      && (r.err.None? ==> r.features == plan.features + Tags(plan))
  {
    var f2 := plan.features + BaseTags(plan);
    assert f2 == (if plan.enableEcr then plan.features + [DefaultFeature] + [ECRFeature] else plan.features + [DefaultFeature]);
    if ScmTag(plan.scm).Some? {
      var f3 := f2 + [ScmTag(plan.scm).value];
      if plan.tls && DnsTag(plan.tlsConfig.dnsService).Some? {
        var f4 := f3 + [DnsTag(plan.tlsConfig.dnsService).value];
        assert plan.features + Tags(plan) == if plan.enableOAuth then f4 + [Auth] else f4;
      } else if !plan.tls {
        assert plan.features + Tags(plan) == if plan.enableOAuth then f3 + [Auth] else f3;
      }
    }
  }

  /** `default` is always the first tag added, whatever the outcome. */
  lemma DefaultAlwaysFirst(plan: Plan)
    ensures |FilterFeatures(plan).features| > |plan.features|
    ensures FilterFeatures(plan).features[|plan.features|] == DefaultFeature
  {
    FilterFeaturesSpec(plan);
    var r := FilterFeatures(plan);
    assert r.features[..|plan.features| + 1] == plan.features + [DefaultFeature];
  }

  /** The four supported DNS services add four different tags, and DNS is not
      consulted at all without TLS. */
  lemma DnsTagsDistinct(plan: Plan)
    ensures DnsTag(DigitalOcean) == Some(DODNS) && DnsTag(CloudDNS) == Some(GCPDNS)
    ensures DnsTag(Route53) == Some(Route53DNS) && DnsTag(Cloudflare) == Some(CloudflareDNS)
    ensures |{DODNS, GCPDNS, Route53DNS, CloudflareDNS}| == 4
    ensures !plan.tls ==> FilterFeatures(plan).err.None? == ScmTag(plan.scm).Some?
  {
    FilterFeaturesSpec(plan);
    assert DODNS[0] != GCPDNS[0] && DODNS[0] != Route53DNS[0] && DODNS[0] != CloudflareDNS[0];
    assert GCPDNS[0] != Route53DNS[0] && GCPDNS[0] != CloudflareDNS[0] && Route53DNS[0] != CloudflareDNS[0];
  }

  /** The empty plan (no SCM) fails with the SCM error and carries only `default`. */
  lemma EmptyPlanFeatures()
    ensures FilterFeatures(EmptyPlan) == Filtered([DefaultFeature], Some(FilterErrorPrefix + UnsupportedScmError("")))
  {
    FilterFeaturesSpec(EmptyPlan);
  }
}
