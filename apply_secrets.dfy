/** cmd/apply.go, createSecrets: every secret whose filters meet the plan's
    features is built into a command and run; a failing command is only logged.
    Building the command (types.BuildSecretTask) is not part of this model: the
    method returns the secrets it runs a command for, in order. */
module ApplySecrets {
  import opened Types
  import ApplyFeatures

  /** The secrets the plan's features enable, in plan order. */
  function EnabledSecrets(features: seq<string>, secrets: seq<KeyValueNamespaceTuple>): seq<KeyValueNamespaceTuple>
  {
    if secrets == [] then []
    else
      var init := EnabledSecrets(features, secrets[..|secrets| - 1]);
      var last := secrets[|secrets| - 1];
      if ApplyFeatures.Intersects(features, last.filters) then init + [last] else init
  }

  /** createSecrets: the secrets a command is run for. */
  method CreateSecrets(plan: Plan) returns (created: seq<KeyValueNamespaceTuple>)
    ensures created == EnabledSecrets(plan.features, plan.secrets)
  {
    created := [];
    var secrets := plan.secrets;
    for k := 0 to |secrets|
      invariant created == EnabledSecrets(plan.features, secrets[..k])
    {
      assert secrets[..k + 1][..k] == secrets[..k];
      var enabled := ApplyFeatures.FeatureEnabled(plan.features, secrets[k].filters);
      if enabled {
        created := created + [secrets[k]];
      }
    }
    assert secrets[..|secrets|] == secrets;
  }

  /** Exactly the secrets whose filters meet the features are created, so a
      secret with no filters never is. */
  lemma {:induction false} EnabledSecretsSpec(features: seq<string>, secrets: seq<KeyValueNamespaceTuple>)
    ensures forall s :: s in EnabledSecrets(features, secrets) <==> s in secrets && ApplyFeatures.Intersects(features, s.filters)
    ensures |EnabledSecrets(features, secrets)| <= |secrets|
  {
    if secrets != [] {
      var init := secrets[..|secrets| - 1];
      EnabledSecretsSpec(features, init);
      assert secrets == init + [secrets[|secrets| - 1]];
    }
  }

  /** The names of the created secrets. */
  function Names(secrets: seq<KeyValueNamespaceTuple>): (ns: seq<string>)
    ensures |ns| == |secrets|
    ensures forall i | 0 <= i < |secrets| :: ns[i] == secrets[i].name
  {
    if secrets == [] then [] else [secrets[0].name] + Names(secrets[1..])
  }
}
