/** cmd/merge.go: an unexported copy of the plan merge in the command package.
    Its contract is the one Merge.MergePlans has, ending in the same
    `r == Merge.MergeSpec(plans)`, so the two copies agree on every input. */
module CmdMerge {
  import opened Wrappers
  import opened Types
  import Merge

  method MergePlans(plans: seq<Plan>) returns (r: Result<Plan>)
    ensures r.Err? <==> |plans| == 0
    ensures r.Err? ==> r.error == Merge.NoPlansError
    ensures |plans| == 1 ==> r == Ok(plans[0])
    ensures |plans| > 1 ==>
      r.Ok? && forall f :: Merge.Get(r.value, f) == Merge.LastSet(Merge.Column(plans, f), Merge.Get(EmptyPlan, f))
    ensures r == Merge.MergeSpec(plans)
  {
    var masterPlan := EmptyPlan;
    if |plans| == 1 {
      return Ok(plans[0]);
    }
    if |plans| == 0 {
      return Err(Merge.NoPlansError);
    }
    for i := 0 to |plans|
      invariant masterPlan == Merge.FoldMerge(plans[..i])
    {
      assert plans[..i + 1][..i] == plans[..i];
      masterPlan := Merge.MergeInto(masterPlan, plans[i]);
    }
    assert plans[..|plans|] == plans;
    Merge.FoldMergeIsLastSet(plans);
    r := Ok(masterPlan);
  }
}
