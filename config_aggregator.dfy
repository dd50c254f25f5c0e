/**
 * The CloudFormation adapter for AWS Config aggregators
 * (pkg/iac/adapters/cloudformation/aws/config/aggregator.go): the first
 * `AWS::Config::ConfigurationAggregator` resource, and whether it sources all
 * regions.
 */
module Config {
  import opened Wrappers
  import opened CfnParser

  const AggregatorType := "AWS::Config::ConfigurationAggregator"

  datatype ConfigurationAggregator = ConfigurationAggregator(meta: Metadata, sourceAllRegions: BoolValue)

  /** An account aggregation source that says whether it covers all regions. */
  predicate CarriesAllRegions(source: Property)
  {
    !IsNil(Lookup(source, ["AllAwsRegions"]))
  }

  /** The first account source that carries `AllAwsRegions`. */
  function FirstCarrying(sources: seq<Property>): (found: Option<Property>)
    ensures found.None? <==> forall j :: 0 <= j < |sources| ==> !CarriesAllRegions(sources[j])
    ensures found.Some? ==>
              exists k :: 0 <= k < |sources| && sources[k] == found.value && CarriesAllRegions(sources[k])
                          && forall j :: 0 <= j < k ==> !CarriesAllRegions(sources[j])
    decreases |sources|
  {
    if sources == [] then None
    else if CarriesAllRegions(sources[0]) then Some(sources[0])
    else
      var rest := FirstCarrying(sources[1..]);
      assert forall j :: 1 <= j < |sources| ==> sources[j] == sources[1..][j - 1];
      rest
  }

  /** Once a source carries the flag, the entries after it are never consulted. */
  lemma {:induction false} FirstCarryingIgnoresLater(xs: seq<Property>, ys: seq<Property>)
    requires FirstCarrying(xs).Some?
    ensures FirstCarrying(xs + ys) == FirstCarrying(xs)
    decreases |xs|
  {
    assert (xs + ys)[0] == xs[0];
    if !CarriesAllRegions(xs[0]) {
      assert (xs + ys)[1..] == xs[1..] + ys;
      FirstCarryingIgnoresLater(xs[1..], ys);
    }
  }

  /** The organisation source's flag, the fallback. */
  function OrganizationAllRegions(r: Resource): BoolValue
  {
    GetBool(Root(r), ["OrganizationAggregationSource", "AllAwsRegions"])
  }

  /**
   * The `AllAwsRegions` of the first account source that carries it;
   * otherwise the organisation source's.
   */
  function IsSourcingAllRegions(r: Resource): (v: BoolValue)
    ensures var account := GetProperty(r, ["AccountAggregationSources"]);
            !IsList(account) || (forall j :: 0 <= j < |AsList(account)| ==> !CarriesAllRegions(AsList(account)[j]))
            ==> v == OrganizationAllRegions(r)
  {
    var accountProp := GetProperty(r, ["AccountAggregationSources"]);
    if !IsNil(accountProp) && IsList(accountProp) then
      match FirstCarrying(AsList(accountProp))
      case Some(source) => GetBool(source, ["AllAwsRegions"])
      case None => OrganizationAllRegions(r)
    else OrganizationAllRegions(r)
  }

  /** The first account source that carries the flag decides. */
  lemma FirstSourceDecides(r: Resource, k: int)
    requires IsList(GetProperty(r, ["AccountAggregationSources"]))
    requires var sources := AsList(GetProperty(r, ["AccountAggregationSources"]));
             0 <= k < |sources| && CarriesAllRegions(sources[k])
             && forall j :: 0 <= j < k ==> !CarriesAllRegions(sources[j])
    ensures IsSourcingAllRegions(r)
         == GetBool(AsList(GetProperty(r, ["AccountAggregationSources"]))[k], ["AllAwsRegions"])
  {
    var sources := AsList(GetProperty(r, ["AccountAggregationSources"]));
    var found := FirstCarrying(sources);
    var k' :| 0 <= k' < |sources| && sources[k'] == found.value && CarriesAllRegions(sources[k'])
              && forall j :: 0 <= j < k' ==> !CarriesAllRegions(sources[j]);
    assert k' == k;
  }

  /** The first aggregator resource if there is one, otherwise an unmanaged default. */
  function GetConfigurationAggregator(ctx: FileContext): (aggregator: ConfigurationAggregator)
    ensures (forall j :: 0 <= j < |ctx.resources| ==> ctx.resources[j].resourceType != AggregatorType)
            ==> aggregator == ConfigurationAggregator(Unmanaged, BoolValue(false, ctx.meta))
  {
    var aggregatorResources := GetResourcesByType(ctx, AggregatorType);
    if |aggregatorResources| == 0 then
      ConfigurationAggregator(Unmanaged, BoolValue(false, ctx.meta))
    else
      ResourcesOfTypeMembers(ctx.resources, AggregatorType, aggregatorResources[0]);
      ConfigurationAggregator(aggregatorResources[0].meta, IsSourcingAllRegions(aggregatorResources[0]))
  }

  /** Only the first aggregator resource counts, for its metadata and for its regions. */
  lemma FirstAggregatorUsed(ctx: FileContext, k: int)
    requires 0 <= k < |ctx.resources| && ctx.resources[k].resourceType == AggregatorType
    requires forall j :: 0 <= j < k ==> ctx.resources[j].resourceType != AggregatorType
    ensures GetConfigurationAggregator(ctx)
         == ConfigurationAggregator(ctx.resources[k].meta, IsSourcingAllRegions(ctx.resources[k]))
  {
    FirstOfType(ctx.resources, AggregatorType, k);
  }
}
