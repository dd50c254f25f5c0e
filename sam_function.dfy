/**
 * The CloudFormation adapter for SAM functions
 * (pkg/iac/adapters/cloudformation/aws/sam/function.go): one function per
 * `AWS::Serverless::Function` resource, with its `Policies` sorted into
 * managed policy names and inline policy documents.
 */
module Sam {
  import opened Wrappers
  import opened CfnParser

  const FunctionType := "AWS::Serverless::Function"
  const TracingModePassThrough := "PassThrough"

  /** An IAM policy document; `D` is whatever the IAM parser produces. */
  datatype Document<D> = Document(meta: Metadata, parsed: D)

  datatype Policy<D> = Policy(meta: Metadata, name: StringValue, document: Document<D>, builtin: BoolValue)

  datatype Function<D> = Function(
    meta: Metadata,
    functionName: StringValue,
    tracing: StringValue,
    managedPolicies: seq<StringValue>,
    policies: seq<Policy<D>>)

  /**
   * The IAM parser applied to a property's JSON rendering
   * (`iamgo.Parse(property.GetJsonBytes(true))`): a document, or `None` when
   * parsing fails.
   */
  type PolicyParser<D> = Property -> Option<D>

  /** An inline policy built from a map property: no name, not built in. */
  function InlinePolicy<D>(p: Property, parsed: D): Policy<D>
  {
    Policy(p.meta, StringValue("", p.meta), Document(p.meta, parsed), BoolValue(false, p.meta))
  }

  /** The policy an element of a `Policies` list yields, if it is a map that parses. */
  function ParsedInline<D>(p: Property, parse: PolicyParser<D>): Option<Policy<D>>
  {
    if p.value.Map? && parse(p).Some? then Some(InlinePolicy(p, parse(p).value)) else None
  }

  /** The string elements of a `Policies` list, as managed policy names, in list order. */
  function ManagedNames(items: seq<Property>): (names: seq<StringValue>)
    ensures |names| <= |items|
    decreases |items|
  {
    if items == [] then []
    else
      var init := items[..|items| - 1];
      var last := items[|items| - 1];
      ManagedNames(init) + (if last.value.Str? then [AsStringValue(last)] else [])
  }

  /** The map elements of a `Policies` list that parse, as inline policies, in list order. */
  function InlinePolicies<D>(items: seq<Property>, parse: PolicyParser<D>): (policies: seq<Policy<D>>)
    ensures |policies| <= |items|
    decreases |items|
  {
    if items == [] then []
    else
      var init := items[..|items| - 1];
      var last := items[|items| - 1];
      InlinePolicies(init, parse) + (match ParsedInline(last, parse) case Some(p) => [p] case None => [])
  }

  /** Each element yields at most one policy of one kind: together they never outnumber the list. */
  lemma {:induction false} PolicyCountBound<D>(items: seq<Property>, parse: PolicyParser<D>)
    ensures |ManagedNames(items)| + |InlinePolicies(items, parse)| <= |items|
    decreases |items|
  {
    if items != [] {
      PolicyCountBound(items[..|items| - 1], parse);
    }
  }

  /** Every string element yields a managed name. */
  lemma {:induction false} ManagedNamesComplete(items: seq<Property>, i: int)
    requires 0 <= i < |items| && items[i].value.Str?
    ensures AsStringValue(items[i]) in ManagedNames(items)
    decreases |items|
  {
    var last := |items| - 1;
    if i < last {
      ManagedNamesComplete(items[..last], i);
    }
  }

  /** Every map element that parses yields an inline policy. */
  lemma {:induction false} InlinePoliciesComplete<D>(items: seq<Property>, parse: PolicyParser<D>, i: int)
    requires 0 <= i < |items| && items[i].value.Map? && parse(items[i]).Some?
    ensures InlinePolicy(items[i], parse(items[i]).value) in InlinePolicies(items, parse)
    decreases |items|
  {
    var last := |items| - 1;
    if i < last {
      InlinePoliciesComplete(items[..last], parse, i);
    }
  }

  /** Every managed name comes from a string element of the list. */
  lemma {:induction false} ManagedNamesSound(items: seq<Property>, n: StringValue)
    requires n in ManagedNames(items)
    ensures exists i :: 0 <= i < |items| && items[i].value.Str? && n == AsStringValue(items[i])
    decreases |items|
  {
    var last := |items| - 1;
    if items[last].value.Str? && n == AsStringValue(items[last]) {
    } else {
      ManagedNamesSound(items[..last], n);
      var i :| 0 <= i < last && items[..last][i].value.Str? && n == AsStringValue(items[..last][i]);
      assert items[..last][i] == items[i];
    }
  }

  /** Every inline policy comes from a map element of the list that parses. */
  lemma {:induction false} InlinePoliciesSound<D>(items: seq<Property>, parse: PolicyParser<D>, p: Policy<D>)
    requires p in InlinePolicies(items, parse)
    ensures exists i :: 0 <= i < |items| && items[i].value.Map? && parse(items[i]).Some?
                        && p == InlinePolicy(items[i], parse(items[i]).value)
    ensures p.name.value == "" && !p.builtin.value
    decreases |items|
  {
    var last := |items| - 1;
    if ParsedInline(items[last], parse) == Some(p) {
    } else {
      InlinePoliciesSound(items[..last], parse, p);
      var i :| 0 <= i < last && items[..last][i].value.Map? && parse(items[..last][i]).Some?
               && p == InlinePolicy(items[..last][i], parse(items[..last][i]).value);
      assert items[..last][i] == items[i];
    }
  }

  /** Extending the scanned prefix by one element extends each list by that element's policy, if any. */
  lemma PartitionSnoc<D>(items: seq<Property>, parse: PolicyParser<D>, i: int)
    requires 0 <= i < |items|
    ensures ManagedNames(items[..i + 1])
         == ManagedNames(items[..i]) + (if items[i].value.Str? then [AsStringValue(items[i])] else [])
    ensures InlinePolicies(items[..i + 1], parse)
         == InlinePolicies(items[..i], parse)
            + (match ParsedInline(items[i], parse) case Some(p) => [p] case None => [])
  {
    assert items[..i + 1][..i] == items[..i];
    assert items[..i + 1][i] == items[i];
  }

  /** Order is kept: partitioning a concatenation concatenates the partitioned parts. */
  lemma {:induction false} PartitionAppend<D>(xs: seq<Property>, ys: seq<Property>, parse: PolicyParser<D>)
    ensures ManagedNames(xs + ys) == ManagedNames(xs) + ManagedNames(ys)
    ensures InlinePolicies(xs + ys, parse) == InlinePolicies(xs, parse) + InlinePolicies(ys, parse)
    decreases |ys|
  {
    if ys == [] {
      assert xs + ys == xs;
    } else {
      var init := ys[..|ys| - 1];
      assert (xs + ys)[..|xs + ys| - 1] == xs + init;
      assert (xs + ys)[|xs + ys| - 1] == ys[|ys| - 1];
      PartitionAppend(xs, init, parse);
    }
  }

  /** The managed policy names `setFunctionPolicies` adds for a resource. */
  function PolicyNames(r: Resource): seq<StringValue>
  {
    var policies := GetProperty(r, ["Policies"]);
    if IsNil(policies) then []
    else if IsString(policies) then [AsStringValue(policies.value)]
    else ManagedNames(AsList(policies))
  }

  /** The inline policies `setFunctionPolicies` adds for a resource. */
  function PolicyDocuments<D>(r: Resource, parse: PolicyParser<D>): seq<Policy<D>>
  {
    var policies := GetProperty(r, ["Policies"]);
    if IsNil(policies) || IsString(policies) then []
    else InlinePolicies(AsList(policies), parse)
  }

  /**
   * Appends the resource's `Policies` to the function: a single string is one
   * managed name; a list is partitioned by `AppendListPolicies`; anything else adds
   * nothing.
   */
  method SetFunctionPolicies<D>(r: Resource, fn: Function<D>, parse: PolicyParser<D>) returns (updated: Function<D>)
    ensures updated.meta == fn.meta && updated.functionName == fn.functionName && updated.tracing == fn.tracing
    ensures updated.managedPolicies == fn.managedPolicies + PolicyNames(r)
    ensures updated.policies == fn.policies + PolicyDocuments(r, parse)
  {
    updated := fn;
    var policies := GetProperty(r, ["Policies"]);
    if IsNil(policies) {
      return;
    }
    if IsString(policies) {
      updated := updated.(managedPolicies := updated.managedPolicies + [AsStringValue(policies.value)]);
      return;
    }
    if IsList(policies) {
      updated := AppendListPolicies(AsList(policies), updated, parse);
    }
  }

  /**
   * The loop over a `Policies` list: strings are appended to the managed
   * names, maps that parse to the inline policies, in list order; maps that
   * fail to parse and elements of other kinds are dropped.
   */
  method AppendListPolicies<D>(items: seq<Property>, fn: Function<D>, parse: PolicyParser<D>) returns (updated: Function<D>)
    ensures updated.meta == fn.meta && updated.functionName == fn.functionName && updated.tracing == fn.tracing
    ensures updated.managedPolicies == fn.managedPolicies + ManagedNames(items)
    ensures updated.policies == fn.policies + InlinePolicies(items, parse)
  {
    updated := fn;
    var i := 0;
    while i < |items|
      invariant 0 <= i <= |items|
      invariant updated.meta == fn.meta && updated.functionName == fn.functionName
                && updated.tracing == fn.tracing
      invariant updated.managedPolicies == fn.managedPolicies + ManagedNames(items[..i])
      invariant updated.policies == fn.policies + InlinePolicies(items[..i], parse)
    {
      var property := items[i];
      PartitionSnoc(items, parse, i);
      if property.value.Map? {
        var parsed := parse(property);
        if parsed.None? {
          i := i + 1;
          continue;
        }
        updated := updated.(policies := updated.policies + [InlinePolicy(property, parsed.value)]);
      } else if property.value.Str? {
        updated := updated.(managedPolicies := updated.managedPolicies + [AsStringValue(property)]);
      }
      i := i + 1;
    }
    assert items[..i] == items;
  }

  /** The function `getFunctions` produces for one function resource. */
  function FunctionOf<D>(r: Resource, parse: PolicyParser<D>): Function<D>
  {
    Function(
      r.meta,
      GetString(Root(r), ["FunctionName"], ""),
      GetString(Root(r), ["Tracing"], TracingModePassThrough),
      PolicyNames(r),
      PolicyDocuments(r, parse))
  }

  /** `Tracing` defaults to pass-through; `FunctionName` to the empty string. */
  lemma FunctionDefaults<D>(r: Resource, parse: PolicyParser<D>)
    ensures FunctionOf(r, parse).meta == r.meta
    ensures !IsString(GetProperty(r, ["Tracing"])) ==>
              FunctionOf(r, parse).tracing == StringValue(TracingModePassThrough, r.meta)
    ensures IsString(GetProperty(r, ["Tracing"])) ==>
              FunctionOf(r, parse).tracing == AsStringValue(GetProperty(r, ["Tracing"]).value)
    ensures !IsString(GetProperty(r, ["FunctionName"])) ==>
              FunctionOf(r, parse).functionName == StringValue("", r.meta)
  {
  }

  /**
   * Without `Policies` there are no policies, a single string is one managed
   * name, and a list yields at most one policy per element, every inline one
   * unnamed and not built in.
   */
  lemma FunctionPolicyCases<D>(r: Resource, parse: PolicyParser<D>)
    ensures IsNil(GetProperty(r, ["Policies"])) ==>
              FunctionOf(r, parse).managedPolicies == [] && FunctionOf(r, parse).policies == []
    ensures IsString(GetProperty(r, ["Policies"])) ==>
              FunctionOf(r, parse).managedPolicies == [AsStringValue(GetProperty(r, ["Policies"]).value)]
              && FunctionOf(r, parse).policies == []
    ensures IsList(GetProperty(r, ["Policies"])) ==>
              |FunctionOf(r, parse).managedPolicies| + |FunctionOf(r, parse).policies|
              <= |AsList(GetProperty(r, ["Policies"]))|
    ensures forall p :: p in FunctionOf(r, parse).policies ==> p.name.value == "" && !p.builtin.value
  {
    var items := AsList(GetProperty(r, ["Policies"]));
    PolicyCountBound(items, parse);
    forall p | p in FunctionOf(r, parse).policies
      ensures p.name.value == "" && !p.builtin.value
    {
      InlinePoliciesSound(items, parse, p);
    }
  }

  /** The functions of a list of function resources, one per resource, in order. */
  function FunctionsOf<D>(resources: seq<Resource>, parse: PolicyParser<D>): (functions: seq<Function<D>>)
    ensures |functions| == |resources|
    decreases |resources|
  {
    if resources == [] then []
    else FunctionsOf(resources[..|resources| - 1], parse) + [FunctionOf(resources[|resources| - 1], parse)]
  }

  /** Function `i` is built from resource `i`. */
  lemma {:induction false} FunctionsOfAt<D>(resources: seq<Resource>, parse: PolicyParser<D>, i: int)
    requires 0 <= i < |resources|
    ensures FunctionsOf(resources, parse)[i] == FunctionOf(resources[i], parse)
    decreases |resources|
  {
    var last := |resources| - 1;
    if i < last {
      FunctionsOfAt(resources[..last], parse, i);
    }
  }

  /** The body of the loop in `getFunctions`: one function from one resource. */
  method AdaptFunction<D>(r: Resource, parse: PolicyParser<D>) returns (fn: Function<D>)
    ensures fn == FunctionOf(r, parse)
  {
    fn := Function(
      r.meta,
      GetString(Root(r), ["FunctionName"], ""),
      GetString(Root(r), ["Tracing"], TracingModePassThrough),
      [],
      []);
    fn := SetFunctionPolicies(r, fn, parse);
  }

  /** One function per function resource, in the order the resources are listed. */
  method GetFunctions<D>(ctx: FileContext, parse: PolicyParser<D>) returns (functions: seq<Function<D>>)
    ensures functions == FunctionsOf(GetResourcesByType(ctx, FunctionType), parse)
  {
    var functionResources := GetResourcesByType(ctx, FunctionType);
    functions := [];
    var k := 0;
    while k < |functionResources|
      invariant 0 <= k <= |functionResources|
      invariant functions == FunctionsOf(functionResources[..k], parse)
    {
      var fn := AdaptFunction(functionResources[k], parse);
      assert functionResources[..k + 1][..k] == functionResources[..k];
      functions := functions + [fn];
      k := k + 1;
    }
    assert functionResources[..k] == functionResources;
  }
}
