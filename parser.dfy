/**
 * An abstract view of a parsed CloudFormation template, as the adapters see
 * it: resources with a logical ID, a type and a tree of properties. The
 * parser itself, intrinsic-function resolution and the parser's own defaulting
 * rules are not part of this model; the lookups below are the small fixed
 * vocabulary the adapters use.
 */
module CfnParser {
  import opened Wrappers

  /** Where a value came from: an opaque source range, or none at all. */
  datatype Metadata = Unmanaged | Managed(reference: string)

  /** A value of the security model together with its origin. */
  datatype StringValue = StringValue(value: string, meta: Metadata)
  datatype BoolValue = BoolValue(value: bool, meta: Metadata)

  /** A property node: its origin and its value. */
  datatype Property = Property(meta: Metadata, value: Value)

  datatype Value =
    | Nil
    | Str(s: string)
    | Bool(b: bool)
    | Int(i: int)
    | List(items: seq<Property>)
    | Map(fields: map<string, Property>)

  datatype Resource = Resource(
    logicalId: string,
    resourceType: string,
    properties: map<string, Property>,
    meta: Metadata)

  /** A template file: its resources, in the order the parser enumerates them. */
  datatype FileContext = FileContext(resources: seq<Resource>, meta: Metadata)

  /** A resource seen as the property map at the root of its property path. */
  function Root(r: Resource): Property
  {
    Property(r.meta, Map(r.properties))
  }

  /** The property at a path of map keys (`"A.B"` is `["A", "B"]`), if there is one. */
  function Lookup(p: Property, path: seq<string>): (found: Option<Property>)
    ensures path == [] ==> found == Some(p)
    ensures path != [] && !p.value.Map? ==> found == None
    decreases |path|
  {
    if path == [] then Some(p)
    else match p.value
      case Map(fields) =>
        if path[0] in fields then Lookup(fields[path[0]], path[1..]) else None
      case _ => None
  }

  function GetProperty(r: Resource, path: seq<string>): Option<Property>
  {
    Lookup(Root(r), path)
  }

  /** `IsNil`: the property is absent or holds no value. */
  predicate IsNil(p: Option<Property>)
  {
    p.None? || p.value.value.Nil?
  }

  predicate IsString(p: Option<Property>)
  {
    p.Some? && p.value.value.Str?
  }

  predicate IsList(p: Option<Property>)
  {
    p.Some? && p.value.value.List?
  }

  /** `AsList`: the elements of a list property, none for anything else. */
  function AsList(p: Option<Property>): seq<Property>
  {
    if IsList(p) then p.value.value.items else []
  }

  /** `AsStringValue`: a string property as a model value carrying its origin. */
  function AsStringValue(p: Property): StringValue
    requires p.value.Str?
  {
    StringValue(p.value.s, p.meta)
  }

  /**
   * `GetStringProperty(path, default)`: the string at `path` below `base`,
   * or `default` attributed to `base` when there is none.
   */
  function GetString(base: Property, path: seq<string>, default: string): StringValue
  {
    var p := Lookup(base, path);
    if IsString(p) then AsStringValue(p.value) else StringValue(default, base.meta)
  }

  /**
   * `GetBoolProperty(path)`: the boolean at `path` below `base`, or `false`
   * attributed to `base` when there is none.
   */
  function GetBool(base: Property, path: seq<string>): BoolValue
  {
    var p := Lookup(base, path);
    if p.Some? && p.value.value.Bool? then BoolValue(p.value.value.b, p.value.meta)
    else BoolValue(false, base.meta)
  }

  /** `GetResourcesByType`: the resources of one type, in enumeration order. */
  function ResourcesOfType(resources: seq<Resource>, resourceType: string): (rs: seq<Resource>)
    ensures |rs| <= |resources|
    decreases |resources|
  {
    if resources == [] then []
    else (if resources[0].resourceType == resourceType then [resources[0]] else [])
         + ResourcesOfType(resources[1..], resourceType)
  }

  function GetResourcesByType(ctx: FileContext, resourceType: string): seq<Resource>
  {
    ResourcesOfType(ctx.resources, resourceType)
  }

  /** The filter keeps exactly the resources of the type. */
  lemma {:induction false} ResourcesOfTypeMembers(resources: seq<Resource>, resourceType: string, r: Resource)
    ensures r in ResourcesOfType(resources, resourceType) <==> r in resources && r.resourceType == resourceType
    decreases |resources|
  {
    if resources != [] {
      ResourcesOfTypeMembers(resources[1..], resourceType, r);
      assert resources == [resources[0]] + resources[1..];
    }
  }

  /** The filter's first element is the first resource of that type. */
  lemma {:induction false} FirstOfType(resources: seq<Resource>, resourceType: string, k: int)
    requires 0 <= k < |resources| && resources[k].resourceType == resourceType
    requires forall j :: 0 <= j < k ==> resources[j].resourceType != resourceType
    ensures ResourcesOfType(resources, resourceType) != []
    ensures ResourcesOfType(resources, resourceType)[0] == resources[k]
    decreases k
  {
    if k > 0 {
      FirstOfType(resources[1..], resourceType, k - 1);
    }
  }

  /** The filter keeps order: it distributes over concatenation. */
  lemma {:induction false} ResourcesOfTypeAppend(xs: seq<Resource>, ys: seq<Resource>, resourceType: string)
    ensures ResourcesOfType(xs + ys, resourceType)
         == ResourcesOfType(xs, resourceType) + ResourcesOfType(ys, resourceType)
    decreases |xs|
  {
    if xs == [] {
      assert xs + ys == ys;
    } else {
      var head := if xs[0].resourceType == resourceType then [xs[0]] else [];
      assert (xs + ys)[0] == xs[0];
      assert (xs + ys)[1..] == xs[1..] + ys;
      calc {
        ResourcesOfType(xs + ys, resourceType);
        head + ResourcesOfType(xs[1..] + ys, resourceType);
        { ResourcesOfTypeAppend(xs[1..], ys, resourceType); }
        head + (ResourcesOfType(xs[1..], resourceType) + ResourcesOfType(ys, resourceType));
        ResourcesOfType(xs, resourceType) + ResourcesOfType(ys, resourceType);
      }
    }
  }

  /** `GetResourceByLogicalID`: the first resource with the given logical ID. */
  function ResourceByLogicalId(resources: seq<Resource>, id: string): (found: Option<Resource>)
    ensures found.Some? ==> found.value in resources && found.value.logicalId == id
    decreases |resources|
  {
    if resources == [] then None
    else if resources[0].logicalId == id then Some(resources[0])
    else ResourceByLogicalId(resources[1..], id)
  }

  /** The lookup fails exactly when no resource has the ID. */
  lemma {:induction false} ResourceByLogicalIdMissing(resources: seq<Resource>, id: string)
    ensures ResourceByLogicalId(resources, id).None?
        <==> forall j :: 0 <= j < |resources| ==> resources[j].logicalId != id
    decreases |resources|
  {
    if resources != [] {
      ResourceByLogicalIdMissing(resources[1..], id);
      assert forall j :: 1 <= j < |resources| ==> resources[j] == resources[1..][j - 1];
    }
  }
}
