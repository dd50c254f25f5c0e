/**
 * The CloudFormation adapter for EC2 instances
 * (pkg/iac/adapters/cloudformation/aws/ec2/instance.go): one instance per
 * `AWS::EC2::Instance` resource, possibly replaced by a related launch
 * template, with the block-device mappings split into a root device and EBS
 * devices.
 */
module Ec2 {
  import opened Wrappers
  import opened CfnParser

  datatype BlockDevice = BlockDevice(meta: Metadata, encrypted: BoolValue)

  datatype MetadataOptions = MetadataOptions(meta: Metadata, httpTokens: StringValue, httpEndpoint: StringValue)

  /** The fields of an instance this adapter sets; a nil `RootBlockDevice` is `None`. */
  datatype Instance = Instance(
    meta: Metadata,
    metadataOptions: MetadataOptions,
    userData: StringValue,
    rootBlockDevice: Option<BlockDevice>,
    ebsBlockDevices: seq<BlockDevice>)

  datatype LaunchTemplate = LaunchTemplate(meta: Metadata, instance: Instance)

  /**
   * Adapts a launch-template resource (`adaptLaunchTemplate`, defined
   * outside this file); it is a parameter of the operations that use it.
   */
  type TemplateAdapter = Resource -> LaunchTemplate

  const InstanceType := "AWS::EC2::Instance"
  const LaunchTemplateType := "AWS::EC2::LaunchTemplate"

  // ---------------------------------------------------------------------------
  // Block devices

  /** One block-device mapping as a device: its origin and `Ebs.Encrypted`. */
  function DeviceOf(d: Property): BlockDevice
  {
    BlockDevice(d.meta, GetBool(d, ["Ebs", "Encrypted"]))
  }

  /** The devices of a list of mappings, one per mapping, in order. */
  function DevicesOf(mappings: seq<Property>): (devices: seq<BlockDevice>)
    ensures |devices| == |mappings|
    decreases |mappings|
  {
    if mappings == [] then []
    else DevicesOf(mappings[..|mappings| - 1]) + [DeviceOf(mappings[|mappings| - 1])]
  }

  /** Device `i` is built from mapping `i`, with `Encrypted` taken from `Ebs.Encrypted`. */
  lemma {:induction false} DevicesOfAt(mappings: seq<Property>, i: int)
    requires 0 <= i < |mappings|
    ensures DevicesOf(mappings)[i] == BlockDevice(mappings[i].meta, GetBool(mappings[i], ["Ebs", "Encrypted"]))
    decreases |mappings|
  {
    var last := |mappings| - 1;
    if i < last {
      DevicesOfAt(mappings[..last], i);
    }
  }

  /** What `getBlockDevices` computes for a resource. */
  function BlockDevicesOf(r: Resource): (devices: seq<BlockDevice>)
  {
    var mappings := GetProperty(r, ["BlockDeviceMappings"]);
    if IsNil(mappings) then [] else DevicesOf(AsList(mappings))
  }

  method GetBlockDevices(r: Resource) returns (blockDevices: seq<BlockDevice>)
    ensures IsNil(GetProperty(r, ["BlockDeviceMappings"])) ==> blockDevices == []
    ensures blockDevices == BlockDevicesOf(r)
  {
    blockDevices := [];
    var devicesProp := GetProperty(r, ["BlockDeviceMappings"]);
    if IsNil(devicesProp) {
      return;
    }
    var mappings := AsList(devicesProp);
    var i := 0;
    while i < |mappings|
      invariant 0 <= i <= |mappings|
      invariant blockDevices == DevicesOf(mappings[..i])
    {
      assert mappings[..i + 1][..i] == mappings[..i];
      blockDevices := blockDevices + [DeviceOf(mappings[i])];
      i := i + 1;
    }
    assert mappings[..i] == mappings;
  }

  // ---------------------------------------------------------------------------
  // Launch templates

  /** The string a property path of `r` holds, if it holds a string. */
  function StringAt(r: Resource, path: seq<string>): Option<string>
  {
    var p := GetProperty(r, path);
    if IsString(p) then Some(p.value.value.s) else None
  }

  /** A launch template carries the given name as a string `LaunchTemplateName`. */
  predicate HasTemplateName(res: Resource, name: string)
  {
    StringAt(res, ["LaunchTemplateName"]) == Some(name)
  }

  /**
   * The position of the first template in the list that carries the name, or
   * `|templates|` when none does.
   */
  function FirstNamedIndex(templates: seq<Resource>, name: string): (k: nat)
    ensures k <= |templates|
    ensures k < |templates| ==> HasTemplateName(templates[k], name)
    decreases |templates|
  {
    if templates == [] then 0
    else if HasTemplateName(templates[0], name) then 0
    else 1 + FirstNamedIndex(templates[1..], name)
  }

  /** No template before the one found carries the name. */
  lemma {:induction false} FirstNamedIndexIsFirst(templates: seq<Resource>, name: string, j: int)
    requires 0 <= j < FirstNamedIndex(templates, name)
    ensures !HasTemplateName(templates[j], name)
    decreases |templates|
  {
    if j > 0 {
      FirstNamedIndexIsFirst(templates[1..], name, j - 1);
    }
  }

  /** The first template that carries the name is the one found. */
  lemma FirstNamedIndexUnique(templates: seq<Resource>, name: string, i: int)
    requires 0 <= i < |templates| && HasTemplateName(templates[i], name)
    requires forall j :: 0 <= j < i ==> !HasTemplateName(templates[j], name)
    ensures FirstNamedIndex(templates, name) == i
  {
    var k := FirstNamedIndex(templates, name);
    if k < i {
    } else if k > i {
      FirstNamedIndexIsFirst(templates, name, i);
    }
  }

  /** What `findLaunchTemplateByName` computes. */
  function TemplateByName(ctx: FileContext, name: string): Option<Resource>
  {
    var templates := GetResourcesByType(ctx, LaunchTemplateType);
    var k := FirstNamedIndex(templates, name);
    if k < |templates| then Some(templates[k]) else None
  }

  /**
   * Scans the launch templates in order and returns the first whose string
   * `LaunchTemplateName` equals `name`; templates without a string name are
   * skipped.
   */
  method FindLaunchTemplateByName(ctx: FileContext, name: string) returns (res: Option<Resource>)
    ensures var templates := GetResourcesByType(ctx, LaunchTemplateType);
            var k := FirstNamedIndex(templates, name);
            if k < |templates| then res == Some(templates[k]) else res == None
    ensures var templates := GetResourcesByType(ctx, LaunchTemplateType);
            res.None? <==> forall j :: 0 <= j < |templates| ==> !HasTemplateName(templates[j], name)
    ensures res == TemplateByName(ctx, name)
  {
    var templates := GetResourcesByType(ctx, LaunchTemplateType);
    var i := 0;
    while i < |templates|
      invariant 0 <= i <= |templates|
      invariant forall j :: 0 <= j < i ==> !HasTemplateName(templates[j], name)
    {
      var templateName := GetProperty(templates[i], ["LaunchTemplateName"]);
      if !IsString(templateName) {
        i := i + 1;
        continue;
      }
      if templateName.value.value.s == name {
        FirstNamedIndexUnique(templates, name, i);
        return Some(templates[i]);
      }
      i := i + 1;
    }
    forall j | 0 <= j < FirstNamedIndex(templates, name)
      ensures !HasTemplateName(templates[j], name)
    {
      FirstNamedIndexIsFirst(templates, name, j);
    }
    return None;
  }

  /**
   * The launch template an instance refers to: by `LaunchTemplateName` first,
   * then by `LaunchTemplateId` taken as a logical ID.
   */
  function FindRelatedLaunchTemplate(ctx: FileContext, r: Resource, adapt: TemplateAdapter): Option<LaunchTemplate>
  {
    var nameRef := GetProperty(r, ["LaunchTemplate", "LaunchTemplateName"]);
    var byName := if IsString(nameRef) then TemplateByName(ctx, nameRef.value.value.s) else None;
    if byName.Some? then Some(adapt(byName.value))
    else
      var idRef := GetProperty(r, ["LaunchTemplate", "LaunchTemplateId"]);
      if !IsString(idRef) then None
      else
        match ResourceByLogicalId(ctx.resources, idRef.value.value.s)
        case None => None
        case Some(res) => Some(adapt(res))
  }

  /**
   * Lookup by name takes priority; failing that, the ID is taken as a logical
   * ID of any resource; there is no related template exactly when neither
   * reference resolves.
   */
  lemma RelatedTemplatePrecedence(ctx: FileContext, r: Resource, adapt: TemplateAdapter)
    ensures var name := StringAt(r, ["LaunchTemplate", "LaunchTemplateName"]);
            name.Some? && TemplateByName(ctx, name.value).Some? ==>
              FindRelatedLaunchTemplate(ctx, r, adapt) == Some(adapt(TemplateByName(ctx, name.value).value))
    ensures var name := StringAt(r, ["LaunchTemplate", "LaunchTemplateName"]);
            var id := StringAt(r, ["LaunchTemplate", "LaunchTemplateId"]);
            (name.None? || TemplateByName(ctx, name.value).None?) ==>
              (FindRelatedLaunchTemplate(ctx, r, adapt).None? <==> id.None? || forall j :: 0 <= j < |ctx.resources| ==> ctx.resources[j].logicalId != id.value)
    ensures var name := StringAt(r, ["LaunchTemplate", "LaunchTemplateName"]);
            var id := StringAt(r, ["LaunchTemplate", "LaunchTemplateId"]);
            (name.None? || TemplateByName(ctx, name.value).None?) && FindRelatedLaunchTemplate(ctx, r, adapt).Some? ==>
              id.Some? && exists res :: res in ctx.resources && res.logicalId == id.value && FindRelatedLaunchTemplate(ctx, r, adapt) == Some(adapt(res))
  {
    var id := StringAt(r, ["LaunchTemplate", "LaunchTemplateId"]);
    if id.Some? {
      ResourceByLogicalIdMissing(ctx.resources, id.value);
    }
  }

  // ---------------------------------------------------------------------------
  // Instances

  /** The instance built from the resource alone, before any template applies. */
  function DefaultInstance(r: Resource): Instance
  {
    Instance(
      r.meta,
      MetadataOptions(r.meta, StringValue("optional", r.meta), StringValue("enabled", r.meta)),
      GetString(Root(r), ["UserData"], ""),
      None,
      [])
  }

  /** The root device an instance gets when it has none: unencrypted. */
  function DefaultRootDevice(r: Resource): BlockDevice
  {
    BlockDevice(r.meta, BoolValue(false, r.meta))
  }

  /** The instance before the block-device mappings are applied. */
  function BaseInstance(ctx: FileContext, r: Resource, adapt: TemplateAdapter): Instance
  {
    var instance := match FindRelatedLaunchTemplate(ctx, r, adapt)
                    case Some(t) => t.instance
                    case None => DefaultInstance(r);
    if instance.rootBlockDevice.None? then instance.(rootBlockDevice := Some(DefaultRootDevice(r))) else instance
  }

  /** The first mapping replaces the root device; the others are appended to the EBS devices. */
  function WithMappings(instance: Instance, devices: seq<BlockDevice>): (result: Instance)
    ensures devices == [] ==> result == instance
    ensures devices != [] ==>
              result.rootBlockDevice == Some(devices[0]) &&
              result.ebsBlockDevices == instance.ebsBlockDevices + devices[1..]
    ensures result.meta == instance.meta && result.metadataOptions == instance.metadataOptions
            && result.userData == instance.userData
    ensures |result.ebsBlockDevices| == |instance.ebsBlockDevices| + (if devices == [] then 0 else |devices| - 1)
  {
    if devices == [] then instance
    else instance.(rootBlockDevice := Some(devices[0]), ebsBlockDevices := instance.ebsBlockDevices + devices[1..])
  }

  /**
   * The loop over the mapped devices: the first becomes the root device, each
   * later one is appended to the EBS devices.
   */
  method SplitMappings(instance: Instance, blockDevices: seq<BlockDevice>) returns (result: Instance)
    ensures result == WithMappings(instance, blockDevices)
  {
    result := instance;
    var i := 0;
    while i < |blockDevices|
      invariant 0 <= i <= |blockDevices|
      invariant i == 0 ==> result == instance
      invariant i > 0 ==> result == instance.(rootBlockDevice := Some(blockDevices[0]),
                                              ebsBlockDevices := instance.ebsBlockDevices + blockDevices[1..i])
    {
      if i == 0 {
        result := result.(rootBlockDevice := Some(blockDevices[i]));
      } else {
        assert blockDevices[1..i + 1] == blockDevices[1..i] + [blockDevices[i]];
        result := result.(ebsBlockDevices := result.ebsBlockDevices + [blockDevices[i]]);
      }
      i := i + 1;
    }
  }

  /** The instance `getInstances` produces for one instance resource. */
  function InstanceOf(ctx: FileContext, r: Resource, adapt: TemplateAdapter): Instance
  {
    WithMappings(BaseInstance(ctx, r, adapt), BlockDevicesOf(r))
  }

  /**
   * Every instance has a root device: the first mapping when there are
   * mappings, otherwise the template's, otherwise an unencrypted default.
   */
  lemma InstanceRootDevice(ctx: FileContext, r: Resource, adapt: TemplateAdapter)
    ensures InstanceOf(ctx, r, adapt).rootBlockDevice.Some?
    ensures BlockDevicesOf(r) != [] ==> InstanceOf(ctx, r, adapt).rootBlockDevice == Some(BlockDevicesOf(r)[0])
    ensures BlockDevicesOf(r) == [] && FindRelatedLaunchTemplate(ctx, r, adapt).None? ==>
              InstanceOf(ctx, r, adapt).rootBlockDevice == Some(DefaultRootDevice(r))
    ensures BlockDevicesOf(r) == [] && FindRelatedLaunchTemplate(ctx, r, adapt).Some?
            && FindRelatedLaunchTemplate(ctx, r, adapt).value.instance.rootBlockDevice.None? ==>
              InstanceOf(ctx, r, adapt).rootBlockDevice == Some(DefaultRootDevice(r))
    ensures BlockDevicesOf(r) == [] && FindRelatedLaunchTemplate(ctx, r, adapt).Some?
            && FindRelatedLaunchTemplate(ctx, r, adapt).value.instance.rootBlockDevice.Some? ==>
              InstanceOf(ctx, r, adapt).rootBlockDevice == FindRelatedLaunchTemplate(ctx, r, adapt).value.instance.rootBlockDevice
  {
  }

  /**
   * Without a related template the instance takes its origin and `UserData`
   * from the resource, with the default metadata options, and its EBS devices
   * are the mappings after the first.
   */
  lemma InstanceWithoutTemplate(ctx: FileContext, r: Resource, adapt: TemplateAdapter)
    requires FindRelatedLaunchTemplate(ctx, r, adapt).None?
    ensures var instance := InstanceOf(ctx, r, adapt);
            instance.meta == r.meta &&
            instance.metadataOptions.httpTokens == StringValue("optional", r.meta) &&
            instance.metadataOptions.httpEndpoint == StringValue("enabled", r.meta) &&
            instance.userData == GetString(Root(r), ["UserData"], "")
    ensures var devices := BlockDevicesOf(r);
            InstanceOf(ctx, r, adapt).ebsBlockDevices == if devices == [] then [] else devices[1..]
  {
  }

  /**
   * With a related template the resource's own settings are discarded: the
   * template's instance is taken whole, and only then is the root device
   * defaulted and the mappings applied.
   */
  lemma InstanceFromTemplate(ctx: FileContext, r: Resource, adapt: TemplateAdapter, t: LaunchTemplate)
    requires FindRelatedLaunchTemplate(ctx, r, adapt) == Some(t)
    ensures var rooted := if t.instance.rootBlockDevice.None?
                          then t.instance.(rootBlockDevice := Some(DefaultRootDevice(r)))
                          else t.instance;
            InstanceOf(ctx, r, adapt) == WithMappings(rooted, BlockDevicesOf(r))
    ensures InstanceOf(ctx, r, adapt).metadataOptions == t.instance.metadataOptions
    ensures InstanceOf(ctx, r, adapt).userData == t.instance.userData
  {
  }

  /** The instances of a list of instance resources, one per resource, in order. */
  function InstancesOf(ctx: FileContext, resources: seq<Resource>, adapt: TemplateAdapter): (instances: seq<Instance>)
    ensures |instances| == |resources|
    decreases |resources|
  {
    if resources == [] then []
    else InstancesOf(ctx, resources[..|resources| - 1], adapt) + [InstanceOf(ctx, resources[|resources| - 1], adapt)]
  }

  /** Instance `i` is built from resource `i`. */
  lemma {:induction false} InstancesOfAt(ctx: FileContext, resources: seq<Resource>, adapt: TemplateAdapter, i: int)
    requires 0 <= i < |resources|
    ensures InstancesOf(ctx, resources, adapt)[i] == InstanceOf(ctx, resources[i], adapt)
    decreases |resources|
  {
    var last := |resources| - 1;
    if i < last {
      InstancesOfAt(ctx, resources[..last], adapt, i);
    }
  }

  /**
   * The body of the loop over instance resources: defaults, template
   * override, root-device default, then the mappings.
   */
  method AdaptInstance(ctx: FileContext, r: Resource, adapt: TemplateAdapter) returns (instance: Instance)
    ensures instance == InstanceOf(ctx, r, adapt)
  {
    instance := DefaultInstance(r);
    var launchTemplate := FindRelatedLaunchTemplate(ctx, r, adapt);
    if launchTemplate.Some? {
      instance := launchTemplate.value.instance;
    }
    if instance.rootBlockDevice.None? {
      instance := instance.(rootBlockDevice := Some(DefaultRootDevice(r)));
    }
    assert instance == BaseInstance(ctx, r, adapt);
    var blockDevices := GetBlockDevices(r);
    instance := SplitMappings(instance, blockDevices);
  }

  /** One instance per instance resource, in the order the resources are listed. */
  method GetInstances(ctx: FileContext, adapt: TemplateAdapter) returns (instances: seq<Instance>)
    ensures instances == InstancesOf(ctx, GetResourcesByType(ctx, InstanceType), adapt)
  {
    var instanceResources := GetResourcesByType(ctx, InstanceType);
    instances := [];
    var k := 0;
    while k < |instanceResources|
      invariant 0 <= k <= |instanceResources|
      invariant instances == InstancesOf(ctx, instanceResources[..k], adapt)
    {
      var instance := AdaptInstance(ctx, instanceResources[k], adapt);
      assert instanceResources[..k + 1][..k] == instanceResources[..k];
      instances := instances + [instance];
      k := k + 1;
    }
    assert instanceResources[..k] == instanceResources;
  }
}
