# Analyzer registry and CloudFormation adapters of trivy, in Dafny

This project models two parts of the trivy scanner.

**The analyzer registry** (`analyzer/analyzer.go`) holds two ordered lists:
OS analyzers and package analyzers. Registration only ever appends to them.
`RequiredFilenames` concatenates the files every analyzer declares. This is
the list of files the image extractor pulls out of a layer. `GetOS` and
`GetPackages` try the analyzers in registration order and return the first
result that is not an error. When every analyzer fails they return the
sentinel error "Unknown OS".

In the model:
- The registry is the class `Analyzer.Registry`, whose two `seq` fields are
  the package-level slices.
- An analyzer is a value: its declared files plus a pure function from the
  files map to `Ok(value)` or `Err(error)`.
- The dispatch loops are proved against the recursive search functions
  `FirstOkIndex` and `FirstOk`.
- A ghost out-parameter counts the analyzers each dispatch calls. It shows
  that the analyzers after the first success are never called.

**Three CloudFormation adapters** turn a parsed template into provider
records:
- `ec2/instance.go` builds EC2 instances. It supplies default metadata
  options, lets a related launch template replace the instance (looked up by
  name first, then by logical ID), always provides a root block device, and
  splits `BlockDeviceMappings` into the root device and EBS devices.
- `sam/function.go` builds SAM functions. It partitions the `Policies` entries
  into managed policy names and parsed inline policy documents.
- `config/aggregator.go` takes the first configuration aggregator. It reads
  `AllAwsRegions` from the first account source that carries it, and
  otherwise from the organisation source.

The template parser these adapters call is not part of this model. Module
`CfnParser` stands in for it:
- A property is a metadata tag plus a value: nil, string, bool, int, list or
  map.
- A resource has a logical ID, a type and a property map.
- A file context is a sequence of resources.
- Path lookup descends through maps one segment at a time.

Two operations the adapters rely on are calls into code this model cannot
see, so they are parameters:
- the launch-template adapter, `TemplateAdapter`;
- the IAM policy parser, `PolicyParser<D>`, a partial function that yields
  `None` where the parser would return an error.

Files:
- `wrappers.dfy`: `Option`.
- `analyzer.dfy`: module `Analyzer`, the registry and dispatch.
- `parser.dfy`: module `CfnParser`, the abstract property tree.
- `ec2_instance.dfy`: module `Ec2`.
- `sam_function.dfy`: module `Sam`.
- `config_aggregator.dfy`: module `Config`.

`RequiredFilenames` keeps duplicates: the code appends each analyzer's list
in registration order, and `DeclaredFilesLength` states that nothing is
removed.

## Model

| member | source | states |
|---|---|---|
| Analyzer.Registry.constructor | analyzer/analyzer.go:11-13 | A fresh registry has no OS analyzers and no package analyzers. |
| Analyzer.Registry.RegisterOSAnalyzer | analyzer/analyzer.go:43-45 | The OS list becomes the old list with the analyzer appended; the package list is unchanged. |
| Analyzer.Registry.RegisterPkgAnalyzer | analyzer/analyzer.go:47-49 | The package list becomes the old list with the analyzer appended; the OS list is unchanged. |
| Analyzer.Registry.RequiredFilenames | analyzer/analyzer.go:51-60 | The result is every OS analyzer's declared files, then every package analyzer's, in registration order, without deduplication; the registry is unchanged. |
| Analyzer.DeclaredFiles | analyzer/analyzer.go:53-58 | Reference definition of one loop of `RequiredFilenames`: the declared files of a list of analyzers, concatenated in order. Characterised by `DeclaredFilesAppend`, `DeclaredFilesLength`, `DeclaredFilesCover`, `DeclaredFilesSound` and `SelectionExact`. |
| Analyzer.DeclaredFilesAppend | analyzer/analyzer.go:51-60 | The declared files of two concatenated analyzer lists are the declared files of the first followed by those of the second, so registering more analyzers only extends the selection. |
| Analyzer.DeclaredFilesLength | analyzer/analyzer.go:51-60 | The length of the concatenated file list is the sum of the declared list lengths: no file is dropped as a duplicate. |
| Analyzer.DeclaredFilesCover | analyzer/analyzer.go:53-58 | Every file an analyzer of one list declares appears in that list's selection. |
| Analyzer.DeclaredFilesSound | analyzer/analyzer.go:53-58 | Every file in one list's selection is declared by some analyzer of that list. |
| Analyzer.SelectionExact | analyzer/analyzer.go:51-60 | A file is in the required list (the OS selection followed by the package selection) exactly when some OS analyzer or some package analyzer declares it. |
| Analyzer.Error.Message | analyzer/analyzer.go:15-18 | The error texts: "Unknown OS" for the `ErrUnknownOS` sentinel, "Failed to analyze packages" for `ErrPkgAnalysis`, and `context: cause` for an error wrapped as `errors.Wrap` does at analyzer.go:68. `Registry.Analyze`, `Registry.GetOS` and `Registry.GetPackages` state which of these errors they return. |
| Analyzer.Registry.Analyze | analyzer/analyzer.go:62-71 | The extractor is asked for exactly the required file names. On success its files map is returned with no error; on failure the result is an empty map and the extractor's error wrapped with "Failed to extract files". |
| Analyzer.FirstOkIndex | analyzer/analyzer.go:74-80 | The index it returns is the lowest index of an analyzer that succeeds on the files map, or the list length when none succeeds; every analyzer before it fails. |
| Analyzer.FirstOk | analyzer/analyzer.go:73-95 | Reference definition of the dispatch result: the value of the analyzer at `FirstOkIndex`, or nothing when that index is the list length. Characterised by `FirstOkIsLowestSuccess`, `FirstOkNoneIffAllFail`, `FirstOkAppend` and `FirstOkShift`. |
| Analyzer.FirstOkIsLowestSuccess | analyzer/analyzer.go:74-79 | If analyzer k succeeds and all earlier ones fail, the search stops at k and yields analyzer k's value. |
| Analyzer.FirstOkNoneIffAllFail | analyzer/analyzer.go:74-81 | The search finds nothing exactly when every analyzer fails, including when there are no analyzers. |
| Analyzer.FirstOkAppend | analyzer/analyzer.go:43-49 | Appending analyzers never changes a result that an earlier analyzer already produced; later analyzers are consulted only when all earlier ones fail. |
| Analyzer.FirstOkShift | analyzer/analyzer.go:75-77 | An analyzer that fails is skipped: the search continues with the rest of the list. |
| Analyzer.Registry.GetOS | analyzer/analyzer.go:73-83 | It returns the OS of the lowest-index analyzer that succeeds, with no error, after calling exactly that many analyzers plus one. If every analyzer fails, it returns the empty OS and "Unknown OS" after calling all of them. The error is present exactly when all analyzers fail. The result is a function of the files map and the registry, and the registry is not changed. |
| Analyzer.Registry.GetPackages | analyzer/analyzer.go:85-95 | It returns the package list of the lowest-index package analyzer that succeeds, with no error, and no later analyzer is called. If every analyzer fails, it returns an empty list and "Unknown OS", not "Failed to analyze packages". The error is present exactly when all analyzers fail, and the registry is not changed. |
| CfnParser.Lookup | pkg/iac/adapters/cloudformation/aws/ec2/instance.go:52 | The model's path rule, standing in for the template parser's property lookup that this call uses (the parser is not part of this model): an empty path yields the property itself, and a non-empty path into a value that is not a map yields nothing. |
| CfnParser.ResourcesOfType | pkg/iac/adapters/cloudformation/aws/ec2/instance.go:10 | Filtering by resource type never yields more resources than the template has. |
| CfnParser.ResourcesOfTypeMembers | pkg/iac/adapters/cloudformation/aws/ec2/instance.go:10 | A resource is in the filtered list exactly when it is in the template and has the requested type. |
| CfnParser.FirstOfType | pkg/iac/adapters/cloudformation/aws/config/aggregator.go:16-24 | The first resource of the filtered list is the first resource of that type in the template. |
| CfnParser.ResourcesOfTypeAppend | pkg/iac/adapters/cloudformation/aws/sam/function.go:14-15 | Filtering preserves the order of the template's resources: filtering a concatenation gives the concatenation of the filtered parts. |
| CfnParser.ResourceByLogicalId | pkg/iac/adapters/cloudformation/aws/ec2/instance.go:65-68 | A resource found by logical ID is in the template and carries that ID. |
| CfnParser.ResourceByLogicalIdMissing | pkg/iac/adapters/cloudformation/aws/ec2/instance.go:65-68 | The lookup by logical ID finds nothing exactly when no resource has that ID. |
| Ec2.BlockDevicesOf | pkg/iac/adapters/cloudformation/aws/ec2/instance.go:87-106 | Reference definition of `getBlockDevices`: no devices when `BlockDeviceMappings` is nil, otherwise `DevicesOf` of its list. `GetBlockDevices` is proved equal to it; `DevicesOf` and `DevicesOfAt` characterise the list. |
| Ec2.DeviceOf | pkg/iac/adapters/cloudformation/aws/ec2/instance.go:97-100 | One mapping's block device: the mapping's metadata and its `Ebs.Encrypted` flag. Characterised by `DevicesOfAt`. |
| Ec2.DevicesOf | pkg/iac/adapters/cloudformation/aws/ec2/instance.go:96-103 | There is one block device per mapping. |
| Ec2.DevicesOfAt | pkg/iac/adapters/cloudformation/aws/ec2/instance.go:96-103 | Device i carries mapping i's metadata and its `Ebs.Encrypted` flag, so the order is the order of the mappings. |
| Ec2.GetBlockDevices | pkg/iac/adapters/cloudformation/aws/ec2/instance.go:87-106 | With no `BlockDeviceMappings` the list is empty; otherwise it is one device per list element, in order, as `DevicesOf` and `DevicesOfAt` describe. |
| Ec2.HasTemplateName | pkg/iac/adapters/cloudformation/aws/ec2/instance.go:74-79 | The test applied to each launch template: its `LaunchTemplateName` is a string equal to the wanted name. `FirstNamedIndex` and `FirstNamedIndexIsFirst` state that the search stops at the first template passing it and that templates with a non-string name are skipped. |
| Ec2.FirstNamedIndex | pkg/iac/adapters/cloudformation/aws/ec2/instance.go:73-84 | The index it returns is within the template list, or equal to its length when nothing matches. A template at that index has a string `LaunchTemplateName` equal to the wanted name. |
| Ec2.FirstNamedIndexIsFirst | pkg/iac/adapters/cloudformation/aws/ec2/instance.go:74-81 | Every template before the returned index has no string name, or a different one; templates whose name is not a string are skipped. |
| Ec2.FirstNamedIndexUnique | pkg/iac/adapters/cloudformation/aws/ec2/instance.go:73-84 | When template i is the first whose name matches, the search returns i. |
| Ec2.TemplateByName | pkg/iac/adapters/cloudformation/aws/ec2/instance.go:72-85 | Reference definition of `findLaunchTemplateByName`: the launch template at `FirstNamedIndex`, or nothing when that index is the list length. Characterised by `FirstNamedIndex`, `FirstNamedIndexIsFirst` and `FirstNamedIndexUnique`. |
| Ec2.FindLaunchTemplateByName | pkg/iac/adapters/cloudformation/aws/ec2/instance.go:72-85 | It returns the first launch template whose string-valued name equals the wanted name, or nothing exactly when no launch template has that name. |
| Ec2.FindRelatedLaunchTemplate | pkg/iac/adapters/cloudformation/aws/ec2/instance.go:51-70 | Models `findRelatedLaunchTemplate`: the adapted template named by a string `LaunchTemplateName` if one matches, else the adapted resource whose logical ID is a string `LaunchTemplateId`, else nothing. Characterised by `RelatedTemplatePrecedence`. |
| Ec2.RelatedTemplatePrecedence | pkg/iac/adapters/cloudformation/aws/ec2/instance.go:51-70 | A string name that matches a launch template decides, before the ID is looked at. Otherwise the related template is the adapted resource whose logical ID is the string ID. There is no related template exactly when the name does not match and the ID is not a string or names no resource. |
| Ec2.WithMappings | pkg/iac/adapters/cloudformation/aws/ec2/instance.go:36-44 | With no mappings the instance is unchanged. Otherwise the first device becomes the root device and the rest are appended in order to the existing EBS devices. Metadata, metadata options and user data are kept. |
| Ec2.SplitMappings | pkg/iac/adapters/cloudformation/aws/ec2/instance.go:37-44 | The loop over the devices produces exactly the split that `WithMappings` describes. |
| Ec2.DefaultInstance | pkg/iac/adapters/cloudformation/aws/ec2/instance.go:13-23 | The instance built before any template is consulted: the resource's metadata, `HttpTokens` "optional", `HttpEndpoint` "enabled", the resource's `UserData`, no root device and no EBS devices. Characterised by `InstanceWithoutTemplate`. |
| Ec2.DefaultRootDevice | pkg/iac/adapters/cloudformation/aws/ec2/instance.go:30-33 | The root device supplied when none is set: the resource's metadata, not encrypted. Characterised by `InstanceRootDevice`. |
| Ec2.BaseInstance | pkg/iac/adapters/cloudformation/aws/ec2/instance.go:13-34 | The instance before the mappings are applied: the defaults, replaced by a related template's instance, with a default root device when none is set. Characterised through `InstanceOf` by `InstanceRootDevice`, `InstanceWithoutTemplate` and `InstanceFromTemplate`. |
| Ec2.InstanceOf | pkg/iac/adapters/cloudformation/aws/ec2/instance.go:13-44 | Reference definition of one iteration of `getInstances`: `WithMappings` applied to `BaseInstance`. `AdaptInstance` is proved equal to it; `InstanceRootDevice`, `InstanceWithoutTemplate` and `InstanceFromTemplate` characterise it. |
| Ec2.InstanceRootDevice | pkg/iac/adapters/cloudformation/aws/ec2/instance.go:29-44 | Every instance has a root block device. It is the first mapping's device when there are mappings. Otherwise it is the related template's root device when the template sets one, and an unencrypted default carrying the resource's metadata when the template sets none or there is no template. |
| Ec2.InstanceWithoutTemplate | pkg/iac/adapters/cloudformation/aws/ec2/instance.go:13-23 | Without a related template, the instance carries the resource's metadata, `HttpTokens` "optional", `HttpEndpoint` "enabled" and the resource's `UserData`. Its EBS devices are the mappings after the first. |
| Ec2.InstanceFromTemplate | pkg/iac/adapters/cloudformation/aws/ec2/instance.go:25-27 | With a related template, the template's instance replaces the default one wholesale before the block devices are applied: its metadata options and user data survive. |
| Ec2.InstancesOf | pkg/iac/adapters/cloudformation/aws/ec2/instance.go:12-46 | There is one instance per instance resource. |
| Ec2.InstancesOfAt | pkg/iac/adapters/cloudformation/aws/ec2/instance.go:12-46 | Instance i is built from resource i, so the instances follow the order of the resources. |
| Ec2.AdaptInstance | pkg/iac/adapters/cloudformation/aws/ec2/instance.go:13-44 | The loop body builds the instance that `InstanceOf` describes. |
| Ec2.GetInstances | pkg/iac/adapters/cloudformation/aws/ec2/instance.go:9-49 | The result is one instance per `AWS::EC2::Instance` resource, in the model's resource order, each built as `InstancesOfAt` and the lemmas above describe. |
| Sam.InlinePolicy | pkg/iac/adapters/cloudformation/aws/sam/function.go:43-51 | An inline policy built from a map element: the element's metadata, an empty default name, the parsed document, and not built in. Characterised by `InlinePoliciesSound` and `InlinePoliciesComplete`. |
| Sam.ParsedInline | pkg/iac/adapters/cloudformation/aws/sam/function.go:38-42 | A list element yields an inline policy only when it is a map and the policy parser accepts it; otherwise nothing. Characterised by `InlinePoliciesSound` and `InlinePoliciesComplete`. |
| Sam.ManagedNames | pkg/iac/adapters/cloudformation/aws/sam/function.go:53-55 | A list yields no more managed names than it has elements. |
| Sam.InlinePolicies | pkg/iac/adapters/cloudformation/aws/sam/function.go:38-52 | A list yields no more inline policies than it has elements. |
| Sam.PolicyCountBound | pkg/iac/adapters/cloudformation/aws/sam/function.go:37-56 | The managed names plus the inline policies number at most the list's elements. |
| Sam.ManagedNamesComplete | pkg/iac/adapters/cloudformation/aws/sam/function.go:53-55 | Every string element becomes a managed name. |
| Sam.InlinePoliciesComplete | pkg/iac/adapters/cloudformation/aws/sam/function.go:38-52 | Every map element that parses becomes an inline policy with that document. |
| Sam.ManagedNamesSound | pkg/iac/adapters/cloudformation/aws/sam/function.go:53-55 | Every managed name comes from a string element of the list. |
| Sam.InlinePoliciesSound | pkg/iac/adapters/cloudformation/aws/sam/function.go:38-52 | Every inline policy comes from a map element that parses. It has an empty default name and is not built in. |
| Sam.PartitionSnoc | pkg/iac/adapters/cloudformation/aws/sam/function.go:37-56 | The loop step used by `AppendListPolicies`: extending the processed prefix by one element extends the names or the policies by that element's contribution, which unfolds the two reference definitions at the new prefix. |
| Sam.PartitionAppend | pkg/iac/adapters/cloudformation/aws/sam/function.go:37-56 | Partitioning a concatenated list concatenates the partitioned parts, so both outputs keep list order. |
| Sam.PolicyNames | pkg/iac/adapters/cloudformation/aws/sam/function.go:31-59 | Reference definition of the managed names `setFunctionPolicies` adds: none for nil, the one string, or `ManagedNames` of a list; a value of any other kind yields none. Characterised by `FunctionPolicyCases` and the `ManagedNames` lemmas. |
| Sam.PolicyDocuments | pkg/iac/adapters/cloudformation/aws/sam/function.go:31-59 | Reference definition of the inline policies `setFunctionPolicies` adds: none for nil or a string, or `InlinePolicies` of a list; a value of any other kind yields none. Characterised by `FunctionPolicyCases` and the `InlinePolicies` lemmas. |
| Sam.SetFunctionPolicies | pkg/iac/adapters/cloudformation/aws/sam/function.go:31-59 | Only the two policy lists change, and each is extended by what the resource's `Policies` yields. A nil value yields nothing; a single string yields one managed name; a list is sorted as `ManagedNames` and `InlinePolicies` describe. |
| Sam.AppendListPolicies | pkg/iac/adapters/cloudformation/aws/sam/function.go:37-56 | The loop over a policy list appends exactly the list's managed names and parsed inline policies, in order, and changes no other field. |
| Sam.FunctionOf | pkg/iac/adapters/cloudformation/aws/sam/function.go:16-24 | Reference definition of one iteration of `getFunctions`: the defaults plus `PolicyNames` and `PolicyDocuments`. `AdaptFunction` is proved equal to it; `FunctionDefaults` and `FunctionPolicyCases` characterise it. |
| Sam.FunctionDefaults | pkg/iac/adapters/cloudformation/aws/sam/function.go:16-19 | A function carries the resource's metadata. `Tracing` is the resource's string when it has one and `PassThrough` otherwise; `FunctionName` defaults to the empty string. |
| Sam.FunctionPolicyCases | pkg/iac/adapters/cloudformation/aws/sam/function.go:20-56 | Without `Policies` both lists stay empty. A single string is the only managed name, with no inline policies. A list yields at most one entry per element. Every inline policy is unnamed and not built in. |
| Sam.FunctionsOf | pkg/iac/adapters/cloudformation/aws/sam/function.go:14-26 | There is one function per function resource. |
| Sam.FunctionsOfAt | pkg/iac/adapters/cloudformation/aws/sam/function.go:14-26 | Function i is built from resource i, so the functions follow the order of the resources. |
| Sam.AdaptFunction | pkg/iac/adapters/cloudformation/aws/sam/function.go:16-24 | The loop body builds the function that `FunctionOf` describes. |
| Sam.GetFunctions | pkg/iac/adapters/cloudformation/aws/sam/function.go:12-29 | The result is one function per `AWS::Serverless::Function` resource, in the model's resource order, each built as the lemmas above describe. |
| Config.CarriesAllRegions | pkg/iac/adapters/cloudformation/aws/config/aggregator.go:33-34 | An account source carries the flag when its `AllAwsRegions` is not nil. Used by `FirstCarrying` and `FirstSourceDecides`. |
| Config.FirstCarrying | pkg/iac/adapters/cloudformation/aws/config/aggregator.go:32-37 | No source is found exactly when no account source carries `AllAwsRegions`; a found source is the first that carries it. |
| Config.FirstCarryingIgnoresLater | pkg/iac/adapters/cloudformation/aws/config/aggregator.go:32-37 | Sources after the first carrying one are never consulted: appending more sources does not change the result. |
| Config.IsSourcingAllRegions | pkg/iac/adapters/cloudformation/aws/config/aggregator.go:28-41 | When the account sources are not a list, or none of them carries `AllAwsRegions`, the result is the organisation source's `AllAwsRegions`. |
| Config.OrganizationAllRegions | pkg/iac/adapters/cloudformation/aws/config/aggregator.go:40 | The fallback: `OrganizationAggregationSource.AllAwsRegions` read as a bool. `IsSourcingAllRegions` states when it is used. |
| Config.FirstSourceDecides | pkg/iac/adapters/cloudformation/aws/config/aggregator.go:31-37 | When account source k is the first that carries `AllAwsRegions`, its value is the result. |
| Config.GetConfigurationAggregator | pkg/iac/adapters/cloudformation/aws/config/aggregator.go:9-20 | With no aggregator resource the result has unmanaged metadata and `SourceAllRegions` false, carrying the file's metadata. |
| Config.FirstAggregatorUsed | pkg/iac/adapters/cloudformation/aws/config/aggregator.go:22-25 | With aggregator resources, only the first one in the model's resource order is used, for the metadata and for `SourceAllRegions`. |

## Left out

- Analyzer.Registry.Analyze: opening `layer.tar`, whose error the code discards, and the tar extraction are file I/O. Both are folded into the `extractFiles` parameter, which receives the required file names.
- The concrete OS and package analyzers and the concrete extractor are not part of this model. Analyzers are abstract values with a pure analysis function.
- Analyzer.Registry.GetPackages: keeps the code's behaviour of reporting "Unknown OS" when every package analyzer fails. The declared "Failed to analyze packages" error is never returned by this code. An empty sequence stands for Go's `nil` slice in that path, and when no package analyzer is registered.
- Registration is modelled as finished before dispatch. Concurrent registration and dispatch are not modelled.
- The template parser's internals are not part of this model:
  - `GetStringProperty` and `GetBoolProperty` are modelled as "the string or bool at that path, otherwise the default with the base property's metadata".
  - `AsList` of a value that is not a list is modelled as the empty list.
  - `EqualTo` is modelled as string equality.
  - `GetJsonBytes`, intrinsic functions and references are left out.
- The template's resources are a Go map, whose iteration order is unspecified, so `GetResourcesByType` has no defined order in the source, and each call walks the map afresh. When two aggregator resources exist, or two launch templates share a name, the source's choice is not deterministic, and `findLaunchTemplateByName` may see a different order for each instance. The model fixes the resources as one sequence used by every call and filters it in order; "resource order" in the rows above is this model order, not one the source guarantees.
- `adaptLaunchTemplate` is not part of this model. It is the `TemplateAdapter` parameter.
- `iamgo.Parse` is not part of this model. It is the `PolicyParser<D>` parameter, and the parsed document type is the type parameter `D`.
- The provider metadata and value wrappers (`Metadata()`, `StringDefault`, `BoolDefault`, `Bool`, `NewUnmanagedMetadata`) are plain values plus a metadata tag. The distinction between explicit and default values is not modelled.
- Sam.SetFunctionPolicies: the Go code updates the function through a pointer. The model passes the function in and returns the updated value, so aliasing is not modelled.
- Ec2.WithMappings: the root device and the EBS devices are pointers in Go and may share a device with the mapping list. The model copies values, so sharing is not modelled.
- CfnParser.ResourcesOfType: its own contract states only the length bound. Membership and order are stated by `ResourcesOfTypeMembers`, `FirstOfType` and `ResourcesOfTypeAppend`.
