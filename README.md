# AWS SDK for Java v2 code generators: region metadata, XML response handlers, client builders

This project is a Dafny model of three code generators from the AWS SDK for Java v2. It also proves what the code they emit means.

- **`ServiceMetadataGenerator`** (module `ServiceMetadata`) takes the endpoint *partitions* model: partitions hold services, services hold endpoints keyed by region id. From it, the generator emits a `<Service>ServiceMetadata` class with four static fields:
  - the endpoint prefix;
  - an `ImmutableMap` of endpoint hostname overrides;
  - the list of regions;
  - an `ImmutableMap` of signing-region overrides.

  It also emits the methods `regions`, `endpointFor` and `signingRegion` that read those fields. The model covers:
  - how the class name is sanitised;
  - which services are collected, with a case-insensitive match;
  - which endpoints make it into each override table;
  - how the region list is collected, with a case-sensitive match, and punctuated.

  It also gives the meaning of the emitted code:
  - decoders read the emitted `.put("k", "v")` tables and the region list back, and round-trip lemmas prove they recover exactly what was emitted when the spliced strings are plain literals, with no `"`, `\`, `$` or line terminator;
  - `endpointFor` and `signingRegion` are proved to resolve a region through those tables.
- **`XmlProtocolSpec`** (module `XmlProtocol`) covers two things:
  - the rule that decides whether the XML response handler unwraps the root element;
  - the response-handler statement, whose streaming flag is passed through.
- **`BaseClientBuilderClass`** (module `ClientBuilder`) covers:
  - the `defaultSigner` body chosen by auth type, which fails on an unsupported type;
  - the client options merged by `mergeServiceDefaults`;
  - the interceptor resource path of `finalizeServiceConfiguration`;
  - when `serviceHttpConfig` and the service-configuration setters are emitted;
  - what the attribute map in `serviceHttpConfig` is built from.

## How the model is built

Emitted code is represented as follows:
- A JavaPoet `CodeBlock` is a sequence of `Poet.Fragment`s.
- `add(format, args…)` and `CodeBlock.of` become `Code`; `addStatement` becomes `Statement`.
- Arguments stay unrendered: `$T` as a fully qualified class name, `$S` as a string, `$L` as literal text.

Builders and maps:
- `CodeBlock.Builder` and `TypeSpec.Builder` are modelled as classes with a mutable field. The generator methods create these objects and append to them, as the Java does.
- Java maps from the partitions model are ordered association lists. `containsKey` and `get` find the first entry with the key (`ServiceMetadata.Lookup`).
- The `ImmutableMap` built from emitted `put`s is a Dafny `map` in which a later `put` wins (`ServiceMetadata.ToMap`).

Each generator method is proved against a specification function, and that function is what the lemmas are about. The meaning of emitted code is given by a decoder for each kind of fragment sequence:
- `ParsePutTable`
- `ParseRegionsField`
- `ParseResponseHandler`
- `SignerOfBody`
- `ParseServiceDefaults`
- `InterceptorResourceOf`
- `ParseHttpConfigBody`

Helpers whose code is not part of this model are parameters of the functions that use them:
- `Utils.capitalize`
- `Utils.packageToDirectory`
- the `computeEndpoint` that generated code inherits

`regionsField` and `getServiceData` match the service name differently:
- **Region list:** the list collects the endpoint keys of every partition whose services contain the service name *case-sensitively* (`containsKey`).
- **Service data and override tables:** these are built from services whose key equals the name *ignoring case*.
- **Consequence:** a partition that spells the service differently contributes overrides but no regions. `ServiceMetadata.CaseSensitivityGap` exhibits this.

## Model

| member | source | states |
|---|---|---|
| ServiceMetadata.Lookup | codegen-lite/src/main/java/software/amazon/awssdk/codegen/lite/regions/ServiceMetadataGenerator.java:131-132 | `containsKey` holds exactly when some entry has the key, and `get` then returns the value of such an entry |
| JavaStrings.Replace | codegen-lite/src/main/java/software/amazon/awssdk/codegen/lite/regions/ServiceMetadataGenerator.java:101 | `replace` keeps the length and changes exactly the occurrences of one character, position by position |
| JavaStrings.SplitParts | codegen-lite/src/main/java/software/amazon/awssdk/codegen/lite/regions/ServiceMetadataGenerator.java:102 | an input without the separator splits into itself alone; otherwise the last part is never empty, because `split` drops trailing empty parts; no part contains the separator; every character of a part comes from the input; re-joining the parts gives the input minus only trailing separators |
| ServiceMetadata.NamePartsOfService | codegen-lite/src/main/java/software/amazon/awssdk/codegen/lite/regions/ServiceMetadataGenerator.java:101-102 | a sanitised name without `-` is its own only part; otherwise the last part is never empty; the sanitised name has no `.`; the name parts contain neither `.` nor `-`; joined with `-` they give back the sanitised name up to trailing dashes |
| ServiceMetadata.ClassNameOf | codegen-lite/src/main/java/software/amazon/awssdk/codegen/lite/regions/ServiceMetadataGenerator.java:100-105 | the class is in the base package and its simple name always ends with `ServiceMetadata` |
| ServiceMetadata.GetServiceData | codegen-lite/src/main/java/software/amazon/awssdk/codegen/lite/regions/ServiceMetadataGenerator.java:196-207 | the nested loops collect exactly the matching services, partition by partition and entry by entry, in order |
| ServiceMetadata.ServiceDataMember | codegen-lite/src/main/java/software/amazon/awssdk/codegen/lite/regions/ServiceMetadataGenerator.java:196-207 | a service is collected if and only if some partition holds it under a key equal to the service name ignoring case |
| ServiceMetadata.MatchingServicesMember | codegen-lite/src/main/java/software/amazon/awssdk/codegen/lite/regions/ServiceMetadataGenerator.java:200-204 | within one partition, a service is collected if and only if its key equals the name ignoring case |
| ServiceMetadata.ServiceDataAppend | codegen-lite/src/main/java/software/amazon/awssdk/codegen/lite/regions/ServiceMetadataGenerator.java:198-204 | the collected services keep partition order: those of earlier partitions come first |
| ServiceMetadata.SelectedEntriesMember | codegen-lite/src/main/java/software/amazon/awssdk/codegen/lite/regions/ServiceMetadataGenerator.java:112-118 | within one service, a pair is put if and only if an endpoint under that key selects that value |
| ServiceMetadata.OverrideEntriesMember | codegen-lite/src/main/java/software/amazon/awssdk/codegen/lite/regions/ServiceMetadataGenerator.java:149-157 | a pair `(region, value)` is put if and only if some collected endpoint under that region has that value: a non-null hostname for the endpoint table; a non-null credential scope with a non-null region for the signing table |
| ServiceMetadata.OverrideEntriesCount | codegen-lite/src/main/java/software/amazon/awssdk/codegen/lite/regions/ServiceMetadataGenerator.java:112-118 | there is exactly one `put` per collected endpoint that passes the filter, and endpoints that fail it are omitted |
| ServiceMetadata.SelectedEntriesCount | codegen-lite/src/main/java/software/amazon/awssdk/codegen/lite/regions/ServiceMetadataGenerator.java:113-118 | within one service, one entry per endpoint that passes the filter |
| ServiceMetadata.AddPuts | codegen-lite/src/main/java/software/amazon/awssdk/codegen/lite/regions/ServiceMetadataGenerator.java:113-118 | the loop over one service's endpoints appends exactly the `put`s of its selected entries, in endpoint order, after what the builder already held |
| ServiceMetadata.AddTablePuts | codegen-lite/src/main/java/software/amazon/awssdk/codegen/lite/regions/ServiceMetadataGenerator.java:112-118 | the loop over the services appends the `put`s of every service in turn |
| ServiceMetadata.OverrideTableInitializer | codegen-lite/src/main/java/software/amazon/awssdk/codegen/lite/regions/ServiceMetadataGenerator.java:110-120 | the builder loop emits `ImmutableMap.builder()`, then one `put` per selected endpoint in service-and-endpoint order, then `.build()` |
| ServiceMetadata.ServiceEndpoints | codegen-lite/src/main/java/software/amazon/awssdk/codegen/lite/regions/ServiceMetadataGenerator.java:107-121 | the endpoint table is the put table of hostname overrides over the collected services |
| ServiceMetadata.SigningRegionOverrides | codegen-lite/src/main/java/software/amazon/awssdk/codegen/lite/regions/ServiceMetadataGenerator.java:144-160 | the signing table is the put table of credential-scope regions over the collected services |
| ServiceMetadata.PutRoundTrip | codegen-lite/src/main/java/software/amazon/awssdk/codegen/lite/regions/ServiceMetadataGenerator.java:117-118 | one emitted `.put("k", "v")` reads back as `(k, v)` when both are plain literals: no `"`, `\`, `$` or line terminator |
| ServiceMetadata.NotPlainRefused | codegen-lite/src/main/java/software/amazon/awssdk/codegen/lite/regions/ServiceMetadataGenerator.java:117-118 | the converse of `PutRoundTrip`: every emitted `put` whose key or value is not a plain literal is refused, so a `put` reads back exactly when both are plain |
| ServiceMetadata.PutsRoundTrip | codegen-lite/src/main/java/software/amazon/awssdk/codegen/lite/regions/ServiceMetadataGenerator.java:112-118 | a sequence of emitted `put`s of plain literals reads back as the same entries in the same order |
| ServiceMetadata.PutTableRoundTrip | codegen-lite/src/main/java/software/amazon/awssdk/codegen/lite/regions/ServiceMetadataGenerator.java:110-120 | the whole emitted table of plain literals, builder to `.build()`, decodes to exactly the entries emitted |
| ServiceMetadata.CollectRegions | codegen-lite/src/main/java/software/amazon/awssdk/codegen/lite/regions/ServiceMetadataGenerator.java:127-132 | the region list is the endpoint keys of each partition that contains the service (case-sensitive), concatenated in partition order |
| ServiceMetadata.RegionListMember | codegen-lite/src/main/java/software/amazon/awssdk/codegen/lite/regions/ServiceMetadataGenerator.java:127-132 | a region id is in the list if and only if some partition holds the service under exactly its name with an endpoint for that id |
| ServiceMetadata.RegionListAppend | codegen-lite/src/main/java/software/amazon/awssdk/codegen/lite/regions/ServiceMetadataGenerator.java:127-132 | regions are collected partition by partition: those of earlier partitions come first |
| ServiceMetadata.EmitRegions | codegen-lite/src/main/java/software/amazon/awssdk/codegen/lite/regions/ServiceMetadataGenerator.java:134-141 | the index loop emits `Region.of(id)` per region, a comma after each but the last, then `))` |
| ServiceMetadata.RegionsField | codegen-lite/src/main/java/software/amazon/awssdk/codegen/lite/regions/ServiceMetadataGenerator.java:123-142 | the field initializer is `unmodifiableList(asList(` followed by the punctuated list of the collected regions and `))` |
| ServiceMetadata.PunctuatedShape | codegen-lite/src/main/java/software/amazon/awssdk/codegen/lite/regions/ServiceMetadataGenerator.java:134-139 | before the last region, region k sits at position 2k and a comma at every odd position |
| ServiceMetadata.RegionElementsShape | codegen-lite/src/main/java/software/amazon/awssdk/codegen/lite/regions/ServiceMetadataGenerator.java:134-139 | n regions give 2n-1 fragments: region k at position 2k and a comma between each two consecutive regions |
| ServiceMetadata.PunctuatedCommas | codegen-lite/src/main/java/software/amazon/awssdk/codegen/lite/regions/ServiceMetadataGenerator.java:134-139 | each region before the last contributes exactly one comma |
| ServiceMetadata.RegionsFieldCommas | codegen-lite/src/main/java/software/amazon/awssdk/codegen/lite/regions/ServiceMetadataGenerator.java:125-141 | the emitted list of n regions has exactly n-1 commas (none for an empty list), so no comma trails |
| ServiceMetadata.RegionElementsRoundTrip | codegen-lite/src/main/java/software/amazon/awssdk/codegen/lite/regions/ServiceMetadataGenerator.java:134-139 | the punctuated elements decode back to the regions in order |
| ServiceMetadata.RegionsFieldRoundTrip | codegen-lite/src/main/java/software/amazon/awssdk/codegen/lite/regions/ServiceMetadataGenerator.java:123-142 | the whole `unmodifiableList(asList(...))` initializer decodes to exactly the region list |
| ServiceMetadata.RegionSourceInServiceData | codegen-lite/src/main/java/software/amazon/awssdk/codegen/lite/regions/ServiceMetadataGenerator.java:131-132 | a service that contributes regions through the case-sensitive lookup is also among the collected service data |
| ServiceMetadata.CaseSensitivityGap | codegen-lite/src/main/java/software/amazon/awssdk/codegen/lite/regions/ServiceMetadataGenerator.java:131 | a partition holding `S3` contributes an endpoint to the service data of `s3` but no region to its region list |
| ServiceMetadata.ToMap | codegen-lite/src/main/java/software/amazon/awssdk/codegen/lite/regions/ServiceMetadataGenerator.java:117-120 | the built map has a key exactly when some `put` used it, and maps it to a value put under it |
| ServiceMetadata.TableLookup | codegen-lite/src/main/java/software/amazon/awssdk/codegen/lite/regions/ServiceMetadataGenerator.java:81-92 | the overrides field contains a region id if and only if a collected endpoint overrides it, and then holds one of that endpoint's values |
| ServiceMetadata.EndpointForResolution | codegen-lite/src/main/java/software/amazon/awssdk/codegen/lite/regions/ServiceMetadataGenerator.java:179-182 | `endpointFor(r)` returns a hostname that an endpoint of the service declares for `r` when one exists, otherwise `computeEndpoint(ENDPOINT_PREFIX, r)` |
| ServiceMetadata.SigningRegionResolution | codegen-lite/src/main/java/software/amazon/awssdk/codegen/lite/regions/ServiceMetadataGenerator.java:192 | `signingRegion(r)` returns a credential-scope region declared for `r` when one exists, otherwise `r` itself |
| ServiceMetadata.PoetClass | codegen-lite/src/main/java/software/amazon/awssdk/codegen/lite/regions/ServiceMetadataGenerator.java:65-97 | the class has the sanitised name, implements `ServiceMetadata` of the region package and has the methods `regions`, `endpointFor`, `signingRegion`; when the spliced strings are plain literals, its field initializers decode to the prefix, both override maps and the region list |
| Poet.CodeBlockBuilder.Add | codegen-lite/src/main/java/software/amazon/awssdk/codegen/lite/regions/ServiceMetadataGenerator.java:135 | `CodeBlock.Builder.add` appends one fragment and keeps the earlier ones |
| Poet.TypeSpecBuilder.AddMethod | codegen/src/main/java/software/amazon/awssdk/codegen/poet/builder/BaseClientBuilderClass.java:72 | `TypeSpec.Builder.addMethod` appends one method and keeps the earlier ones |
| XmlProtocol.UseRootElement | codegen/src/main/java/software/amazon/awssdk/codegen/poet/client/specs/XmlProtocolSpec.java:58-68 | returns `.useRootElement(true)` if and only if there is an output shape and it has a payload member or is listed in `useRootXmlElementForResult`, otherwise `""`; so a missing shape always gives `""`, and a listed shape unwraps whatever its payload flag |
| XmlProtocol.ResponseHandler | codegen/src/main/java/software/amazon/awssdk/codegen/poet/client/specs/XmlProtocolSpec.java:41-56 | the statement decodes to the model class of the return type, `withHasStreamingSuccessResponse` equal to the operation's streaming output, and the root-element decision |
| ClientBuilder.SignerDefinitionMethodBody | codegen/src/main/java/software/amazon/awssdk/codegen/poet/builder/BaseClientBuilderClass.java:220-245 | succeeds exactly for V4, V2 and S3, and the body creates `Aws4Signer`, `QueryStringSigner` or `AwsS3V4Signer` respectively; any other auth type fails with `Unsupported signer type: <type>` |
| ClientBuilder.DefaultSignerMethod | codegen/src/main/java/software/amazon/awssdk/codegen/poet/builder/BaseClientBuilderClass.java:97-103 | `defaultSigner` exists exactly for supported auth types and creates the auth type's signer |
| ClientBuilder.MergeServiceDefaultsMethod | codegen/src/main/java/software/amazon/awssdk/codegen/poet/builder/BaseClientBuilderClass.java:114-134 | the body always sets SIGNER and CRC32_FROM_COMPRESSED_DATA_ENABLED (with the customization's flag), and sets RETRY_POLICY to the custom policy if and only if that policy is not blank |
| ClientBuilder.FinalizeServiceConfigurationMethod | codegen/src/main/java/software/amazon/awssdk/codegen/poet/builder/BaseClientBuilderClass.java:136-154 | the interceptor resource is the client package's directory followed by `/execution.interceptors` |
| ClientBuilder.ServiceEndpointPrefixMethod | codegen/src/main/java/software/amazon/awssdk/codegen/poet/builder/BaseClientBuilderClass.java:105-112 | `serviceEndpointPrefix` takes no parameter and returns the metadata's endpoint prefix |
| ClientBuilder.SigningNameMethod | codegen/src/main/java/software/amazon/awssdk/codegen/poet/builder/BaseClientBuilderClass.java:88-95 | `signingName` takes no parameter and returns the metadata's signing name |
| ClientBuilder.SetServiceConfigurationMethod | codegen/src/main/java/software/amazon/awssdk/codegen/poet/builder/BaseClientBuilderClass.java:156-167 | `serviceConfiguration` takes one `serviceConfiguration` parameter typed by the configured class in the base package; its first statement, read back by `OptionSet`, stores that parameter under `SdkClientOption.SERVICE_CONFIGURATION`; it then returns `thisBuilder()` |
| ClientBuilder.OptionRoundTrip | codegen/src/main/java/software/amazon/awssdk/codegen/poet/builder/BaseClientBuilderClass.java:163-164 | a `clientConfiguration.option($T.<option>, <value>)` statement reads back as exactly its option and value, for any option name without a comma |
| ClientBuilder.BeanStyleSetServiceConfigurationMethod | codegen/src/main/java/software/amazon/awssdk/codegen/poet/builder/BaseClientBuilderClass.java:169-177 | `setServiceConfiguration` takes the same parameter as `serviceConfiguration` and only calls it |
| ClientBuilder.ServiceSpecificHttpConfigMethodBody | codegen/src/main/java/software/amazon/awssdk/codegen/poet/builder/BaseClientBuilderClass.java:197-218 | the body starts from the service's default HTTP configuration when one is given, else an empty map, and merges PROTOCOL = HTTP2 if and only if HTTP/2 is supported |
| ClientBuilder.ServiceSpecificHttpConfigMethod | codegen/src/main/java/software/amazon/awssdk/codegen/poet/builder/BaseClientBuilderClass.java:188-195 | `serviceHttpConfig` carries that body |
| ClientBuilder.AddServiceHttpConfigIfNeeded | codegen/src/main/java/software/amazon/awssdk/codegen/poet/builder/BaseClientBuilderClass.java:179-186 | adds exactly one method, `serviceHttpConfig` with that body, if and only if a service HTTP config class is set or HTTP/2 is supported; earlier methods are unchanged |
| ClientBuilder.FixedMethodSpecs | codegen/src/main/java/software/amazon/awssdk/codegen/poet/builder/BaseClientBuilderClass.java:72-76 | the five fixed methods are `serviceEndpointPrefix`, `mergeServiceDefaults`, `finalizeServiceConfiguration`, `defaultSigner`, `signingName`, returning the endpoint prefix and the signing name, with the service defaults, the interceptor resource and the signer; they fail exactly when the signer does |
| ClientBuilder.AddFixedMethods | codegen/src/main/java/software/amazon/awssdk/codegen/poet/builder/BaseClientBuilderClass.java:72-76 | adds the five fixed methods in order, or fails with the signer error for an unsupported auth type |
| ClientBuilder.AddServiceConfigurationSetters | codegen/src/main/java/software/amazon/awssdk/codegen/poet/builder/BaseClientBuilderClass.java:78-81 | adds `serviceConfiguration` and `setServiceConfiguration`, typed by the configured class, if and only if a service-specific client config class is set |
| ClientBuilder.PoetSpec | codegen/src/main/java/software/amazon/awssdk/codegen/poet/builder/BaseClientBuilderClass.java:60-86 | fails exactly for an unsupported auth type. Otherwise the method names are the five fixed ones, then the two setters if and only if a config class is set, then `serviceHttpConfig` if and only if it is needed. The endpoint prefix, the service defaults, the interceptor resource, the signer, the signing name and the HTTP config body are those stated above |

## Left out

- JavaPoet itself is not modelled: rendering of `$T`/`$S`/`$L`, imports, modifiers, annotations, Javadoc, type variables and the superclass. Emitted code is kept as unrendered fragments, and methods keep only their name, parameters and body.
- `Utils.capitalize`, `Utils.packageToDirectory` and the inherited `computeEndpoint` are code that is not part of this model. They are function parameters with no assumptions, so `capitalize` throwing on an empty part is not modelled.
- `PoetExtensions.getModelClass` is code that is not part of this model. `XmlProtocol.ModelClass` gives it one definition, the class of that name in the model package; no proof depends on that choice.
- `PoetUtils.classNameFromFqcn` is modelled as keeping the fully qualified name as the `$T` argument. `URI.create` is modelled as the string handed to it, without URI validation.
- `String.equalsIgnoreCase` folds only ASCII letters, not the full Unicode case mapping of Java. `StringUtils.isNotBlank` uses Java's whitespace set, read through `Character.isWhitespace`.
- The `ImmutableMap` builder is not part of this model. `ToMap` assumes a later `put` under an existing key replaces the earlier one; a builder that rejected duplicates would throw instead.
- The iteration order of the Java maps in the partitions model is taken to be the order of the association lists.
- `ServiceMetadata.PoetClass`: the decoded meaning of its field initializers is stated only when the spliced region ids and values are plain literals, with no `"`, `\`, `$`, `\n` or `\r`. The generator escapes none of them, so such a character changes or breaks the emitted literal, and the decoder refuses it.
- A `$` spliced into a `put` format is a JavaPoet directive for `CodeBlock.Builder.add`. Depending on what follows it, it is dropped (`$$` prints one `$`), changed (a layout marker such as `$W` or `$>`) or rejected for lack of an argument, all at generation time. None of this is modelled; the model only refuses to decode such a fragment.
- Loading the partitions and the intermediate model from JSON is not modelled. Null maps and lists are not modelled, and neither is a null auth type: the model has none of them.
- `AsyncClientClass`, `AwsQueryProtocolFactory` and the generated test marshaller are left out. They are asynchronous plumbing and delegations to protocol code that is not part of this model.
- The rest of `XmlProtocolSpec`, `BaseClientBuilderClass` and the metadata generator interface is out of scope: the constructors, `className()` of the builder, and the protocol-factory and executor plumbing.
