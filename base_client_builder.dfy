/**
 * The generator of a service's base client builder class: which signer it
 * creates by default, which client options it merges into the configuration,
 * where it looks up execution interceptors, and which optional methods
 * (service configuration setters, service HTTP configuration) it carries.
 */
module ClientBuilder {
  import opened Wrappers
  import opened Poet
  import opened JavaStrings
  import opened CodegenModel

  /** `UnsupportedOperationException`, the only failure of the generator. */
  datatype CodegenError = UnsupportedOperation(message: string)

  const SignerPackage := "software.amazon.awssdk.auth.signer"
  const Aws4SignerClass := SignerPackage + ".Aws4Signer"
  const QueryStringSignerClass := SignerPackage + ".QueryStringSigner"
  const AwsS3V4SignerClass := SignerPackage + ".AwsS3V4Signer"

  const SdkAdvancedClientOptionClass := "software.amazon.awssdk.core.client.config.SdkAdvancedClientOption"
  const SdkClientOptionClass := "software.amazon.awssdk.core.client.config.SdkClientOption"
  const SdkClientConfigurationClass := "software.amazon.awssdk.core.client.config.SdkClientConfiguration"
  const ClasspathInterceptorChainFactoryClass := "software.amazon.awssdk.core.interceptor.ClasspathInterceptorChainFactory"
  const ExecutionInterceptorClass := "software.amazon.awssdk.core.interceptor.ExecutionInterceptor"
  const CollectionUtilsClass := "software.amazon.awssdk.utils.CollectionUtils"
  const AttributeMapClass := "software.amazon.awssdk.utils.AttributeMap"
  const SdkHttpConfigurationOptionClass := "software.amazon.awssdk.http.SdkHttpConfigurationOption"
  const ProtocolClass := "software.amazon.awssdk.http.Protocol"
  const ListClass := "java.util.List"

  // ---------------------------------------------------------------------------
  // signerDefinitionMethodBody

  predicate SupportedAuthType(authType: AuthType)
  {
    authType.V4? || authType.V2? || authType.S3?
  }

  /** The signer class a `defaultSigner` body creates, and the auth type it stands for. */
  function SignerOfBody(body: seq<Fragment>): Option<AuthType>
  {
    if |body| != 1 || !body[0].Code? || |body[0].args| != 1 then None
    else if body[0] == Code("return $T.create();", [TypeArg(Aws4SignerClass)]) then Some(V4)
    else if body[0] == Code("return $T.create();", [TypeArg(QueryStringSignerClass)]) then Some(V2)
    else if body[0] == Code("return $T.create();\n", [TypeArg(AwsS3V4SignerClass)]) then Some(S3)
    else None
  }

  /**
   * The body of `defaultSigner`: V4 creates `Aws4Signer`, V2 `QueryStringSigner`,
   * S3 `AwsS3V4Signer`; any other auth type is unsupported.
   */
  function SignerDefinitionMethodBody(authType: AuthType): (r: Result<seq<Fragment>, CodegenError>)
    ensures r.Success? <==> SupportedAuthType(authType)
    ensures r.Success? ==> SignerOfBody(r.value) == Some(authType)
    ensures r.Failure? ==> r.error == UnsupportedOperation("Unsupported signer type: " + authType.name)
  {
    match authType
    case V4 => Success([Code("return $T.create();", [TypeArg(Aws4SignerClass)])])
    case V2 => Success([Code("return $T.create();", [TypeArg(QueryStringSignerClass)])])
    case S3 => Success([Code("return $T.create();\n", [TypeArg(AwsS3V4SignerClass)])])
    case OtherAuthType(name) => Failure(UnsupportedOperation("Unsupported signer type: " + name))
  }

  function DefaultSignerMethod(md: Metadata): (r: Result<MethodSpec, CodegenError>)
    ensures r.Success? <==> SupportedAuthType(md.authType)
    ensures r.Success? ==> r.value.name == "defaultSigner" && SignerOfBody(r.value.code) == Some(md.authType)
  {
    var body := SignerDefinitionMethodBody(md.authType);
    if body.Failure? then Failure(body.error) else Success(MethodSpec("defaultSigner", [], body.value))
  }

  // ---------------------------------------------------------------------------
  // mergeServiceDefaultsMethod

  const SignerOptionCode := Code("return config.merge(c -> c.option($T.SIGNER, defaultSigner())\n", [TypeArg(SdkAdvancedClientOptionClass)])
  const Crc32OptionFormat := "                          .option($T" + ".CRC32_FROM_COMPRESSED_DATA_ENABLED, $L)"
  const RetryPolicyOptionFormat := ".option($T.RETRY_POLICY, $T.defaultPolicy())"
  const MergeClose := Code(");", [])

  /** The options a generated `mergeServiceDefaults` adds besides the signer. */
  datatype ServiceDefaults = ServiceDefaults(crc32FromCompressedDataEnabled: bool, retryPolicy: Option<string>)

  function ParseCrc32Option(f: Fragment): Option<bool>
  {
    if f.Code? && f.format == Crc32OptionFormat && |f.args| == 2 && f.args[0] == TypeArg(SdkClientOptionClass) && f.args[1].LiteralArg?
    then ParseBoolLiteral(f.args[1].text)
    else None
  }

  function ParseRetryPolicyOption(f: Fragment): Option<string>
  {
    if f.Code? && f.format == RetryPolicyOptionFormat && |f.args| == 2 && f.args[0] == TypeArg(SdkClientOptionClass) && f.args[1].TypeArg?
    then Some(f.args[1].qualifiedName)
    else None
  }

  /**
   * Reads back a `mergeServiceDefaults` body: the SIGNER option, the
   * CRC32_FROM_COMPRESSED_DATA_ENABLED option, optionally the RETRY_POLICY
   * option, and the closing of the merge.
   */
  function ParseServiceDefaults(code: seq<Fragment>): Option<ServiceDefaults>
  {
    if |code| < 3 || |code| > 4 || code[0] != SignerOptionCode || code[|code| - 1] != MergeClose then None
    else
      var crc := ParseCrc32Option(code[1]);
      if crc.None? then None
      else if |code| == 3 then Some(ServiceDefaults(crc.value, None))
      else
        var retry := ParseRetryPolicyOption(code[2]);
        if retry.None? then None else Some(ServiceDefaults(crc.value, retry))
  }

  /**
   * `mergeServiceDefaultsMethod`: always merges the signer and the CRC32 flag
   * of the customization, and the custom retry policy exactly when it is not blank.
   */
  method MergeServiceDefaultsMethod(cfg: CustomizationConfig) returns (m: MethodSpec)
    ensures m.name == "mergeServiceDefaults"
    ensures m.parameters == [Parameter(SdkClientConfigurationClass, "config")]
    ensures ParseServiceDefaults(m.code)
            == Some(ServiceDefaults(cfg.calculateCrc32FromCompressedData,
                                    if IsNotBlank(cfg.customRetryPolicy) then cfg.customRetryPolicy else None))
  {
    var crc32FromCompressedDataEnabled := cfg.calculateCrc32FromCompressedData;
    var builder := new CodeBlockBuilder();
    builder.Add(SignerOptionCode);
    builder.Add(Code(Crc32OptionFormat, [TypeArg(SdkClientOptionClass), LiteralArg(BoolLiteral(crc32FromCompressedDataEnabled))]));
    if IsNotBlank(cfg.customRetryPolicy) {
      builder.Add(Code(RetryPolicyOptionFormat, [TypeArg(SdkClientOptionClass), TypeArg(cfg.customRetryPolicy.value)]));
    }
    builder.Add(MergeClose);
    m := MethodSpec("mergeServiceDefaults", [Parameter(SdkClientConfigurationClass, "config")], builder.code);
  }

  // ---------------------------------------------------------------------------
  // finalizeServiceConfigurationMethod

  const InterceptorsSuffix := "/execution.interceptors"
  const GetInterceptorsFormat := "$T<$T> interceptors = interceptorFactory.getInterceptors($S);\n"
  const InterceptorFactoryCode := Code("$1T interceptorFactory = new $1T();\n", [TypeArg(ClasspathInterceptorChainFactoryClass)])
  const MergeInterceptorsCode := Code("interceptors = $T.mergeLists(interceptors, config.option($T.EXECUTION_INTERCEPTORS));\n",
                                      [TypeArg(CollectionUtilsClass), TypeArg(SdkClientOptionClass)])
  const ReturnWithInterceptorsCode := Code("return config.toBuilder()\n"
                                           + "             .option($T.EXECUTION_INTERCEPTORS, interceptors)\n"
                                           + "             .build();", [TypeArg(SdkClientOptionClass)])

  /** The classpath resource a `finalizeServiceConfiguration` body reads its interceptors from. */
  function InterceptorResourceOf(code: seq<Fragment>): Option<string>
  {
    if |code| == 4 && code[1].Code? && code[1].format == GetInterceptorsFormat && |code[1].args| == 3
       && code[1].args[2].StringArg?
    then Some(code[1].args[2].value)
    else None
  }

  /**
   * `finalizeServiceConfigurationMethod`: reads the interceptors listed in the
   * resource `<package directory>/execution.interceptors` and merges them with
   * the configured ones.
   */
  function FinalizeServiceConfigurationMethod(md: Metadata, packageToDirectory: string -> string): (m: MethodSpec)
    ensures m.name == "finalizeServiceConfiguration"
    ensures var path := InterceptorResourceOf(m.code);
            var dir := packageToDirectory(md.fullClientPackageName);
            path == Some(dir + InterceptorsSuffix)
  {
    var requestHandlerDirectory := packageToDirectory(md.fullClientPackageName);
    var requestHandlerPath := requestHandlerDirectory + InterceptorsSuffix;
    MethodSpec(
      "finalizeServiceConfiguration",
      [Parameter(SdkClientConfigurationClass, "config")],
      [InterceptorFactoryCode,
       Code(GetInterceptorsFormat, [TypeArg(ListClass), TypeArg(ExecutionInterceptorClass), StringArg(requestHandlerPath)]),
       MergeInterceptorsCode,
       ReturnWithInterceptorsCode])
  }

  // ---------------------------------------------------------------------------
  // The fixed methods and the service configuration setters.

  const ReturnStringFormat := "return $S;"

  /** The string a `return $S;` body returns; `None` for any other body. */
  function ReturnedString(code: seq<Fragment>): Option<string>
  {
    if |code| == 1 && code[0].Code? && code[0].format == ReturnStringFormat
       && |code[0].args| == 1 && code[0].args[0].StringArg?
    then Some(code[0].args[0].value)
    else None
  }

  /** `serviceEndpointPrefixMethod`: returns the service's endpoint prefix. */
  function ServiceEndpointPrefixMethod(md: Metadata): (m: MethodSpec)
    ensures m.name == "serviceEndpointPrefix" && m.parameters == []
    ensures ReturnedString(m.code) == Some(md.endpointPrefix)
  {
    MethodSpec("serviceEndpointPrefix", [], [Code(ReturnStringFormat, [StringArg(md.endpointPrefix)])])
  }

  /** `signingNameMethod`: returns the service's signing name. */
  function SigningNameMethod(md: Metadata): (m: MethodSpec)
    ensures m.name == "signingName" && m.parameters == []
    ensures ReturnedString(m.code) == Some(md.signingName)
  {
    MethodSpec("signingName", [], [Code(ReturnStringFormat, [StringArg(md.signingName)])])
  }

  const OptionOpen := "clientConfiguration.option($T."
  const OptionMiddle := ", "

  /** The statement `clientConfiguration.option($T.<option>, <value>)`, with `$T` the client option class. */
  function OptionStatement(option: string, value: string): Fragment
  {
    Statement(OptionOpen + option + OptionMiddle + value + ")", [TypeArg(SdkClientOptionClass)])
  }

  /** Which `SdkClientOption` a `clientConfiguration.option(...)` statement sets, and to what. */
  function OptionSet(f: Fragment): Option<(string, string)>
  {
    if !f.Statement? || f.args != [TypeArg(SdkClientOptionClass)] then None
    else
      var fmt := f.format;
      if |fmt| < |OptionOpen| + 1 || fmt[..|OptionOpen|] != OptionOpen || fmt[|fmt| - 1] != ')' then None
      else
        var body := fmt[|OptionOpen|..|fmt| - 1];
        match IndexOf(body, ',')
        case None => None
        case Some(k) =>
          if k + |OptionMiddle| <= |body| && body[k..k + |OptionMiddle|] == OptionMiddle
          then Some((body[..k], body[k + |OptionMiddle|..]))
          else None
  }

  /** An option name without a comma reads back together with its value. */
  lemma OptionRoundTrip(option: string, value: string)
    requires ',' !in option
    ensures OptionSet(OptionStatement(option, value)) == Some((option, value))
  {
    var body := option + OptionMiddle + value;
    var fmt := OptionOpen + body + ")";
    assert OptionStatement(option, value).format == fmt;
    assert fmt[..|OptionOpen|] == OptionOpen;
    assert fmt[|OptionOpen|..|fmt| - 1] == body;
    assert body == option + (OptionMiddle + value);
    IndexOfAfter(option, OptionMiddle + value, ',');
    assert body[..|option|] == option;
    assert body[|option|..|option| + |OptionMiddle|] == OptionMiddle;
    assert body[|option| + |OptionMiddle|..] == value;
  }

  const ServiceConfigurationOption := "SERVICE_CONFIGURATION"

  /** The name of the fluent setter, and of the one parameter of both setters. */
  const ServiceConfigurationName := "serviceConfiguration"

  /** The one parameter of both setters: the configuration class, taken from the base package. */
  function ServiceConfigurationParameter(basePackage: string, configClass: string): Parameter
  {
    Parameter(QualifiedName(ClassName(basePackage, configClass)), ServiceConfigurationName)
  }

  /**
   * `setServiceConfigurationMethod`: takes the configuration class of the
   * base package, stores it as the `SERVICE_CONFIGURATION` client option and
   * returns the builder.
   */
  function SetServiceConfigurationMethod(basePackage: string, configClass: string): (m: MethodSpec)
    ensures m.name == "serviceConfiguration"
    ensures |m.parameters| == 1 && m.parameters[0].name == "serviceConfiguration"
    ensures m.parameters[0].typeName == QualifiedName(ClassName(basePackage, configClass))
    ensures |m.code| == 2 && OptionSet(m.code[0]) == Some(("SERVICE_CONFIGURATION", m.parameters[0].name))
    ensures m.code[1] == Statement("return thisBuilder()", [])
  {
    OptionRoundTrip(ServiceConfigurationOption, ServiceConfigurationName);
    MethodSpec(
      ServiceConfigurationName,
      [ServiceConfigurationParameter(basePackage, configClass)],
      [OptionStatement(ServiceConfigurationOption, ServiceConfigurationName),
       Statement("return thisBuilder()", [])])
  }

  /** `beanStyleSetServiceConfigurationMethod`: the bean-style setter, which passes its parameter to `serviceConfiguration`. */
  function BeanStyleSetServiceConfigurationMethod(basePackage: string, configClass: string): (m: MethodSpec)
    ensures m.name == "setServiceConfiguration"
    ensures m.parameters == SetServiceConfigurationMethod(basePackage, configClass).parameters
    ensures var fluent := SetServiceConfigurationMethod(basePackage, configClass);
            m.code == [Statement(fluent.name + "(" + fluent.parameters[0].name + ")", [])]
  {
    MethodSpec(
      "setServiceConfiguration",
      [ServiceConfigurationParameter(basePackage, configClass)],
      [Statement(ServiceConfigurationName + "(" + ServiceConfigurationName + ")", [])])
  }

  // ---------------------------------------------------------------------------
  // addServiceHttpConfigIfNeeded and serviceSpecificHttpConfigMethodBody

  const DefaultHttpConfigFormat := "$T result = $T.defaultHttpConfig()"
  const EmptyHttpConfig := Statement("$1T result = $1T.empty()", [TypeArg(AttributeMapClass)])
  const MergeHttp2 := Statement("return result.merge(AttributeMap.builder()" + ".put($T.PROTOCOL, $T.HTTP2)" + ".build())",
                                [TypeArg(SdkHttpConfigurationOptionClass), TypeArg(ProtocolClass)])
  const ReturnResult := Statement("return result", [])

  /** What a generated `serviceHttpConfig` returns: the service defaults (or an empty map), with or without HTTP2. */
  datatype HttpConfigPlan = HttpConfigPlan(serviceDefaults: Option<string>, http2: bool)

  /** Reads back a `serviceHttpConfig` body: where `result` starts from, and whether PROTOCOL = HTTP2 is merged in. */
  function ParseHttpConfigBody(code: seq<Fragment>): Option<HttpConfigPlan>
  {
    if |code| != 2 then None
    else
      var base: Option<Option<string>> :=
        if code[0] == EmptyHttpConfig then Some(None)
        else if code[0].Statement? && code[0].format == DefaultHttpConfigFormat && |code[0].args| == 2
                && code[0].args[0] == TypeArg(AttributeMapClass) && code[0].args[1].TypeArg?
        then Some(Some(code[0].args[1].qualifiedName))
        else None;
      var http2: Option<bool> :=
        if code[1] == MergeHttp2 then Some(true) else if code[1] == ReturnResult then Some(false) else None;
      if base.None? || http2.None? then None else Some(HttpConfigPlan(base.value, http2.value))
  }

  /**
   * `serviceSpecificHttpConfigMethodBody`: starts from the service's default
   * HTTP configuration when one is given, otherwise from an empty map, and
   * merges PROTOCOL = HTTP2 exactly when the service supports HTTP/2.
   */
  method ServiceSpecificHttpConfigMethodBody(serviceDefaultFqcn: Option<string>, supportsH2: bool) returns (body: seq<Fragment>)
    ensures ParseHttpConfigBody(body) == Some(HttpConfigPlan(serviceDefaultFqcn, supportsH2))
  {
    var builder := new CodeBlockBuilder();
    if serviceDefaultFqcn.Some? {
      builder.Add(Statement(DefaultHttpConfigFormat, [TypeArg(AttributeMapClass), TypeArg(serviceDefaultFqcn.value)]));
    } else {
      builder.Add(EmptyHttpConfig);
    }
    if supportsH2 {
      builder.Add(MergeHttp2);
    } else {
      builder.Add(ReturnResult);
    }
    body := builder.code;
  }

  method ServiceSpecificHttpConfigMethod(serviceDefaultFqcn: Option<string>, supportsH2: bool) returns (m: MethodSpec)
    ensures m.name == "serviceHttpConfig"
    ensures ParseHttpConfigBody(m.code) == Some(HttpConfigPlan(serviceDefaultFqcn, supportsH2))
  {
    var body := ServiceSpecificHttpConfigMethodBody(serviceDefaultFqcn, supportsH2);
    m := MethodSpec("serviceHttpConfig", [], body);
  }

  predicate NeedsServiceHttpConfig(model: IntermediateModel)
  {
    model.customizationConfig.serviceSpecificHttpConfig.Some? || model.metadata.supportsH2
  }

  /** Adds `serviceHttpConfig` when the service has its own HTTP defaults or supports HTTP/2, and nothing otherwise. */
  method AddServiceHttpConfigIfNeeded(builder: TypeSpecBuilder, model: IntermediateModel)
    modifies builder
    ensures |builder.methods| == |old(builder.methods)| + (if NeedsServiceHttpConfig(model) then 1 else 0)
    ensures builder.methods[..|old(builder.methods)|] == old(builder.methods)
    ensures NeedsServiceHttpConfig(model) ==>
              var m := builder.methods[|builder.methods| - 1];
              m.name == "serviceHttpConfig"
              && ParseHttpConfigBody(m.code)
                 == Some(HttpConfigPlan(model.customizationConfig.serviceSpecificHttpConfig, model.metadata.supportsH2))
    ensures MethodNames(builder.methods[|old(builder.methods)|..]) == HttpConfigNames(model)
  {
    var serviceDefaultFqcn := model.customizationConfig.serviceSpecificHttpConfig;
    var supportsH2 := model.metadata.supportsH2;
    if serviceDefaultFqcn.Some? || supportsH2 {
      var m := ServiceSpecificHttpConfigMethod(serviceDefaultFqcn, supportsH2);
      builder.AddMethod(m);
    }
  }

  // ---------------------------------------------------------------------------
  // poetSpec

  /** The generated base builder class: its name and its methods in order. */
  datatype TypeSpec = TypeSpec(name: ClassName, methods: seq<MethodSpec>)

  const FixedMethodNames := ["serviceEndpointPrefix", "mergeServiceDefaults", "finalizeServiceConfiguration", "defaultSigner", "signingName"]

  /**
   * The five methods every base builder has, in order: the endpoint prefix,
   * the service defaults, the interceptor resource, the signer and the signing
   * name.
   */
  predicate FixedMethods(ms: seq<MethodSpec>, model: IntermediateModel, packageToDirectory: string -> string)
  {
    var cfg := model.customizationConfig;
    var md := model.metadata;
    MethodNames(ms) == FixedMethodNames
    && ReturnedString(ms[0].code) == Some(md.endpointPrefix)
    && InterceptorResourceOf(ms[2].code) == Some(packageToDirectory(md.fullClientPackageName) + InterceptorsSuffix)
    && ReturnedString(ms[4].code) == Some(md.signingName)
    && ParseServiceDefaults(ms[1].code)
       == Some(ServiceDefaults(cfg.calculateCrc32FromCompressedData,
                               if IsNotBlank(cfg.customRetryPolicy) then cfg.customRetryPolicy else None))
    && SignerOfBody(ms[3].code) == Some(model.metadata.authType)
  }

  /**
   * The five methods every base builder starts with. `defaultSignerMethod`
   * throws for an unsupported auth type.
   */
  method FixedMethodSpecs(model: IntermediateModel, packageToDirectory: string -> string)
    returns (r: Result<seq<MethodSpec>, CodegenError>)
    ensures r.Failure? <==> !SupportedAuthType(model.metadata.authType)
    ensures r.Failure? ==> r.error == UnsupportedOperation("Unsupported signer type: " + model.metadata.authType.name)
    ensures r.Success? ==> FixedMethods(r.value, model, packageToDirectory)
  {
    var md := model.metadata;
    var prefix := ServiceEndpointPrefixMethod(md);
    var mergeDefaults := MergeServiceDefaultsMethod(model.customizationConfig);
    var finalize := FinalizeServiceConfigurationMethod(md, packageToDirectory);
    var signer := DefaultSignerMethod(md);
    if signer.Failure? {
      return Failure(signer.error);
    }
    var methods := [prefix, mergeDefaults, finalize, signer.value, SigningNameMethod(md)];
    assert MethodNames(methods) == [methods[0].name, methods[1].name, methods[2].name, methods[3].name, methods[4].name];
    r := Success(methods);
  }

  /** The first five `addMethod` calls of `poetSpec`; the builder is abandoned when the signer fails. */
  method AddFixedMethods(builder: TypeSpecBuilder, model: IntermediateModel, packageToDirectory: string -> string)
    returns (err: Option<CodegenError>)
    modifies builder
    ensures err.Some? <==> !SupportedAuthType(model.metadata.authType)
    ensures err.Some? ==> err.value == UnsupportedOperation("Unsupported signer type: " + model.metadata.authType.name)
    ensures err.None? ==>
              |builder.methods| == |old(builder.methods)| + 5
              && builder.methods[..|old(builder.methods)|] == old(builder.methods)
              && FixedMethods(builder.methods[|old(builder.methods)|..], model, packageToDirectory)
  {
    var fixed := FixedMethodSpecs(model, packageToDirectory);
    if fixed.Failure? {
      return Some(fixed.error);
    }
    var methods := fixed.value;
    ghost var start := builder.methods;
    builder.AddMethod(methods[0]);
    builder.AddMethod(methods[1]);
    builder.AddMethod(methods[2]);
    builder.AddMethod(methods[3]);
    builder.AddMethod(methods[4]);
    assert builder.methods == start + [methods[0], methods[1], methods[2], methods[3], methods[4]];
    assert builder.methods[|start|..] == methods by {
      assert |methods| == 5;
    }
    err := None;
  }

  function SetterNames(model: IntermediateModel): seq<string>
  {
    if model.customizationConfig.serviceSpecificClientConfigClass.Some?
    then ["serviceConfiguration", "setServiceConfiguration"] else []
  }

  function HttpConfigNames(model: IntermediateModel): seq<string>
  {
    if NeedsServiceHttpConfig(model) then ["serviceHttpConfig"] else []
  }

  /** Adds `serviceConfiguration` and `setServiceConfiguration` when the service has its own client configuration class. */
  method AddServiceConfigurationSetters(builder: TypeSpecBuilder, model: IntermediateModel)
    modifies builder
    ensures var configClass := model.customizationConfig.serviceSpecificClientConfigClass;
            builder.methods
            == old(builder.methods)
               + (if configClass.Some?
                  then [SetServiceConfigurationMethod(model.metadata.fullClientPackageName, configClass.value),
                        BeanStyleSetServiceConfigurationMethod(model.metadata.fullClientPackageName, configClass.value)]
                  else [])
    ensures builder.methods[..|old(builder.methods)|] == old(builder.methods)
    ensures MethodNames(builder.methods[|old(builder.methods)|..]) == SetterNames(model)
  {
    ghost var start := builder.methods;
    var configClass := model.customizationConfig.serviceSpecificClientConfigClass;
    if configClass.Some? {
      builder.AddMethod(SetServiceConfigurationMethod(model.metadata.fullClientPackageName, configClass.value));
      builder.AddMethod(BeanStyleSetServiceConfigurationMethod(model.metadata.fullClientPackageName, configClass.value));
    }
    assert builder.methods[..|start|] == start;
  }

  /** The names of a method list split in three places are the names of the three parts. */
  lemma MethodNamesSplit(ms: seq<MethodSpec>, i: nat, j: nat)
    requires i <= j <= |ms|
    ensures MethodNames(ms) == MethodNames(ms[..i]) + MethodNames(ms[i..j]) + MethodNames(ms[j..])
  {
    var names := MethodNames(ms[..i]) + MethodNames(ms[i..j]) + MethodNames(ms[j..]);
    forall k | 0 <= k < |ms| ensures names[k] == ms[k].name {
      if k < i {
        assert names[k] == ms[..i][k].name;
      } else if k < j {
        assert names[k] == ms[i..j][k - i].name;
      } else {
        assert names[k] == ms[j..][k - j].name;
      }
    }
  }

  /**
   * `poetSpec`: fails exactly when the auth type has no signer; otherwise the
   * five fixed methods, then the two service configuration setters when a
   * service-specific client configuration class is configured, then
   * `serviceHttpConfig` when needed.
   */
  method PoetSpec(model: IntermediateModel, packageToDirectory: string -> string) returns (r: Result<TypeSpec, CodegenError>)
    ensures r.Failure? <==> !SupportedAuthType(model.metadata.authType)
    ensures r.Failure? ==> r.error == UnsupportedOperation("Unsupported signer type: " + model.metadata.authType.name)
    ensures r.Success? ==> r.value.name == ClassName(model.metadata.fullClientPackageName, model.metadata.baseBuilder)
    ensures r.Success? ==>
              MethodNames(r.value.methods) == FixedMethodNames + SetterNames(model) + HttpConfigNames(model)
    ensures r.Success? ==> |r.value.methods| >= 5 && FixedMethods(r.value.methods[..5], model, packageToDirectory)
    ensures r.Success? && NeedsServiceHttpConfig(model) ==>
              ParseHttpConfigBody(r.value.methods[|r.value.methods| - 1].code)
              == Some(HttpConfigPlan(model.customizationConfig.serviceSpecificHttpConfig, model.metadata.supportsH2))
  {
    var md := model.metadata;
    var builder := new TypeSpecBuilder();
    var err := AddFixedMethods(builder, model, packageToDirectory);
    if err.Some? {
      return Failure(err.value);
    }
    ghost var fixed := builder.methods;
    AddServiceConfigurationSetters(builder, model);
    ghost var withSetters := builder.methods;
    AddServiceHttpConfigIfNeeded(builder, model);

    var methods := builder.methods;
    assert methods[..5] == fixed by {
      assert methods[..|withSetters|][..5] == withSetters[..5];
    }
    assert methods[5..|withSetters|] == withSetters[5..];
    MethodNamesSplit(methods, 5, |withSetters|);
    r := Success(TypeSpec(ClassName(md.fullClientPackageName, md.baseBuilder), methods));
  }
}
