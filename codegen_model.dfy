/**
 * The parts of the code generator's intermediate model that the client
 * generators read: service metadata, customization configuration and
 * operation models. Each record keeps only the accessors used.
 */
module CodegenModel {
  import opened Wrappers

  /** The service's authentication type; the enumeration's other constants keep their name. */
  datatype AuthType = V4 | V2 | S3 | OtherAuthType(name: string)

  datatype Metadata = Metadata(
    fullClientPackageName: string,
    baseBuilderInterface: string,
    baseBuilder: string,
    syncBuilder: string,
    asyncBuilder: string,
    endpointPrefix: string,
    signingName: string,
    authType: AuthType,
    supportsH2: bool)

  /** Customizations; `None` stands for a null class name or policy. */
  datatype CustomizationConfig = CustomizationConfig(
    serviceSpecificClientConfigClass: Option<string>,
    serviceSpecificHttpConfig: Option<string>,
    customRetryPolicy: Option<string>,
    calculateCrc32FromCompressedData: bool,
    useRootXmlElementForResult: seq<string>)

  datatype ShapeModel = ShapeModel(c2jName: string, hasPayloadMember: bool)

  /** An operation: the name of its return type, its output shape (null when absent) and its streaming flag. */
  datatype OperationModel = OperationModel(
    returnType: string,
    outputShape: Option<ShapeModel>,
    hasStreamingOutput: bool)

  datatype IntermediateModel = IntermediateModel(metadata: Metadata, customizationConfig: CustomizationConfig)
}
