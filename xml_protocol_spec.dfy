/**
 * The response-handler code the XML protocol emits for an operation, and its
 * rule for unwrapping the root element of a response.
 */
module XmlProtocol {
  import opened Wrappers
  import opened Poet
  import opened CodegenModel

  const RootElementModifier := ".useRootElement(true)"

  /**
   * `useRootElement`: the response is read from its root element when the
   * operation has an output shape that either has a payload member or is named
   * in the `useRootXmlElementForResult` customization.
   */
  function UseRootElement(model: IntermediateModel, op: OperationModel): (r: string)
    ensures r == RootElementModifier || r == ""
    ensures r == RootElementModifier
            <==> op.outputShape.Some?
                 && (op.outputShape.value.hasPayloadMember
                     || op.outputShape.value.c2jName in model.customizationConfig.useRootXmlElementForResult)
  {
    var output := op.outputShape;
    if output.Some? && (output.value.hasPayloadMember
                        || output.value.c2jName in model.customizationConfig.useRootXmlElementForResult)
    then RootElementModifier
    else ""
  }

  /** `PoetExtensions`, as far as the package of the generated model classes. */
  datatype PoetExtensions = PoetExtensions(modelPackage: string)

  function ModelClass(ext: PoetExtensions, name: string): string
  {
    QualifiedName(ClassName(ext.modelPackage, name))
  }

  const HttpResponseHandlerClass := "software.amazon.awssdk.core.http.HttpResponseHandler"
  const XmlOperationMetadataClass := "software.amazon.awssdk.protocols.xml.internal.unmarshall.XmlOperationMetadata"
  const ResponseHandlerFormat :=
    "\n\n$T<$T> responseHandler = protocolFactory.createResponseHandler($T::builder,"
    + "new $T().withHasStreamingSuccessResponse($L)"
    + "$L)"

  /** `responseHandler`: the statement that creates the operation's response handler. */
  function ResponseHandler(ext: PoetExtensions, model: IntermediateModel, op: OperationModel): (block: seq<Fragment>)
    ensures ParseResponseHandler(block)
            == Some(ResponseHandlerPlan(ModelClass(ext, op.returnType), op.hasStreamingOutput,
                                        UseRootElement(model, op) == RootElementModifier))
  {
    var responseType := ModelClass(ext, op.returnType);
    [Statement(ResponseHandlerFormat,
               [TypeArg(HttpResponseHandlerClass), TypeArg(responseType), TypeArg(responseType),
                TypeArg(XmlOperationMetadataClass), LiteralArg(BoolLiteral(op.hasStreamingOutput)),
                LiteralArg(UseRootElement(model, op))])]
  }

  /** What a generated response handler is configured with. */
  datatype ResponseHandlerPlan = ResponseHandlerPlan(responseType: string, hasStreamingSuccessResponse: bool, useRootElement: bool)

  /** Reads back the response type and the two flags of an emitted response handler. */
  function ParseResponseHandler(block: seq<Fragment>): Option<ResponseHandlerPlan>
  {
    if |block| != 1 || !block[0].Statement? || block[0].format != ResponseHandlerFormat then None
    else
      var args := block[0].args;
      if |args| != 6 || args[0] != TypeArg(HttpResponseHandlerClass) || !args[1].TypeArg?
         || args[2] != args[1] || args[3] != TypeArg(XmlOperationMetadataClass)
         || !args[4].LiteralArg? || !args[5].LiteralArg?
      then None
      else
        var streaming := ParseBoolLiteral(args[4].text);
        var root := args[5].text;
        if streaming.None? || (root != RootElementModifier && root != "") then None
        else Some(ResponseHandlerPlan(args[1].qualifiedName, streaming.value, root == RootElementModifier))
  }
}
