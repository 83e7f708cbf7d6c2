/**
 * The values the generators hand to JavaPoet: code fragments with their
 * arguments, method and type specifications, and the two builders they fill.
 * JavaPoet's rendering of a format string is not modelled; a fragment is kept
 * as the format and its arguments.
 */
module Poet {
  import opened Wrappers

  /** An argument of a format string: `$T` (a type), `$S` (a string literal) or `$L` (literal text). */
  datatype Arg = TypeArg(qualifiedName: string) | StringArg(value: string) | LiteralArg(text: string)

  /** One call on a code builder: `add`/`addCode`/`CodeBlock.of` emit `Code`, `addStatement` emits `Statement`. */
  datatype Fragment = Code(format: string, args: seq<Arg>) | Statement(format: string, args: seq<Arg>)

  /** `ClassName.get(packageName, simpleName)`. */
  datatype ClassName = ClassName(packageName: string, simpleName: string)

  /** The name `$T` prints for a class, its package omitted when it is the default package. */
  function QualifiedName(c: ClassName): string
  {
    if c.packageName == "" then c.simpleName else c.packageName + "." + c.simpleName
  }

  /** The text `$L` prints for a boolean. */
  function BoolLiteral(b: bool): string
  {
    if b then "true" else "false"
  }

  function ParseBoolLiteral(text: string): Option<bool>
  {
    if text == "true" then Some(true) else if text == "false" then Some(false) else None
  }

  datatype Parameter = Parameter(typeName: string, name: string)

  /** A generated method: its name, its parameters and the code of its body. */
  datatype MethodSpec = MethodSpec(name: string, parameters: seq<Parameter>, code: seq<Fragment>)

  /** The names of methods, in the order they were added. */
  function MethodNames(methods: seq<MethodSpec>): (names: seq<string>)
    ensures |names| == |methods|
    ensures forall i :: 0 <= i < |methods| ==> names[i] == methods[i].name
  {
    seq(|methods|, i requires 0 <= i < |methods| => methods[i].name)
  }

  /** `CodeBlock.Builder`: collects fragments in the order they are added. */
  class CodeBlockBuilder {
    var code: seq<Fragment>

    constructor ()
      ensures code == []
    {
      code := [];
    }

    method Add(f: Fragment)
      modifies this
      ensures code == old(code) + [f]
    {
      code := code + [f];
    }
  }

  /** `TypeSpec.Builder`, as far as the methods it is given. */
  class TypeSpecBuilder {
    var methods: seq<MethodSpec>

    constructor ()
      ensures methods == []
    {
      methods := [];
    }

    method AddMethod(m: MethodSpec)
      modifies this
      ensures methods == old(methods) + [m]
    {
      methods := methods + [m];
    }
  }
}
