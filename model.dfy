/**
 * The entities compileCall works on: AST nodes, declarations, function
 * instances and templates, semantic and IR types, the IR expressions it
 * returns, the diagnostics it reports, and the collaborators it calls
 * whose code is not part of this model.
 */
module Model {
  import opened Wrappers
  import opened Builtins

  type NodeId = nat
  type DeclId = nat

  /** A semantic type of the source language, known here only by name. */
  datatype Ty = Ty(name: string)

  /** An IR value type (the result of lowering a semantic type). */
  datatype IrType = IrNone | I32 | I64 | F32 | F64

  datatype Param = Param(name: string, ty: Ty)

  /**
   * A function-like declaration as the checker's signature points to it.
   * `typeParameters` is None when the declaration has no type-parameter
   * list at all; an empty list is still a list, as in the AST.
   */
  datatype Declaration = Declaration(
    id: DeclId,
    parameters: seq<Param>,
    typeParameters: Option<seq<string>>,
    isImport: bool,
    symbolName: string)

  /** A concrete, compiled callable. */
  datatype Instance = Instance(
    name: string,
    parameters: seq<Param>,
    returnType: Ty,
    isInstance: bool)

  /** An instance method's receiver is its parameter 0, which compileCall dereferences. */
  predicate WellFormed(inst: Instance)
  {
    inst.isInstance ==> |inst.parameters| > 0
  }

  /** A generic declaration that can produce instances; opaque to compileCall. */
  datatype Template = Template(id: nat)

  /** An explicit type-argument expression: its node and its source text. */
  datatype TypeNode = TypeNode(id: NodeId, text: string)

  /** A call-expression node: its argument nodes and optional explicit type arguments. */
  datatype CallNode = CallNode(
    id: NodeId,
    arguments: seq<NodeId>,
    typeArguments: Option<seq<TypeNode>>)

  /** The function currently being compiled: the bindings of its own type parameters. */
  datatype FunctionContext = FunctionContext(typeParameters: map<string, Ty>)

  /**
   * The IR expressions compileCall produces. `Compiled` and `Converted`
   * stand for the results of the compiler's expression compilation and
   * implicit value conversion (not part of this model), applied to the
   * given node (None where the source passes `undefined`).
   */
  datatype Expr =
    | Unreachable
    | GetLocal(index: nat, ty: IrType)
    | Call(target: string, operands: seq<Expr>, ty: IrType)
    | Compiled(node: Option<NodeId>, contextualType: Ty)
    | Converted(node: Option<NodeId>, value: Expr, fromType: Option<Ty>, toType: Ty)
    | Builtin(routine: Routine, nodes: seq<Option<NodeId>>, values: seq<Option<Expr>>)
    | SizeOf(typeArgument: Option<Ty>)

  datatype DiagnosticKind =
    | UnresolvableCallTarget
    | FailedToCompileCallTarget
    | InvalidNumberOfArguments(expected: nat, saw: nat)
    | InvalidNumberOfTypeArguments
    | UnresolvableType
  {
    /** The message text the compiler reports for this kind. */
    function Message(): string
    {
      match this
      case UnresolvableCallTarget => "Unresolvable call target"
      case FailedToCompileCallTarget => "Failed to compile call target"
      case InvalidNumberOfArguments(_, _) => "Invalid number of arguments"
      case InvalidNumberOfTypeArguments => "Invalid number of type arguments"
      case UnresolvableType => "Unresolvable type"
    }
  }

  /**
   * Distinct kinds report distinct message texts; the two numbers of the
   * arity diagnostic go into its detail text, not its message.
   */
  lemma MessagesDistinguishKinds(k1: DiagnosticKind, k2: DiagnosticKind)
    ensures k1.Message() == k2.Message() <==>
      k1 == k2 || (k1.InvalidNumberOfArguments? && k2.InvalidNumberOfArguments?)
  {
  }

  /** One reported error, attached to the node it is about. */
  datatype Diagnostic = Diagnostic(at: NodeId, kind: DiagnosticKind)

  /**
   * The collaborators compileCall consults and whose code is not part of
   * this model: the checker's signature and type resolution, a template's
   * `resolve`, an instance's `initialize`, the compiler's `compileFunction`,
   * the compiler's own type resolution, the lowering of a semantic type to
   * an IR type for a pointer size, and the type that compiling an
   * expression node against a contextual type records on that node (None
   * when it records none).
   */
  datatype Env = Env(
    resolvedSignature: CallNode -> Option<Declaration>,
    resolveTemplate: (Template, seq<TypeNode>) -> Instance,
    initialize: Instance -> Instance,
    compileFunction: Instance -> bool,
    resolveType: TypeNode -> Option<Ty>,
    lower: (Ty, nat) -> IrType,
    compiledType: (NodeId, Ty) -> Option<Ty>)

  /** Every instance a template can produce has its receiver parameter when it is a method. */
  ghost predicate ProducesWellFormed(env: Env)
  {
    forall t: Template, tns: seq<TypeNode> :: WellFormed(env.initialize(env.resolveTemplate(t, tns)))
  }

  /** What compileCall reads but never writes. */
  datatype Context = Context(
    env: Env,
    uintptrSize: nat,
    currentFunction: Option<FunctionContext>,
    templates: map<DeclId, Template>)

  /**
   * What compileCall writes: the declaration-to-instance registry, the
   * type recorded on each node, and the diagnostics reported so far.
   */
  datatype State = State(
    instances: map<DeclId, Instance>,
    types: map<NodeId, Ty>,
    diagnostics: seq<Diagnostic>)
  {
    function Report(at: NodeId, kind: DiagnosticKind): State
    {
      this.(diagnostics := diagnostics + [Diagnostic(at, kind)])
    }

    function Record(node: NodeId, ty: Ty): State
    {
      this.(types := types[node := ty])
    }
  }
}
