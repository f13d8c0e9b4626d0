/**
 * The compiler state compileCall updates in place, and compileCall itself
 * as a method on it, proved to have exactly the outcome CallSpec.Compile
 * describes.
 */
module Compiler {
  import opened Wrappers
  import opened Builtins
  import opened Model
  import opened CallSpec

  class Compiler {
    /** The checker, template machinery, type lowering and function compiler it calls. */
    const env: Env
    /** The target's pointer size, used when lowering types. */
    const uintptrSize: nat
    /** The function whose body is being compiled, if any. */
    var currentFunction: Option<FunctionContext>
    /** The function template reflected on each generic declaration. */
    var templates: map<DeclId, Template>
    /** The function instance reflected on each declaration: the instance registry. */
    var instances: map<DeclId, Instance>
    /** The type reflected on each node. */
    var types: map<NodeId, Ty>
    /** The errors reported so far, in order. */
    var diagnostics: seq<Diagnostic>

    /** Every instance the compiler can reach has its receiver parameter when it is a method. */
    ghost predicate Valid()
      reads this
    {
      && ProducesWellFormed(env)
      && forall d :: d in instances ==> WellFormed(instances[d])
    }

    function Ctx(): Context
      reads this
    {
      Context(env, uintptrSize, currentFunction, templates)
    }

    function Snapshot(): State
      reads this
    {
      State(instances, types, diagnostics)
    }

    constructor (env: Env, uintptrSize: nat, templates: map<DeclId, Template>)
      requires ProducesWellFormed(env)
      ensures Valid()
      ensures this.env == env && this.uintptrSize == uintptrSize && this.templates == templates
      ensures currentFunction == None && instances == map[] && types == map[] && diagnostics == []
    {
      this.env := env;
      this.uintptrSize := uintptrSize;
      this.templates := templates;
      currentFunction := None;
      instances := map[];
      types := map[];
      diagnostics := [];
    }

    /**
     * Fills one slot per instance parameter: the receiver first for an
     * instance method, then argument node i converted for each remaining
     * slot i. Returns the slots and where the slot counter stopped.
     */
    method FillArguments(inst: Instance, arguments: seq<NodeId>) returns (slots: seq<Expr>, filled: nat)
      requires WellFormed(inst)
      ensures slots == ArgumentSlots(Ctx(), types, inst, arguments)
      ensures filled == FinalSlotCounter(inst) == |slots|
    {
      var argumentExpressions := new Expr[|inst.parameters|];
      var i := 0;
      if inst.isInstance {
        argumentExpressions[i] := GetLocal(0, env.lower(inst.parameters[0].ty, uintptrSize));
        i := i + 1;
      }
      var k := argumentExpressions.Length;
      while i < k
        invariant i <= k
        invariant inst.isInstance ==> i >= 1
        invariant forall j :: 0 <= j < i ==> argumentExpressions[j] == SlotValue(Ctx(), types, inst, arguments, j)
      {
        var argument := At(arguments, i);
        var ty := inst.parameters[i].ty;
        argumentExpressions[i] := Converted(argument, Compiled(argument, ty), TypeAfterCompiling(Ctx(), types, argument, ty), ty);
        i := i + 1;
      }
      slots := argumentExpressions[..];
      filled := i;
    }

    /**
     * Resolves each explicit type argument in order, the current function's
     * binding first, stopping at the first that resolves to nothing.
     */
    method CollectTypeArguments(typeArgumentNodes: seq<TypeNode>) returns (r: TypeArguments)
      ensures r == ResolveTypeArguments(Ctx(), typeArgumentNodes)
    {
      var typeArguments := new Ty[|typeArgumentNodes|];
      var i := 0;
      while i < |typeArgumentNodes|
        invariant i <= |typeArgumentNodes|
        invariant ResolveTypeArguments(Ctx(), typeArgumentNodes[..i]) == Resolved(typeArguments[..i])
      {
        var argument := typeArgumentNodes[i];
        var resolved :=
          if currentFunction.Some? && argument.text in currentFunction.value.typeParameters
          then Some(currentFunction.value.typeParameters[argument.text])
          else env.resolveType(argument);
        assert typeArgumentNodes[..i + 1][..i] == typeArgumentNodes[..i];
        if resolved.None? {
          return Unresolvable(i);
        }
        typeArguments[i] := resolved.value;
        i := i + 1;
      }
      assert typeArgumentNodes[..i] == typeArgumentNodes;
      r := Resolved(typeArguments[..]);
    }

    /**
     * Compiles one call-expression node: resolves its target, obtains or
     * instantiates and registers the instance, records the node's type,
     * builds the argument slots, checks the type arguments and emits a
     * direct call, a builtin lowering or an external call.
     */
    method CompileCall(node: CallNode, contextualType: Ty) returns (r: Expr)
      requires Valid()
      modifies this`instances, this`types, this`diagnostics
      ensures Valid()
      ensures Outcome(Snapshot(), r) == Compile(old(Ctx()), old(Snapshot()), node, contextualType)
    {
      var signature := env.resolvedSignature(node);
      if signature.None? {
        diagnostics := diagnostics + [Diagnostic(node.id, UnresolvableCallTarget)];
        return Unreachable;
      }
      var declaration := signature.value;
      var instance: Instance;
      if declaration.id in instances {
        instance := instances[declaration.id];
      } else if declaration.id in templates {
        instance := env.resolveTemplate(templates[declaration.id], TypeArgumentNodes(node));
        instance := env.initialize(instance);
        instances := instances[declaration.id := instance];
        if !env.compileFunction(instance) {
          diagnostics := diagnostics + [Diagnostic(node.id, FailedToCompileCallTarget)];
          types := types[node.id := contextualType];
          return Unreachable;
        }
      } else {
        diagnostics := diagnostics + [Diagnostic(node.id, UnresolvableCallTarget)];
        types := types[node.id := contextualType];
        return Unreachable;
      }

      types := types[node.id := instance.returnType];

      var argumentExpressions, i := FillArguments(instance, node.arguments);
      if i < |argumentExpressions| {
        // "Invalid number of arguments" would be reported here; the slot
        // counter never stops short of the slot count (ArityCheckNeverFires).
        assert false;
      }

      var typeArguments: seq<Ty> := [];
      if declaration.typeParameters.Some? {
        if node.typeArguments.None? || |node.typeArguments.value| != |declaration.typeParameters.value| {
          diagnostics := diagnostics + [Diagnostic(node.id, InvalidNumberOfTypeArguments)];
          return Unreachable;
        }
        var resolved := CollectTypeArguments(node.typeArguments.value);
        match resolved
        case Unresolvable(k) =>
          diagnostics := diagnostics + [Diagnostic(node.typeArguments.value[k].id, UnresolvableType)];
          return Unreachable;
        case Resolved(tys) =>
          typeArguments := tys;
      }

      r := Dispatch(Ctx(), declaration, instance, node.arguments, argumentExpressions, typeArguments);
    }
  }
}
