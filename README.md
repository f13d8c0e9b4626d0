# compileCall: call-expression compilation, modelled in Dafny

This project models `compileCall` from an AssemblyScript-style compiler.
`compileCall` turns one call-expression node into one IR expression for a
WebAssembly target. It works in six steps:

1. It asks the checker for the call's signature.
2. It finds the function instance for the signature's declaration. It uses
   the instance already registered for that declaration if there is one.
   Otherwise it instantiates, initialises, registers and compiles the
   declaration's generic template.
3. It records the instance's return type on the node.
4. It fills one argument slot per instance parameter. For an instance
   method, slot 0 is the receiver.
5. It checks the explicit type arguments.
6. It emits a direct call, a builtin intrinsic lowering (for imports whose
   name is in the intrinsic table) or an external call.

Every failure reports one diagnostic and yields an `unreachable` placeholder.

Modules:

- `Wrappers`: `Option`, and `At`, a JavaScript-style array read that yields
  `None` (`undefined`) past the end.
- `Builtins`: the intrinsic name table (`IntrinsicFor`), the same table
  grouped by family (`NamesOf`), and the number of values each routine
  receives (`ValueArity`).
- `Model`: nodes, declarations, instances, templates, types, IR expressions,
  diagnostics, and `Env`. `Env` holds the collaborators whose code is not
  part of this model: signature resolution, `template.resolve`,
  `instance.initialize`, `compileFunction`, type resolution, type lowering,
  and the type that compiling an argument records on its node.
- `CallSpec`: `Compile`, a function giving the outcome of one call (the new
  registry, the recorded types, the diagnostics and the IR), built stage by
  stage in the order of the code. The lemmas about it state what the code
  promises.
- `Compiler`: the class `Compiler`. Its fields are the state that
  compileCall reads and writes. Its method `CompileCall` updates that state
  in place and is proved to produce exactly `CallSpec.Compile`'s outcome.
  The two counter-driven loops, over argument slots and over type
  arguments, are the read-only methods `FillArguments` and
  `CollectTypeArguments`. Each is proved against its specification function.

Quirks of the code that the model keeps:

- The instance is registered before its body is compiled, so an instance
  whose body fails to compile stays registered. The next call of the same
  declaration then emits a direct call to it (`FailedInstanceCalledLater`).
- The registry is keyed by declaration alone. A later call site with other
  type arguments gets the first instantiation (`FirstInstantiationReused`).
- Slot i reads argument node i even when slot 0 is the receiver. An
  instance method called with one argument per non-receiver parameter
  therefore hands its last slot `undefined`
  (`InstanceMethodLastSlotReadsPastArguments`).
- The slot counter never stops short of the slot count, so
  "Invalid number of arguments" can never be reported
  (`ArityCheckNeverFires`). In `CompileCall` that branch holds only a
  proof that it cannot be reached.
- `sizeof` receives type argument 0 even when the declaration has no type
  parameters. It then receives `None` (`undefined`).
- Two-value intrinsics always receive slots 0 and 1. Slots that do not
  exist are passed as `None`.

Orderings of the code that the model keeps:

- When the checker finds no signature, no type is recorded on the node
  (call.ts:10-13). Both failures after a signature is found record the
  contextual type (call.ts:26, 31) (`UnresolvedSignature`,
  `TypeRecordedOnResolvedCalls`).
- Value arguments are compiled before the type-argument count is checked
  (call.ts:45-57). The model treats argument compilation as free of effects
  on the state, so that order is not observable here.
- Each conversion's from-type is read from the argument node after that
  node has been compiled (call.ts:46), so it is the type compilation
  records there (`Env.compiledType`), or the node's earlier type if
  compilation records none.

## Model

| member | source | states |
|---|---|---|
| `Compiler.Compiler.CompileCall` | src/expressions/call.ts:7-155 | The new registry, recorded types and diagnostics, and the returned IR, are exactly those of `CallSpec.Compile` on the old state; every registered instance stays well-formed |
| `CallSpec.UnresolvedSignature` | src/expressions/call.ts:9-13 | With no signature, exactly one "Unresolvable call target" diagnostic is added and `Unreachable` is returned; the registry and the recorded types are unchanged |
| `CallSpec.RegisteredInstanceReused` | src/expressions/call.ts:16-18 | A registered instance is reused: the registry is unchanged, the node's type is that instance's return type, and the outcome is the same whatever the templates, `resolve`, `initialize` and `compileFunction` are, so none of them is consulted |
| `CallSpec.TemplateInstantiated` | src/expressions/call.ts:18-28 | With only a template, the resolved and initialised instance is registered under the declaration even when its compilation fails; on failure the call adds "Failed to compile call target", records the contextual type and returns `Unreachable` |
| `CallSpec.NoInstanceNoTemplate` | src/expressions/call.ts:29-33 | With neither an instance nor a template, the call adds "Unresolvable call target", records the contextual type, returns `Unreachable` and leaves the registry unchanged |
| `CallSpec.ObtainInstance` | src/expressions/call.ts:16-34 | Registry entries are never changed or removed, and only the declaration's key can be added; a template's instance is registered whether or not it compiles; an obtained instance is the one registered under the declaration, with types and diagnostics untouched; a failure occurs only for an unregistered declaration, records the contextual type, and adds "Failed to compile call target" when a template existed, else "Unresolvable call target" |
| `CallSpec.ReturnTypeRecorded` | src/expressions/call.ts:36-72 | Once an instance is obtained, the node's recorded type is the instance's return type on every later path, the failing ones included |
| `CallSpec.TypeRecordedOnResolvedCalls` | src/expressions/call.ts:15-38 | Every call whose signature resolves leaves a recorded type on its node |
| `Compiler.Compiler.FillArguments` | src/expressions/call.ts:36-46 | The slot array built in place holds exactly the specified slots, and the counter ends at the slot count |
| `CallSpec.ArgumentSlotsShape` | src/expressions/call.ts:40-46 | There is one slot per instance parameter; slot 0 of an instance method is `GetLocal(0, lowered receiver type)`; every other slot i converts argument node i, compiled against parameter i's type, to that type, from the type that compilation recorded on the node, or else the type the node already had |
| `CallSpec.InstanceMethodLastSlotReadsPastArguments` | src/expressions/call.ts:42-46 | For an instance method given one argument per non-receiver parameter, the last slot is compiled from a missing (`undefined`) argument node |
| `CallSpec.ArityCheckNeverFires` | src/expressions/call.ts:45-51 | The slot counter always ends at or past the slot count, so the arity diagnostic is unreachable |
| `CallSpec.RegisteredUserFunctionCalled` | src/expressions/call.ts:16-76 | A registered plain user function with no type parameters compiles to a direct call of its instance on the argument slots with the lowered return type; the state changes only by the return type recorded on the node |
| `Model.MessagesDistinguishKinds` | src/expressions/call.ts:11-66 | Two diagnostic kinds have the same message text exactly when they are the same kind, the arity kind's numbers belonging to its detail text |
| `CallSpec.TypeArgumentCountMismatch` | src/expressions/call.ts:55-59 | A declaration with type parameters, called with no type arguments or with a different number, adds "Invalid number of type arguments" on the call node and returns `Unreachable`, keeping the recorded return type |
| `CallSpec.CheckTypeArguments` | src/expressions/call.ts:53-72 | Without a type-parameter list there are no type arguments; a success gives exactly as many types as there are type parameters and type arguments, each being its argument's resolution; a rejection is either "Invalid number of type arguments" on the call node or "Unresolvable type" on a type argument that resolves to nothing |
| `CallSpec.ResolveTypeArguments` | src/expressions/call.ts:60-71 | Success gives one resolved type per type argument, in order; failure gives the index of the first type argument that resolves to nothing, every earlier one having resolved |
| `Compiler.Compiler.CollectTypeArguments` | src/expressions/call.ts:60-71 | The loop over type arguments returns exactly `ResolveTypeArguments`'s result |
| `CallSpec.TypeArgumentUnresolvable` | src/expressions/call.ts:62-68 | The first type argument that resolves to nothing is reported as "Unresolvable type" on that type argument's own node, and the call returns `Unreachable` |
| `CallSpec.BoundTypeParameterWins` | src/expressions/call.ts:64 | A type argument whose text is bound in the enclosing function takes that binding, whatever the checker would resolve |
| `CallSpec.Dispatch` | src/expressions/call.ts:74-154 | Dispatch never yields `Unreachable`; it yields a call exactly when the declaration is not an import or its name is not in the intrinsic table |
| `CallSpec.UserFunctionCalledDirectly` | src/expressions/call.ts:75-76 | A non-import becomes a call of the instance's name with the slots and the lowered return type |
| `CallSpec.UnknownImportCalledLikeUserFunction` | src/expressions/call.ts:153-154 | An import whose name is not in the intrinsic table is emitted exactly as a user-function call |
| `CallSpec.Intrinsic` | src/expressions/call.ts:81-150 | `sizeof` becomes a size query of type argument 0 alone; every other routine becomes its own builtin lowering over exactly its family's count of leading argument nodes and slots |
| `CallSpec.IntrinsicOperands` | src/expressions/call.ts:79-151 | An import in a family's name set is lowered by that family's routine, which receives exactly its family's count (2, 1 or 0) of leading argument nodes and slots; `sizeof` receives only type argument 0 |
| `Builtins.TableMatchesFamilies` | src/expressions/call.ts:79-151 | The name switch maps a name to a routine exactly when the name is in that routine's family |
| `Builtins.FamiliesDisjoint` | src/expressions/call.ts:79-151 | No import name belongs to two families |
| `CallSpec.OneDiagnosticPerFailure` | src/expressions/call.ts:9-72 | Diagnostics are only appended; a call appends exactly one exactly when it returns `Unreachable`, and never the arity diagnostic |
| `CallSpec.RegistryOnlyGrows` | src/expressions/call.ts:16-34 | Existing registry entries are kept unchanged, and the only key a call can add is its own declaration |
| `CallSpec.LaterCallRegistersNothing` | src/expressions/call.ts:16-23 | After one call, another call of the same declaration adds no registry entry |
| `CallSpec.FirstInstantiationReused` | src/expressions/call.ts:16-23 | The registry is keyed by declaration alone, so a later call site gets the first call site's instance and its return type, whatever type arguments it passes |
| `CallSpec.FailedInstanceCalledLater` | src/expressions/call.ts:23-28 | An instance whose body failed to compile stays registered, and the next call of a plain user function emits a direct call to it |
| `CallSpec.IdentityInstantiatedOnce` | src/expressions/call.ts:18-76 | `identity<i32>(5)` registers exactly one instance, with one i32 parameter and an i32 return type, and emits a call on the converted literal |
| `CallSpec.RotateLeftLowered` | src/expressions/call.ts:79-83 | An imported `rotl(5, 2)` is lowered by the rotate-left routine on its two converted arguments, never as a call |

## Left out

- The IR builder (`op.call`, `op.getLocal`, `op.unreachable`) is modelled as the constructors of `Expr`.
- The builtin lowering routines' bodies are not modelled. They are foreign and mostly floating point. The model records only which routine is chosen and what it receives.
- `compileExpression` and `maybeConvertValue` are modelled as the uninterpreted IR terms `Compiled` and `Converted`. Their side effects are not modelled: nested calls that register instances, report diagnostics or record types.
- `compileFunction` is modelled as an arbitrary predicate on the instance. Its side effects are not modelled, and neither are re-entrant or recursive instantiation.
- `template.resolve` and `instance.initialize` are opaque functions. `initialize` yields the initialised instance as a new value. The in-place update of a shared instance object, and any aliasing it causes, are not captured.
- The checker's `getResolvedSignature` (call.ts:9) and the compiler's own `resolveType` (call.ts:64) are modelled as functions in `Env`. So is `binaryen.typeOf`.
- The type `compileExpression` records on an argument node is modelled as `Env.compiledType`. It is read back as the conversion's from-type, but it is not added to the state's recorded types.
- `getText` is modelled as `TypeNode.text`.
- The reflected-property helpers are modelled as the maps `instances`, `templates` and `types`.
- `Compiler.Compiler.CompileCall`: it requires every reachable instance to be well-formed. An instance method has its receiver as parameter 0. The source throws on an instance method with no parameters, and that crash is not modelled.
- The effect of handing `undefined` (`None`) to `compileExpression`, `maybeConvertValue` or a builtin routine is not modelled.
- The lookup of a type parameter's text in the enclosing function is modelled as a map lookup. JavaScript property names inherited from `Object.prototype` are not modelled.
- The detail text of the arity diagnostic ("Expected N but saw M") is kept only as its two numbers. Its branch is unreachable.
