# Rhino host-function bridge, modelled in Dafny

This project models two parts of Rhino's function-call bridge.

- **`FunctionObject`** exposes a reflected Java method or constructor to scripts as a callable value.
  - At bind time the constructor classifies the member's signature. A member is either fixed-arity, with one type tag per parameter, or one of the two four-parameter "varargs" forms (`VARARGS_METHOD`, `VARARGS_CTOR`). Anything else is rejected with the matching error.
  - At call time `call` selects the receiver, including the implicit-`this` fallback to the parent scope. It then coerces the arguments with `convertArg`, copying the caller's array only on the first changed value. Finally it dispatches reflectively and post-processes method results.
  - The static helpers `findSingleMethod` and `getMethodList` pick methods out of a reflected method array.
  - `createObject` and the eligibility test for generated call thunks are also covered.
- **`OptCall` / `OptArguments`** are the activation object of a call in optimized code and its `arguments` view.
  - The view answers `length`, `callee` and `constructor` from fields captured at construction.
  - It serves in-range indices from the argument array it captured.
  - It reports every index write to the frame's `putArgument`.
  - Everything else goes to the ordinary property storage inherited from `ScriptableObject`.

Files:

- `host_model.dfy` (module `HostModel`) holds the shared vocabulary:
  - guest values, with objects compared by identity through ids;
  - host types and reflected members;
  - the errors, each named after its message key;
  - the `Runtime` record, whose function-valued fields stand for the external services: the `ScriptRuntime` conversions, `WrapFactory.wrap`, `Class.isInstance`, `MemberBox.invoke`/`newInstance` and `Class.newInstance`.
- `function_object.dfy` (module `FunctionObjects`) holds:
  - type tags, `convertArg` and signature classification;
  - the `FunctionObject` class, with its call path proved against the specification function `CallSpec`.
- `method_lists.dfy` (module `MethodLists`) holds `findSingleMethod` and `getMethodList`, both as loops over arrays.
- `opt_call.dfy` (module `OptCalls`) holds the `OptCall` and `OptArguments` classes. The frame keeps a trace of the `putArgument` calls it receives.

Modelling choices:

- Object identity (`arg != converted`, `thisObj == scope`, `scope != parentScope`) is equality of `Value`s.
- `Class.isInstance(null)` is false, as in Java.
- A Java exception becomes the `Err` case of a `Result`. This applies to the constructor's bind errors, `convertArg`'s `IllegalArgumentException`, `msg.no.overload` and `msg.incompat.call`.
- A host exception thrown through reflection becomes `WrappedHost(cause)`.
- The Java constructor of `FunctionObject` can throw, so it is modelled by the static method `Create`, which returns a `Result`. The Dafny constructor only stores the fields it computed.
- `typeTags` is `null` in the source when there is no fixed-arity tag to store. The model uses an empty array there, which `call` never indexes.

Points of the code worth knowing:

- The constructor does not reject an unsupported return type. It records `returnTypeTag == JAVA_UNSUPPORTED_TYPE`, and `call` wraps such results with the wrap factory (`FunctionObject.java:175-182`, `491-492`).
- An in-range read of the `arguments` view returns `args[index]` from the array captured at construction. It never calls the frame's `getArgument` (`OptCall.java:64`); `OptArguments.GetIndex` states this. An in-range write reaches the view's reads only if the frame's `putArgument` writes into that same array (see "## Left out").
- Thunk eligibility at `FunctionObject.java:548` requires a method, not a constructor, that is not declared varargs in Java. It must also be either an instance method or the varargs-method form. `ThunkEligibleBindings` states this rule.
- An out-of-range `put` has no `else` (`OptCall.java:69-72`). It stores the value in the ordinary storage and then also calls `putArgument` with the out-of-range index. `OptArguments.Put` states both effects.

Other points:

- A static method with the varargs-constructor signature binds as `VARARGS_CTOR`. It is then dispatched through `invoke`, not `newInstance`, and its result is not post-processed (`VarargsDispatch`, `ResultPostProcessing`).
- The view's `constructor` field comes from `getTopScopeValue(this, "Object")`. That call runs before the view's own parent scope and prototype are set (`OptCall.java:37-40`). Its answer comes from the external object model, so the `OptCall` and `OptArguments` constructors take it as the parameter `topObject`.

## Model

| member | source | states |
|---|---|---|
| FunctionObjects.TypeTag | src/org/mozilla/javascript/FunctionObject.java:199-218 | the tag is one of 0-6. It is the Scriptable tag exactly for Scriptable types, and it is unsupported for void, arrays and the primitives other than int, boolean and double |
| FunctionObjects.TypeTagFamilies | src/org/mozilla/javascript/FunctionObject.java:199-218 | each tag belongs to exactly one family of host types: String; Integer/int; Boolean/boolean; Double/double; any Scriptable type; Object. Every other type (long, float, arrays, other classes, void) is unsupported |
| FunctionObjects.ConvertArg | src/org/mozilla/javascript/FunctionObject.java:220-248 | succeeds exactly for tags 1-6; otherwise it fails with IllegalArgumentException. An argument that already has the representation tags 1-4 ask for is returned as is, and so is any argument under tag 6. Tags 1-4 always yield that representation. A value without it goes through toString, toInt32, toBoolean or toNumber respectively, and tag 5 always goes through toObjectOrNull |
| FunctionObjects.ConvertArgIdempotent | src/org/mozilla/javascript/FunctionObject.java:220-248 | converting an already converted value again gives the same result, for every supported tag except Scriptable |
| FunctionObjects.ConvertArgTo | src/org/mozilla/javascript/FunctionObject.java:387-396 | fails with msg.cant.convert exactly when the desired class has no tag; otherwise agrees with convertArg on that class's tag |
| FunctionObjects.ParamTagsOutcome | src/org/mozilla/javascript/FunctionObject.java:160-172 | tagging the parameters succeeds exactly when every parameter type has a supported tag; on failure it names an unsupported parameter |
| FunctionObjects.ParamTagsFirstUnsupported | src/org/mozilla/javascript/FunctionObject.java:164-169 | the parameter reported is the first unsupported one |
| FunctionObjects.VarargsForms | src/org/mozilla/javascript/FunctionObject.java:135-159 | the varargs-constructor and varargs-method forms are accepted for exactly their static signatures (Context, Object[], Function, boolean) and (Context, Scriptable, Object[], Function) |
| FunctionObjects.VarargsErrors | src/org/mozilla/javascript/FunctionObject.java:135-159 | in the four-parameter branch with an array in slot 1 or 2, any other signature raises msg.varargs.ctor (array in slot 1) or msg.varargs.fun (array only in slot 2) |
| FunctionObjects.FixedArityTags | src/org/mozilla/javascript/FunctionObject.java:160-172 | a fixed-arity binding has exactly one tag per parameter, each the parameter type's tag and none unsupported |
| FunctionObjects.UnsupportedParameterRejected | src/org/mozilla/javascript/FunctionObject.java:164-169 | outside the varargs branch, any unsupported parameter type makes binding fail with msg.bad.parms, naming the member and an unsupported parameter |
| FunctionObjects.CtorNeedsScriptableClass | src/org/mozilla/javascript/FunctionObject.java:183-189 | a constructor whose parameters pass binds exactly when its declaring class is Scriptable; otherwise msg.bad.ctor.return names that class |
| FunctionObjects.Classify | src/org/mozilla/javascript/FunctionObject.java:135-189 | a member binds exactly when its parameters pass and, for a constructor, its declaring class is Scriptable. Parameter errors come first; a constructor that passes them but is not Scriptable gets msg.bad.ctor.return |
| FunctionObjects.FunctionObject.Create | src/org/mozilla/javascript/FunctionObject.java:121-192 | binding succeeds exactly when classification does, and fails with classification's error. On success the new object's fields (static flag, parmsLength, type tags, void flag, return tag) are the ones classification derives from the member |
| FunctionObjects.FunctionObject.GetArity | src/org/mozilla/javascript/FunctionObject.java:256-258 | never negative: parmsLength when it is a count, and 1 for the negative varargs codes |
| FunctionObjects.ArityIsDeclaredCount | src/org/mozilla/javascript/FunctionObject.java:256-258 | getArity is the declared parameter count for a fixed-arity binding and 1 for either varargs form |
| FunctionObjects.FunctionObject.GetLength | src/org/mozilla/javascript/FunctionObject.java:264-266 | getLength answers what getArity answers |
| FunctionObjects.FunctionObject.GetFunctionName | src/org/mozilla/javascript/FunctionObject.java:269-272 | the exposed name, or "" when there is none |
| FunctionObjects.FunctionObject.IsVarArgsMethod | src/org/mozilla/javascript/FunctionObject.java:729-731 | a varargs-method binding has arity 1 and is not also a varargs-constructor binding |
| FunctionObjects.FunctionObject.IsVarArgsConstructor | src/org/mozilla/javascript/FunctionObject.java:733-735 | a varargs-constructor binding has arity 1 |
| FunctionObjects.VarargsQueries | src/org/mozilla/javascript/FunctionObject.java:729-735 | isVarArgsMethod / isVarArgsConstructor hold exactly for a member classified as that form, and either form is static |
| FunctionObjects.FunctionObject.SelectReceiver | src/org/mozilla/javascript/FunctionObject.java:429-450 | a static member or an instance receiver keeps thisObj. A receiver is found for a static member, for an instance of the declaring class, or for the parent scope when thisObj is the scope, the scope is not the parent scope and the parent scope is an instance. Otherwise msg.incompat.call carries the function name, and the two directions are proved |
| FunctionObjects.FunctionObject.CoerceInPlaceOrCopy | src/org/mozilla/javascript/FunctionObject.java:453-466 | every argument is coerced by its tag. The caller's array is returned (and never written) exactly when no coercion changed a value; otherwise the result is a fresh copy |
| FunctionObjects.FunctionObject.CoercePadded | src/org/mozilla/javascript/FunctionObject.java:469-476 | a fresh array of parmsLength coerced values, with Undefined coerced in place of missing arguments |
| FunctionObjects.FunctionObject.AssembleArgs | src/org/mozilla/javascript/FunctionObject.java:452-477 | the Java argument list is the specification Assembled (pad with Undefined, drop the excess, coerce); the caller's array is reused exactly when nothing changed |
| FunctionObjects.FunctionObject.Call | src/org/mozilla/javascript/FunctionObject.java:408-501 | call returns or raises exactly what the specification CallSpec gives: receiver selection, argument assembly, dispatch, host exceptions wrapped, result post-processing |
| FunctionObjects.FixedArityArguments | src/org/mozilla/javascript/FunctionObject.java:452-477 | a fixed-arity call hands the member exactly parmsLength arguments: coerced caller arguments, then coerced Undefined past their end |
| FunctionObjects.ExcessArgumentsIgnored | src/org/mozilla/javascript/FunctionObject.java:452-477 | arguments beyond the declared count do not change the outcome of a fixed-arity call |
| FunctionObjects.MissingArgumentsAreUndefined | src/org/mozilla/javascript/FunctionObject.java:469-476 | calling with too few arguments is the same as passing Undefined for the missing ones |
| FunctionObjects.VarargsDispatch | src/org/mozilla/javascript/FunctionObject.java:414-426 | the varargs-constructor form passes the raw arguments with inNewExpr exactly when thisObj is null, through newInstance exactly for a constructor. The varargs-method form passes thisObj and the raw arguments |
| FunctionObjects.ResultPostProcessing | src/org/mozilla/javascript/FunctionObject.java:479-498 | method results: void becomes Undefined, an unsupported return tag goes through the wrap factory, all else passes unchanged. Fixed-arity constructor and varargs-constructor results are never changed |
| FunctionObjects.FunctionObject.CreateObject | src/org/mozilla/javascript/FunctionObject.java:510-524 | null (use call) exactly for a constructor or the varargs-constructor form. Otherwise a Scriptable default instance of the declaring class always gives Created, with the class prototype and the parent scope. A thrown exception or a non-Scriptable instance fails, wrapped |
| FunctionObjects.ThunkEligible | src/org/mozilla/javascript/FunctionObject.java:548 | only a method not declared varargs in Java qualifies. Every such instance method does, and no static method does unless it has the varargs-method form |
| FunctionObjects.ThunkEligibleBindings | src/org/mozilla/javascript/FunctionObject.java:548 | a binding gets a generated thunk exactly when it is a method not declared varargs in Java and is either a fixed-arity instance method or the varargs-method form |
| MethodLists.MatchIndices | src/org/mozilla/javascript/FunctionObject.java:289-291 | the positions of the non-null entries with the name: all of them, in ascending order |
| MethodLists.FindSingleMethod | src/org/mozilla/javascript/FunctionObject.java:286-301 | the loop returns what the specification FindSingle gives: no match, the one match, or msg.no.overload at the second match |
| MethodLists.SecondMatchDecides | src/org/mozilla/javascript/FunctionObject.java:291-296 | when one entry with the name has been seen, the next entry with the name ends the search with msg.no.overload naming that entry's declaring class |
| MethodLists.FindSingleNone | src/org/mozilla/javascript/FunctionObject.java:286-301 | the search answers null exactly when no entry has the name |
| MethodLists.FindSingleUnique | src/org/mozilla/javascript/FunctionObject.java:286-301 | a method found is an entry with the name, and no other entry has that name |
| MethodLists.TwoMatchesFail | src/org/mozilla/javascript/FunctionObject.java:291-296 | any two entries with the name make the search fail |
| MethodLists.FindSingleAmbiguous | src/org/mozilla/javascript/FunctionObject.java:291-296 | the search fails exactly when two distinct entries have the name |
| MethodLists.FindSingleErrorNamesMatch | src/org/mozilla/javascript/FunctionObject.java:292-295 | msg.no.overload carries the name and the declaring class of an entry with that name |
| MethodLists.NullOutRejected | src/org/mozilla/javascript/FunctionObject.java:325-335 | every rejected entry is nulled in place and every kept entry is left alone. The kept entries are those declared by the class after a security exception, else the public ones. The count is the number kept |
| MethodLists.CompactSurvivors | src/org/mozilla/javascript/FunctionObject.java:336-342 | a fresh array of exactly the kept methods, in their original order |
| MethodLists.GetMethodList | src/org/mozilla/javascript/FunctionObject.java:325-342 | the input array ends with exactly the rejected entries nulled; the result is a fresh array of the kept methods in order |
| MethodLists.SurvivorsAppend | src/org/mozilla/javascript/FunctionObject.java:338-341 | filtering distributes over concatenation, so the kept methods keep their relative order |
| MethodLists.SurvivorsMembers | src/org/mozilla/javascript/FunctionObject.java:325-341 | a method is in the result exactly when it is an entry of the input that the filter keeps |
| OptCalls.OptCall.constructor | src/org/mozilla/javascript/optimizer/OptCall.java:11-14 | the frame's parent scope is set first. Then a fresh view is built on the same arguments, with length args.length, that parent scope, that scope's Object prototype, empty storage and no putArgument calls yet |
| OptCalls.OptCall.PutArgument | src/org/mozilla/javascript/optimizer/OptCall.java:17 | each putArgument call reaches the frame, in order |
| OptCalls.OptArguments.constructor | src/org/mozilla/javascript/optimizer/OptCall.java:32-41 | callee, args, length = args.length and its boxed Integer are captured. The constructor value is the one looked up before the parent is set. The parent scope is the frame's, and the prototype is that scope's Object prototype |
| OptCalls.OptArguments.GetNamed | src/org/mozilla/javascript/optimizer/OptCall.java:47-57 | length, constructor and callee come from the captured fields whatever the storage holds; any other name is looked up in the storage |
| OptCalls.OptArguments.PutNamed | src/org/mozilla/javascript/optimizer/OptCall.java:48-56 | storing a property named length, constructor or callee does not change what get answers for them; any other name reads back |
| OptCalls.OptArguments.GetIndex | src/org/mozilla/javascript/optimizer/OptCall.java:59-65 | an index in [0, length) reads the array captured at construction; any other index reads the storage |
| OptCalls.OptArguments.Put | src/org/mozilla/javascript/optimizer/OptCall.java:67-73 | every write is reported to putArgument. An in-range write leaves the storage, and the value read back, unchanged. An out-of-range write also goes to the storage and reads back. Afterwards has(index) holds |
| OptCalls.OptArguments.GetIds | src/org/mozilla/javascript/optimizer/OptCall.java:80-87 | a fresh array holding exactly Int(0), ..., Int(length - 1) in order, and has is true for each of them |
| OptCalls.IdRangeElements | src/org/mozilla/javascript/optimizer/OptCall.java:82-85 | the ids of a view of length n are n values, the i-th being Int(i) |
| OptCalls.LengthIsCaptured | src/org/mozilla/javascript/optimizer/OptCall.java:35-36 | get("length") is the captured array's length, and has holds for every index below it |
| OptCalls.OptArguments.Has | src/org/mozilla/javascript/optimizer/OptCall.java:75-78 | true for every index in [0, length); outside it, true exactly when the storage holds the index |
| OptCalls.OutOfRangeIsStorage | src/org/mozilla/javascript/optimizer/OptCall.java:75-78 | outside [0, length), has agrees with whether get finds a value in the storage |

## Left out

- Bytecode generation for thunks (`FunctionObject.java:549-721`), including class loading and the naming counter, is JVM plumbing. Only the eligibility test at line 548 is modelled. Nothing claims the generated path is equivalent to `call`: it fills missing arguments without `convertArg`, using `Undefined` for `Object` parameters, zero for primitives and null for other references (`FunctionObject.java:648-663`).
- The `ScriptRuntime` conversions (`toString`, `toInt32`, `toBoolean`, `toNumber`, `toObjectOrNull`) and `WrapFactory.wrap` are uninterpreted fields of `Runtime`. Any exception they throw is not modelled, and `toNumber` returns the IEEE 754 bit pattern without floating-point semantics.
- Reflection (`MemberBox.invoke`/`newInstance`, `Class.newInstance`) is the uninterpreted `invoke`/`newDefault`. Side effects of host code are not modelled, including a varargs member mutating the raw argument array it is handed.
- `FunctionObject.CreateObject`: a `newInstance` result that is not a Scriptable object is modelled as the wrapped `ClassCastException`, including a null result. In the source a null result would reach `setPrototype` instead.
- Fetching the method array (`getDeclaredMethods`/`getMethods`) and the handling of `SecurityException` that sets the static `sawSecurityException` flag are external. `GetMethodList` takes the fetched array and the flag as inputs.
- `readObject` (Java serialization), `addAsConstructor`, `initAsConstructor`, `setFunctionProtoAndParent`, `getMethodOrConstructor` and `getClassName` depend on the external object model or on I/O, so they are not modelled.
- `ScriptableObject` internals behind `super.get/put/has` are a plain map from keys to values. `start` is taken to be the view itself. Sealed and read-only properties and prototype lookup are not modelled.
- OptArguments.Put: the model's frame only records each `putArgument` call. In the source `putArgument` is abstract (`OptCall.java:17`), and the view holds the caller's `args` array by reference (`OptCall.java:34`). A generated frame that writes into that array would change what a later in-range `get` returns. The clause that an in-range write leaves the value read back unchanged holds only for frames that do not write into `args`.
- `OptCall.getArgument` is abstract, and the view never calls it, so it has no model. Generated subclasses implement both frame accessors. The frame records `putArgument` calls instead of updating live parameter slots.
- `getTopScopeValue` and `getObjectPrototype` belong to the external object model. They are parameters of the `OptCall` and `OptArguments` constructors.
- `ScriptRuntime.emptyArgs` is a shared empty array. The model uses a fresh empty array, and identity with the shared instance is not modelled.
- Thread safety and the static mutable state (`sawSecurityException`, the thunk counter) are not modelled.
- `OptCall.arguments` has type `Object` in the source and could be reassigned by generated code. The model types it as the view.
