/**
 * The vocabulary shared by the host-function bridge: guest values as the
 * engine passes them around, the host (Java) types a reflected member
 * declares, the reflected members themselves, the errors the bridge raises,
 * and the external services (conversions, wrapping, reflection) it calls.
 */
module HostModel {

  datatype Option<+T> = None | Some(value: T)

  datatype Result<+T, +E> = Ok(value: T) | Err(error: E)

  /** A Java `int`. */
  newtype int32 = x: int | -0x8000_0000 <= x < 0x8000_0000

  /** The largest length a Java array can have. */
  const MaxArrayLength: int := 0x7fff_ffff

  /**
   * A guest value. Objects are compared by identity, which the model
   * represents by an id: two values are the same reference exactly when
   * they are equal.
   */
  datatype Value =
    | Null                // Java null
    | Undefined           // the Undefined.instance sentinel
    | Str(s: string)      // a java.lang.String
    | Int(i: int32)       // a java.lang.Integer
    | Bool(b: bool)       // a java.lang.Boolean
    | Dbl(bits: bv64)     // a java.lang.Double, by its IEEE 754 bit pattern
    | Obj(id: nat)        // an object implementing Scriptable
    | Host(id: nat)       // any other Java object (a Long, a host object, ...)

  datatype PrimKind =
    | BooleanPrim | BytePrim | CharPrim | ShortPrim
    | IntPrim | LongPrim | FloatPrim | DoublePrim

  /**
   * A host type as reflection reports it. For a class or interface,
   * `scriptable` records whether Scriptable.class.isAssignableFrom(it).
   */
  datatype HostType =
    | Void
    | Prim(kind: PrimKind)
    | ArrayOf(component: HostType)
    | RefType(name: string, scriptable: bool)

  const StringClass: HostType := RefType("java.lang.String", false)
  const IntegerClass: HostType := RefType("java.lang.Integer", false)
  const BooleanClass: HostType := RefType("java.lang.Boolean", false)
  const DoubleClass: HostType := RefType("java.lang.Double", false)
  const ObjectClass: HostType := RefType("java.lang.Object", false)
  const ContextClass: HostType := RefType("org.mozilla.javascript.Context", false)
  const ScriptableClass: HostType := RefType("org.mozilla.javascript.Scriptable", true)
  const FunctionClass: HostType := RefType("org.mozilla.javascript.Function", true)

  /** Scriptable.class.isAssignableFrom(t). */
  predicate IsScriptable(t: HostType) {
    t.RefType? && t.scriptable
  }

  datatype MemberKind = MethodMember | CtorMember

  /**
   * A reflected java.lang.reflect.Method or Constructor: its name, the class
   * declaring it, its parameter types, its return type (Void for a
   * constructor) and its modifiers.
   */
  datatype Member = Member(
    kind: MemberKind,
    name: string,
    declaringClass: HostType,
    params: seq<HostType>,
    returnType: HostType,
    isStatic: bool,
    isPublic: bool,
    isVarArgs: bool)

  /** The errors the bridge raises, each named after its message key. */
  datatype Error =
    | BadVarargsCtor(methodName: string)                 // msg.varargs.ctor
    | BadVarargsFun(methodName: string)                  // msg.varargs.fun
    | BadParms(param: HostType, methodName: string)      // msg.bad.parms
    | BadCtorReturn(ctorType: HostType)                  // msg.bad.ctor.return
    | NoOverload(name: string, declaringClass: HostType) // msg.no.overload
    | CantConvert(desired: HostType)                     // msg.cant.convert
    | IllegalArgument                                    // IllegalArgumentException
    | IncompatibleCall(functionName: Option<string>)     // msg.incompat.call
    | WrappedHost(cause: Value)                          // a host exception, wrapped
    | WrappedClassCast                                   // a failed (Scriptable) cast, wrapped

  /** How a reflective call into host code ended. */
  datatype HostOutcome = Returned(value: Value) | Threw(cause: Value)

  /**
   * One reflective dispatch, as FunctionObject.call issues it: the receiver
   * (for member.invoke) and the assembled Java argument list.
   */
  datatype Invocation =
    | FixedMethodCall(receiver: Value, args: seq<Value>)      // member.invoke(thisObj, invokeArgs)
    | FixedCtorCall(args: seq<Value>)                         // member.newInstance(invokeArgs)
    | VarargsMethodCall(thisObj: Value, rawArgs: seq<Value>)  // member.invoke(null, {cx, thisObj, args, this})
    | VarargsCtorCall(rawArgs: seq<Value>, inNewExpr: bool, viaNewInstance: bool)
                                                              // {cx, args, this, inNewExpr}

  /**
   * The services of the surrounding runtime that the bridge calls but that
   * are not part of it, as uninterpreted functions.
   */
  datatype Runtime = Runtime(
    toStr: Value -> string,                 // ScriptRuntime.toString
    toInt32: Value -> int32,                // ScriptRuntime.toInt32
    toBoolean: Value -> bool,               // ScriptRuntime.toBoolean
    toNumber: Value -> bv64,                // ScriptRuntime.toNumber
    toObjectOrNull: (Value, Value) -> Value, // ScriptRuntime.toObjectOrNull(cx, arg, scope)
    wrap: (Value, Value) -> Value,          // WrapFactory.wrap(cx, scope, result, null)
    isInstance: (HostType, Value) -> bool,  // Class.isInstance on a non-null value
    invoke: Invocation -> HostOutcome,      // MemberBox.invoke / MemberBox.newInstance
    newDefault: HostType -> HostOutcome)    // Class.newInstance

  /** Class.isInstance: never true of null. */
  predicate IsInstance(rt: Runtime, c: HostType, v: Value) {
    v != Null && rt.isInstance(c, v)
  }
}
