/**
 * A host method or constructor exposed to scripts as a callable value
 * (FunctionObject): how its signature is classified at bind time, how each
 * argument is coerced to the declared host type, and how a call selects its
 * receiver, assembles the Java argument list, dispatches and post-processes
 * the result.
 */
module FunctionObjects {
  import opened HostModel

  // Type tags (JAVA_*_TYPE).
  const UnsupportedTag: int := 0
  const StringTag: int := 1
  const IntTag: int := 2
  const BooleanTag: int := 3
  const DoubleTag: int := 4
  const ScriptableTag: int := 5
  const ObjectTag: int := 6

  // The values parmsLength takes for the two varargs forms.
  const VarargsMethodCode: int := -1
  const VarargsCtorCode: int := -2

  predicate IsSupportedTag(tag: int) {
    StringTag <= tag <= ObjectTag
  }

  /** getTypeTag: the ordered list of checks mapping a host type to its tag. */
  function TypeTag(t: HostType): (tag: int)
    ensures UnsupportedTag <= tag <= ObjectTag
    ensures tag == ScriptableTag <==> IsScriptable(t)
    ensures t == Void || t.ArrayOf? ==> tag == UnsupportedTag
    ensures t.Prim? && t.kind !in {IntPrim, BooleanPrim, DoublePrim} ==> tag == UnsupportedTag
  {
    if t == StringClass then StringTag
    else if t == IntegerClass || t == Prim(IntPrim) then IntTag
    else if t == BooleanClass || t == Prim(BooleanPrim) then BooleanTag
    else if t == DoubleClass || t == Prim(DoublePrim) then DoubleTag
    else if IsScriptable(t) then ScriptableTag
    else if t == ObjectClass then ObjectTag
    else UnsupportedTag
  }

  /**
   * Each tag is given to exactly one family of types; in particular every
   * Scriptable type gets ScriptableTag, and every type outside the six
   * families (long, float, arrays, other classes, void) is unsupported.
   */
  lemma TypeTagFamilies(t: HostType)
    ensures TypeTag(t) == StringTag <==> t == StringClass
    ensures TypeTag(t) == IntTag <==> t == IntegerClass || t == Prim(IntPrim)
    ensures TypeTag(t) == BooleanTag <==> t == BooleanClass || t == Prim(BooleanPrim)
    ensures TypeTag(t) == DoubleTag <==> t == DoubleClass || t == Prim(DoublePrim)
    ensures TypeTag(t) == ScriptableTag <==> IsScriptable(t)
    ensures TypeTag(t) == ObjectTag <==> t == ObjectClass
    ensures TypeTag(t) == UnsupportedTag <==>
      !IsScriptable(t) &&
      t !in {StringClass, IntegerClass, Prim(IntPrim), BooleanClass, Prim(BooleanPrim),
             DoubleClass, Prim(DoublePrim), ObjectClass}
  {
  }

  /** The argument already has the exact host representation tag 1..4 asks for. */
  predicate HasExactRepresentation(v: Value, tag: int) {
    || (tag == StringTag && v.Str?)
    || (tag == IntTag && v.Int?)
    || (tag == BooleanTag && v.Bool?)
    || (tag == DoubleTag && v.Dbl?)
  }

  /** convertArg(cx, scope, arg, typeTag). */
  function ConvertArg(rt: Runtime, scope: Value, arg: Value, tag: int): (r: Result<Value, Error>)
    ensures r.Ok? <==> IsSupportedTag(tag)
    ensures r.Err? ==> r.error == IllegalArgument
    ensures tag == ObjectTag || HasExactRepresentation(arg, tag) ==> r == Ok(arg)
    ensures StringTag <= tag <= DoubleTag ==> r.Ok? && HasExactRepresentation(r.value, tag)
    ensures tag == StringTag && !arg.Str? ==> r == Ok(Str(rt.toStr(arg)))
    ensures tag == IntTag && !arg.Int? ==> r == Ok(Int(rt.toInt32(arg)))
    ensures tag == BooleanTag && !arg.Bool? ==> r == Ok(Bool(rt.toBoolean(arg)))
    ensures tag == DoubleTag && !arg.Dbl? ==> r == Ok(Dbl(rt.toNumber(arg)))
    ensures tag == ScriptableTag ==> r == Ok(rt.toObjectOrNull(arg, scope))
  {
    if tag == StringTag then
      if arg.Str? then Ok(arg) else Ok(Str(rt.toStr(arg)))
    else if tag == IntTag then
      if arg.Int? then Ok(arg) else Ok(Int(rt.toInt32(arg)))
    else if tag == BooleanTag then
      if arg.Bool? then Ok(arg) else Ok(Bool(rt.toBoolean(arg)))
    else if tag == DoubleTag then
      if arg.Dbl? then Ok(arg) else Ok(Dbl(rt.toNumber(arg)))
    else if tag == ScriptableTag then
      Ok(rt.toObjectOrNull(arg, scope))
    else if tag == ObjectTag then
      Ok(arg)
    else
      Err(IllegalArgument)
  }

  /** Converting an already converted value changes nothing (except for Scriptable, left to the runtime). */
  lemma ConvertArgIdempotent(rt: Runtime, scope: Value, arg: Value, tag: int)
    requires IsSupportedTag(tag) && tag != ScriptableTag
    ensures ConvertArg(rt, scope, ConvertArg(rt, scope, arg, tag).value, tag) == ConvertArg(rt, scope, arg, tag)
  {
  }

  /** The deprecated convertArg(cx, scope, arg, Class desired). */
  function ConvertArgTo(rt: Runtime, scope: Value, arg: Value, desired: HostType): (r: Result<Value, Error>)
    ensures r.Err? <==> TypeTag(desired) == UnsupportedTag
    ensures r.Err? ==> r.error == CantConvert(desired)
    ensures r.Ok? ==> r == ConvertArg(rt, scope, arg, TypeTag(desired))
  {
    var tag := TypeTag(desired);
    if tag == UnsupportedTag then Err(CantConvert(desired)) else ConvertArg(rt, scope, arg, tag)
  }

  // ---------------------------------------------------------------------
  // Signature classification
  // ---------------------------------------------------------------------

  /** The tag of every parameter, or the first parameter type without one. */
  function ParamTags(types: seq<HostType>): Result<seq<int>, HostType>
  {
    if types == [] then Ok([])
    else if TypeTag(types[0]) == UnsupportedTag then Err(types[0])
    else match ParamTags(types[1..])
      case Ok(tags) => Ok([TypeTag(types[0])] + tags)
      case Err(t) => Err(t)
  }

  lemma {:induction false} ParamTagsAllSupported(types: seq<HostType>)
    requires forall i :: 0 <= i < |types| ==> TypeTag(types[i]) != UnsupportedTag
    ensures ParamTags(types).Ok?
    ensures |ParamTags(types).value| == |types|
    ensures forall i :: 0 <= i < |types| ==> ParamTags(types).value[i] == TypeTag(types[i])
  {
    if types != [] {
      ParamTagsAllSupported(types[1..]);
    }
  }

  lemma {:induction false} ParamTagsFirstUnsupported(types: seq<HostType>, i: int)
    requires 0 <= i < |types| && TypeTag(types[i]) == UnsupportedTag
    requires forall k :: 0 <= k < i ==> TypeTag(types[k]) != UnsupportedTag
    ensures ParamTags(types) == Err(types[i])
  {
    if i > 0 {
      ParamTagsFirstUnsupported(types[1..], i - 1);
    }
  }

  /** ParamTags fails exactly when some parameter is unsupported, and then names the first. */
  lemma {:induction false} ParamTagsOutcome(types: seq<HostType>)
    ensures ParamTags(types).Ok? <==> forall i :: 0 <= i < |types| ==> TypeTag(types[i]) != UnsupportedTag
    ensures ParamTags(types).Err? ==>
      exists i :: 0 <= i < |types| && types[i] == ParamTags(types).error && TypeTag(types[i]) == UnsupportedTag
  {
    if types != [] {
      ParamTagsOutcome(types[1..]);
      if ParamTags(types).Err? && TypeTag(types[0]) != UnsupportedTag {
        var i :| 0 <= i < |types[1..]| && types[1..][i] == ParamTags(types[1..]).error
                 && TypeTag(types[1..][i]) == UnsupportedTag;
        assert types[i + 1] == ParamTags(types).error;
      }
      if ParamTags(types).Ok? {
        ParamTagsAllSupported(types);
      } else if forall i :: 0 <= i < |types| ==> TypeTag(types[i]) != UnsupportedTag {
        ParamTagsAllSupported(types);
      }
    }
  }

  /** The calling convention a member is bound with. */
  datatype Shape = FixedArity(tags: seq<int>) | VarargsMethodShape | VarargsCtorShape

  /** A constructor takes no 'this', so it counts as static. */
  predicate EffectivelyStatic(m: Member) {
    m.kind == CtorMember || m.isStatic
  }

  /** (Context cx, Object[] args, Function ctorObj, boolean inNewExpr) */
  const VarargsCtorParams: seq<HostType> :=
    [ContextClass, ArrayOf(ObjectClass), FunctionClass, Prim(BooleanPrim)]

  /** (Context cx, Scriptable thisObj, Object[] args, Function funObj) */
  const VarargsMethodParams: seq<HostType> :=
    [ContextClass, ScriptableClass, ArrayOf(ObjectClass), FunctionClass]

  /** A 4-parameter member with an array in slot 1 or 2 must be one of the varargs forms. */
  predicate InVarargsBranch(params: seq<HostType>) {
    |params| == 4 && (params[1].ArrayOf? || params[2].ArrayOf?)
  }

  /** The parameter checks of the constructor, in the order the source makes them. */
  function ParamShape(m: Member): Result<Shape, Error>
  {
    var t := m.params;
    if InVarargsBranch(t) then
      if t[1].ArrayOf? then
        if !EffectivelyStatic(m) || t[0] != ContextClass || t[1].component != ObjectClass
           || t[2] != FunctionClass || t[3] != Prim(BooleanPrim)
        then Err(BadVarargsCtor(m.name))
        else Ok(VarargsCtorShape)
      else
        if !EffectivelyStatic(m) || t[0] != ContextClass || t[1] != ScriptableClass
           || t[2].component != ObjectClass || t[3] != FunctionClass
        then Err(BadVarargsFun(m.name))
        else Ok(VarargsMethodShape)
    else
      match ParamTags(t)
      case Ok(tags) => Ok(FixedArity(tags))
      case Err(p) => Err(BadParms(p, m.name))
  }

  /** Everything the constructor checks: the parameters, then a constructor's declaring class. */
  function Classify(m: Member): (r: Result<Shape, Error>)
    ensures r.Ok? <==> ParamShape(m).Ok? && (m.kind == CtorMember ==> IsScriptable(m.declaringClass))
    ensures r.Ok? ==> r == ParamShape(m)
    ensures ParamShape(m).Err? ==> r == ParamShape(m)
    ensures ParamShape(m).Ok? && r.Err? ==> r.error == BadCtorReturn(m.declaringClass)
  {
    match ParamShape(m)
    case Err(e) => Err(e)
    case Ok(s) =>
      if m.kind == CtorMember && !IsScriptable(m.declaringClass) then Err(BadCtorReturn(m.declaringClass))
      else Ok(s)
  }

  /** A constructor is accepted only if its declaring class is Scriptable. */
  lemma CtorNeedsScriptableClass(m: Member)
    requires m.kind == CtorMember && ParamShape(m).Ok?
    ensures Classify(m).Ok? <==> IsScriptable(m.declaringClass)
    ensures Classify(m).Err? ==> Classify(m).error == BadCtorReturn(m.declaringClass)
  {
  }

  /** The two varargs forms are accepted for exactly their two static signatures. */
  lemma VarargsForms(m: Member)
    ensures ParamShape(m) == Ok(VarargsCtorShape) <==> EffectivelyStatic(m) && m.params == VarargsCtorParams
    ensures ParamShape(m) == Ok(VarargsMethodShape) <==> EffectivelyStatic(m) && m.params == VarargsMethodParams
  {
    var t := m.params;
    if |t| == 4 && t[1] == ArrayOf(ObjectClass) {
      if t[0] == ContextClass && t[2] == FunctionClass && t[3] == Prim(BooleanPrim) {
        assert t == VarargsCtorParams;
      }
    }
    if |t| == 4 && !t[1].ArrayOf? && t[2] == ArrayOf(ObjectClass) {
      if t[0] == ContextClass && t[1] == ScriptableClass && t[3] == FunctionClass {
        assert t == VarargsMethodParams;
      }
    }
  }

  /**
   * In the varargs branch, anything but the expected form raises the varargs
   * error of the slot that holds the array; slot 1 takes priority.
   */
  lemma VarargsErrors(m: Member)
    requires InVarargsBranch(m.params)
    ensures m.params[1].ArrayOf? && !(EffectivelyStatic(m) && m.params == VarargsCtorParams) ==>
      Classify(m) == Err(BadVarargsCtor(m.name))
    ensures !m.params[1].ArrayOf? && !(EffectivelyStatic(m) && m.params == VarargsMethodParams) ==>
      Classify(m) == Err(BadVarargsFun(m.name))
  {
    VarargsForms(m);
  }

  /**
   * A fixed-arity member gets one supported tag per parameter, and its tags
   * are those of its parameter types.
   */
  lemma FixedArityTags(m: Member)
    requires Classify(m).Ok? && Classify(m).value.FixedArity?
    ensures !InVarargsBranch(m.params)
    ensures |Classify(m).value.tags| == |m.params|
    ensures forall i :: 0 <= i < |m.params| ==>
      Classify(m).value.tags[i] == TypeTag(m.params[i]) && IsSupportedTag(Classify(m).value.tags[i])
  {
    ParamTagsOutcome(m.params);
    ParamTagsAllSupported(m.params);
  }

  /** A member outside the varargs branch with an unsupported parameter is rejected with msg.bad.parms. */
  lemma UnsupportedParameterRejected(m: Member, i: int)
    requires !InVarargsBranch(m.params)
    requires 0 <= i < |m.params| && TypeTag(m.params[i]) == UnsupportedTag
    ensures Classify(m).Err? && Classify(m).error.BadParms?
    ensures Classify(m).error.methodName == m.name && TypeTag(Classify(m).error.param) == UnsupportedTag
  {
    ParamTagsOutcome(m.params);
  }

  /** The argument list a fixed-arity call hands to the member: padded with Undefined, excess dropped, coerced. */
  function Assembled(rt: Runtime, scope: Value, tags: seq<int>, args: seq<Value>): seq<Value>
    requires forall i :: 0 <= i < |tags| ==> IsSupportedTag(tags[i])
  {
    seq(|tags|, i requires 0 <= i < |tags| =>
      ConvertArg(rt, scope, if i < |args| then args[i] else Undefined, tags[i]).value)
  }

  /** What createObject answers. */
  datatype CreateOutcome =
    | UseCall                                           // null: the call path creates objects
    | Created(obj: Value, prototype: Value, parent: Value)
    | CreateFailed(error: Error)

  /** The bytecode thunk eligibility test of createFunctionObject. */
  predicate ThunkEligible(m: Member, parmsLength: int): (b: bool)
    ensures b ==> m.kind == MethodMember && !m.isVarArgs
    ensures m.kind == MethodMember && !m.isVarArgs && !m.isStatic ==> b
    ensures m.isStatic && parmsLength != VarargsMethodCode ==> !b
  {
    m.kind == MethodMember && !m.isVarArgs && (!m.isStatic || parmsLength == VarargsMethodCode)
  }

  class FunctionObject {
    const member: Member
    const functionName: Option<string>
    const isStatic: bool
    const parmsLength: int
    const typeTags: array<int>
    const hasVoidReturn: bool
    const returnTypeTag: int
    var parentScope: Value

    /** The fields agree with what the constructor derives from the member. */
    ghost predicate Valid()
      reads typeTags
    {
      && isStatic == EffectivelyStatic(member)
      && hasVoidReturn == (member.kind == MethodMember && member.returnType == Void)
      && returnTypeTag == (if member.kind == MethodMember && member.returnType != Void
                           then TypeTag(member.returnType) else UnsupportedTag)
      && (forall i :: 0 <= i < typeTags.Length ==> IsSupportedTag(typeTags[i]))
      && Classify(member).Ok?
      && match Classify(member).value
         case VarargsMethodShape => parmsLength == VarargsMethodCode
         case VarargsCtorShape => parmsLength == VarargsCtorCode
         case FixedArity(tags) => parmsLength == |tags| && typeTags[..] == tags
    }

    constructor (member: Member, functionName: Option<string>, isStatic: bool, parmsLength: int,
                 typeTags: array<int>, hasVoidReturn: bool, returnTypeTag: int, scope: Value)
      ensures this.member == member && this.functionName == functionName
      ensures this.isStatic == isStatic && this.parmsLength == parmsLength && this.typeTags == typeTags
      ensures this.hasVoidReturn == hasVoidReturn && this.returnTypeTag == returnTypeTag
      ensures parentScope == scope
    {
      this.member := member;
      this.functionName := functionName;
      this.isStatic := isStatic;
      this.parmsLength := parmsLength;
      this.typeTags := typeTags;
      this.hasVoidReturn := hasVoidReturn;
      this.returnTypeTag := returnTypeTag;
      this.parentScope := scope;
    }

    /** new FunctionObject(name, methodOrConstructor, scope): classify the member or fail. */
    static method Create(name: Option<string>, m: Member, scope: Value) returns (r: Result<FunctionObject, Error>)
      ensures r.Ok? <==> Classify(m).Ok?
      ensures r.Err? ==> Classify(m) == Err(r.error)
      ensures r.Ok? ==> fresh(r.value) && fresh(r.value.typeTags) && r.value.Valid()
      ensures r.Ok? ==> r.value.member == m && r.value.functionName == name && r.value.parentScope == scope
    {
      var isStatic := m.kind == CtorMember || m.isStatic;
      var types := m.params;
      var arity := |types|;
      var parmsLength: int;
      var typeTags := new int[0];
      if arity == 4 && (types[1].ArrayOf? || types[2].ArrayOf?) {
        if types[1].ArrayOf? {
          if !isStatic || types[0] != ContextClass || types[1].component != ObjectClass
             || types[2] != FunctionClass || types[3] != Prim(BooleanPrim)
          {
            return Err(BadVarargsCtor(m.name));
          }
          parmsLength := VarargsCtorCode;
        } else {
          if !isStatic || types[0] != ContextClass || types[1] != ScriptableClass
             || types[2].component != ObjectClass || types[3] != FunctionClass
          {
            return Err(BadVarargsFun(m.name));
          }
          parmsLength := VarargsMethodCode;
        }
      } else {
        parmsLength := arity;
        if arity > 0 {
          typeTags := new int[arity];
          var i := 0;
          while i != arity
            invariant 0 <= i <= arity
            invariant forall k :: 0 <= k < i ==> typeTags[k] == TypeTag(types[k]) && typeTags[k] != UnsupportedTag
          {
            var tag := TypeTag(types[i]);
            if tag == UnsupportedTag {
              ParamTagsFirstUnsupported(types, i);
              return Err(BadParms(types[i], m.name));
            }
            typeTags[i] := tag;
            i := i + 1;
          }
        }
        ParamTagsAllSupported(types);
        assert typeTags[..] == ParamTags(types).value;
      }

      var hasVoidReturn := false;
      var returnTypeTag := UnsupportedTag;
      if m.kind == MethodMember {
        if m.returnType == Void {
          hasVoidReturn := true;
        } else {
          returnTypeTag := TypeTag(m.returnType);
        }
      } else if !IsScriptable(m.declaringClass) {
        return Err(BadCtorReturn(m.declaringClass));
      }
      var fo := new FunctionObject(m, name, isStatic, parmsLength, typeTags, hasVoidReturn, returnTypeTag, scope);
      return Ok(fo);
    }

    /** getArity: the declared parameter count, or 1 for a varargs form. */
    function GetArity(): (n: int)
      ensures n >= 0
      ensures parmsLength >= 0 ==> n == parmsLength
      ensures parmsLength < 0 ==> n == 1
    {
      if parmsLength < 0 then 1 else parmsLength
    }

    /** getLength answers what getArity answers. */
    function GetLength(): (n: int)
      ensures n == GetArity()
    {
      GetArity()
    }

    /** getFunctionName: the exposed name, "" when there is none. */
    function GetFunctionName(): (s: string)
      ensures functionName.Some? ==> s == functionName.value
      ensures functionName.None? ==> s == ""
    {
      if functionName.None? then "" else functionName.value
    }

    predicate IsVarArgsMethod(): (b: bool)
      ensures b ==> GetArity() == 1 && !IsVarArgsConstructor()
    {
      parmsLength == VarargsMethodCode
    }

    predicate IsVarArgsConstructor(): (b: bool)
      ensures b ==> GetArity() == 1
    {
      parmsLength == VarargsCtorCode
    }

    /**
     * The receiver of a fixed-arity call: the caller's 'this' if it fits,
     * else the function's parent scope when the call came with the lexical
     * scope as 'this' (implicit this), else msg.incompat.call.
     */
    function SelectReceiver(rt: Runtime, scope: Value, thisObj: Value): (r: Result<Value, Error>)
      reads this
      ensures r.Ok? ==> isStatic || IsInstance(rt, member.declaringClass, r.value)
      ensures isStatic || IsInstance(rt, member.declaringClass, thisObj) ==> r == Ok(thisObj)
      ensures r.Ok? && r.value != thisObj ==>
        !isStatic && thisObj == scope && scope != parentScope && r.value == parentScope
      ensures r.Err? <==>
        && !isStatic
        && !IsInstance(rt, member.declaringClass, thisObj)
        && !(thisObj == scope && scope != parentScope && IsInstance(rt, member.declaringClass, parentScope))
      ensures r.Err? ==> r.error == IncompatibleCall(functionName)
    {
      if isStatic || IsInstance(rt, member.declaringClass, thisObj) then Ok(thisObj)
      else if thisObj == scope && scope != parentScope && IsInstance(rt, member.declaringClass, parentScope)
      then Ok(parentScope)
      else Err(IncompatibleCall(functionName))
    }

    /** The dispatch a call makes, before it is carried out. */
    function Prepare(rt: Runtime, scope: Value, thisObj: Value, args: seq<Value>): Result<Invocation, Error>
      reads this, typeTags
      requires Valid()
    {
      if parmsLength == VarargsMethodCode then Ok(VarargsMethodCall(thisObj, args))
      else if parmsLength == VarargsCtorCode then
        Ok(VarargsCtorCall(args, thisObj == Null, member.kind == CtorMember))
      else
        match SelectReceiver(rt, scope, thisObj)
        case Err(e) => Err(e)
        case Ok(receiver) =>
          var invokeArgs := Assembled(rt, scope, typeTags[..], args);
          if member.kind == MethodMember then Ok(FixedMethodCall(receiver, invokeArgs))
          else Ok(FixedCtorCall(invokeArgs))
    }

    /** Result post-processing, which only the two method dispatches get. */
    function ProcessResult(rt: Runtime, scope: Value, inv: Invocation, result: Value): Value
    {
      if inv.FixedMethodCall? || inv.VarargsMethodCall? then
        if hasVoidReturn then Undefined
        else if returnTypeTag == UnsupportedTag then rt.wrap(scope, result)
        else result
      else result
    }

    /** What call(cx, scope, thisObj, args) returns or raises. */
    function CallSpec(rt: Runtime, scope: Value, thisObj: Value, args: seq<Value>): Result<Value, Error>
      reads this, typeTags
      requires Valid()
    {
      match Prepare(rt, scope, thisObj, args)
      case Err(e) => Err(e)
      case Ok(inv) =>
        match rt.invoke(inv)
        case Threw(cause) => Err(WrappedHost(cause))
        case Returned(v) => Ok(ProcessResult(rt, scope, inv, v))
    }

    /**
     * The argument array of a fixed-arity call. When the caller passed
     * exactly parmsLength values their array is reused, and copied the
     * first time a conversion changes a value; the caller's array is never
     * written.
     */
    method AssembleArgs(rt: Runtime, scope: Value, args: array<Value>) returns (invokeArgs: array<Value>)
      requires Valid() && parmsLength >= 0
      ensures invokeArgs[..] == Assembled(rt, scope, typeTags[..], args[..])
      ensures parmsLength == args.Length ==> (invokeArgs == args <==> invokeArgs[..] == args[..])
      ensures invokeArgs != args ==> fresh(invokeArgs)
    {
      if parmsLength == args.Length {
        invokeArgs := CoerceInPlaceOrCopy(rt, scope, typeTags, args);
      } else if parmsLength == 0 {
        invokeArgs := new Value[0];
      } else {
        invokeArgs := CoercePadded(rt, scope, typeTags, args);
      }
      assert invokeArgs[..] == Assembled(rt, scope, typeTags[..], args[..]);
    }

    /**
     * The equal-length case: coerce each argument, and copy the caller's
     * array the first time a coerced value differs from the original.
     */
    static method CoerceInPlaceOrCopy(rt: Runtime, scope: Value, tags: array<int>, args: array<Value>)
      returns (invokeArgs: array<Value>)
      requires tags.Length == args.Length
      requires forall k :: 0 <= k < tags.Length ==> IsSupportedTag(tags[k])
      ensures invokeArgs.Length == args.Length
      ensures forall k :: 0 <= k < args.Length ==> invokeArgs[k] == ConvertArg(rt, scope, args[k], tags[k]).value
      ensures invokeArgs == args <==> invokeArgs[..] == args[..]
      ensures invokeArgs != args ==> fresh(invokeArgs)
    {
      invokeArgs := args;
      var i := 0;
      while i != args.Length
        invariant 0 <= i <= args.Length
        invariant invokeArgs.Length == args.Length
        invariant invokeArgs != args ==> fresh(invokeArgs)
        invariant forall k :: 0 <= k < i ==> invokeArgs[k] == ConvertArg(rt, scope, args[k], tags[k]).value
        invariant forall k :: i <= k < args.Length ==> invokeArgs[k] == args[k]
        invariant invokeArgs == args <==> forall k :: 0 <= k < i ==> invokeArgs[k] == args[k]
      {
        var arg := args[i];
        var converted := ConvertArg(rt, scope, arg, tags[i]).value;
        if arg != converted {
          if invokeArgs == args {
            invokeArgs := new Value[args.Length](k requires 0 <= k < args.Length reads args => args[k]);
          }
          invokeArgs[i] := converted;
        }
        i := i + 1;
      }
      if invokeArgs != args {
        ghost var k :| 0 <= k < args.Length && invokeArgs[k] != args[k];
        assert invokeArgs[..][k] != args[..][k];
      }
    }

    /** The other case: a new array, padded with Undefined and cut to the declared count. */
    static method CoercePadded(rt: Runtime, scope: Value, tags: array<int>, args: array<Value>)
      returns (invokeArgs: array<Value>)
      requires forall k :: 0 <= k < tags.Length ==> IsSupportedTag(tags[k])
      ensures fresh(invokeArgs) && invokeArgs.Length == tags.Length
      ensures forall k :: 0 <= k < tags.Length ==>
        invokeArgs[k] == ConvertArg(rt, scope, if k < args.Length then args[k] else Undefined, tags[k]).value
    {
      invokeArgs := new Value[tags.Length];
      var i := 0;
      while i != tags.Length
        invariant 0 <= i <= tags.Length
        invariant forall k :: 0 <= k < i ==>
          invokeArgs[k] == ConvertArg(rt, scope, if k < args.Length then args[k] else Undefined, tags[k]).value
      {
        var arg := if i < args.Length then args[i] else Undefined;
        invokeArgs[i] := ConvertArg(rt, scope, arg, tags[i]).value;
        i := i + 1;
      }
    }

    /** call(cx, scope, thisObj, args). */
    method Call(rt: Runtime, scope: Value, thisObj: Value, args: array<Value>) returns (r: Result<Value, Error>)
      requires Valid()
      ensures r == CallSpec(rt, scope, thisObj, args[..])
    {
      var inv: Invocation;
      if parmsLength < 0 {
        if parmsLength == VarargsMethodCode {
          inv := VarargsMethodCall(thisObj, args[..]);
        } else {
          var inNewExpr := thisObj == Null;
          inv := VarargsCtorCall(args[..], inNewExpr, member.kind == CtorMember);
        }
      } else {
        var receiver := SelectReceiver(rt, scope, thisObj);
        if receiver.Err? {
          return Err(receiver.error);
        }
        var invokeArgs := AssembleArgs(rt, scope, args);
        if member.kind == MethodMember {
          inv := FixedMethodCall(receiver.value, invokeArgs[..]);
        } else {
          inv := FixedCtorCall(invokeArgs[..]);
        }
      }
      var outcome := rt.invoke(inv);
      if outcome.Threw? {
        return Err(WrappedHost(outcome.cause));
      }
      r := Ok(ProcessResult(rt, scope, inv, outcome.value));
    }

    /**
     * createObject: null (use the call path) for a constructor or the
     * varargs-constructor form; otherwise a default-constructed instance of
     * the declaring class given the class prototype and the parent scope.
     */
    function CreateObject(rt: Runtime, classPrototype: Value): (r: CreateOutcome)
      reads this
      ensures r.UseCall? <==> member.kind == CtorMember || parmsLength == VarargsCtorCode
      ensures r.Created? ==>
        && rt.newDefault(member.declaringClass) == Returned(r.obj) && r.obj.Obj?
        && r.prototype == classPrototype && r.parent == parentScope
      ensures !r.UseCall? && rt.newDefault(member.declaringClass).Returned?
              && rt.newDefault(member.declaringClass).value.Obj? ==>
        r == Created(rt.newDefault(member.declaringClass).value, classPrototype, parentScope)
      ensures r.CreateFailed? ==>
        r.error == (if rt.newDefault(member.declaringClass).Threw?
                    then WrappedHost(rt.newDefault(member.declaringClass).cause)
                    else WrappedClassCast)
    {
      if member.kind == CtorMember || parmsLength == VarargsCtorCode then UseCall
      else
        match rt.newDefault(member.declaringClass)
        case Threw(cause) => CreateFailed(WrappedHost(cause))
        case Returned(v) => if v.Obj? then Created(v, classPrototype, parentScope) else CreateFailed(WrappedClassCast)
    }
  }

  // ---------------------------------------------------------------------
  // Properties of a bound function
  // ---------------------------------------------------------------------

  /** getArity is the declared parameter count for a fixed-arity member and 1 for a varargs form. */
  lemma ArityIsDeclaredCount(fo: FunctionObject)
    requires fo.Valid()
    ensures Classify(fo.member).value.FixedArity? ==> fo.GetArity() == |fo.member.params|
    ensures !Classify(fo.member).value.FixedArity? ==> fo.GetArity() == 1
  {
    if Classify(fo.member).value.FixedArity? {
      FixedArityTags(fo.member);
    }
  }

  /** The two varargs queries answer which form the member was bound with. */
  lemma VarargsQueries(fo: FunctionObject)
    requires fo.Valid()
    ensures fo.IsVarArgsMethod() <==> Classify(fo.member) == Ok(VarargsMethodShape)
    ensures fo.IsVarArgsConstructor() <==> Classify(fo.member) == Ok(VarargsCtorShape)
    ensures fo.IsVarArgsMethod() || fo.IsVarArgsConstructor() ==> fo.isStatic
  {
    VarargsForms(fo.member);
  }

  /**
   * A fixed-arity call hands the member exactly parmsLength arguments: the
   * coerced caller arguments, and the coercion of Undefined past their end.
   */
  lemma FixedArityArguments(fo: FunctionObject, rt: Runtime, scope: Value, thisObj: Value, args: seq<Value>)
    requires fo.Valid() && fo.parmsLength >= 0
    requires fo.Prepare(rt, scope, thisObj, args).Ok?
    ensures var inv := fo.Prepare(rt, scope, thisObj, args).value;
      && (inv.FixedMethodCall? || inv.FixedCtorCall?)
      && |inv.args| == fo.parmsLength == |fo.member.params|
      && (forall i :: 0 <= i < fo.parmsLength ==> IsSupportedTag(TypeTag(fo.member.params[i])))
      && (forall i :: 0 <= i < |args| && i < fo.parmsLength ==>
            inv.args[i] == ConvertArg(rt, scope, args[i], TypeTag(fo.member.params[i])).value)
      && (forall i :: |args| <= i < fo.parmsLength ==>
            inv.args[i] == ConvertArg(rt, scope, Undefined, TypeTag(fo.member.params[i])).value)
  {
    FixedArityTags(fo.member);
  }

  /** Arguments past the declared count make no difference to a fixed-arity call. */
  lemma ExcessArgumentsIgnored(fo: FunctionObject, rt: Runtime, scope: Value, thisObj: Value,
                               args: seq<Value>, extra: seq<Value>)
    requires fo.Valid() && fo.parmsLength >= 0 && |args| >= fo.parmsLength
    ensures fo.CallSpec(rt, scope, thisObj, args + extra) == fo.CallSpec(rt, scope, thisObj, args)
  {
    var tags := fo.typeTags[..];
    assert Assembled(rt, scope, tags, args + extra) == Assembled(rt, scope, tags, args);
  }

  /** Missing trailing arguments of a fixed-arity call are treated as Undefined. */
  lemma MissingArgumentsAreUndefined(fo: FunctionObject, rt: Runtime, scope: Value, thisObj: Value,
                                     args: seq<Value>)
    requires fo.Valid() && fo.parmsLength >= |args|
    ensures fo.CallSpec(rt, scope, thisObj, args)
         == fo.CallSpec(rt, scope, thisObj, args + seq(fo.parmsLength - |args|, _ => Undefined))
  {
    var tags := fo.typeTags[..];
    var padded := args + seq(fo.parmsLength - |args|, _ => Undefined);
    assert Assembled(rt, scope, tags, args) == Assembled(rt, scope, tags, padded);
  }

  /**
   * The varargs-constructor form passes the raw arguments and inNewExpr ==
   * (thisObj == null), through newInstance for a constructor and invoke for a
   * static method; the varargs-method form passes the caller's 'this' and
   * raw arguments, whatever their number.
   */
  lemma VarargsDispatch(fo: FunctionObject, rt: Runtime, scope: Value, thisObj: Value, args: seq<Value>)
    requires fo.Valid() && fo.parmsLength < 0
    ensures fo.Prepare(rt, scope, thisObj, args).Ok?
    ensures var inv := fo.Prepare(rt, scope, thisObj, args).value;
      && (fo.IsVarArgsConstructor() ==>
            inv.VarargsCtorCall? && inv.rawArgs == args
            && (inv.inNewExpr <==> thisObj == Null)
            && (inv.viaNewInstance <==> fo.member.kind == CtorMember))
      && (fo.IsVarArgsMethod() ==> inv == VarargsMethodCall(thisObj, args))
  {
  }

  /**
   * Only method results are post-processed: void becomes Undefined, an
   * unsupported return type goes through the wrap factory, anything else is
   * returned as it is; constructor and varargs-constructor results never are.
   */
  lemma ResultPostProcessing(fo: FunctionObject, rt: Runtime, scope: Value, thisObj: Value,
                             args: seq<Value>, v: Value)
    requires fo.Valid()
    requires fo.Prepare(rt, scope, thisObj, args).Ok?
    requires rt.invoke(fo.Prepare(rt, scope, thisObj, args).value) == Returned(v)
    ensures fo.IsVarArgsConstructor() || (fo.member.kind == CtorMember && fo.parmsLength >= 0) ==>
      fo.CallSpec(rt, scope, thisObj, args) == Ok(v)
    ensures fo.member.kind == MethodMember && !fo.IsVarArgsConstructor() ==>
      fo.CallSpec(rt, scope, thisObj, args) ==
        Ok(if fo.member.returnType == Void then Undefined
           else if TypeTag(fo.member.returnType) == UnsupportedTag then rt.wrap(scope, v)
           else v)
  {
  }

  /**
   * Only a method that is not declared varargs in Java qualifies for a
   * generated thunk, and then only an instance method of fixed arity or the
   * varargs-method form: static fixed-arity methods and the
   * varargs-constructor form keep the reflective path.
   */
  lemma ThunkEligibleBindings(fo: FunctionObject)
    requires fo.Valid()
    ensures ThunkEligible(fo.member, fo.parmsLength) <==>
      && fo.member.kind == MethodMember && !fo.member.isVarArgs
      && ((!fo.isStatic && fo.parmsLength >= 0) || fo.IsVarArgsMethod())
  {
    VarargsQueries(fo);
  }
}
