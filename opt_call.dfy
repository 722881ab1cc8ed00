/**
 * The activation object of a call in optimized code (OptCall) and its
 * `arguments` view (OptArguments). The view answers `length`, `callee` and
 * `constructor` from fields captured at construction, serves in-range
 * indices from the argument array it captured, and reports index writes to
 * the frame through putArgument. Everything else goes to the ordinary
 * property storage inherited from ScriptableObject, which the model keeps
 * as a map.
 */
module OptCalls {
  import opened HostModel

  /** A property key of the inherited storage: a name or an index. */
  datatype Key = Name(name: string) | Index(index: int32)

  /** One call of the frame's putArgument(index, value), as the frame observes it. */
  datatype PutArgumentCall = PutArgumentCalled(index: int32, value: Value)

  /** ScriptableObject.get on the plain storage: the value, or None for NOT_FOUND. */
  function Lookup(storage: map<Key, Value>, k: Key): (r: Option<Value>)
    ensures r.Some? <==> k in storage
    ensures r.Some? ==> r.value == storage[k]
  {
    if k in storage then Some(storage[k]) else None
  }

  /** The ids getIds reports for a view of length n: Int(0), ..., Int(n - 1). */
  function IdRange(n: nat): seq<Value>
    requires n <= MaxArrayLength
  {
    if n == 0 then [] else IdRange(n - 1) + [Int((n - 1) as int32)]
  }

  /** The ids are exactly the indices below n, in ascending order. */
  lemma {:induction false} IdRangeElements(n: nat)
    requires n <= MaxArrayLength
    ensures |IdRange(n)| == n
    ensures forall i :: 0 <= i < n ==> IdRange(n)[i] == Int(i as int32)
  {
    if n > 0 {
      IdRangeElements(n - 1);
    }
  }

  /**
   * The call object. The generated subclass implements getArgument and
   * putArgument over its live parameter slots; the model records the
   * putArgument calls the frame receives.
   */
  class OptCall {
    var parentScope: Value
    var arguments: OptArguments?
    var putArgumentCalls: seq<PutArgumentCall>

    /**
     * OptCall(function, parentScope, args): set the parent scope first, then
     * build the view, which copies that scope. `topObject` is what
     * getTopScopeValue(view, "Object") yields while the view has no parent
     * yet, and `objectPrototypeOf` stands for ScriptableObject.getObjectPrototype.
     */
    constructor(callee: Value, parentScope: Value, args: array<Value>,
                topObject: Value, objectPrototypeOf: Value -> Value)
      requires args.Length <= MaxArrayLength
      ensures this.parentScope == parentScope
      ensures putArgumentCalls == []
      ensures arguments != null && fresh(arguments)
      ensures arguments.frame == this && arguments.callee == callee && arguments.args == args
      ensures arguments.length == args.Length && arguments.Valid()
      ensures arguments.constructorValue == topObject
      ensures arguments.parentScope == parentScope
      ensures arguments.prototype == objectPrototypeOf(parentScope)
      ensures arguments.storage == map[]
    {
      this.parentScope := parentScope;
      putArgumentCalls := [];
      new;
      arguments := new OptArguments(this, callee, args, topObject, objectPrototypeOf);
    }

    /** putArgument(index, value): the frame receives one more write. */
    method PutArgument(index: int32, value: Value)
      modifies this`putArgumentCalls
      ensures putArgumentCalls == old(putArgumentCalls) + [PutArgumentCalled(index, value)]
    {
      putArgumentCalls := putArgumentCalls + [PutArgumentCalled(index, value)];
    }
  }

  /** The `arguments` object of an optimized call. */
  class OptArguments {
    const frame: OptCall
    const callee: Value
    const args: array<Value>
    const length: int
    const lengthObj: Value
    const constructorValue: Value
    var parentScope: Value
    var prototype: Value
    var storage: map<Key, Value>

    /** The length is the captured array's, and fits the Integer it is boxed in. */
    ghost predicate Valid()
      reads this
    {
      length == args.Length && length <= MaxArrayLength && lengthObj == Int(length as int32)
    }

    /** OptArguments(function, args), created inside the frame's constructor. */
    constructor(frame: OptCall, callee: Value, args: array<Value>,
                topObject: Value, objectPrototypeOf: Value -> Value)
      requires args.Length <= MaxArrayLength
      ensures this.frame == frame && this.callee == callee && this.args == args
      ensures length == args.Length && Valid()
      ensures constructorValue == topObject
      ensures parentScope == frame.parentScope
      ensures prototype == objectPrototypeOf(frame.parentScope)
      ensures storage == map[]
    {
      this.frame := frame;
      this.callee := callee;
      this.args := args;
      length := args.Length;
      lengthObj := Int(args.Length as int32);
      constructorValue := topObject;
      var parent := frame.parentScope;
      parentScope := parent;
      prototype := objectPrototypeOf(parent);
      storage := map[];
    }

    /** Whether an index lies in [0, length), the range served by the captured array. */
    predicate InRange(index: int32)
      reads this
    {
      0 <= index as int < length
    }

    /**
     * get(name, start): `length`, `constructor` and `callee` come from the
     * captured fields whatever the storage holds; every other name from the
     * storage.
     */
    function GetNamed(name: string): (r: Option<Value>)
      reads this
      ensures name == "length" ==> r == Some(lengthObj)
      ensures name == "constructor" ==> r == Some(constructorValue)
      ensures name == "callee" ==> r == Some(callee)
      ensures name != "length" && name != "constructor" && name != "callee" ==>
        (r.Some? <==> Name(name) in storage) && (r.Some? ==> r.value == storage[Name(name)])
    {
      if name == "length" then Some(lengthObj)
      else if name == "constructor" then Some(constructorValue)
      else if name == "callee" then Some(callee)
      else Lookup(storage, Name(name))
    }

    /**
     * get(index, start): an index in [0, length) reads the array captured
     * at construction (never the frame's getArgument); any other index reads
     * the storage.
     */
    function GetIndex(index: int32): (r: Option<Value>)
      requires Valid()
      reads this, args
      ensures InRange(index) ==> r == Some(args[index])
      ensures !InRange(index) ==>
        (r.Some? <==> Index(index) in storage) && (r.Some? ==> r.value == storage[Index(index)])
    {
      if index < 0 || index as int >= length then Lookup(storage, Index(index))
      else Some(args[index])
    }

    /** has(index, start): held in the storage, or in [0, length). */
    predicate Has(index: int32): (b: bool)
      reads this
      ensures InRange(index) ==> b
      ensures !InRange(index) ==> (b <==> Index(index) in storage)
    {
      Index(index) in storage || (index >= 0 && index as int < length)
    }

    /**
     * put(index, start, value): an index outside [0, length) is also stored
     * in the ordinary storage; every index, in range or not, is reported to
     * the frame's putArgument.
     */
    method Put(index: int32, value: Value)
      requires Valid()
      modifies this`storage, frame`putArgumentCalls
      ensures storage == if InRange(index) then old(storage) else old(storage)[Index(index) := value]
      ensures frame.putArgumentCalls == old(frame.putArgumentCalls) + [PutArgumentCalled(index, value)]
      ensures InRange(index) ==> GetIndex(index) == Some(args[index]) == old(GetIndex(index))
      ensures !InRange(index) ==> GetIndex(index) == Some(value)
      ensures Has(index)
    {
      if index < 0 || index as int >= length {
        storage := storage[Index(index) := value];
      }
      frame.PutArgument(index, value);
    }

    /**
     * The inherited put(name, start, value): the storage takes any name,
     * but a stored `length`, `constructor` or `callee` stays hidden behind
     * the captured fields.
     */
    method PutNamed(name: string, value: Value)
      modifies this`storage
      ensures storage == old(storage)[Name(name) := value]
      ensures GetNamed("length") == old(GetNamed("length"))
      ensures GetNamed("constructor") == old(GetNamed("constructor"))
      ensures GetNamed("callee") == old(GetNamed("callee"))
      ensures name != "length" && name != "constructor" && name != "callee" ==> GetNamed(name) == Some(value)
    {
      storage := storage[Name(name) := value];
    }

    /** getIds(): a new array holding Int(0), ..., Int(length - 1). */
    method GetIds() returns (ids: array<Value>)
      requires Valid()
      ensures fresh(ids)
      ensures ids[..] == IdRange(length)
      ensures forall i :: 0 <= i < ids.Length ==> ids[i].Int? && Has(ids[i].i)
    {
      ids := new Value[length];
      var i := 0;
      while i < length
        invariant 0 <= i <= length
        invariant ids[..i] == IdRange(i)
      {
        ids[i] := Int(i as int32);
        assert ids[..i + 1] == ids[..i] + [ids[i]];
        i := i + 1;
      }
      assert ids[..] == ids[..length];
      IdRangeElements(length);
    }
  }

  /** The view's length is the captured array's, whatever the storage holds. */
  lemma LengthIsCaptured(view: OptArguments)
    requires view.Valid()
    ensures view.GetNamed("length") == Some(Int(view.args.Length as int32))
    ensures forall i: int32 :: view.Has(i) <== 0 <= i as int < view.args.Length
  {
  }

  /**
   * Outside [0, length) the view is ordinary storage: get and has agree
   * with it.
   */
  lemma OutOfRangeIsStorage(view: OptArguments, index: int32)
    requires view.Valid() && !view.InRange(index)
    ensures view.Has(index) <==> view.GetIndex(index).Some?
  {
  }
}
