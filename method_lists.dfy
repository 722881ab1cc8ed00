/**
 * Two static helpers of FunctionObject for picking host methods out of a
 * reflected method array: the search for the one method of a given name,
 * and the list of the methods a class itself offers.
 */
module MethodLists {
  import opened HostModel

  predicate IsNamed(e: Option<Member>, name: string) {
    e.Some? && e.value.name == name
  }

  /** The indices of the entries named `name`, in ascending order, and no others. */
  function MatchIndices(ms: seq<Option<Member>>, name: string): (r: seq<int>)
    ensures forall k :: 0 <= k < |r| ==> 0 <= r[k] < |ms| && IsNamed(ms[r[k]], name)
    ensures forall k, l :: 0 <= k < l < |r| ==> r[k] < r[l]
    ensures forall j :: 0 <= j < |ms| && IsNamed(ms[j], name) ==> j in r
  {
    if ms == [] then []
    else
      var front := ms[..|ms| - 1];
      assert forall j :: 0 <= j < |front| ==> front[j] == ms[j];
      MatchIndices(front, name) + (if IsNamed(ms[|ms| - 1], name) then [|ms| - 1] else [])
  }

  /** Matching in a prefix finds a prefix of what matching in the whole finds. */
  lemma {:induction false} MatchIndicesPrefix(ms: seq<Option<Member>>, name: string, i: int)
    requires 0 <= i <= |ms|
    ensures |MatchIndices(ms[..i], name)| <= |MatchIndices(ms, name)|
    ensures MatchIndices(ms, name)[..|MatchIndices(ms[..i], name)|] == MatchIndices(ms[..i], name)
    decreases |ms|
  {
    if i < |ms| {
      var front := ms[..|ms| - 1];
      assert front[..i] == ms[..i];
      MatchIndicesPrefix(front, name, i);
    } else {
      assert ms[..i] == ms;
    }
  }

  /** What findSingleMethod answers: no match, the one match, or msg.no.overload at the second. */
  function FindSingle(ms: seq<Option<Member>>, name: string): Result<Option<Member>, Error>
  {
    var idx := MatchIndices(ms, name);
    if |idx| == 0 then Ok(None)
    else if |idx| == 1 then Ok(ms[idx[0]])
    else Err(NoOverload(name, ms[idx[1]].value.declaringClass))
  }

  /** The search finds nothing exactly when no entry has the name. */
  lemma FindSingleNone(ms: seq<Option<Member>>, name: string)
    ensures FindSingle(ms, name) == Ok(None) <==> forall j :: 0 <= j < |ms| ==> !IsNamed(ms[j], name)
  {
    var idx := MatchIndices(ms, name);
    if |idx| > 0 {
      assert IsNamed(ms[idx[0]], name);
    } else {
      forall j | 0 <= j < |ms| ensures !IsNamed(ms[j], name) {
        assert j !in idx;
      }
    }
  }

  /** A method found is the one entry with the name. */
  lemma FindSingleUnique(ms: seq<Option<Member>>, name: string)
    requires FindSingle(ms, name).Ok? && FindSingle(ms, name).value.Some?
    ensures exists j :: 0 <= j < |ms| && ms[j] == FindSingle(ms, name).value && IsNamed(ms[j], name)
    ensures forall j, l :: 0 <= j < |ms| && 0 <= l < |ms| && IsNamed(ms[j], name) && IsNamed(ms[l], name) ==> j == l
  {
    var idx := MatchIndices(ms, name);
    assert |idx| == 1;
    assert ms[idx[0]] == FindSingle(ms, name).value;
    forall j, l | 0 <= j < |ms| && 0 <= l < |ms| && IsNamed(ms[j], name) && IsNamed(ms[l], name)
      ensures j == l
    {
      assert j in idx && l in idx;
    }
  }

  /** Two entries with the name make the search fail. */
  lemma TwoMatchesFail(ms: seq<Option<Member>>, name: string, j: int, l: int)
    requires 0 <= j < l < |ms| && IsNamed(ms[j], name) && IsNamed(ms[l], name)
    ensures FindSingle(ms, name).Err?
  {
    var idx := MatchIndices(ms, name);
    assert j in idx && l in idx;
  }

  /**
   * The search fails exactly when two entries have the name, and then names
   * the declaring class of one of them (the second).
   */
  lemma FindSingleAmbiguous(ms: seq<Option<Member>>, name: string)
    ensures FindSingle(ms, name).Err? <==>
      exists j, l :: 0 <= j < l < |ms| && IsNamed(ms[j], name) && IsNamed(ms[l], name)
  {
    if exists j, l :: 0 <= j < l < |ms| && IsNamed(ms[j], name) && IsNamed(ms[l], name) {
      var j, l :| 0 <= j < l < |ms| && IsNamed(ms[j], name) && IsNamed(ms[l], name);
      TwoMatchesFail(ms, name, j, l);
    }
    var idx := MatchIndices(ms, name);
    if |idx| >= 2 {
      assert idx[0] < idx[1] && IsNamed(ms[idx[0]], name) && IsNamed(ms[idx[1]], name);
    }
  }

  /** A failed search names the declaring class of an entry that has the name. */
  lemma FindSingleErrorNamesMatch(ms: seq<Option<Member>>, name: string)
    requires FindSingle(ms, name).Err?
    ensures exists l :: 0 <= l < |ms| && IsNamed(ms[l], name)
                && FindSingle(ms, name).error == NoOverload(name, ms[l].value.declaringClass)
  {
    var idx := MatchIndices(ms, name);
    assert IsNamed(ms[idx[1]], name);
  }

  /** Extending the prefix by one entry adds its index exactly when it has the name. */
  lemma MatchIndicesStep(ms: seq<Option<Member>>, name: string, i: int)
    requires 0 <= i < |ms|
    ensures MatchIndices(ms[..i + 1], name)
         == MatchIndices(ms[..i], name) + (if IsNamed(ms[i], name) then [i] else [])
  {
    assert ms[..i + 1][..i] == ms[..i];
  }

  /** Once a prefix holds one match, the next match decides the search. */
  lemma SecondMatchDecides(ms: seq<Option<Member>>, name: string, i: int)
    requires 0 <= i < |ms| && |MatchIndices(ms[..i], name)| == 1 && IsNamed(ms[i], name)
    ensures FindSingle(ms, name) == Err(NoOverload(name, ms[i].value.declaringClass))
  {
    MatchIndicesStep(ms, name, i);
    MatchIndicesPrefix(ms, name, i + 1);
  }

  /** findSingleMethod(methods, name). */
  method FindSingleMethod(methods: array<Option<Member>>, name: string) returns (r: Result<Option<Member>, Error>)
    ensures r == FindSingle(methods[..], name)
  {
    var found: Option<Member> := None;
    var i := 0;
    var n := methods.Length;
    while i != n
      invariant 0 <= i <= n
      invariant |MatchIndices(methods[..i], name)| <= 1
      invariant found == if |MatchIndices(methods[..i], name)| == 0 then None
                         else methods[MatchIndices(methods[..i], name)[0]]
    {
      var m := methods[i];
      MatchIndicesStep(methods[..], name, i);
      if m.Some? && name == m.value.name {
        if found.Some? {
          SecondMatchDecides(methods[..], name, i);
          return Err(NoOverload(name, m.value.declaringClass));
        }
        found := m;
      }
      i := i + 1;
    }
    assert methods[..n] == methods[..];
    return Ok(found);
  }

  /**
   * The filter of getMethodList: after a security exception, the methods the
   * class itself declares; otherwise the public ones.
   */
  predicate Keeps(m: Member, sawSecurityException: bool, clazz: HostType) {
    if sawSecurityException then m.declaringClass == clazz else m.isPublic
  }

  predicate KeepsEntry(e: Option<Member>, sawSecurityException: bool, clazz: HostType) {
    e.Some? && Keeps(e.value, sawSecurityException, clazz)
  }

  /** The kept methods, in their original order. */
  function Survivors(ms: seq<Option<Member>>, sawSecurityException: bool, clazz: HostType): seq<Member>
  {
    if ms == [] then []
    else
      var last := ms[|ms| - 1];
      Survivors(ms[..|ms| - 1], sawSecurityException, clazz)
        + (if KeepsEntry(last, sawSecurityException, clazz) then [last.value] else [])
  }

  /** Filtering distributes over concatenation, so it keeps the original order. */
  lemma {:induction false} SurvivorsAppend(a: seq<Option<Member>>, b: seq<Option<Member>>,
                                          sawSecurityException: bool, clazz: HostType)
    ensures Survivors(a + b, sawSecurityException, clazz)
         == Survivors(a, sawSecurityException, clazz) + Survivors(b, sawSecurityException, clazz)
    decreases |b|
  {
    if b == [] {
      assert a + b == a;
    } else {
      var front := b[..|b| - 1];
      assert (a + b)[..|a + b| - 1] == a + front;
      SurvivorsAppend(a, front, sawSecurityException, clazz);
    }
  }

  /** A method survives exactly when it is an entry of the array that the filter keeps. */
  lemma {:induction false} SurvivorsMembers(ms: seq<Option<Member>>, sawSecurityException: bool,
                                           clazz: HostType, m: Member)
    ensures m in Survivors(ms, sawSecurityException, clazz) <==>
      Keeps(m, sawSecurityException, clazz) && Some(m) in ms
  {
    if ms != [] {
      var front := ms[..|ms| - 1];
      SurvivorsMembers(front, sawSecurityException, clazz, m);
      assert ms == front + [ms[|ms| - 1]];
    }
  }

  /**
   * getMethodList, given the fetched method array and the security flag:
   * null out every rejected entry in place, then copy the survivors, in
   * order, into a new array of exactly their number.
   */
  method GetMethodList(methods: array<Option<Member>>, sawSecurityException: bool, clazz: HostType)
    returns (result: array<Member>)
    requires forall i :: 0 <= i < methods.Length ==> methods[i].Some?
    modifies methods
    ensures forall i :: 0 <= i < methods.Length ==>
      methods[i] == if KeepsEntry(old(methods[i]), sawSecurityException, clazz) then old(methods[i]) else None
    ensures fresh(result)
    ensures result[..] == Survivors(old(methods[..]), sawSecurityException, clazz)
  {
    ghost var orig := methods[..];
    var count := NullOutRejected(methods, sawSecurityException, clazz);
    result := CompactSurvivors(methods, count, orig, sawSecurityException, clazz);
  }

  /** The first loop of getMethodList: null out the rejected entries and count the rest. */
  method NullOutRejected(methods: array<Option<Member>>, sawSecurityException: bool, clazz: HostType)
    returns (count: int)
    requires forall i :: 0 <= i < methods.Length ==> methods[i].Some?
    modifies methods
    ensures forall i :: 0 <= i < methods.Length ==>
      methods[i] == if KeepsEntry(old(methods[i]), sawSecurityException, clazz) then old(methods[i]) else None
    ensures count == |Survivors(old(methods[..]), sawSecurityException, clazz)|
  {
    ghost var orig := methods[..];
    count := 0;
    var i := 0;
    while i < methods.Length
      invariant 0 <= i <= methods.Length
      invariant count == |Survivors(orig[..i], sawSecurityException, clazz)|
      invariant forall k :: 0 <= k < i ==>
        methods[k] == if KeepsEntry(orig[k], sawSecurityException, clazz) then orig[k] else None
      invariant forall k :: i <= k < methods.Length ==> methods[k] == orig[k]
    {
      assert orig[..i + 1][..i] == orig[..i];
      var m := methods[i].value;
      if (if sawSecurityException then m.declaringClass != clazz else !m.isPublic) {
        methods[i] := None;
      } else {
        count := count + 1;
      }
      i := i + 1;
    }
    assert orig[..methods.Length] == orig;
  }

  /** The second loop of getMethodList: copy the entries left, in order, into a new array. */
  method CompactSurvivors(methods: array<Option<Member>>, count: int, ghost orig: seq<Option<Member>>,
                          sawSecurityException: bool, clazz: HostType)
    returns (result: array<Member>)
    requires |orig| == methods.Length
    requires forall i :: 0 <= i < methods.Length ==>
      methods[i] == if KeepsEntry(orig[i], sawSecurityException, clazz) then orig[i] else None
    requires count == |Survivors(orig, sawSecurityException, clazz)|
    ensures fresh(result)
    ensures result[..] == Survivors(orig, sawSecurityException, clazz)
  {
    result := new Member[count];
    var j := 0;
    var i := 0;
    while i < methods.Length
      invariant 0 <= i <= methods.Length
      invariant j == |Survivors(orig[..i], sawSecurityException, clazz)| <= count
      invariant result[..j] == Survivors(orig[..i], sawSecurityException, clazz)
    {
      assert orig[..i + 1][..i] == orig[..i];
      if methods[i].Some? {
        SurvivorsAppend(orig[..i + 1], orig[i + 1..], sawSecurityException, clazz);
        assert orig[..i + 1] + orig[i + 1..] == orig;
        result[j] := methods[i].value;
        j := j + 1;
      }
      i := i + 1;
    }
    assert orig[..methods.Length] == orig;
    assert result[..] == result[..j];
  }
}
