/**
 * The runtime type-checking attribute descriptor of doxygen_whiner/utils.py
 * (`TypeCheckedAttribute`), and the small slice of Python's object model it
 * acts on: tagged values, `isinstance`, and an instance's attribute dictionary.
 */
module Utils {
  import opened Wrappers

  /** A Python value, tagged with its runtime class. */
  datatype Value =
    | Str(s: string)
    | Int(i: int)
    | Bool(b: bool)
    | Float(f: real)
    | NoneValue
    | Obj(ref: Instance)

  /** The classes a descriptor can be declared with (`str` and `int`). */
  datatype PyType = StrType | IntType

  /** `isinstance(v, t)`. In Python `bool` is a subclass of `int`. */
  predicate IsInstance(v: Value, t: PyType)
  {
    match t
    case StrType => v.Str?
    case IntType => v.Int? || v.Bool?
  }

  /** The `TypeError` raised by a rejected assignment: the value and the declared type. */
  datatype TypeError = TypeError(value: Value, expected: PyType)

  /** `TypeCheckedAttribute(name, type)`: the attribute name and its declared class. */
  datatype Descriptor = Descriptor(name: string, ty: PyType)

  /** What `__get__` yields: the descriptor itself (access through the class), the stored value, or a `KeyError`. */
  datatype Got = Itself(descriptor: Descriptor) | Stored(value: Value) | KeyError(key: string)

  /** A Python object; `attrs` is its `__dict__`. */
  class Instance {
    var attrs: map<string, Value>

    constructor ()
      ensures attrs == map[]
    {
      attrs := map[];
    }
  }

  /** The attribute `d` is present in `attrs` and holds a value of `d`'s type. */
  predicate HasTyped(attrs: map<string, Value>, d: Descriptor)
  {
    d.name in attrs && IsInstance(attrs[d.name], d.ty)
  }

  /**
   * The effect of `d.__set__(instance, v)` on the instance dictionary `attrs`:
   * the type guard first, then a write of the one key `d.name`.
   */
  function Assign(d: Descriptor, attrs: map<string, Value>, v: Value): (r: Result<map<string, Value>, TypeError>)
    ensures r.Success? <==> IsInstance(v, d.ty)
    ensures r.Failure? ==> r.error == TypeError(v, d.ty)
    ensures r.Success? ==> r.value.Keys == attrs.Keys + {d.name} && r.value[d.name] == v
    ensures r.Success? ==> forall k :: k in attrs && k != d.name ==> r.value[k] == attrs[k]
  {
    if IsInstance(v, d.ty) then Success(attrs[d.name := v]) else Failure(TypeError(v, d.ty))
  }

  /** `TypeCheckedAttribute.__set__`: a rejected value raises and writes nothing. */
  method Set(d: Descriptor, inst: Instance, v: Value) returns (r: Outcome<TypeError>)
    modifies inst
    ensures r.Pass? <==> Assign(d, old(inst.attrs), v).Success?
    ensures r.Pass? ==> inst.attrs == Assign(d, old(inst.attrs), v).value
    ensures r.Fail? ==> inst.attrs == old(inst.attrs) && r.error == Assign(d, old(inst.attrs), v).error
    ensures r.Pass? ==> Get(d, inst) == Stored(v)
  {
    if !IsInstance(v, d.ty) {
      return Fail(TypeError(v, d.ty));
    }
    inst.attrs := inst.attrs[d.name := v];
    return Pass;
  }

  /** `TypeCheckedAttribute.__get__`; `inst == null` is access through the class. */
  function Get(d: Descriptor, inst: Instance?): (r: Got)
    reads inst
    ensures inst == null ==> r == Itself(d)
    ensures inst != null ==> !r.Itself?
    ensures r.Stored? <==> inst != null && d.name in inst.attrs
    ensures r.Stored? ==> r.value == inst.attrs[d.name]
  {
    if inst == null then Itself(d)
    else if d.name in inst.attrs then Stored(inst.attrs[d.name])
    else KeyError(d.name)
  }

  /** One `self.<attr> = value` statement of an `__init__`. */
  datatype Assignment = Assignment(attr: Descriptor, value: Value)

  /**
   * A run of guarded assignments, as an `__init__` performs them: each in
   * turn, stopping at the first `TypeError`.
   */
  function AssignAll(attrs: map<string, Value>, steps: seq<Assignment>): (r: Result<map<string, Value>, TypeError>)
    ensures r.Success? <==> forall i :: 0 <= i < |steps| ==> Admits(steps[i])
    ensures r.Failure? ==>
      exists i :: 0 <= i < |steps| && !Admits(steps[i]) && (forall j :: 0 <= j < i ==> Admits(steps[j]))
        && r.error == TypeError(steps[i].value, steps[i].attr.ty)
    decreases |steps|
  {
    if steps == [] then Success(attrs)
    else
      match Assign(steps[0].attr, attrs, steps[0].value)
      case Failure(e) => Failure(e)
      case Success(m) =>
        var rest := steps[1..];
        assert forall i :: 1 <= i < |steps| ==> steps[i] == rest[i - 1];
        AssignAll(m, rest)
  }

  /**
   * A run that succeeds adds exactly the assigned names and leaves every
   * other attribute alone.
   */
  lemma {:induction false} AssignAllKeys(attrs: map<string, Value>, steps: seq<Assignment>)
    requires AssignAll(attrs, steps).Success?
    ensures var m := AssignAll(attrs, steps).value;
      && m.Keys == attrs.Keys + Names(steps)
      && (forall k :: k in attrs && k !in Names(steps) ==> m[k] == attrs[k])
    decreases |steps|
  {
    if steps != [] {
      var m1 := Assign(steps[0].attr, attrs, steps[0].value).value;
      var rest := steps[1..];
      assert AssignAll(attrs, steps) == AssignAll(m1, rest);
      AssignAllKeys(m1, rest);
      NamesCons(steps);
    }
  }

  /** After a run that succeeds, each name holds the value of its last assignment. */
  lemma {:induction false} AssignAllLastWrite(attrs: map<string, Value>, steps: seq<Assignment>, i: nat)
    requires AssignAll(attrs, steps).Success?
    requires i < |steps| && LastWrite(steps, i)
    ensures var m := AssignAll(attrs, steps).value;
      steps[i].attr.name in m && m[steps[i].attr.name] == steps[i].value
    decreases |steps|
  {
    var m1 := Assign(steps[0].attr, attrs, steps[0].value).value;
    var rest := steps[1..];
    assert AssignAll(attrs, steps) == AssignAll(m1, rest);
    if i == 0 {
      NamesCons(steps);
      assert steps[0].attr.name !in Names(rest) by {
        assert forall j :: 0 <= j < |rest| ==> rest[j] == steps[j + 1];
      }
      AssignAllKeys(m1, rest);
    } else {
      assert steps[i] == rest[i - 1];
      assert LastWrite(rest, i - 1) by {
        assert forall j :: i - 1 < j < |rest| ==> rest[j] == steps[j + 1];
      }
      AssignAllLastWrite(m1, rest, i - 1);
    }
  }

  /** The names of a non-empty run: the first step's, then the rest's. */
  lemma NamesCons(steps: seq<Assignment>)
    requires |steps| > 0
    ensures Names(steps) == {steps[0].attr.name} + Names(steps[1..])
  {
  }

  /** The assignment's value has the type its descriptor declares. */
  predicate Admits(a: Assignment)
  {
    IsInstance(a.value, a.attr.ty)
  }

  /** The attribute names that `steps` assign. */
  function Names(steps: seq<Assignment>): (names: set<string>)
  {
    set i | 0 <= i < |steps| :: steps[i].attr.name
  }

  /** No later step assigns the attribute that step `i` assigns. */
  predicate LastWrite(steps: seq<Assignment>, i: nat)
    requires i < |steps|
  {
    forall j :: i < j < |steps| ==> steps[j].attr.name != steps[i].attr.name
  }

  /**
   * An `int` attribute rejects a float such as 45.5 (and a string), but
   * accepts a `bool`, which Python counts as an `int`.
   */
  lemma IntAttributeAdmits(d: Descriptor, attrs: map<string, Value>, f: real, s: string, b: bool)
    requires d.ty == IntType
    ensures Assign(d, attrs, Float(f)) == Failure(TypeError(Float(f), IntType))
    ensures Assign(d, attrs, Str(s)) == Failure(TypeError(Str(s), IntType))
    ensures Assign(d, attrs, Bool(b)).Success?
  {
  }
}
