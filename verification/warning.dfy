/**
 * The `Warning` record of doxygen_whiner/warning.py: three type-checked
 * attributes `file: str`, `line: int` and `text: str`, assigned in that
 * order by the constructor. The module's private `_TypeCheckedAttribute` is
 * the same descriptor as `Utils`' and is modelled by `Utils.Set`/`Utils.Get`.
 */
module Warnings {
  import opened Wrappers
  import opened Utils

  const FileAttr := Descriptor("file", StrType)
  const LineAttr := Descriptor("line", IntType)
  const TextAttr := Descriptor("text", StrType)

  /** The three assignments of `Warning.__init__`, in source order. */
  function InitSteps(file: Value, line: Value, text: Value): (steps: seq<Assignment>)
  {
    [Assignment(FileAttr, file), Assignment(LineAttr, line), Assignment(TextAttr, text)]
  }

  /** The instance dictionary of a constructed `Warning`. */
  function WarningAttrs(file: Value, line: Value, text: Value): (attrs: map<string, Value>)
  {
    map["file" := file, "line" := line, "text" := text]
  }

  /** An object whose three `Warning` attributes are present and well typed. */
  predicate IsWarning(w: Instance)
    reads w
  {
    HasTyped(w.attrs, FileAttr) && HasTyped(w.attrs, LineAttr) && HasTyped(w.attrs, TextAttr)
  }

  /**
   * `Warning(file, line, text)`: the first ill-typed argument, in the order
   * file, line, text, raises its `TypeError`; otherwise every value is stored.
   */
  method NewWarning(file: Value, line: Value, text: Value) returns (r: Result<Instance, TypeError>)
    ensures r.Success? <==> IsInstance(file, StrType) && IsInstance(line, IntType) && IsInstance(text, StrType)
    ensures r.Failure? ==> AssignAll(map[], InitSteps(file, line, text)) == Failure(r.error)
    ensures r.Success? ==> fresh(r.value) && r.value.attrs == WarningAttrs(file, line, text)
    ensures r.Success? ==> IsWarning(r.value)
    ensures r.Success? ==>
      Get(FileAttr, r.value) == Stored(file) && Get(LineAttr, r.value) == Stored(line) && Get(TextAttr, r.value) == Stored(text)
  {
    InitChecksInOrder(file, line, text);
    var w := new Instance();
    var o := Set(FileAttr, w, file);
    if o.Fail? {
      return Failure(o.error);
    }
    o := Set(LineAttr, w, line);
    if o.Fail? {
      return Failure(o.error);
    }
    o := Set(TextAttr, w, text);
    if o.Fail? {
      return Failure(o.error);
    }
    return Success(w);
  }

  /**
   * The error of a failed `Warning(file, line, text)` is the one for the first
   * ill-typed field in the order file, line, text, whatever the later ones are.
   */
  lemma {:induction false} InitChecksInOrder(file: Value, line: Value, text: Value)
    ensures !IsInstance(file, StrType) ==>
      AssignAll(map[], InitSteps(file, line, text)) == Failure(TypeError(file, StrType))
    ensures IsInstance(file, StrType) && !IsInstance(line, IntType) ==>
      AssignAll(map[], InitSteps(file, line, text)) == Failure(TypeError(line, IntType))
    ensures IsInstance(file, StrType) && IsInstance(line, IntType) && !IsInstance(text, StrType) ==>
      AssignAll(map[], InitSteps(file, line, text)) == Failure(TypeError(text, StrType))
    ensures IsInstance(file, StrType) && IsInstance(line, IntType) && IsInstance(text, StrType) ==>
      AssignAll(map[], InitSteps(file, line, text)) == Success(WarningAttrs(file, line, text))
  {
    var steps := InitSteps(file, line, text);
    if IsInstance(file, StrType) {
      var m1 := map["file" := file];
      assert steps[1..] == [Assignment(LineAttr, line), Assignment(TextAttr, text)];
      assert AssignAll(map[], steps) == AssignAll(m1, steps[1..]);
      if IsInstance(line, IntType) {
        var m2 := m1["line" := line];
        assert steps[1..][1..] == [Assignment(TextAttr, text)];
        assert AssignAll(m1, steps[1..]) == AssignAll(m2, steps[1..][1..]);
        if IsInstance(text, StrType) {
          assert steps[1..][1..][1..] == [];
          assert AssignAll(m2, steps[1..][1..]) == AssignAll(m2["text" := text], []);
          assert m2["text" := text] == WarningAttrs(file, line, text);
        }
      }
    }
  }

  /**
   * Only the types are checked: an empty file name, an empty text and a line
   * number that is zero or negative are all accepted.
   */
  lemma ValuesAreNotChecked(n: int)
    ensures AssignAll(map[], InitSteps(Str(""), Int(n), Str(""))).Success?
  {
    InitChecksInOrder(Str(""), Int(n), Str(""));
  }

  /** A float line number, such as 45.5, is rejected with the `TypeError` for `line`. */
  lemma FloatLineIsRejected(f: real)
    ensures AssignAll(map[], InitSteps(Str(""), Float(f), Str(""))) == Failure(TypeError(Float(f), IntType))
  {
    InitChecksInOrder(Str(""), Float(f), Str(""));
  }
}
