/**
 The functional-options builder of library/logger/logger.go: the `Options` record,
 its defaults, the `With*` setters and the order in which `NewLogger` applies them.

 Each Go closure returned by a `With*` function is represented by the datatype
 `Option`, which records which closure it is and the argument it captured.
 */
module Settings {

  /** An output sink. The caller's `io.Writer` values are opaque here and are known
      only by an identifier; `Stdout` is the process's standard output. */
  datatype Writer = Stdout | Given(id: nat)

  /** The six fields of `Options`, as a value. */
  datatype OptionValues = OptionValues(
    level: string,
    callSkip: int,
    moduleName: string,
    serviceName: string,
    infoWriter: Writer,
    errorWriter: Writer)

  /** The closures built by `WithCallerSkip`, `WithModule`, `WithServiceName`,
      `WithInfoWriter`, `WithErrorWriter` and `WithLevel`. */
  datatype Option =
    | WithCallerSkip(skip: int)
    | WithModule(name: string)
    | WithServiceName(serviceName: string)
    | WithInfoWriter(w: Writer)
    | WithErrorWriter(w: Writer)
    | WithLevel(l: string)

  /** Names for the six fields, so that one statement covers all of them. */
  datatype OptionField = LevelField | CallSkipField | ModuleField | ServiceNameField
                       | InfoWriterField | ErrorWriterField

  /** The content of one field; fields have different Go types. */
  datatype Setting = Text(s: string) | Number(n: int) | Sink(w: Writer)

  function Get(v: OptionValues, f: OptionField): Setting
  {
    match f
    case LevelField => Text(v.level)
    case CallSkipField => Number(v.callSkip)
    case ModuleField => Text(v.moduleName)
    case ServiceNameField => Text(v.serviceName)
    case InfoWriterField => Sink(v.infoWriter)
    case ErrorWriterField => Sink(v.errorWriter)
  }

  /** The field an option's closure assigns. */
  function Target(o: Option): OptionField
  {
    match o
    case WithCallerSkip(_) => CallSkipField
    case WithModule(_) => ModuleField
    case WithServiceName(_) => ServiceNameField
    case WithInfoWriter(_) => InfoWriterField
    case WithErrorWriter(_) => ErrorWriterField
    case WithLevel(_) => LevelField
  }

  /** The value an option's closure assigns. */
  function Arg(o: Option): Setting
  {
    match o
    case WithCallerSkip(skip) => Number(skip)
    case WithModule(m) => Text(m)
    case WithServiceName(s) => Text(s)
    case WithInfoWriter(w) => Sink(w)
    case WithErrorWriter(w) => Sink(w)
    case WithLevel(l) => Text(l)
  }

  /** Two option records with the same six fields are the same record. */
  lemma {:induction false} FieldsDetermineValues(a: OptionValues, b: OptionValues)
    requires forall f :: Get(a, f) == Get(b, f)
    ensures a == b
  {
    assert Get(a, LevelField) == Get(b, LevelField);
    assert Get(a, CallSkipField) == Get(b, CallSkipField);
    assert Get(a, ModuleField) == Get(b, ModuleField);
    assert Get(a, ServiceNameField) == Get(b, ServiceNameField);
    assert Get(a, InfoWriterField) == Get(b, InfoWriterField);
    assert Get(a, ErrorWriterField) == Get(b, ErrorWriterField);
  }

  /** What running one closure does to the record: its own field takes its
      argument and every other field keeps its value. */
  function Set(v: OptionValues, o: Option): (r: OptionValues)
    ensures Get(r, Target(o)) == Arg(o)
    ensures forall f :: f != Target(o) ==> Get(r, f) == Get(v, f)
  {
    match o
    case WithCallerSkip(skip) => v.(callSkip := skip)
    case WithModule(m) => v.(moduleName := m)
    case WithServiceName(s) => v.(serviceName := s)
    case WithInfoWriter(w) => v.(infoWriter := w)
    case WithErrorWriter(w) => v.(errorWriter := w)
    case WithLevel(l) => v.(level := l)
  }

  /** `defaultOptions`: level "info", caller skip 1, module and service name
      "default", both writers standard output. */
  function Defaults(): (d: OptionValues)
    ensures Get(d, LevelField) == Text("info") && Get(d, CallSkipField) == Number(1)
    ensures Get(d, ModuleField) == Text("default") && Get(d, ServiceNameField) == Text("default")
    ensures Get(d, InfoWriterField) == Sink(Stdout) && Get(d, ErrorWriterField) == Sink(Stdout)
  {
    OptionValues("info", 1, "default", "default", Stdout, Stdout)
  }

  /** The record after the closures `ops` have run on `v`, first to last: the
      field the last one targets holds its argument. */
  function ApplyAll(v: OptionValues, ops: seq<Option>): (r: OptionValues)
    ensures ops == [] ==> r == v
    ensures ops != [] ==> Get(r, Target(ops[|ops| - 1])) == Arg(ops[|ops| - 1])
    decreases |ops|
  {
    if ops == [] then v else Set(ApplyAll(v, ops[..|ops| - 1]), ops[|ops| - 1])
  }

  /** The record `NewLogger` ends up with for the options it is given; a field
      no option targets holds its default. */
  function Effective(ops: seq<Option>): (r: OptionValues)
    ensures forall f :: (forall i :: 0 <= i < |ops| ==> Target(ops[i]) != f) ==>
              Get(r, f) == Get(Defaults(), f)
  {
    LastWriteWins(Defaults(), ops, LevelField);
    LastWriteWins(Defaults(), ops, CallSkipField);
    LastWriteWins(Defaults(), ops, ModuleField);
    LastWriteWins(Defaults(), ops, ServiceNameField);
    LastWriteWins(Defaults(), ops, InfoWriterField);
    LastWriteWins(Defaults(), ops, ErrorWriterField);
    ApplyAll(Defaults(), ops)
  }

  /** A field that no option targets keeps its initial value. */
  lemma {:induction false} UntouchedFieldKept(v: OptionValues, ops: seq<Option>, f: OptionField)
    requires forall i :: 0 <= i < |ops| ==> Target(ops[i]) != f
    ensures Get(ApplyAll(v, ops), f) == Get(v, f)
    decreases |ops|
  {
    if ops != [] {
      var init := ops[..|ops| - 1];
      assert forall i :: 0 <= i < |init| ==> init[i] == ops[i];
      UntouchedFieldKept(v, init, f);
    }
  }

  /** A field holds the argument of the last option that targets it. */
  lemma {:induction false} LastSetterKept(v: OptionValues, ops: seq<Option>, f: OptionField, i: nat)
    requires i < |ops| && Target(ops[i]) == f
    requires forall j :: i < j < |ops| ==> Target(ops[j]) != f
    ensures Get(ApplyAll(v, ops), f) == Arg(ops[i])
    decreases |ops|
  {
    if i < |ops| - 1 {
      var init := ops[..|ops| - 1];
      assert forall j :: 0 <= j < |init| ==> init[j] == ops[j];
      LastSetterKept(v, init, f, i);
    }
  }

  /** Last write wins, field by field: a field no option targets keeps its
      initial value, and a field some option targets holds the argument of the
      last option that targets it. */
  lemma LastWriteWins(v: OptionValues, ops: seq<Option>, f: OptionField)
    ensures (forall i :: 0 <= i < |ops| ==> Target(ops[i]) != f) ==>
              Get(ApplyAll(v, ops), f) == Get(v, f)
    ensures forall i :: 0 <= i < |ops| && Target(ops[i]) == f &&
                        (forall j :: i < j < |ops| ==> Target(ops[j]) != f) ==>
              Get(ApplyAll(v, ops), f) == Arg(ops[i])
  {
    if forall i :: 0 <= i < |ops| ==> Target(ops[i]) != f {
      UntouchedFieldKept(v, ops, f);
    }
    forall i | 0 <= i < |ops| && Target(ops[i]) == f &&
               (forall j :: i < j < |ops| ==> Target(ops[j]) != f)
      ensures Get(ApplyAll(v, ops), f) == Arg(ops[i])
    {
      LastSetterKept(v, ops, f, i);
    }
  }

  /** Options that target different fields may be given in either order. */
  lemma SettersOnDifferentFieldsCommute(v: OptionValues, a: Option, b: Option)
    requires Target(a) != Target(b)
    ensures ApplyAll(v, [a, b]) == ApplyAll(v, [b, a])
  {
    var ab, ba := ApplyAll(v, [a, b]), ApplyAll(v, [b, a]);
    assert [a, b][..1] == [a] && [b, a][..1] == [b];
    assert [a][..0] == [] && [b][..0] == [];
    assert ApplyAll(v, [a]) == Set(v, a) && ApplyAll(v, [b]) == Set(v, b);
    assert ab == Set(ApplyAll(v, [a]), b) && ba == Set(ApplyAll(v, [b]), a);
    forall f ensures Get(ab, f) == Get(ba, f) {
    }
    FieldsDetermineValues(ab, ba);
  }

  /** With no options the effective record is the default one. */
  lemma NoOptionsGiveDefaults()
    ensures Effective([]) == OptionValues("info", 1, "default", "default", Stdout, Stdout)
  {
  }

  /** Setting the module twice leaves the second value. */
  lemma ModuleSetTwice()
    ensures Effective([WithModule("a"), WithModule("b")]).moduleName == "b"
  {
    var ops := [WithModule("a"), WithModule("b")];
    LastWriteWins(Defaults(), ops, ModuleField);
  }

  /** The mutable `Options` record that the closures update in place. */
  class Options {
    var level: string
    var callSkip: int
    var moduleName: string
    var serviceName: string
    var infoWriter: Writer
    var errorWriter: Writer

    /** The record's current contents. */
    function Value(): OptionValues
      reads this
    {
      OptionValues(level, callSkip, moduleName, serviceName, infoWriter, errorWriter)
    }

    /** `defaultOptions`: a fresh record holding the defaults. */
    constructor ()
      ensures Value() == Defaults()
      ensures level == "info" && callSkip == 1 && moduleName == "default"
      ensures serviceName == "default" && infoWriter == Stdout && errorWriter == Stdout
    {
      level := "info";
      callSkip := 1;
      moduleName := "default";
      serviceName := "default";
      infoWriter := Stdout;
      errorWriter := Stdout;
    }

    /** `o(opts)`: run one closure on the record, assigning its one field. */
    method Apply(o: Option)
      modifies this
      ensures Value() == Set(old(Value()), o)
    {
      match o
      case WithCallerSkip(skip) => callSkip := skip;
      case WithModule(m) => moduleName := m;
      case WithServiceName(s) => serviceName := s;
      case WithInfoWriter(w) => infoWriter := w;
      case WithErrorWriter(w) => errorWriter := w;
      case WithLevel(l) => level := l;
    }
  }
}
