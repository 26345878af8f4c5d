/**
 * Generating the flat dictionary of UI parameters from a model's field declarations
 * (`create_params`, `_create_params_dict`, `_create_param` and `_create_param_type_args`).
 *
 * A model is an ordered list of named fields. A field whose type is another model becomes a
 * nested dictionary of parameters, which `Flatten` then turns into dotted keys; any other
 * field becomes one parameter whose UI type is chosen by a closed case analysis on the field's
 * annotation.
 */
module ParamSchema {
  import opened Wrappers
  import opened DottedKeys
  import opened NestedParams
  import opened Enums

  /** A declared field name: a Python identifier, so it holds no dot. */
  type FieldName = s: string | '.' !in s witness "f"

  /** A default value written in a field declaration. */
  datatype Literal = NoneLit | BoolLit(b: bool) | IntLit(i: int) | NumLit(r: real) | StrLit(s: string)

  /** A field's default: the undefined marker, or a literal. */
  datatype Default = Undefined | Given(value: Literal)

  /**
   * A field's annotation. The first seven are the supported ones; `ModelType` is a nested model;
   * `OtherClass` is any other class; `NotAClass` is a type expression that is not a class
   * (such as `Optional[int]`), on which `issubclass` raises.
   */
  datatype Annotation =
    | DateTimeType
    | DateType
    | EnumType(enumName: string, memberValues: seq<string>)
    | BoolType
    | IntType
    | FloatType
    | StrType
    | ModelType(model: Model)
    | OtherClass(className: string)
    | NotAClass(typeText: string)

  /** The parts of a field declaration the parameter generation reads. */
  datatype FieldInfo = FieldInfo(annotation: Annotation, default: Default, description: Option<string>)

  /** A model class: its fields in declaration order. */
  datatype Model = Model(name: string, fields: seq<(FieldName, FieldInfo)>)

  /** The keyword arguments that set a parameter's UI type: `type`, and optionally `format` and `enum`. */
  datatype TypeArgs = TypeArgs(typeName: string, format: Option<string>, enumValues: Option<seq<string>>)

  /** A UI parameter built from a field. */
  datatype Param = Param(default: Literal, typeArgs: TypeArgs, description: Option<string>)

  datatype SchemaError =
    | UnsupportedType(annotation: Annotation)  // the `ValueError` for an unsupported class
    | NotAClassError(typeText: string)         // the `TypeError` `issubclass` raises

  /** The JSON-schema type names a parameter can have. */
  const SchemaTypes: set<string> := {"string", "boolean", "integer", "number"}

  /** The seven annotations `_create_param_type_args` accepts. */
  predicate IsPrimitive(a: Annotation)
  {
    a.DateTimeType? || a.DateType? || a.EnumType? || a.BoolType? || a.IntType? || a.FloatType? || a.StrType?
  }

  /** Every field at every depth has a supported annotation or is a nested model. */
  predicate Supported(a: Annotation)
    decreases a, 1
  {
    IsPrimitive(a) || (a.ModelType? && ModelSupported(a.model))
  }

  predicate ModelSupported(m: Model)
    decreases m, 0
  {
    forall i :: 0 <= i < |m.fields| ==> Supported(m.fields[i].1.annotation)
  }

  // ------------------------------------------------------------ type args

  /**
   * `_create_param_type_args`: date-times and dates are strings with a format, an enumeration
   * is a string restricted to its member values in declaration order, and `bool`, `int`,
   * `float` and `str` map to their schema types; anything else is an error.
   */
  function CreateParamTypeArgs(a: Annotation): (r: Result<TypeArgs, SchemaError>)
    ensures r.Ok? <==> IsPrimitive(a)
    ensures r.Ok? ==> r.value.typeName in SchemaTypes
    ensures r.Ok? ==> (r.value.format.Some? <==> a.DateTimeType? || a.DateType?)
    ensures r.Ok? && r.value.format.Some? ==> r.value.typeName == "string"
    ensures r.Ok? ==> (r.value.enumValues.Some? <==> a.EnumType?)
    ensures a.DateTimeType? ==> r == Ok(TypeArgs("string", Some("date-time"), None))
    ensures a.DateType? ==> r == Ok(TypeArgs("string", Some("date"), None))
    ensures a.EnumType? ==> r == Ok(TypeArgs("string", None, Some(a.memberValues)))
    ensures a.BoolType? ==> r == Ok(TypeArgs("boolean", None, None))
    ensures a.IntType? ==> r == Ok(TypeArgs("integer", None, None))
    ensures a.FloatType? ==> r == Ok(TypeArgs("number", None, None))
    ensures a.StrType? ==> r == Ok(TypeArgs("string", None, None))
    ensures a.NotAClass? ==> r == Err(NotAClassError(a.typeText))
    ensures a.OtherClass? || a.ModelType? ==> r == Err(UnsupportedType(a))
  {
    match a
    case DateTimeType => Ok(TypeArgs("string", Some("date-time"), None))
    case DateType => Ok(TypeArgs("string", Some("date"), None))
    case EnumType(_, values) => Ok(TypeArgs("string", None, Some(values)))
    case BoolType => Ok(TypeArgs("boolean", None, None))
    case IntType => Ok(TypeArgs("integer", None, None))
    case FloatType => Ok(TypeArgs("number", None, None))
    case StrType => Ok(TypeArgs("string", None, None))
    case NotAClass(text) => Err(NotAClassError(text))
    case _ => Err(UnsupportedType(a))
  }

  /**
   * The schema fragment tells the supported annotations apart: two of them give the same type
   * arguments only when they are the same, or are enumerations with the same member values.
   */
  lemma TypeArgsDistinguish(a: Annotation, b: Annotation)
    requires IsPrimitive(a) && IsPrimitive(b)
    requires CreateParamTypeArgs(a) == CreateParamTypeArgs(b)
    ensures a == b || (a.EnumType? && b.EnumType? && a.memberValues == b.memberValues)
  {
  }

  /** The `WeatherVariable` enumeration as an annotation. */
  function WeatherVariableAnnotation(): Annotation
  {
    EnumType("WeatherVariable", VariableValues())
  }

  /** A `WeatherVariable` field is offered as a string chosen from the five member values, in declaration order. */
  lemma WeatherVariableTypeArgs()
    ensures CreateParamTypeArgs(WeatherVariableAnnotation()) ==
      Ok(TypeArgs("string", None, Some(["temperature", "pressure", "humidity", "wind_u", "wind_v"])))
  {
    VariableValuesExact();
  }

  // ------------------------------------------------------------ params

  /** The default a leaf parameter gets: the declared one, or `None` when it is undefined. */
  function DefaultOrNone(d: Default): (l: Literal)
    ensures d.Given? ==> l == d.value
    ensures d.Undefined? ==> l == NoneLit
  {
    if d.Undefined? then NoneLit else d.value
  }

  /**
   * The field named `name` among the fields from index `i` on. A dictionary comprehension over
   * repeated names keeps the last, so the last such field is the one found.
   */
  function Lookup(m: Model, i: nat, name: string): (r: Option<FieldInfo>)
    requires i <= |m.fields|
    ensures r.Some? <==> exists j :: i <= j < |m.fields| && m.fields[j].0 == name
    ensures r.Some? ==> exists j :: i <= j < |m.fields| && m.fields[j].0 == name && m.fields[j].1 == r.value &&
                                (forall k :: j < k < |m.fields| ==> m.fields[k].0 != name)
    decreases |m.fields| - i
  {
    if i == |m.fields| then None
    else
      var later := Lookup(m, i + 1, name);
      if later.Some? then later
      else if m.fields[i].0 == name then Some(m.fields[i].1)
      else None
  }

  /**
   * `_create_param`: a nested model becomes the dictionary of its own parameters; a
   * non-class annotation makes `issubclass` raise; any other field becomes one parameter with its
   * default (or `None`), its type arguments and its description.
   */
  function CreateParam(f: FieldInfo): (r: Result<Value<Param>, SchemaError>)
    ensures r.Ok? && r.value.Node? ==> NoNodes(r.value.children)
    decreases f, 2
  {
    match f.annotation
    case ModelType(m) =>
      var d :- CreateParamsDict(m);
      Ok(Node(d))
    case NotAClass(text) => Err(NotAClassError(text))
    case OtherClass(_) => Err(CreateParamTypeArgs(f.annotation).error)
    case _ => Ok(Leaf(Param(DefaultOrNone(f.default), CreateParamTypeArgs(f.annotation).value, f.description)))
  }

  /**
   * The dictionary comprehension of `_create_params_dict` over the fields from index `i` on:
   * each field name maps to its parameter (the last field wins for a repeated name), and the
   * first field that fails makes the whole comprehension fail.
   */
  function CreateNested(m: Model, i: nat): (r: Result<Dict<Param>, SchemaError>)
    requires i <= |m.fields|
    ensures r.Ok? ==> forall k :: k in r.value ==> '.' !in k && (r.value[k].Node? ==> NoNodes(r.value[k].children))
    decreases m, 0, |m.fields| - i
  {
    if i == |m.fields| then Ok(map[])
    else
      var v :- CreateParam(m.fields[i].1);
      var rest :- CreateNested(m, i + 1);
      Ok(map[m.fields[i].0 := v] + rest)
  }

  /**
   * `_create_params_dict`: the parameters of all fields, with nested models flattened into
   * dotted keys; the result holds parameters only.
   */
  function CreateParamsDict(m: Model): (r: Result<Dict<Param>, SchemaError>)
    ensures r.Ok? ==> NoNodes(r.value)
    decreases m, 1
  {
    var nested :- CreateNested(m, 0);
    assert Flattenable(nested);
    Ok(Flatten(nested))
  }

  // ------------------------------------------------------------ what the generation produces

  /** What `CreateParam` makes of a single field, nested or not. */
  lemma CreateParamShape(f: FieldInfo)
    ensures f.annotation.ModelType? ==>
      (CreateParam(f).Ok? <==> CreateParamsDict(f.annotation.model).Ok?) &&
      (CreateParam(f).Ok? ==> CreateParam(f).value == Node(CreateParamsDict(f.annotation.model).value))
    ensures !f.annotation.ModelType? && !f.annotation.NotAClass? ==>
      (CreateParam(f).Ok? <==> IsPrimitive(f.annotation)) &&
      (CreateParam(f).Ok? ==>
         CreateParam(f).value == Leaf(Param(DefaultOrNone(f.default), CreateParamTypeArgs(f.annotation).value, f.description)))
    ensures !f.annotation.ModelType? && CreateParam(f).Err? ==> CreateParam(f).error == CreateParamTypeArgs(f.annotation).error
    ensures CreateParam(f).Ok? ==> (CreateParam(f).value.Node? <==> f.annotation.ModelType?)
  {
  }

  /** A field yields a parameter exactly when its annotation is supported at every depth. */
  lemma {:induction false} CreateParamOk(f: FieldInfo)
    ensures CreateParam(f).Ok? <==> Supported(f.annotation)
    decreases f, 2
  {
    if f.annotation.ModelType? {
      CreateParamsDictOk(f.annotation.model);
    }
  }

  lemma {:induction false} CreateNestedOk(m: Model, i: nat)
    requires i <= |m.fields|
    ensures CreateNested(m, i).Ok? <==> forall j :: i <= j < |m.fields| ==> Supported(m.fields[j].1.annotation)
    decreases m, 0, |m.fields| - i
  {
    if i < |m.fields| {
      CreateParamOk(m.fields[i].1);
      CreateNestedOk(m, i + 1);
    }
  }

  /** `_create_params_dict` succeeds exactly when every field at every depth is supported. */
  lemma {:induction false} CreateParamsDictOk(m: Model)
    ensures CreateParamsDict(m).Ok? <==> ModelSupported(m)
    decreases m, 1
  {
    CreateNestedOk(m, 0);
  }

  /** The comprehension has one key per field name, and each key holds the parameter of the field it keeps. */
  lemma {:induction false} CreateNestedEntries(m: Model, i: nat, k: string)
    requires i <= |m.fields| && CreateNested(m, i).Ok?
    ensures k in CreateNested(m, i).value <==> Lookup(m, i, k).Some?
    ensures k in CreateNested(m, i).value ==> CreateParam(Lookup(m, i, k).value) == Ok(CreateNested(m, i).value[k])
    decreases |m.fields| - i
  {
    if i < |m.fields| {
      CreateNestedEntries(m, i + 1, k);
    }
  }

  /**
   * Following the field names in `path` through nested models reaches the (non-model) field
   * `f`; at each level the field of that name is the one the comprehension keeps.
   */
  ghost predicate FieldAt(m: Model, path: seq<string>, f: FieldInfo)
    decreases |path|
  {
    |path| > 0 && Lookup(m, 0, path[0]).Some? &&
    var g := Lookup(m, 0, path[0]).value;
    if |path| == 1 then g == f && !g.annotation.ModelType?
    else g.annotation.ModelType? && FieldAt(g.annotation.model, path[1..], f)
  }

  /** A field found by `Lookup` is one of the model's fields, so its nested model is smaller than the model. */
  lemma LookupInModel(m: Model, name: string) returns (j: nat)
    requires Lookup(m, 0, name).Some?
    ensures j < |m.fields| && m.fields[j].0 == name && m.fields[j].1 == Lookup(m, 0, name).value
  {
    j :| 0 <= j < |m.fields| && m.fields[j].0 == name && m.fields[j].1 == Lookup(m, 0, name).value &&
         (forall k :: j < k < |m.fields| ==> m.fields[k].0 != name);
  }

  /**
   * Every generated key names a path of fields: split at its dots, it leads through nested
   * models to a field whose parameter is the key's value.
   */
  lemma {:induction false} ParamsDictFields(m: Model, key: string)
    requires CreateParamsDict(m).Ok? && key in CreateParamsDict(m).value
    ensures exists f :: FieldAt(m, Split(key), f) && CreateParam(f) == Ok(CreateParamsDict(m).value[key])
    decreases m, 1
  {
    var nested := CreateNested(m, 0).value;
    if key in nested && nested[key].Leaf? {
      ParamsDictLeafField(m, key);
    } else {
      ParamsDictNestedField(m, key);
    }
  }

  /** A key the comprehension produced as a leaf names a field of the model itself. */
  lemma ParamsDictLeafField(m: Model, key: string)
    requires CreateParamsDict(m).Ok? && key in CreateParamsDict(m).value
    requires key in CreateNested(m, 0).value && CreateNested(m, 0).value[key].Leaf?
    ensures exists f :: FieldAt(m, Split(key), f) && CreateParam(f) == Ok(CreateParamsDict(m).value[key])
  {
    var nested := CreateNested(m, 0).value;
    assert CreateParamsDict(m).value == Flatten(nested);
    CreateNestedEntries(m, 0, key);
    var g := Lookup(m, 0, key).value;
    CreateParamShape(g);
    if !NoNodes(nested) {
      FlattenEntries(nested);
    }
    assert Split(key) == [key];
    assert FieldAt(m, Split(key), g);
  }

  /** A key that came out of a nested model names a path through that model's field. */
  lemma {:induction false} ParamsDictNestedField(m: Model, key: string)
    requires CreateParamsDict(m).Ok? && key in CreateParamsDict(m).value
    requires !(key in CreateNested(m, 0).value && CreateNested(m, 0).value[key].Leaf?)
    ensures exists f :: FieldAt(m, Split(key), f) && CreateParam(f) == Ok(CreateParamsDict(m).value[key])
    decreases m, 0
  {
    var nested := CreateNested(m, 0).value;
    assert CreateParamsDict(m).value == Flatten(nested);
    assert !NoNodes(nested);
    FlattenKeysOrigin(nested);
    var h, t := Head(key), Tail(key);
    CreateNestedEntries(m, 0, h);
    var g := Lookup(m, 0, h).value;
    CreateParamShape(g);
    var j := LookupInModel(m, h);
    var sub := g.annotation.model;
    assert sub == m.fields[j].1.annotation.model;
    ParamsDictFields(sub, t);
    var f :| FieldAt(sub, Split(t), f) && CreateParam(f) == Ok(CreateParamsDict(sub).value[t]);
    DottedIsHeadTail(key);
    FieldAtDotted(m, h, t, f);
  }

  /** A path into the nested model of field `h` extends to a path from `m` under the key `h.t`. */
  lemma FieldAtDotted(m: Model, h: string, t: string, f: FieldInfo)
    requires '.' !in h && Lookup(m, 0, h).Some? && Lookup(m, 0, h).value.annotation.ModelType?
    requires FieldAt(Lookup(m, 0, h).value.annotation.model, Split(t), f)
    ensures FieldAt(m, Split(h + "." + t), f)
  {
    SplitOfDotted(h, t);
    assert Split(h + "." + t)[1..] == Split(t);
  }

  /** Conversely, every path of fields gives a key, whose value is that field's parameter. */
  lemma {:induction false} ParamsDictHasField(m: Model, key: string, f: FieldInfo)
    requires CreateParamsDict(m).Ok? && FieldAt(m, Split(key), f)
    ensures key in CreateParamsDict(m).value && CreateParam(f) == Ok(CreateParamsDict(m).value[key])
    decreases m
  {
    var nested := CreateNested(m, 0).value;
    var p := Split(key);
    var h := p[0];
    var g := Lookup(m, 0, h).value;
    CreateNestedEntries(m, 0, h);
    CreateParamShape(g);
    if |p| == 1 {
      assert '.' !in key;
      assert key == h;
      if !NoNodes(nested) {
        FlattenEntries(nested);
      }
    } else {
      assert '.' in key;
      var t := Tail(key);
      assert Head(key) == h;
      var j := LookupInModel(m, h);
      var sub := g.annotation.model;
      assert sub == m.fields[j].1.annotation.model;
      assert p[1..] == Split(t);
      ParamsDictHasField(sub, t, f);
      var children := CreateParamsDict(sub).value;
      assert nested[h] == Node(children);
      FlattenEntries(nested);
      DottedIsHeadTail(key);
      assert Flatten(children) == children;
    }
  }

  /** The path `q` of fields leads to a field whose parameter is `w`. */
  ghost predicate ParamAt(m: Model, q: seq<string>, w: Param)
  {
    exists f :: FieldAt(m, q, f) && CreateParam(f) == Ok(Leaf(w))
  }

  /** A path of fields ends at a non-model field, so it is never a proper prefix of another path. */
  lemma {:induction false} FieldAtPrefixFree(m: Model, p: seq<string>, f: FieldInfo, q: seq<string>, g: FieldInfo)
    requires FieldAt(m, p, f) && FieldAt(m, q, g)
    ensures p <= q ==> p == q && f == g
    decreases |p|
  {
    if |p| > 1 {
      if p <= q {
        var sub := Lookup(m, 0, p[0]).value.annotation.model;
        assert p[1..] <= q[1..];
        FieldAtPrefixFree(sub, p[1..], f, q[1..], g);
      }
    }
  }

  /**
   * The parameters the UI sends back, in whatever order, unflatten without error into the
   * nested shape of the model: the leaves of the nested dictionary are exactly the fields
   * reached through nested models, each holding its parameter.
   */
  lemma ParamsUnflatten(m: Model, es: Entries<Param>)
    requires CreateParamsDict(m).Ok?
    requires DistinctKeys(es) && ToDict(es) == CreateParamsDict(m).value
    ensures Unflatten(es).Ok?
    ensures forall q, f :: FieldAt(m, q, f) ==>
      CreateParam(f).Ok? && CreateParam(f).value.Leaf? && LeafAt(Unflatten(es).value, q, CreateParam(f).value.param)
    ensures forall q, w :: LeafAt(Unflatten(es).value, q, w) ==> ParamAt(m, q, w)
  {
    ParamsPrefixFree(m, es);
    UnflattenLeaves(es);
    FieldsAreLeaves(m, es);
    LeavesAreFields(m, es);
  }

  lemma FieldsAreLeaves(m: Model, es: Entries<Param>)
    requires CreateParamsDict(m).Ok?
    requires DistinctKeys(es) && ToDict(es) == CreateParamsDict(m).value
    requires Unflatten(es).Ok?
    requires forall q, w :: LeafAt(Unflatten(es).value, q, w) <==> exists i :: 0 <= i < |es| && Split(es[i].0) == q && es[i].1 == w
    ensures forall q, f :: FieldAt(m, q, f) ==>
      CreateParam(f).Ok? && CreateParam(f).value.Leaf? && LeafAt(Unflatten(es).value, q, CreateParam(f).value.param)
  {
    var t := Unflatten(es).value;
    forall i | 0 <= i < |es| ensures LeafAt(t, Split(es[i].0), es[i].1) {
      assert exists j :: 0 <= j < |es| && Split(es[j].0) == Split(es[i].0) && es[j].1 == es[i].1;
    }
    forall q, f | FieldAt(m, q, f)
      ensures CreateParam(f).Ok? && CreateParam(f).value.Leaf? && LeafAt(t, q, CreateParam(f).value.param)
    {
      FieldIsLeaf(m, es, t, q, f);
    }
  }

  lemma LeavesAreFields(m: Model, es: Entries<Param>)
    requires CreateParamsDict(m).Ok?
    requires DistinctKeys(es) && ToDict(es) == CreateParamsDict(m).value
    requires PrefixFree(es)
    ensures Unflatten(es).Ok?
    ensures forall q, w :: LeafAt(Unflatten(es).value, q, w) ==> ParamAt(m, q, w)
  {
    UnflattenLeaves(es);
    forall q, w | LeafAt(Unflatten(es).value, q, w) ensures ParamAt(m, q, w) {
      LeafIsField(m, es, q, w);
    }
  }

  /** No generated key, split at its dots, is a prefix of another's. */
  lemma ParamsPrefixFree(m: Model, es: Entries<Param>)
    requires CreateParamsDict(m).Ok?
    requires DistinctKeys(es) && ToDict(es) == CreateParamsDict(m).value
    ensures PrefixFree(es)
  {
    ToDictEntries(es);
    forall i, j | 0 <= i < |es| && 0 <= j < |es| && i != j ensures !(Split(es[i].0) <= Split(es[j].0)) {
      KeysPrefixFree(m, es[i].0, es[j].0);
      assert es[i].0 != es[j].0 by {
        if i < j {} else {}
      }
    }
  }

  lemma KeysPrefixFree(m: Model, k1: string, k2: string)
    requires CreateParamsDict(m).Ok? && k1 in CreateParamsDict(m).value && k2 in CreateParamsDict(m).value
    ensures Split(k1) <= Split(k2) ==> k1 == k2
  {
    ParamsDictFields(m, k1);
    ParamsDictFields(m, k2);
    var f :| FieldAt(m, Split(k1), f) && CreateParam(f) == Ok(CreateParamsDict(m).value[k1]);
    var g :| FieldAt(m, Split(k2), g) && CreateParam(g) == Ok(CreateParamsDict(m).value[k2]);
    FieldAtPrefixFree(m, Split(k1), f, Split(k2), g);
    if Split(k1) == Split(k2) {
      SplitInjective(k1, k2);
    }
  }

  lemma FieldIsLeaf(m: Model, es: Entries<Param>, t: Dict<Param>, q: seq<string>, f: FieldInfo)
    requires CreateParamsDict(m).Ok?
    requires DistinctKeys(es) && ToDict(es) == CreateParamsDict(m).value
    requires forall i :: 0 <= i < |es| ==> LeafAt(t, Split(es[i].0), es[i].1)
    requires FieldAt(m, q, f)
    ensures CreateParam(f).Ok? && CreateParam(f).value.Leaf? && LeafAt(t, q, CreateParam(f).value.param)
  {
    var r := CreateParamsDict(m).value;
    var key := Join(q);
    FieldAtNames(m, q, f);
    SplitJoin(q);
    ParamsDictHasField(m, key, f);
    ToDictEntries(es);
    var i :| 0 <= i < |es| && es[i].0 == key && r[key] == Leaf(es[i].1);
    assert LeafAt(t, Split(es[i].0), es[i].1);
  }

  lemma LeafIsField(m: Model, es: Entries<Param>, q: seq<string>, w: Param)
    requires CreateParamsDict(m).Ok?
    requires DistinctKeys(es) && ToDict(es) == CreateParamsDict(m).value
    requires PrefixFree(es)
    requires Unflatten(es).Ok? && LeafAt(Unflatten(es).value, q, w)
    ensures ParamAt(m, q, w)
  {
    UnflattenLeaves(es);
    var r := CreateParamsDict(m).value;
    var i :| 0 <= i < |es| && Split(es[i].0) == q && es[i].1 == w;
    ToDictEntries(es);
    assert r[es[i].0] == Leaf(w);
    ParamsDictFields(m, es[i].0);
    var f :| FieldAt(m, Split(es[i].0), f) && CreateParam(f) == Ok(r[es[i].0]);
  }

  /** The names along a path of fields are field names, so they hold no dot. */
  lemma {:induction false} FieldAtNames(m: Model, p: seq<string>, f: FieldInfo)
    requires FieldAt(m, p, f)
    ensures |p| > 0 && DotFree(p)
    decreases |p|
  {
    var j := LookupInModel(m, p[0]);
    if |p| > 1 {
      FieldAtNames(Lookup(m, 0, p[0]).value.annotation.model, p[1..], f);
      assert forall i :: 1 <= i < |p| ==> p[i] == p[1..][i - 1];
    }
  }

  // ------------------------------------------------------------ the documented example

  /** `class BarClass(BaseModel): qux: str; quz: int` */
  const BarClass: Model := Model("BarClass", [
    ("qux", FieldInfo(StrType, Undefined, None)),
    ("quz", FieldInfo(IntType, Undefined, None))])

  /** `class Foo(BaseModel): bar: int; baz: BarClass` */
  const Foo: Model := Model("Foo", [
    ("bar", FieldInfo(IntType, Undefined, None)),
    ("baz", FieldInfo(ModelType(BarClass), Undefined, None))])

  /** Flattening `Foo` gives exactly the keys `bar`, `baz.qux` and `baz.quz`, as documented. */
  lemma FooParams(m: Model)
    requires m == Foo
    ensures CreateParamsDict(m).Ok?
    ensures CreateParamsDict(m).value.Keys == {"bar", "baz.qux", "baz.quz"}
  {
    FooSupported(m);
    FooKeysDocumented(m);
    FooDocumentedKeys(m);
  }

  lemma FooKeysDocumented(m: Model)
    requires m == Foo && CreateParamsDict(m).Ok?
    ensures "bar" in CreateParamsDict(m).value
    ensures "baz.qux" in CreateParamsDict(m).value && "baz.quz" in CreateParamsDict(m).value
  {
    FooHasBar(m);
    FooHasBazKey(m, "qux", 0);
    FooHasBazKey(m, "quz", 1);
    FooDottedKeys();
  }

  lemma FooDocumentedKeys(m: Model)
    requires m == Foo && CreateParamsDict(m).Ok?
    ensures forall key :: key in CreateParamsDict(m).value ==> key in {"bar", "baz.qux", "baz.quz"}
  {
    forall key | key in CreateParamsDict(m).value ensures key in {"bar", "baz.qux", "baz.quz"} {
      FooKeyIsDocumented(m, key);
    }
  }

  lemma FooSupported(m: Model)
    requires m == Foo
    ensures CreateParamsDict(m).Ok?
  {
    CreateParamsDictOk(m);
    assert ModelSupported(BarClass);
  }

  lemma FooHasBar(m: Model)
    requires m == Foo && CreateParamsDict(m).Ok?
    ensures "bar" in CreateParamsDict(m).value
  {
    assert Split("bar") == ["bar"];
    assert FieldAt(m, ["bar"], m.fields[0].1);
    ParamsDictHasField(m, "bar", m.fields[0].1);
  }

  lemma FooHasBazKey(m: Model, name: FieldName, i: nat)
    requires m == Foo && CreateParamsDict(m).Ok?
    requires i < |BarClass.fields| && BarClass.fields[i].0 == name
    ensures "baz" + "." + name in CreateParamsDict(m).value
  {
    var f := BarClass.fields[i].1;
    SplitOfDotted("baz", name);
    assert Split("baz" + "." + name) == ["baz", name];
    assert Lookup(BarClass, 0, name) == Some(f);
    assert FieldAt(BarClass, [name], f);
    assert FieldAt(m, ["baz", name], f);
    ParamsDictHasField(m, "baz" + "." + name, f);
  }

  lemma FooKeyIsDocumented(m: Model, key: string)
    requires m == Foo && CreateParamsDict(m).Ok? && key in CreateParamsDict(m).value
    ensures key in {"bar", "baz.qux", "baz.quz"}
  {
    ParamsDictFields(m, key);
    var f :| FieldAt(m, Split(key), f) && CreateParam(f) == Ok(CreateParamsDict(m).value[key]);
    FooFieldPath(m, key, f);
  }

  /** The field paths of `Foo` are `bar`, `baz.qux` and `baz.quz`. */
  lemma FooFieldPath(m: Model, key: string, f: FieldInfo)
    requires m == Foo && FieldAt(m, Split(key), f)
    ensures key in {"bar", "baz.qux", "baz.quz"}
  {
    var p := Split(key);
    JoinSplit(key);
    if p[0] == "bar" {
      assert p == ["bar"];
      assert key == Join(["bar"]);
    } else {
      assert p[0] == "baz" && |p| > 1;
      var rest := p[1..];
      assert FieldAt(m.fields[1].1.annotation.model, rest, f);
      assert |rest| == 1;
      assert p == ["baz", rest[0]];
      assert key == "baz" + "." + rest[0];
      assert rest[0] == "qux" || rest[0] == "quz";
      FooDottedKeys();
    }
  }

  lemma FooDottedKeys()
    ensures "baz" + "." + "qux" == "baz.qux" && "baz" + "." + "quz" == "baz.quz"
  {
  }
}
