/**
 * The app-panel command line: `parse_bool`, and the rules by which
 * `create_parser` turns each parameter record of the decoded app-panel JSON
 * into the keyword arguments of one `add_argument` call. Reading the JSON
 * file, argparse itself and the help text are not modelled; the parser is
 * the list of argument specifications added to it, in order.
 */
module Cli {
  import opened Wrappers
  import opened Py

  /** `c.lower()` on ASCII letters; every other character is kept. */
  function LowerChar(c: char): char {
    if 'A' <= c <= 'Z' then (c as int - 'A' as int + 'a' as int) as char else c
  }

  /**
   * `s.lower()`, on ASCII. The words `parse_bool` accepts contain only the
   * letters a, e, f, l, n, o, r, s, t, u, y and the digits 0 and 1, and no
   * other character lowers to one of those, so membership of the lowered
   * string in either word set is decided exactly.
   */
  function Lower(s: string): (r: string)
    ensures |r| == |s|
    ensures forall i :: 0 <= i < |r| ==> !('A' <= r[i] <= 'Z')
    ensures forall i :: 0 <= i < |s| && 'A' <= s[i] <= 'Z' ==>
      'a' <= r[i] <= 'z' && r[i] as int - 'a' as int == s[i] as int - 'A' as int
    ensures forall i :: 0 <= i < |s| && !('A' <= s[i] <= 'Z') ==> r[i] == s[i]
    ensures (forall i :: 0 <= i < |s| ==> !('A' <= s[i] <= 'Z')) ==> r == s
  {
    seq(|s|, i requires 0 <= i < |s| => LowerChar(s[i]))
  }

  const TrueWords: set<string> := {"yes", "true", "t", "y", "1"}
  const FalseWords: set<string> := {"no", "false", "f", "n", "0"}
  const BooleanExpected: string := "Boolean value expected"

  /**
   * `parse_bool`: a bool comes back unchanged; a string is read
   * case-insensitively as one of the true or false words, and any other
   * string raises ArgumentTypeError. Anything else has no `lower` and raises
   * AttributeError.
   */
  function ParseBool(v: Value): (r: Result<bool, Error>)
    ensures v.Bool? ==> r == Ok(v.b)
    ensures v.Str? ==> (r == Ok(true) <==> Lower(v.s) in TrueWords)
    ensures v.Str? ==> (r == Ok(false) <==> Lower(v.s) in FalseWords)
    ensures v.Str? ==> (r.Err? <==> Lower(v.s) !in TrueWords + FalseWords)
    ensures v.Str? && r.Err? ==> r.error == ArgumentTypeError(BooleanExpected)
    ensures !v.Str? && !v.Bool? ==> r == Err(AttributeError("lower"))
  {
    match v
    case Bool(b) => Ok(b)
    case Str(s) =>
      if Lower(s) in TrueWords then Ok(true)
      else if Lower(s) in FalseWords then Ok(false)
      else Err(ArgumentTypeError(BooleanExpected))
    case _ => Err(AttributeError("lower"))
  }

  /** No word is both true and false, so the order of the two membership tests does not matter. */
  lemma WordSetsDisjoint()
    ensures TrueWords * FalseWords == {}
  {
    assert forall w :: w in FalseWords ==> w !in TrueWords by {
      assert "no" != "yes" && "false" != "true";
    }
  }

  lemma {:induction false} LowerIdempotent(s: string)
    ensures Lower(Lower(s)) == Lower(s)
  {
    forall i | 0 <= i < |s| ensures LowerChar(LowerChar(s[i])) == LowerChar(s[i]) {
    }
  }

  /** Case does not matter: a string parses as its lower-case form does. */
  lemma ParseBoolIgnoresCase(s: string)
    ensures ParseBool(Str(s)) == ParseBool(Str(Lower(s)))
  {
    LowerIdempotent(s);
  }

  /** The converters of the type map; unknown type names get `str`. */
  datatype Converter = StrConv | IntConv | FloatConv | BoolConv | PathConv

  /**
   * `type_map.get(param_type, str)`: a list or dict as the type name is
   * unhashable and raises TypeError.
   */
  function ConverterFor(paramType: Value): (r: Result<Converter, Error>)
    ensures paramType.Arr? || paramType.Obj? <==> r.Err?
    ensures r.Err? ==> r.error.TypeError?
    ensures r == Ok(BoolConv) <==> paramType == Str("boolean")
    ensures r.Ok? && !paramType.Str? ==> r.value == StrConv
    ensures paramType.Str? && paramType.s !in {"string", "integer", "number", "boolean", "file"} ==> r == Ok(StrConv)
  {
    match paramType
    case Arr(_) => Err(TypeError("unhashable type: 'list'"))
    case Obj(_) => Err(TypeError("unhashable type: 'dict'"))
    case Str(s) =>
      Ok(if s == "string" then StrConv
         else if s == "integer" then IntConv
         else if s == "number" then FloatConv
         else if s == "boolean" then BoolConv
         else if s == "file" then PathConv
         else StrConv)
    case _ => Ok(StrConv)
  }

  /**
   * A default after conversion: a value the model computes, or the result of
   * applying a converter the model does not evaluate (`float`, `parse_path`,
   * `int` and `str` outside the identity cases), which may also raise.
   */
  datatype DefaultValue = Evaluated(v: Value) | Converted(converter: Converter, raw: Value)

  /** `kwargs["type"](param["default_value"])`. */
  function ConvertDefault(converter: Converter, raw: Value): (r: Result<DefaultValue, Error>)
    ensures converter == BoolConv ==>
      (r.Ok? <==> ParseBool(raw).Ok?) && (r.Ok? ==> r.value == Evaluated(Bool(ParseBool(raw).value)))
    ensures converter == StrConv && raw.Str? ==> r == Ok(Evaluated(raw))
    ensures converter == IntConv && raw.Int? ==> r == Ok(Evaluated(raw))
  {
    match converter
    case BoolConv =>
      var b :- ParseBool(raw);
      Ok(Evaluated(Bool(b)))
    case StrConv => if raw.Str? then Ok(Evaluated(raw)) else Ok(Converted(StrConv, raw))
    case IntConv =>
      (match raw
       case Int(_) => Ok(Evaluated(raw))
       case Bool(b) => Ok(Evaluated(Int(if b then 1 else 0)))
       case Str(_) => Ok(Converted(IntConv, raw))
       case _ => Err(TypeError("int() argument must be a string, a bytes-like object or a real number")))
    case FloatConv => Ok(Converted(FloatConv, raw))
    case PathConv => Ok(Converted(PathConv, raw))
  }

  /** `str(n)` for an integer. */
  function Decimal(n: int): string
    decreases if n < 0 then 1 - n else n
  {
    if n < 0 then "-" + Decimal(-n)
    else if n < 10 then [('0' as int + n) as char]
    else Decimal(n / 10) + Decimal(n % 10)
  }

  /** The option string `f"--{param_name}"`; the str() of a list or dict is not rendered. */
  datatype Flag = Option(text: string) | Unrendered(paramName: Value)

  function FlagFor(paramName: Value): (f: Flag)
    ensures paramName.Str? ==> f == Option("--" + paramName.s)
  {
    match paramName
    case Str(s) => Option("--" + s)
    case Null => Option("--None")
    case Bool(b) => Option(if b then "--True" else "--False")
    case Int(i) => Option("--" + Decimal(i))
    case _ => Unrendered(paramName)
  }

  /** The keyword arguments of one `add_argument` call (help text left out), with its option string. */
  datatype ArgSpec = ArgSpec(flag: Flag, converter: Converter, required: Value,
                             default: Option<DefaultValue>, choices: Option<Value>)

  /** `param.get(key, default)`. */
  function GetOr(d: Object, key: string, default: Value): Value {
    if key in d then d[key] else default
  }

  /** `param.get("value_type") or param.get("type")`. */
  function ParamType(p: Object): Value {
    if Truthy(Get(p, "value_type")) then Get(p, "value_type") else Get(p, "type")
  }

  /**
   * The rules for one parameter record. The converter comes from the
   * value type, falling back to the type; `required` defaults to False and
   * is forced to False by a default value, which is converted; a list whose
   * value type is "boolean" offers the choices [True, False], another list
   * its "extra_data"; the option string is "--" and the parameter name.
   * A record that is not a dict, or that lacks "value_type" while typed as a
   * list, or lacks "param_name", raises.
   */
  function ArgumentFor(param: Value): (r: Result<ArgSpec, Error>)
    ensures !param.Obj? ==> r == Err(AttributeError("get"))
    ensures r.Ok? ==> param.Obj? && ConverterFor(ParamType(param.fields)) == Ok(r.value.converter)
    ensures r.Ok? ==> "param_name" in param.fields && r.value.flag == FlagFor(param.fields["param_name"])
    ensures r.Ok? && "default_value" in param.fields ==>
      && r.value.required == Bool(false)
      && ConvertDefault(r.value.converter, param.fields["default_value"]).Ok?
      && r.value.default == Some(ConvertDefault(r.value.converter, param.fields["default_value"]).value)
    ensures r.Ok? && "default_value" !in param.fields ==>
      r.value.required == GetOr(param.fields, "required", Bool(false)) && r.value.default.None?
    ensures r.Ok? ==>
      (Get(param.fields, "type") == Str("list") && Get(param.fields, "value_type") == Str("boolean") ==>
         r.value.choices == Some(Arr([Bool(true), Bool(false)])))
    ensures r.Ok? ==>
      (Get(param.fields, "type") == Str("list") && Get(param.fields, "value_type") != Str("boolean") && "extra_data" in param.fields ==>
         r.value.choices == Some(param.fields["extra_data"]))
    ensures r.Ok? ==>
      (Get(param.fields, "type") == Str("list") && Get(param.fields, "value_type") != Str("boolean") && "extra_data" !in param.fields ==>
         r.value.choices.None?)
    ensures r.Ok? && r.value.choices.Some? ==> Get(param.fields, "type") == Str("list")
    ensures param.Obj? && Get(param.fields, "type") == Str("list") && ConverterFor(ParamType(param.fields)).Ok?
            && (("default_value" in param.fields) ==> ConvertDefault(ConverterFor(ParamType(param.fields)).value, param.fields["default_value"]).Ok?)
            && "value_type" !in param.fields
      ==> r == Err(KeyError("value_type"))
  {
    match param
    case Obj(p) =>
      var converter :- ConverterFor(ParamType(p));
      var withDefault: (Value, Option<DefaultValue>) :-
        if "default_value" in p then
          var d :- ConvertDefault(converter, p["default_value"]);
          Ok((Bool(false), Some(d)))
        else Ok((GetOr(p, "required", Bool(false)), None));
      var choices :-
        if Get(p, "type") == Str("list") then
          var valueType :- Index(p, "value_type");
          if valueType == Str("boolean") then Ok(Some(Arr([Bool(true), Bool(false)])))
          else if "extra_data" in p then Ok(Some(p["extra_data"]))
          else Ok(None)
        else Ok(None);
      var name :- Index(p, "param_name");
      Ok(ArgSpec(FlagFor(name), converter, withDefault.0, withDefault.1, choices))
    case _ => Err(AttributeError("get"))
  }

  const NamedOnly: string := "Dynamic arg parsing only enabled for named parameters"
  const VersionOne: string := "Dynamic arg parsing only enabled for app-panel version 1"

  /** `config["version"] != 1`, where True also equals 1. */
  predicate IsVersionOne(v: Value) {
    v == Int(1) || v == Bool(true)
  }

  /**
   * `for param in config["parameters"]`: a list gives its items; the keys of
   * a dict and the characters of a string are strings, on which `param.get`
   * raises, so a non-empty one fails at its first element; other values are
   * not iterable.
   */
  function ParameterRecords(v: Value): Result<seq<Value>, Error> {
    match v
    case Arr(items) => Ok(items)
    case Obj(fields) => if fields == map[] then Ok([]) else Err(AttributeError("get"))
    case Str(s) => if s == "" then Ok([]) else Err(AttributeError("get"))
    case _ => Err(TypeError("object is not iterable"))
  }

  /** The argument specifications of the records in order, up to the first record that raises. */
  function Arguments(params: seq<Value>): Result<seq<ArgSpec>, Error>
    decreases |params|
  {
    if params == [] then Ok([])
    else
      var init :- Arguments(params[..|params| - 1]);
      var last :- ArgumentFor(params[|params| - 1]);
      Ok(init + [last])
  }

  /** One specification per record, the i-th made from the i-th; on failure, the first record that raises decides the error. */
  lemma {:induction false} ArgumentsPerRecord(params: seq<Value>)
    ensures var r := Arguments(params);
      && (r.Ok? <==> forall i :: 0 <= i < |params| ==> ArgumentFor(params[i]).Ok?)
      && (r.Ok? ==> |r.value| == |params| && forall i :: 0 <= i < |params| ==> r.value[i] == ArgumentFor(params[i]).value)
      && (r.Err? ==> exists i :: 0 <= i < |params| && ArgumentFor(params[i]) == Err(r.error)
                                && forall j :: 0 <= j < i ==> ArgumentFor(params[j]).Ok?)
    decreases |params|
  {
    if params != [] {
      var init, last := params[..|params| - 1], ArgumentFor(params[|params| - 1]);
      ArgumentsPerRecord(init);
      assert forall i :: 0 <= i < |init| ==> init[i] == params[i];
      if Arguments(init).Err? {
        var i :| 0 <= i < |init| && ArgumentFor(init[i]) == Err(Arguments(init).error)
          && forall j :: 0 <= j < i ==> ArgumentFor(init[j]).Ok?;
        assert Arguments(params) == Arguments(init);
        assert ArgumentFor(params[i]) == Err(Arguments(params).error);
      } else if last.Err? {
        assert Arguments(params) == Err(last.error);
        assert ArgumentFor(params[|params| - 1]) == Err(Arguments(params).error);
      } else {
        var specs := Arguments(init).value;
        assert Arguments(params) == Ok(specs + [last.value]);
        assert forall i :: 0 <= i < |init| ==> (specs + [last.value])[i] == specs[i];
      }
    }
  }

  /**
   * What `create_parser` adds for a decoded configuration: a configuration
   * whose "named_parameters" is falsy, or whose "version" is not 1, is
   * rejected with NotImplementedError before any argument is added; a
   * missing key raises KeyError.
   */
  function ParserSpec(config: Value): (r: Result<seq<ArgSpec>, Error>)
    ensures config.Obj? && "named_parameters" in config.fields && !Truthy(config.fields["named_parameters"]) ==>
      r == Err(NotImplementedError(NamedOnly))
    ensures config.Obj? && "named_parameters" in config.fields && Truthy(config.fields["named_parameters"])
            && "version" in config.fields && !IsVersionOne(config.fields["version"]) ==>
      r == Err(NotImplementedError(VersionOne))
    ensures r.Ok? ==>
      && config.Obj? && Truthy(Get(config.fields, "named_parameters")) && IsVersionOne(Get(config.fields, "version"))
      && "parameters" in config.fields && ParameterRecords(config.fields["parameters"]).Ok?
      && r == Arguments(ParameterRecords(config.fields["parameters"]).value)
  {
    match config
    case Obj(c) =>
      var named :- Index(c, "named_parameters");
      if !Truthy(named) then Err(NotImplementedError(NamedOnly))
      else
        var version :- Index(c, "version");
        if !IsVersionOne(version) then Err(NotImplementedError(VersionOne))
        else
          var params :- Index(c, "parameters");
          var records :- ParameterRecords(params);
          Arguments(records)
    case _ => Err(TypeError("object is not subscriptable"))
  }

  /** `create_parser` on a decoded configuration: checks it, then adds one argument per parameter record in order. */
  method CreateParser(config: Value) returns (r: Result<seq<ArgSpec>, Error>)
    ensures r == ParserSpec(config)
  {
    if !config.Obj? {
      return Err(TypeError("object is not subscriptable"));
    }
    var c := config.fields;
    if "named_parameters" !in c {
      return Err(KeyError("named_parameters"));
    }
    if !Truthy(c["named_parameters"]) {
      return Err(NotImplementedError(NamedOnly));
    }
    if "version" !in c {
      return Err(KeyError("version"));
    }
    if !IsVersionOne(c["version"]) {
      return Err(NotImplementedError(VersionOne));
    }
    if "parameters" !in c {
      return Err(KeyError("parameters"));
    }
    var records := ParameterRecords(c["parameters"]);
    if records.Err? {
      return Err(records.error);
    }
    var params := records.value;
    var added: seq<ArgSpec> := [];
    var i := 0;
    while i < |params|
      invariant 0 <= i <= |params|
      invariant Arguments(params[..i]) == Ok(added)
    {
      assert params[..i + 1][..i] == params[..i];
      var spec := ArgumentFor(params[i]);
      if spec.Err? {
        ArgumentsErrorStays(params, i + 1);
        return Err(spec.error);
      }
      added := added + [spec.value];
      i := i + 1;
    }
    assert params[..i] == params;
    r := Ok(added);
  }

  lemma {:induction false} ArgumentsErrorStays(params: seq<Value>, n: nat)
    requires n <= |params|
    requires Arguments(params[..n]).Err?
    ensures Arguments(params) == Arguments(params[..n])
    decreases |params| - n
  {
    if n < |params| {
      assert params[..n + 1][..n] == params[..n];
      ArgumentsErrorStays(params, n + 1);
    } else {
      assert params[..n] == params;
    }
  }
}
