/**
 * Option resolution: the table of recognised options, the per-option
 * validation with fallback performed when an existing options file is read,
 * and the conversion of the accepted strings to typed values.  The options
 * file itself is an input: `raw` is its `[DEFAULT]` section as parsed, and
 * `json` stands for `json.loads` restricted to lists of strings.
 */
module Config {
  import opened Wrappers
  import opened Strings

  datatype OptType = BoolType | ListType

  /** One option as the resolver handles it: the value is still a string. */
  datatype CfgOpt = CfgOpt(name: string, value: string, typ: OptType, defaultOff: string)

  type RawSection = map<string, string>

  /** `json.loads` for the one shape used here: `None` where it raises. */
  type JsonParser = string -> Option<seq<string>>

  const DefaultSectionsLiteral := "[\"Appendices\", \"Appendix\", \"Bibliography\", \"References\", \"Works Cited\"]"

  /** The built-in option table, in table order; `value` is the "on" value. */
  const DefaultOpts: seq<CfgOpt> := [
    CfgOpt("headings", "True", BoolType, "False"),
    CfgOpt("titles", "True", BoolType, "False"),
    CfgOpt("subtitles", "True", BoolType, "False"),
    CfgOpt("captions", "True", BoolType, "False"),
    CfgOpt("bibliography", "True", BoolType, "False"),
    CfgOpt("ignored_sections", DefaultSectionsLiteral, ListType, "[]")
  ]

  const OptionNames: seq<string> := ["headings", "titles", "subtitles", "captions", "bibliography", "ignored_sections"]

  datatype CfgError =
    | InvalidIgnoredSections      // raised while reading the file
    | InvalidValue(name: string)  // the ValueError re-raised while converting

  /** How reading the file resolves one entry of the table. */
  function ResolveOpt(opt: CfgOpt, raw: RawSection, json: JsonParser): Result<CfgOpt, CfgError> {
    if opt.name !in raw then
      // absent: the table's own object, whose value is the "on" value
      Success(opt)
    else
      var value := raw[opt.name];
      match opt.typ
      case BoolType =>
        if Lower(value) != "true" && Lower(value) != "false" then
          Success(CfgOpt(opt.name, opt.defaultOff, opt.typ, opt.defaultOff))
        else
          Success(CfgOpt(opt.name, value, opt.typ, opt.defaultOff))
      case ListType =>
        // the check parses the table's value, not the one read from the file
        if json(opt.value).None? then Failure(InvalidIgnoredSections)
        else Success(CfgOpt(opt.name, value, opt.typ, opt.defaultOff))
  }

  /** Resolution of a whole table, in order, stopping at the first error. */
  function ResolveAll(opts: seq<CfgOpt>, raw: RawSection, json: JsonParser): Result<seq<CfgOpt>, CfgError>
    decreases |opts|
  {
    if opts == [] then Success([])
    else
      var init :- ResolveAll(opts[..|opts| - 1], raw, json);
      var last :- ResolveOpt(opts[|opts| - 1], raw, json);
      Success(init + [last])
  }

  /** Resolution succeeds iff every entry does, and then it is entrywise. */
  lemma {:induction false} ResolveAllPointwise(opts: seq<CfgOpt>, raw: RawSection, json: JsonParser)
    ensures ResolveAll(opts, raw, json).Success? <==>
      forall i :: 0 <= i < |opts| ==> ResolveOpt(opts[i], raw, json).Success?
    ensures ResolveAll(opts, raw, json).Success? ==>
      var r := ResolveAll(opts, raw, json).value;
      |r| == |opts| && forall i :: 0 <= i < |opts| ==> r[i] == ResolveOpt(opts[i], raw, json).value
    decreases |opts|
  {
    if opts != [] {
      var init := opts[..|opts| - 1];
      ResolveAllPointwise(init, raw, json);
      assert forall i :: 0 <= i < |init| ==> init[i] == opts[i];
    }
  }

  /**
   * `Cfg._read_existing_cfg`: walks the table in order and appends one
   * resolved option per entry.
   */
  method ReadExistingCfg(raw: RawSection, json: JsonParser) returns (cfgOpts: seq<CfgOpt>, err: Option<CfgError>)
    ensures err.None? ==> ResolveAll(DefaultOpts, raw, json) == Success(cfgOpts)
    ensures err.Some? ==> ResolveAll(DefaultOpts, raw, json) == Failure(err.value)
  {
    cfgOpts := [];
    for i := 0 to |DefaultOpts|
      invariant ResolveAll(DefaultOpts[..i], raw, json) == Success(cfgOpts)
    {
      assert DefaultOpts[..i + 1][..i] == DefaultOpts[..i];
      var opt := DefaultOpts[i];
      if opt.name !in raw {
        cfgOpts := cfgOpts + [opt];
      } else {
        var value := raw[opt.name];
        match opt.typ {
          case BoolType =>
            if Lower(value) != "true" && Lower(value) != "false" {
              cfgOpts := cfgOpts + [CfgOpt(opt.name, opt.defaultOff, opt.typ, opt.defaultOff)];
              continue;
            }
          case ListType =>
            if json(opt.value).None? {
              return [], Some(InvalidIgnoredSections);
            }
        }
        cfgOpts := cfgOpts + [CfgOpt(opt.name, value, opt.typ, opt.defaultOff)];
      }
    }
    assert DefaultOpts[..|DefaultOpts|] == DefaultOpts;
    err := None;
  }

  /** An option's value once converted to its type. */
  datatype Typed = BoolVal(b: bool) | ListVal(items: seq<string>)

  /** The conversion `_init_opts` applies; `None` where it raises ValueError. */
  function Convert(opt: CfgOpt, json: JsonParser): Option<Typed> {
    match opt.typ
    case BoolType => Some(BoolVal(Lower(opt.value) == "true"))
    case ListType => if json(opt.value).Some? then Some(ListVal(json(opt.value).value)) else None
  }

  /** Conversion of a list of options into `m`, in order, stopping at the first error. */
  function InitAll(m: map<string, Typed>, cfgOpts: seq<CfgOpt>, json: JsonParser): (map<string, Typed>, Option<CfgError>)
    decreases |cfgOpts|
  {
    if cfgOpts == [] then (m, None)
    else
      var last := cfgOpts[|cfgOpts| - 1];
      var (m', e) := InitAll(m, cfgOpts[..|cfgOpts| - 1], json);
      if e.Some? then (m', e)
      else match Convert(last, json)
        case None => (m', Some(InvalidValue(last.name)))
        case Some(v) => (m'[last.name := v], None)
  }

  ghost predicate DistinctNames(cfgOpts: seq<CfgOpt>) {
    forall i, j :: 0 <= i < j < |cfgOpts| ==> cfgOpts[i].name != cfgOpts[j].name
  }

  /**
   * With distinct names, conversion succeeds iff every option converts, and
   * then every name maps to its own converted value while other keys keep
   * their old values.
   */
  lemma {:induction false} InitAllPointwise(m: map<string, Typed>, cfgOpts: seq<CfgOpt>, json: JsonParser)
    requires DistinctNames(cfgOpts)
    ensures InitAll(m, cfgOpts, json).1.None? <==>
      forall i :: 0 <= i < |cfgOpts| ==> Convert(cfgOpts[i], json).Some?
    ensures InitAll(m, cfgOpts, json).1.None? ==>
      var m' := InitAll(m, cfgOpts, json).0;
      && (forall i :: 0 <= i < |cfgOpts| ==> cfgOpts[i].name in m' && m'[cfgOpts[i].name] == Convert(cfgOpts[i], json).value)
      && (forall k :: k in m && (forall i :: 0 <= i < |cfgOpts| ==> cfgOpts[i].name != k) ==> k in m' && m'[k] == m[k])
    decreases |cfgOpts|
  {
    if cfgOpts != [] {
      var init := cfgOpts[..|cfgOpts| - 1];
      assert forall i :: 0 <= i < |init| ==> init[i] == cfgOpts[i];
      InitAllPointwise(m, init, json);
    }
  }

  /** The resolved options as the engine consults them. */
  datatype Options = Options(
    headings: bool,
    titles: bool,
    subtitles: bool,
    captions: bool,
    bibliography: bool,
    ignoredSections: seq<string>)

  /** Reads the six entries the engine looks up; `None` if one is missing or mistyped. */
  function ToOptions(m: map<string, Typed>): Option<Options> {
    if && "headings" in m && m["headings"].BoolVal?
       && "titles" in m && m["titles"].BoolVal?
       && "subtitles" in m && m["subtitles"].BoolVal?
       && "captions" in m && m["captions"].BoolVal?
       && "bibliography" in m && m["bibliography"].BoolVal?
       && "ignored_sections" in m && m["ignored_sections"].ListVal?
    then Some(Options(m["headings"].b, m["titles"].b, m["subtitles"].b, m["captions"].b,
                      m["bibliography"].b, m["ignored_sections"].items))
    else None
  }

  /**
   * Reference meaning of a boolean option: on when the file does not name
   * it (the "on" object is appended) or when its value lowercases to
   * "true"; an unrecognised value falls back to "False", i.e. off.
   */
  function Toggle(raw: RawSection, name: string): bool {
    name !in raw || Lower(raw[name]) == "true"
  }

  /** The string `_init_opts` hands to `json.loads` for `ignored_sections`. */
  function SectionsSource(raw: RawSection): string {
    if "ignored_sections" in raw then raw["ignored_sections"] else DefaultSectionsLiteral
  }

  lemma DefaultOptsShape()
    ensures |DefaultOpts| == |OptionNames|
    ensures forall i :: 0 <= i < |DefaultOpts| ==> DefaultOpts[i].name == OptionNames[i]
    ensures DistinctNames(DefaultOpts)
  {
  }

  /** Reading fails only when the built-in list literal does not parse. */
  lemma ReadFails(raw: RawSection, json: JsonParser)
    ensures ResolveAll(DefaultOpts, raw, json).Failure? <==>
      "ignored_sections" in raw && json(DefaultSectionsLiteral).None?
  {
    ResolveAllPointwise(DefaultOpts, raw, json);
    assert ResolveOpt(DefaultOpts[5], raw, json).Failure? ==> ResolveAll(DefaultOpts, raw, json).Failure?;
  }

  /**
   * Reading visits the six names of the table in order, producing exactly
   * one entry each, with the table's type and fallback.
   */
  lemma ResolvedNames(raw: RawSection, json: JsonParser)
    requires ResolveAll(DefaultOpts, raw, json).Success?
    ensures var r := ResolveAll(DefaultOpts, raw, json).value;
      && |r| == |OptionNames|
      && (forall i :: 0 <= i < |r| ==>
            r[i].name == OptionNames[i] && r[i].typ == DefaultOpts[i].typ && r[i].defaultOff == DefaultOpts[i].defaultOff)
      && DistinctNames(r)
  {
    ResolveAllPointwise(DefaultOpts, raw, json);
  }

  /**
   * How one entry of the table is resolved: an absent name gives the table's
   * own object; a boolean value that lowercases to neither "true" nor
   * "false" is replaced by the "False" fallback; an accepted boolean and any
   * list value read from the file (valid or not) are kept as read.
   */
  lemma ResolvedEntry(raw: RawSection, json: JsonParser, i: nat)
    requires i < |DefaultOpts|
    ensures var opt := DefaultOpts[i];
      && (opt.name !in raw ==> ResolveOpt(opt, raw, json) == Success(opt))
      && (opt.name in raw && i < 5 && Lower(raw[opt.name]) != "true" && Lower(raw[opt.name]) != "false" ==>
            ResolveOpt(opt, raw, json) == Success(CfgOpt(opt.name, "False", BoolType, "False")))
      && (opt.name in raw && i < 5 && (Lower(raw[opt.name]) == "true" || Lower(raw[opt.name]) == "false") ==>
            ResolveOpt(opt, raw, json) == Success(CfgOpt(opt.name, raw[opt.name], BoolType, "False")))
      && (opt.name in raw && i == 5 && json(DefaultSectionsLiteral).Some? ==>
            ResolveOpt(opt, raw, json) == Success(CfgOpt("ignored_sections", raw[opt.name], ListType, "[]")))
  {
  }

  /** A boolean entry of the table resolves and converts to its reference meaning. */
  lemma ToggleEntry(raw: RawSection, json: JsonParser, i: nat)
    requires i < 5
    ensures ResolveOpt(DefaultOpts[i], raw, json).Success?
    ensures Convert(ResolveOpt(DefaultOpts[i], raw, json).value, json) == Some(BoolVal(Toggle(raw, OptionNames[i])))
  {
    assert Lower("True") == "true";
    assert Lower("False") == "false";
  }

  /** The list entry converts to the parse of the string it carries. */
  lemma SectionsEntry(raw: RawSection, json: JsonParser)
    requires ResolveOpt(DefaultOpts[5], raw, json).Success?
    ensures Convert(ResolveOpt(DefaultOpts[5], raw, json).value, json) ==
      if json(SectionsSource(raw)).Some? then Some(ListVal(json(SectionsSource(raw)).value)) else None
  {
  }

  /**
   * Reading and converting together, into any prior dictionary: conversion fails exactly when the list
   * string it parses is malformed, and otherwise the engine sees each
   * toggle's reference meaning and the parsed list.
   */
  lemma ResolvedOptions(m0: map<string, Typed>, raw: RawSection, json: JsonParser)
    requires ResolveAll(DefaultOpts, raw, json).Success?
    ensures var (m, e) := InitAll(m0, ResolveAll(DefaultOpts, raw, json).value, json);
      && (e.None? <==> json(SectionsSource(raw)).Some?)
      && (e.None? ==> ToOptions(m) == Some(Options(
            Toggle(raw, "headings"), Toggle(raw, "titles"), Toggle(raw, "subtitles"),
            Toggle(raw, "captions"), Toggle(raw, "bibliography"), json(SectionsSource(raw)).value)))
  {
    var r := ResolveAll(DefaultOpts, raw, json).value;
    ResolveAllPointwise(DefaultOpts, raw, json);
    ResolvedNames(raw, json);
    InitAllPointwise(m0, r, json);
    ToggleEntry(raw, json, 0);
    ToggleEntry(raw, json, 1);
    ToggleEntry(raw, json, 2);
    ToggleEntry(raw, json, 3);
    ToggleEntry(raw, json, 4);
    SectionsEntry(raw, json);
    var (m, e) := InitAll(m0, r, json);
    if e.None? {
      assert m["headings"] == BoolVal(Toggle(raw, "headings")) by { assert r[0].name == "headings"; }
      assert m["titles"] == BoolVal(Toggle(raw, "titles")) by { assert r[1].name == "titles"; }
      assert m["subtitles"] == BoolVal(Toggle(raw, "subtitles")) by { assert r[2].name == "subtitles"; }
      assert m["captions"] == BoolVal(Toggle(raw, "captions")) by { assert r[3].name == "captions"; }
      assert m["bibliography"] == BoolVal(Toggle(raw, "bibliography")) by { assert r[4].name == "bibliography"; }
      assert m["ignored_sections"] == ListVal(json(SectionsSource(raw)).value) by { assert r[5].name == "ignored_sections"; }
    } else {
      assert Convert(r[5], json).None?;
    }
  }

  /** Once conversion of a prefix has failed, the rest of the list is not looked at. */
  lemma {:induction false} InitAllStops(m: map<string, Typed>, cfgOpts: seq<CfgOpt>, k: nat, json: JsonParser)
    requires k <= |cfgOpts|
    requires InitAll(m, cfgOpts[..k], json).1.Some?
    ensures InitAll(m, cfgOpts, json) == InitAll(m, cfgOpts[..k], json)
    decreases |cfgOpts| - k
  {
    if k < |cfgOpts| {
      var longer := cfgOpts[..k + 1];
      assert longer[..k] == cfgOpts[..k];
      assert InitAll(m, longer, json) == InitAll(m, cfgOpts[..k], json);
      InitAllStops(m, cfgOpts, k + 1, json);
    } else {
      assert cfgOpts[..k] == cfgOpts;
    }
  }

  /**
   * The resolved and typed options of one run (replacing the process-wide
   * singleton): `opts` is the `_opts` dictionary.
   */
  class Cfg {
    var opts: map<string, Typed>

    constructor ()
      ensures opts == map[]
    {
      opts := map[];
    }

    /** `Cfg._init_opts`: converts each option in order and records it under its name. */
    method InitOpts(cfgOpts: seq<CfgOpt>, json: JsonParser) returns (err: Option<CfgError>)
      modifies this
      ensures (opts, err) == InitAll(old(opts), cfgOpts, json)
    {
      for i := 0 to |cfgOpts|
        invariant InitAll(old(opts), cfgOpts[..i], json) == (opts, None)
      {
        assert cfgOpts[..i + 1][..i] == cfgOpts[..i];
        var opt := cfgOpts[i];
        match opt.typ {
          case BoolType =>
            opts := opts[opt.name := BoolVal(Lower(opt.value) == "true")];
          case ListType =>
            var parsed := json(opt.value);
            if parsed.None? {
              InitAllStops(old(opts), cfgOpts, i + 1, json);
              return Some(InvalidValue(opt.name));
            }
            opts := opts[opt.name := ListVal(parsed.value)];
        }
      }
      assert cfgOpts[..|cfgOpts|] == cfgOpts;
      err := None;
    }

    /**
     * Reading an existing file and converting its options, as a first `Cfg(path)`
     * call does; on success the engine sees the reference meaning of each option.
     */
    method Load(raw: RawSection, json: JsonParser) returns (err: Option<CfgError>)
      modifies this
      ensures err.None? <==> ResolveAll(DefaultOpts, raw, json).Success? && json(SectionsSource(raw)).Some?
      ensures err.None? ==> ToOptions(opts) == Some(Options(
            Toggle(raw, "headings"), Toggle(raw, "titles"), Toggle(raw, "subtitles"),
            Toggle(raw, "captions"), Toggle(raw, "bibliography"), json(SectionsSource(raw)).value))
    {
      var cfgOpts;
      cfgOpts, err := ReadExistingCfg(raw, json);
      if err.Some? {
        return;
      }
      ghost var m0 := opts;
      err := InitOpts(cfgOpts, json);
      ResolvedOptions(m0, raw, json);
    }
  }
}
