/**
 * Config-file templates of src/domain/services/config-file-generator.ts: the table
 * of formats, the file name of each format, and the text written for each. A
 * JavaScript object is an ordered list of properties with distinct keys;
 * `JSON.stringify(_, null, 2)` and the YAML serialiser are parameters, since only
 * the text around their output is this file's own.
 */
module ConfigFileGenerator {
  import opened Text
  import opened PackageInfo

  datatype ConfigFormat = Ts | Js | Cjs | Mjs | Json | Yaml

  /** The format's string value ("ts", "js", …). */
  function FormatName(format: ConfigFormat): string
  {
    match format
    case Ts => "ts"
    case Js => "js"
    case Cjs => "cjs"
    case Mjs => "mjs"
    case Json => "json"
    case Yaml => "yaml"
  }

  /** One entry of the format table; `labelText` is the source's `label`, a reserved word in Dafny. */
  datatype ConfigFormatInfo = ConfigFormatInfo(format: ConfigFormat, labelText: string, value: ConfigFormat)

  /** CONFIG_FORMATS */
  const CONFIG_FORMATS: seq<ConfigFormatInfo> := [
    ConfigFormatInfo(Ts, "TypeScript (.ts)", Ts),
    ConfigFormatInfo(Js, "JavaScript  (.js)", Js),
    ConfigFormatInfo(Cjs, "CommonJS    (.cjs)", Cjs),
    ConfigFormatInfo(Mjs, "ESM         (.mjs)", Mjs),
    ConfigFormatInfo(Json, "JSON        (.json)", Json),
    ConfigFormatInfo(Yaml, "YAML        (.yaml)", Yaml)
  ]

  /** Some entry of the table offers `f`. */
  predicate Offered(f: ConfigFormat)
  {
    exists i :: 0 <= i < |CONFIG_FORMATS| && CONFIG_FORMATS[i].format == f
  }

  /** The table offers every format exactly once, and each entry's value is its format. */
  lemma FormatTable()
    ensures |CONFIG_FORMATS| == 6
    ensures forall i :: 0 <= i < |CONFIG_FORMATS| ==> CONFIG_FORMATS[i].value == CONFIG_FORMATS[i].format
    ensures forall f: ConfigFormat :: Offered(f)
    ensures forall i, j :: 0 <= i < j < |CONFIG_FORMATS| ==> CONFIG_FORMATS[i].format != CONFIG_FORMATS[j].format
  {
    forall f: ConfigFormat
      ensures Offered(f)
    {
      match f
      case Ts => assert CONFIG_FORMATS[0].format == f;
      case Js => assert CONFIG_FORMATS[1].format == f;
      case Cjs => assert CONFIG_FORMATS[2].format == f;
      case Mjs => assert CONFIG_FORMATS[3].format == f;
      case Json => assert CONFIG_FORMATS[4].format == f;
      case Yaml => assert CONFIG_FORMATS[5].format == f;
    }
  }

  /** Script formats are named after the package with ".config."; data formats are rc dot-files. */
  function GenerateConfigFileName(format: ConfigFormat): (r: string)
    ensures format in {Ts, Js, Cjs, Mjs} ==> r == PACKAGE_NAME + ".config." + FormatName(format)
    ensures format in {Json, Yaml} ==> r == "." + PACKAGE_NAME + "rc." + FormatName(format)
  {
    match format
    case Ts => PACKAGE_NAME + ".config.ts"
    case Js => PACKAGE_NAME + ".config.js"
    case Cjs => PACKAGE_NAME + ".config.cjs"
    case Mjs => PACKAGE_NAME + ".config.mjs"
    case Json => "." + PACKAGE_NAME + "rc.json"
    case Yaml => "." + PACKAGE_NAME + "rc.yaml"
  }

  /** Every format's file name ends with "." and the format's own name. */
  lemma FileNameEndsWithFormat(format: ConfigFormat)
    ensures EndsWith(GenerateConfigFileName(format), "." + FormatName(format))
  {
    var name := FormatName(format);
    if format in {Ts, Js, Cjs, Mjs} {
      ConcatAssoc3(PACKAGE_NAME + ".config", ".", name);
      assert PACKAGE_NAME + ".config." + name == (PACKAGE_NAME + ".config") + ("." + name);
      SuffixOfConcat(PACKAGE_NAME + ".config", "." + name);
    } else {
      ConcatAssoc3("." + PACKAGE_NAME + "rc", ".", name);
      assert "." + PACKAGE_NAME + "rc." + name == ("." + PACKAGE_NAME + "rc") + ("." + name);
      SuffixOfConcat("." + PACKAGE_NAME + "rc", "." + name);
    }
  }

  /** Different formats get different file names. */
  lemma FileNameInjective(f: ConfigFormat, g: ConfigFormat)
    requires GenerateConfigFileName(f) == GenerateConfigFileName(g)
    ensures f == g
  {
    var n := GenerateConfigFileName(f);
    FileNameEndsWithFormat(f);
    FileNameEndsWithFormat(g);
    var a, b := "." + FormatName(f), "." + FormatName(g);
    if |a| == |b| {
      assert a == n[|n| - |a|..] == b;
      assert FormatName(f) == a[1..] == b[1..] == FormatName(g);
    }
  }

  /** The values a generated config holds. */
  datatype JsonValue = JString(s: string) | JBool(b: bool)

  datatype Property = Property(key: string, value: JsonValue)

  /** A JavaScript object: its properties in insertion order. */
  type Object = seq<Property>

  predicate HasKey(obj: Object, key: string)
  {
    exists i :: 0 <= i < |obj| && obj[i].key == key
  }

  predicate DistinctKeys(obj: Object)
  {
    forall i, j :: 0 <= i < j < |obj| ==> obj[i].key != obj[j].key
  }

  /** Setting one property: an existing key keeps its position and takes the new value; a new key goes last. */
  function Set(obj: Object, p: Property): (r: Object)
    ensures |r| == |obj| || r == obj + [p]
    ensures forall i :: 0 <= i < |obj| ==> r[i].key == obj[i].key
    ensures !HasKey(obj, p.key) ==> r == obj + [p]
  {
    if obj == [] then [p]
    else if obj[0].key == p.key then [p] + obj[1..]
    else [obj[0]] + Set(obj[1..], p)
  }

  /** The object literal `{ ...base, ...more }`. */
  function Spread(base: Object, more: Object): (r: Object)
    ensures |r| >= |base|
    ensures forall i :: 0 <= i < |base| ==> r[i].key == base[i].key
    decreases |more|
  {
    if more == [] then base
    else Spread(Set(base, more[0]), more[1..])
  }

  /** Spreading properties whose keys are new appends them in order. */
  lemma {:induction false} SpreadFresh(base: Object, more: Object)
    requires DistinctKeys(more)
    requires forall i :: 0 <= i < |more| ==> !HasKey(base, more[i].key)
    ensures Spread(base, more) == base + more
    decreases |more|
  {
    if more != [] {
      var next := Set(base, more[0]);
      assert next == base + [more[0]];
      RestStillFresh(base, more);
      SpreadFresh(next, more[1..]);
      assert base + [more[0]] + more[1..] == base + more;
    }
  }

  /** Once the first new property is appended, the others are still new, and still distinct. */
  lemma RestStillFresh(base: Object, more: Object)
    requires more != [] && DistinctKeys(more)
    requires forall i :: 0 <= i < |more| ==> !HasKey(base, more[i].key)
    ensures DistinctKeys(more[1..])
    ensures forall i :: 0 <= i < |more[1..]| ==> !HasKey(base + [more[0]], more[1..][i].key)
  {
    var next := base + [more[0]];
    forall i, k | 0 <= i < |more[1..]| && 0 <= k < |next|
      ensures next[k].key != more[1..][i].key
    {
      assert more[1..][i] == more[i + 1];
      if k < |base| {
        assert next[k] == base[k];
      }
    }
  }

  const SCHEMA_URL: string := "https://unpkg.com/mermaid-markdown-wrap/schema/config.schema.json"

  /** `{ $schema: SCHEMA_URL, ...config }` */
  function WithSchema(config: Object): Object
  {
    Spread([Property("$schema", JString(SCHEMA_URL))], config)
  }

  /** $schema is always the first property. */
  lemma SchemaFirst(config: Object)
    ensures |WithSchema(config)| >= 1 && WithSchema(config)[0].key == "$schema"
  {
  }

  /** A config without its own $schema follows the $schema property unchanged and in order. */
  lemma SchemaThenConfig(config: Object)
    requires DistinctKeys(config) && !HasKey(config, "$schema")
    ensures WithSchema(config) == [Property("$schema", JString(SCHEMA_URL))] + config
  {
    var schema := [Property("$schema", JString(SCHEMA_URL))];
    forall i | 0 <= i < |config|
      ensures !HasKey(schema, config[i].key)
    {
      if HasKey(schema, config[i].key) {
        assert HasKey(config, "$schema");
      }
    }
    SpreadFresh(schema, config);
  }

  /** The text a script template puts before the serialised config. */
  function ScriptPrefix(format: ConfigFormat): string
  {
    match format
    case Ts => "import { defineConfig } from '" + PACKAGE_NAME + "/config';\n\nexport default defineConfig("
    case Js => "/** @type {import('" + PACKAGE_NAME + "/config').ConfigOptions} */\nmodule.exports = "
    case Cjs => "/** @type {import('" + PACKAGE_NAME + "/config').ConfigOptions} */\nmodule.exports = "
    case _ => "/** @type {import('" + PACKAGE_NAME + "/config').ConfigOptions} */\nexport default "
  }

  /** The text a script template puts after the serialised config. */
  function ScriptSuffix(format: ConfigFormat): string
  {
    if format == Ts then ");\n" else ";\n"
  }

  /**
   * generateConfigFileContent(config, format): a script format wraps the serialised
   * config in its template, JSON serialises it with $schema put first, YAML
   * serialises it as it is.
   */
  function GenerateConfigFileContent(config: Object, format: ConfigFormat,
                                     json: Object -> string, yaml: Object -> string): (r: string)
    ensures format == Json ==> r == json(WithSchema(config))
    ensures format == Yaml ==> r == yaml(config)
    ensures format in {Ts, Js, Cjs, Mjs} ==> StartsWith(r, ScriptPrefix(format)) && EndsWith(r, ScriptSuffix(format))
  {
    var jsonContent := json(config);
    match format
    case Ts => TemplateEnds(format, jsonContent); ScriptPrefix(Ts) + jsonContent + ScriptSuffix(Ts)
    case Js => TemplateEnds(format, jsonContent); ScriptPrefix(Js) + jsonContent + ScriptSuffix(Js)
    case Cjs => TemplateEnds(format, jsonContent); ScriptPrefix(Cjs) + jsonContent + ScriptSuffix(Cjs)
    case Mjs => TemplateEnds(format, jsonContent); ScriptPrefix(Mjs) + jsonContent + ScriptSuffix(Mjs)
    case Json => json(WithSchema(config))
    case Yaml => yaml(config)
  }

  lemma TemplateEnds(format: ConfigFormat, jsonContent: string)
    ensures StartsWith(ScriptPrefix(format) + jsonContent + ScriptSuffix(format), ScriptPrefix(format))
    ensures EndsWith(ScriptPrefix(format) + jsonContent + ScriptSuffix(format), ScriptSuffix(format))
  {
    ConcatAssoc3(ScriptPrefix(format), jsonContent, ScriptSuffix(format));
    PrefixOfConcat(ScriptPrefix(format), jsonContent + ScriptSuffix(format));
    SuffixOfConcat(ScriptPrefix(format) + jsonContent, ScriptSuffix(format));
  }

  /** The serialised config can be cut back out of a script template: what lies between its two ends. */
  lemma ScriptEmbedsJson(config: Object, format: ConfigFormat, json: Object -> string, yaml: Object -> string)
    requires format in {Ts, Js, Cjs, Mjs}
    ensures var r := GenerateConfigFileContent(config, format, json, yaml);
            var lo := |ScriptPrefix(format)|;
            lo <= |r| - |ScriptSuffix(format)| && r[lo..|r| - |ScriptSuffix(format)|] == json(config)
  {
    var p, m, s := ScriptPrefix(format), json(config), ScriptSuffix(format);
    assert GenerateConfigFileContent(config, format, json, yaml) == p + m + s;
    Between(p, m, s);
  }

  lemma Between(p: string, m: string, s: string)
    ensures (p + m + s)[|p|..|p + m + s| - |s|] == m
  {
  }

  /** The js and cjs templates are the same text. */
  lemma JsAndCjsAgree(config: Object, json: Object -> string, yaml: Object -> string)
    ensures GenerateConfigFileContent(config, Js, json, yaml) == GenerateConfigFileContent(config, Cjs, json, yaml)
  {
  }

  /** The TypeScript file name the unit tests expect. */
  lemma TsFileNameExample()
    ensures GenerateConfigFileName(Ts) == "mermaid-markdown-wrap.config.ts"
  {
  }

  /** The JSON file name the unit tests expect. */
  lemma JsonFileNameExample()
    ensures GenerateConfigFileName(Json) == ".mermaid-markdown-wraprc.json"
  {
  }
}
