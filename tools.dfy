/** game/tools.py: deriving a tool's argument schema from its declared parameters,
    and the process-wide tool catalogue (`tools`, `tools_by_tag`) that the
    registration decorator fills. */
module Tools {
  import opened Values
  import opened Dicts
  import Text

  /** A declared parameter: its name and whether it has a default value. */
  datatype Param = Param(name: string, hasDefault: bool)

  /** A Python function as the framework sees it: its `__name__`, its `__doc__`,
      its declared parameters, and what calling it on a binding of keyword
      arguments returns or raises (an oracle). */
  datatype ToolFunction = ToolFunction(
    name: string,
    doc: Option<string>,
    params: seq<Param>,
    body: Entry -> Outcome<Value>)

  /** `has_named_parameter(func, name)`: `name` is one of the declared parameters. */
  function HasNamedParameter(f: ToolFunction, name: string): (r: bool)
    ensures r <==> exists i :: 0 <= i < |f.params| && f.params[i].name == name
  {
    exists i | 0 <= i < |f.params| :: f.params[i].name == name
  }

  /** `func(**kwargs)`: an unexpected keyword or a missing parameter without a
      default raises `TypeError` before the body runs; the missing ones are all
      named, in declaration order. */
  function Call(f: ToolFunction, kwargs: Entry): (r: Outcome<Value>)
    ensures (exists k :: k in kwargs && !HasNamedParameter(f, k)) ==>
              r == Raised(Exc(TypeError, f.name + UnexpectedKeyword))
    ensures (forall k :: k in kwargs ==> HasNamedParameter(f, k)) && Missing(f.params, kwargs) != [] ==>
              r == Raised(Exc(TypeError, MissingText(f.name, Missing(f.params, kwargs))))
    ensures (forall k :: k in kwargs ==> HasNamedParameter(f, k))
            && (forall i :: 0 <= i < |f.params| && !f.params[i].hasDefault ==> f.params[i].name in kwargs)
            ==> r == f.body(kwargs)
  {
    MissingEmpty(f.params, kwargs);
    if exists k | k in kwargs :: !HasNamedParameter(f, k) then
      Raised(Exc(TypeError, f.name + UnexpectedKeyword))
    else if Missing(f.params, kwargs) != [] then
      Raised(Exc(TypeError, MissingText(f.name, Missing(f.params, kwargs))))
    else f.body(kwargs)
  }

  const UnexpectedKeyword: string := "() got an unexpected keyword argument"

  /** The parameters without a default that `kwargs` does not bind, in order. */
  function Missing(params: seq<Param>, kwargs: Entry): (r: seq<string>)
    ensures |r| <= |params|
    ensures forall j :: 0 <= j < |r| ==> r[j] !in kwargs
  {
    if params == [] then []
    else if !params[0].hasDefault && params[0].name !in kwargs then [params[0].name] + Missing(params[1..], kwargs)
    else Missing(params[1..], kwargs)
  }

  /** Nothing is missing exactly when every parameter without a default is bound. */
  lemma {:induction false} MissingEmpty(params: seq<Param>, kwargs: Entry)
    ensures Missing(params, kwargs) == [] <==>
            forall i :: 0 <= i < |params| && !params[i].hasDefault ==> params[i].name in kwargs
  {
    if params != [] {
      MissingEmpty(params[1..], kwargs);
      if Missing(params, kwargs) == [] {
        forall i | 0 <= i < |params| && !params[i].hasDefault
          ensures params[i].name in kwargs
        {
          if i > 0 {
            assert params[1..][i - 1] == params[i];
          }
        }
      } else if !(!params[0].hasDefault && params[0].name !in kwargs) {
        var j :| 0 <= j < |params[1..]| && !params[1..][j].hasDefault && params[1..][j].name !in kwargs;
        assert params[j + 1] == params[1..][j];
      }
    }
  }

  /** `'a'`, `'a' and 'b'`, `'a', 'b', and 'c'`: how CPython lists missing names. */
  function QuotedNames(names: seq<string>): string
    decreases |names|
  {
    if |names| == 0 then ""
    else if |names| == 1 then "'" + names[0] + "'"
    else if |names| == 2 then "'" + names[0] + "' and '" + names[1] + "'"
    else CommaQuoted(names[..|names| - 2]) + ", '" + names[|names| - 2] + "', and '" + names[|names| - 1] + "'"
  }

  /** `'a', 'b'`: quoted names joined by a comma and a space. */
  function CommaQuoted(names: seq<string>): string {
    if names == [] then ""
    else if |names| == 1 then "'" + names[0] + "'"
    else "'" + names[0] + "', " + CommaQuoted(names[1..])
  }

  /** `f() missing 2 required positional arguments: 'a' and 'b'`. */
  function MissingText(name: string, names: seq<string>): string {
    name + "() missing " + Text.IntToString(|names|) + " required positional argument"
    + (if |names| == 1 then "" else "s") + ": " + QuotedNames(names)
  }

  /** Parameters the schema never shows: the injected `action_context` and
      `action_agent`, and every name starting with an underscore. */
  predicate Reserved(name: string) {
    name == "action_context" || name == "action_agent" || Text.StartsWith(name, "_")
  }

  predicate IsRequired(p: Param) {
    !Reserved(p.name) && !p.hasDefault
  }

  /** `{"type": "string"}`, the type every schema property gets. */
  const StringType: Value := VDict(map["type" := VStr("string")])

  /** The names of the parameters shown in the schema. */
  function IncludedNames(params: seq<Param>): set<string> {
    set i | 0 <= i < |params| && !Reserved(params[i].name) :: params[i].name
  }

  /** The positions of the required parameters, in declaration order. */
  function RequiredIndices(params: seq<Param>): (idx: seq<nat>)
    ensures forall j :: 0 <= j < |idx| ==> idx[j] < |params| && IsRequired(params[idx[j]])
    ensures forall j, k :: 0 <= j < k < |idx| ==> idx[j] < idx[k]
    ensures forall i :: 0 <= i < |params| && IsRequired(params[i]) ==> i in idx
  {
    if params == [] then []
    else
      var n := |params| - 1;
      var prior := RequiredIndices(params[..n]);
      if IsRequired(params[n]) then prior + [n] else prior
  }

  /** The `"properties"` and `"required"` parts of an argument schema. */
  datatype ArgsSchema = ArgsSchema(properties: map<string, Value>, required: seq<string>)

  /** The schema `get_tool_metadata` derives from a parameter list. */
  function SchemaOf(params: seq<Param>): ArgsSchema {
    var idx := RequiredIndices(params);
    ArgsSchema(
      map n | n in IncludedNames(params) :: StringType,
      seq(|idx|, j requires 0 <= j < |idx| => params[idx[j]].name))
  }

  /** The schema as the JSON object an action carries. */
  function SchemaValue(s: ArgsSchema): Value {
    VDict(map[
      "type" := VStr("object"),
      "properties" := VDict(s.properties),
      "required" := VList(seq(|s.required|, j requires 0 <= j < |s.required| => VStr(s.required[j])))])
  }

  /** One more parameter adds its name to the properties unless it is reserved,
      and to the required names when it is required. */
  lemma SchemaOfStep(params: seq<Param>, i: nat)
    requires i < |params|
    ensures var prior := SchemaOf(params[..i]);
            var p := params[i];
            && SchemaOf(params[..i + 1]).properties
               == (if Reserved(p.name) then prior.properties else prior.properties[p.name := StringType])
            && SchemaOf(params[..i + 1]).required
               == (if IsRequired(p) then prior.required + [p.name] else prior.required)
  {
    var q := params[..i + 1];
    assert q[..i] == params[..i];
    assert IncludedNames(q) == IncludedNames(params[..i]) + (if Reserved(params[i].name) then {} else {params[i].name});
  }

  /** The loop of `get_tool_metadata` that fills `properties` and appends to `required`. */
  method BuildArgsSchema(params: seq<Param>) returns (schema: ArgsSchema)
    ensures schema == SchemaOf(params)
    ensures schema.properties.Keys == IncludedNames(params)
    ensures forall n :: n in schema.properties ==> schema.properties[n] == StringType
    ensures forall n :: n in schema.required <==>
              exists i :: 0 <= i < |params| && IsRequired(params[i]) && params[i].name == n
  {
    var properties: map<string, Value> := map[];
    var required: seq<string> := [];
    var i := 0;
    while i < |params|
      invariant 0 <= i <= |params|
      invariant properties == SchemaOf(params[..i]).properties
      invariant required == SchemaOf(params[..i]).required
    {
      var p := params[i];
      SchemaOfStep(params, i);
      if !Reserved(p.name) {
        properties := properties[p.name := StringType];
        if !p.hasDefault {
          required := required + [p.name];
        }
      }
      i := i + 1;
    }
    assert params[..i] == params;
    schema := ArgsSchema(properties, required);
    RequiredNamesExact(params);
  }

  /** `required` holds exactly the names of the required parameters. */
  lemma RequiredNamesExact(params: seq<Param>)
    ensures forall n :: n in SchemaOf(params).required <==>
              exists i :: 0 <= i < |params| && IsRequired(params[i]) && params[i].name == n
  {
    var idx := RequiredIndices(params);
    var req := SchemaOf(params).required;
    forall n | n in req
      ensures exists i :: 0 <= i < |params| && IsRequired(params[i]) && params[i].name == n
    {
      var j :| 0 <= j < |req| && req[j] == n;
      assert params[idx[j]].name == n;
    }
    forall i | 0 <= i < |params| && IsRequired(params[i])
      ensures params[i].name in req
    {
      var j :| 0 <= j < |idx| && idx[j] == i;
      assert req[j] == params[i].name;
    }
  }

  /** The record `get_tool_metadata` returns. */
  datatype ToolMetadata = ToolMetadata(
    name: string,
    description: Option<string>,
    parameters: Value,
    tags: seq<string>,
    terminal: bool,
    fn: ToolFunction)

  /** `x or y` for an optional string: an empty string counts as missing. */
  function OrElse(x: Option<string>, y: string): string {
    if x.Some? && x.value != [] then x.value else y
  }

  function DescriptionOrDoc(description: Option<string>, doc: Option<string>): Option<string> {
    if description.Some? && description.value != [] then description else doc
  }

  function MetadataOf(f: ToolFunction, toolName: Option<string>, description: Option<string>,
                      terminal: bool, tags: seq<string>): ToolMetadata
  {
    ToolMetadata(OrElse(toolName, f.name), DescriptionOrDoc(description, f.doc),
                 SchemaValue(SchemaOf(f.params)), tags, terminal, f)
  }

  /** `get_tool_metadata`: the name defaults to the function's name, the description
      to its docstring, the tags to `[]` (a missing tag list and an empty one are
      the same); `parameters_override` is accepted and has no effect. */
  method GetToolMetadata(f: ToolFunction, toolName: Option<string>, description: Option<string>,
                         parametersOverride: Value, terminal: bool, tags: seq<string>)
    returns (meta: ToolMetadata)
    ensures meta == MetadataOf(f, toolName, description, terminal, tags)
    ensures meta.name == (if toolName.Some? && toolName.value != [] then toolName.value else f.name)
    ensures meta.description == (if description.Some? && description.value != [] then description else f.doc)
    ensures meta.tags == tags && meta.terminal == terminal && meta.fn == f
  {
    var schema := BuildArgsSchema(f.params);
    meta := ToolMetadata(OrElse(toolName, f.name), DescriptionOrDoc(description, f.doc),
                         SchemaValue(schema), tags, terminal, f);
  }

  /** One entry of the `tools` catalogue. */
  datatype ToolEntry = ToolEntry(
    description: Option<string>,
    parameters: Value,
    fn: ToolFunction,
    terminal: bool,
    tags: seq<string>)

  function EntryOf(meta: ToolMetadata): ToolEntry {
    ToolEntry(meta.description, meta.parameters, meta.fn, meta.terminal, meta.tags)
  }

  /** How often `t` occurs in `tags`. */
  function Occurrences(tags: seq<string>, t: string): nat {
    if tags == [] then 0 else Occurrences(tags[..|tags| - 1], t) + (if tags[|tags| - 1] == t then 1 else 0)
  }

  function Repeat(x: string, n: nat): (r: seq<string>)
    ensures |r| == n && forall i :: 0 <= i < n ==> r[i] == x
  {
    seq(n, i => x)
  }

  /** The list stored under `t`, or `[]`. */
  function TagList(byTag: Dict<seq<string>>, t: string): seq<string> {
    if t in byTag.m then byTag.m[t] else []
  }

  /** `tools_by_tag` after `name` was appended, tag by tag, to the list of each
      tag in `tags`, creating a missing list first. */
  function AppendToTags(byTag: Dict<seq<string>>, tags: seq<string>, name: string): Dict<seq<string>> {
    if tags == [] then byTag
    else
      var prior := AppendToTags(byTag, tags[..|tags| - 1], name);
      var t := tags[|tags| - 1];
      Put(prior, t, TagList(prior, t) + [name])
  }

  /** After registration, a tag's list is its earlier list followed by the tool's
      name once per occurrence of the tag. */
  lemma {:induction false} AppendToTagsLists(byTag: Dict<seq<string>>, tags: seq<string>, name: string, t: string)
    ensures TagList(AppendToTags(byTag, tags, name), t) == TagList(byTag, t) + Repeat(name, Occurrences(tags, t))
  {
    if tags != [] {
      var n := |tags| - 1;
      var prior := AppendToTags(byTag, tags[..n], name);
      AppendToTagsLists(byTag, tags[..n], name, t);
      AppendToTagsStep(prior, tags, name, t);
    }
  }

  /** Storing `list` under `k` changes the list of `k` only. */
  lemma TagListPut(d: Dict<seq<string>>, k: string, list: seq<string>, t: string)
    ensures TagList(Put(d, k, list), t) == if k == t then list else TagList(d, t)
  {}

  lemma OccurrencesStep(tags: seq<string>, t: string)
    requires tags != []
    ensures Occurrences(tags, t)
            == Occurrences(tags[..|tags| - 1], t) + (if tags[|tags| - 1] == t then 1 else 0)
  {}

  lemma RepeatStep(name: string, k: nat)
    ensures Repeat(name, k + 1) == Repeat(name, k) + [name]
  {
    assert Repeat(name, k + 1) == Repeat(name, k) + [name];
  }

  /** The last tag of a registration appends the name to its own list only. */
  lemma AppendToTagsStep(prior: Dict<seq<string>>, tags: seq<string>, name: string, t: string)
    requires tags != []
    ensures var n := |tags| - 1;
            var k := Occurrences(tags[..n], t);
            var next := Put(prior, tags[n], TagList(prior, tags[n]) + [name]);
            && TagList(next, t) == (if tags[n] == t then TagList(prior, t) + [name] else TagList(prior, t))
            && Occurrences(tags, t) == (if tags[n] == t then k + 1 else k)
            && Repeat(name, k + 1) == Repeat(name, k) + [name]
  {
    var n := |tags| - 1;
    TagListPut(prior, tags[n], TagList(prior, tags[n]) + [name], t);
    OccurrencesStep(tags, t);
    RepeatStep(name, Occurrences(tags[..n], t));
  }

  /** Registration creates the list of every tag it names and touches no other. */
  lemma {:induction false} AppendToTagsKeys(byTag: Dict<seq<string>>, tags: seq<string>, name: string, t: string)
    ensures t in AppendToTags(byTag, tags, name).m <==> t in byTag.m || t in tags
  {
    if tags != [] {
      var n := |tags| - 1;
      AppendToTagsKeys(byTag, tags[..n], name, t);
      assert tags == tags[..n] + [tags[n]];
    }
  }

  /** The loop of `register_tool` over the tool's tags. */
  method AddToTagLists(byTag: Dict<seq<string>>, tags: seq<string>, name: string)
    returns (r: Dict<seq<string>>)
    ensures r == AppendToTags(byTag, tags, name)
  {
    r := byTag;
    var i := 0;
    while i < |tags|
      invariant 0 <= i <= |tags|
      invariant r == AppendToTags(byTag, tags[..i], name)
    {
      var tag := tags[i];
      var list := if tag in r.m then r.m[tag] else [];
      r := Put(r, tag, list + [name]);
      assert tags[..i + 1][..i] == tags[..i];
      i := i + 1;
    }
    assert tags[..i] == tags;
  }

  /** The module-level `tools` and `tools_by_tag` dictionaries, as one object. */
  class Catalogue {
    var tools: Dict<ToolEntry>
    var toolsByTag: Dict<seq<string>>

    constructor()
      ensures tools == Empty() && toolsByTag == Empty()
    {
      tools := Empty();
      toolsByTag := Empty();
    }

    /** The `register_tool` decorator applied to `f`: the entry is stored under its
        name, replacing an earlier entry of that name; the name is appended to the
        list of each of its tags (once per occurrence, so registering twice lists
        it twice); `f` is returned unchanged. */
    method RegisterTool(f: ToolFunction, toolName: Option<string>, description: Option<string>,
                        parametersOverride: Value, terminal: bool, tags: seq<string>)
      returns (g: ToolFunction)
      modifies this
      ensures g == f
      ensures var meta := MetadataOf(f, toolName, description, terminal, tags);
              tools == Put(old(tools), meta.name, EntryOf(meta))
      ensures toolsByTag == AppendToTags(old(toolsByTag), tags,
                                         MetadataOf(f, toolName, description, terminal, tags).name)
    {
      var meta := GetToolMetadata(f, toolName, description, parametersOverride, terminal, tags);
      tools := Put(tools, meta.name, EntryOf(meta));
      toolsByTag := AddToTagLists(toolsByTag, meta.tags, meta.name);
      g := f;
    }
  }
}
