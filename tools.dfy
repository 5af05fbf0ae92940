/** Display names and name lists for the agent's tools (jupyter_ai_agents/tools.py). */
module Tools {
  import opened Json
  import opened Ascii

  /** `s.replace('_', ' ')` */
  function UnderscoresToSpaces(s: string): (r: string)
    ensures |r| == |s|
    ensures forall i | 0 <= i < |s| :: r[i] == if s[i] == '_' then ' ' else s[i]
  {
    seq(|s|, i requires 0 <= i < |s| => if s[i] == '_' then ' ' else s[i])
  }

  /** `generate_name_from_id`: underscores become spaces and the first character is
      upper-cased. */
  function GenerateNameFromId(toolId: string): (r: string)
    ensures |r| == |toolId|
    ensures '_' !in r
    ensures toolId != [] ==> r[0] == UpperChar(if toolId[0] == '_' then ' ' else toolId[0])
    ensures forall i | 1 <= i < |toolId| :: r[i] == if toolId[i] == '_' then ' ' else toolId[i]
  {
    if toolId == [] then ""
    else
      var name := UnderscoresToSpaces(toolId);
      [UpperChar(name[0])] + name[1..]
  }

  /** The documented example. */
  lemma GenerateNameExample()
    ensures GenerateNameFromId("notebook_run-all-cells") == "Notebook run-all-cells"
  {
    var r := GenerateNameFromId("notebook_run-all-cells");
    assert |r| == |"Notebook run-all-cells"|;
    assert forall i | 0 <= i < |r| :: r[i] == "Notebook run-all-cells"[i];
  }

  /** A name that is already a display name (no underscore, upper-case or non-letter first
      character) is left as it is. */
  lemma GenerateNameFixpoint(name: string)
    requires '_' !in name
    requires name != [] ==> !('a' <= name[0] <= 'z')
    ensures GenerateNameFromId(name) == name
  {
    var r := GenerateNameFromId(name);
    assert forall i | 0 <= i < |r| :: r[i] == name[i];
  }

  /** Generating twice gives the same display name as generating once. */
  lemma GenerateNameIdempotent(toolId: string)
    ensures GenerateNameFromId(GenerateNameFromId(toolId)) == GenerateNameFromId(toolId)
  {
    GenerateNameFixpoint(GenerateNameFromId(toolId));
  }

  /** `tool.get('name', '')` */
  function ToolName(tool: JsonMap): Json {
    Get(tool, "name", JStr(""))
  }

  /** `[tool.get('name', '') for tool in tools if tool.get('name')]` */
  function ToolsToBuiltinList(tools: seq<JsonMap>): (r: seq<Json>)
    ensures |r| <= |tools|
    ensures forall n :: n in r <==> exists i | 0 <= i < |tools| :: Truthy(ToolName(tools[i])) && ToolName(tools[i]) == n
    ensures forall n | n in r :: Truthy(n)
    decreases |tools|
  {
    if tools == [] then []
    else
      var rest := ToolsToBuiltinList(tools[1..]);
      assert forall i | 1 <= i < |tools| :: tools[i] == tools[1..][i - 1];
      var head := ToolName(tools[0]);
      if Truthy(head) then [head] + rest else rest
  }

  /** The list keeps input order: listing a concatenation concatenates the listings. */
  lemma {:induction false} BuiltinListAppend(a: seq<JsonMap>, b: seq<JsonMap>)
    ensures ToolsToBuiltinList(a + b) == ToolsToBuiltinList(a) + ToolsToBuiltinList(b)
    decreases |a|
  {
    if a == [] {
      assert a + b == b;
    } else {
      assert (a + b)[1..] == a[1..] + b;
      assert (a + b)[0] == a[0];
      BuiltinListAppend(a[1..], b);
      var head := ToolName(a[0]);
      if Truthy(head) {
        assert [head] + (ToolsToBuiltinList(a[1..]) + ToolsToBuiltinList(b))
          == ([head] + ToolsToBuiltinList(a[1..])) + ToolsToBuiltinList(b);
      }
    }
  }

  /** A list of tools that all carry a name keeps every name, in order. */
  lemma {:induction false} AllNamedKept(tools: seq<JsonMap>)
    requires forall i | 0 <= i < |tools| :: Truthy(ToolName(tools[i]))
    ensures ToolsToBuiltinList(tools) == seq(|tools|, i requires 0 <= i < |tools| => ToolName(tools[i]))
    decreases |tools|
  {
    if tools != [] {
      AllNamedKept(tools[1..]);
    }
  }
}
