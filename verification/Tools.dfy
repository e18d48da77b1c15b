/** The allowlist of tools. */
module Tools {
  import opened Options
  import opened Json

  datatype ToolSpec = ToolSpec(name: Str, scope: Str, description: Str, argsSchema: Json, resultSchema: Json)

  type Allowlist = map<Str, ToolSpec>

  predicate CanRegister(tools: Allowlist, spec: ToolSpec) {
    spec.name != [] && spec.name !in tools
  }

  function Registered(tools: Allowlist, spec: ToolSpec): (r: Allowlist)
    ensures forall name :: name in tools ==> name in r && r[name] == tools[name]
  {
    if CanRegister(tools, spec) then tools[spec.name := spec] else tools
  }

  class ToolRegistry {
    var tools: Allowlist

    constructor ()
      ensures tools == map[]
    {
      tools := map[];
    }

    /** ToolRegistry.register; false stands for its ValueError. */
    method Register(spec: ToolSpec) returns (added: bool)
      modifies this
      ensures added <==> CanRegister(old(tools), spec)
      ensures tools == Registered(old(tools), spec)
      ensures added ==> spec.name in tools && tools[spec.name] == spec
    {
      if spec.name == [] || spec.name in tools {
        return false;
      }
      tools := tools[spec.name := spec];
      added := true;
    }

    /** ToolRegistry.get; None stands for its UnknownToolError. */
    method Lookup(name: Str) returns (spec: Option<ToolSpec>)
      ensures spec == if name in tools then Some(tools[name]) else None
    {
      spec := if name in tools then Some(tools[name]) else None;
    }
  }
}
