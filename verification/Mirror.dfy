/** Mirroring the upstream tool list onto the downstream server (internal/proxy/upstream.go):
    schema normalisation, what one sync does to the registry, and the `Upstream` object. */
module Mirror {
  import opened Core

  datatype Json =
    | Null
    | Bool(b: bool)
    | Number(n: int)
    | Str(s: string)
    | Array(items: seq<Json>)
    | Object(fields: map<string, Json>)

  /** A schema as the client decodes it: missing, not serialisable, or a JSON value. */
  datatype Schema = Absent | Unserialisable | Value(json: Json)

  /** `details` stands for the fields copied verbatim (description, title, icons, ...). */
  datatype Tool = Tool(name: string, details: string, input: Schema, output: Schema)

  datatype Definition =
    Definition(name: string, details: string, input: map<string, Json>, output: Option<map<string, Json>>)

  /** A registered downstream tool: the proxy's own, or one forwarding to `target` upstream. */
  datatype Entry = Own | Forwarding(definition: Definition, target: string)

  type Registry = map<string, Entry>

  predicate IsObjectSchema(m: map<string, Json>) {
    "type" in m && m["type"] == Str("object")
  }

  function NormalizeObjectSchema(schema: Schema): Result<map<string, Json>, ()> {
    match schema
    case Absent => Ok(map["type" := Str("object")])
    case Unserialisable => Err(())
    case Value(Null) => Ok(map["type" := Str("object")])
    case Value(Object(m)) =>
      if "type" !in m then Ok(m["type" := Str("object")])
      else if m["type"] != Str("object") then Err(())
      else Ok(m)
    case Value(_) => Err(())
  }

  /** The result always carries "type": "object", keeps every other field, and is its own
      normal form. Only unserialisable, non-object and otherwise typed schemas are refused. */
  lemma NormalizeExact(schema: Schema)
    ensures var r := NormalizeObjectSchema(schema);
            && (r.Ok? ==> IsObjectSchema(r.value) && NormalizeObjectSchema(Value(Object(r.value))) == r)
            && (r.Ok? && schema.Value? && schema.json.Object? ==>
                  r.value.Keys == schema.json.fields.Keys + {"type"}
                  && forall k | k in schema.json.fields :: r.value[k] == schema.json.fields[k])
            && (r.Err? <==>
                  || schema.Unserialisable?
                  || (schema.Value? && !schema.json.Null? && !schema.json.Object?)
                  || (schema.Value? && schema.json.Object? && "type" in schema.json.fields
                      && schema.json.fields["type"] != Str("object")))
  {}

  function DownstreamTool(tool: Tool): (r: Result<Definition, ()>)
    ensures r.Ok? ==> r.value.name == tool.name && IsObjectSchema(r.value.input)
  {
    match NormalizeObjectSchema(tool.input)
    case Err(_) => Err(())
    case Ok(input) =>
      var output := if tool.output.Absent? then None
                    else match NormalizeObjectSchema(tool.output)
                         case Ok(m) => Some(m)
                         case Err(_) => None;
      Ok(Definition(tool.name, tool.details, input, output))
  }

  // ------------------------------------------------------------------ what a definition says

  /** The fields a schema lists; a missing or null one lists none. */
  function Fields(schema: Schema): map<string, Json> {
    if schema.Value? && schema.json.Object? then schema.json.fields else map[]
  }

  /** A schema that cannot be mirrored. */
  predicate Unmirrorable(schema: Schema) {
    || schema.Unserialisable?
    || (schema.Value? && !schema.json.Null? && !schema.json.Object?)
    || ("type" in Fields(schema) && Fields(schema)["type"] != Str("object"))
  }

  /** All that the schema lists and a "type", which is "object", and nothing else. */
  ghost predicate Carries(kept: map<string, Json>, schema: Schema) {
    && kept.Keys == Fields(schema).Keys + {"type"} && IsObjectSchema(kept)
    && forall k | k in Fields(schema) :: kept[k] == Fields(schema)[k]
  }

  /** The definition says what the listed tool says. An output schema that is missing or cannot
      be mirrored is left out. */
  ghost predicate Describes(d: Definition, tool: Tool) {
    && d.name == tool.name && d.details == tool.details && Carries(d.input, tool.input)
    && (d.output.None? <==> tool.output.Absent? || Unmirrorable(tool.output))
    && (d.output.Some? ==> Carries(d.output.value, tool.output))
  }

  lemma NormalizedCarries(schema: Schema)
    ensures NormalizeObjectSchema(schema).Err? <==> Unmirrorable(schema)
    ensures NormalizeObjectSchema(schema).Ok? ==> Carries(NormalizeObjectSchema(schema).value, schema)
  {}

  lemma CarriesOne(kept: map<string, Json>, kept': map<string, Json>, schema: Schema)
    requires Carries(kept, schema) && Carries(kept', schema)
    ensures kept == kept'
  {
    assert forall k | k in kept :: kept[k] == kept'[k];
  }

  /** A tool is mirrored unless its input schema cannot be, and then keeps all it says. That
      leaves no choice: one definition describes a tool. */
  lemma DownstreamToolExact(tool: Tool, d: Definition)
    ensures DownstreamTool(tool).Err? <==> Unmirrorable(tool.input)
    ensures !Unmirrorable(tool.input) ==> (DownstreamTool(tool) == Ok(d) <==> Describes(d, tool))
  {
    NormalizedCarries(tool.input);
    NormalizedCarries(tool.output);
    if !Unmirrorable(tool.input) {
      var own := DownstreamTool(tool).value;
      assert Describes(own, tool);
      if Describes(d, tool) {
        CarriesOne(d.input, own.input, tool.input);
        if d.output.Some? {
          CarriesOne(d.output.value, own.output.value, tool.output);
        }
      }
    }
  }

  function Names(tools: seq<Tool>): set<string> {
    set i | 0 <= i < |tools| :: tools[i].name
  }

  /** The first tool listed under a name; later ones are duplicates. */
  function First(tools: seq<Tool>, name: string): (t: Option<Tool>)
    ensures t.Some? <==> name in Names(tools)
    ensures t.Some? ==> t.value.name == name && t.value in tools
  {
    if tools == [] then None
    else if tools[0].name == name then Some(tools[0])
    else
      assert forall n :: n in Names(tools) <==> n == tools[0].name || n in Names(tools[1..]) by {
        assert tools == [tools[0]] + tools[1..];
      }
      First(tools[1..], name)
  }

  /** The definition a listing dictates for a name, if any. */
  function Wanted(tools: seq<Tool>, reserved: set<string>, name: string): (d: Option<Definition>)
    ensures d.Some? ==> name in Names(tools) && name !in reserved && d.value.name == name
                        && IsObjectSchema(d.value.input)
  {
    if name in reserved then None
    else
      match First(tools, name)
      case None => None
      case Some(tool) => match DownstreamTool(tool) case Ok(d) => Some(d) case Err(_) => None
  }

  function WantedNames(tools: seq<Tool>, reserved: set<string>): set<string> {
    set n | n in Names(tools) && Wanted(tools, reserved, n).Some?
  }

  /** The registry after every wanted tool has been (re-)registered. */
  function Overlay(registry: Registry, reserved: set<string>, tools: seq<Tool>): Registry {
    map n | n in registry.Keys + WantedNames(tools, reserved) ::
      if n in WantedNames(tools, reserved) then Forwarding(Wanted(tools, reserved, n).value, n) else registry[n]
  }

  /** Effect of a successful sync on the mirrored names. */
  function ApplyMirrored(mirrored: set<string>, reserved: set<string>, tools: seq<Tool>): set<string> {
    mirrored * Names(tools) + WantedNames(tools, reserved)
  }

  /** Effect of a successful sync on the downstream registry. */
  function ApplyRegistry(registry: Registry, mirrored: set<string>, reserved: set<string>, tools: seq<Tool>)
    : Registry
  {
    Overlay(registry, reserved, tools) - (mirrored - Names(tools))
  }

  /** The registry is the own tools plus one forwarding entry per mirrored name. */
  ghost predicate MirrorInvariant(registry: Registry, mirrored: set<string>, reserved: set<string>, own: set<string>) {
    && own <= reserved && mirrored !! reserved
    && registry.Keys == own + mirrored
    && (forall n | n in own :: registry[n] == Own)
    && (forall n | n in mirrored ::
          registry[n].Forwarding? && registry[n].target == n
          && registry[n].definition.name == n && IsObjectSchema(registry[n].definition.input))
  }

  /** The registry is what a listing dictates: wanted tools are forwarded with exactly the
      listed definition and unlisted ones are not forwarded. A listed tool that cannot be
      mirrored may keep an earlier entry. */
  ghost predicate Dictated(registry: Registry, reserved: set<string>, tools: seq<Tool>) {
    && (forall n | n in WantedNames(tools, reserved) ::
          n in registry && registry[n] == Forwarding(Wanted(tools, reserved, n).value, n))
    && (forall n | n in registry && registry[n].Forwarding? :: n in Names(tools))
  }

  lemma ApplyKeepsInvariant(
    registry: Registry, mirrored: set<string>, reserved: set<string>, own: set<string>, tools: seq<Tool>)
    requires MirrorInvariant(registry, mirrored, reserved, own)
    ensures var after := ApplyRegistry(registry, mirrored, reserved, tools);
            && MirrorInvariant(after, ApplyMirrored(mirrored, reserved, tools), reserved, own)
            && Dictated(after, reserved, tools)
  {}

  /** Exactly what a listing calls for: own tools, and the wanted ones with their definitions. */
  function Exactly(own: set<string>, reserved: set<string>, tools: seq<Tool>): Registry {
    (map n | n in own :: Own)
    + (map n | n in WantedNames(tools, reserved) :: Forwarding(Wanted(tools, reserved, n).value, n))
  }

  /** A sync leaves exactly what the listing calls for if and only if every listed tool that is
      mirrored already can still be mirrored. */
  lemma ApplyExact(
    registry: Registry, mirrored: set<string>, reserved: set<string>, own: set<string>, tools: seq<Tool>)
    requires MirrorInvariant(registry, mirrored, reserved, own)
    ensures var good := forall n | n in mirrored && n in Names(tools) :: Wanted(tools, reserved, n).Some?;
            && (ApplyMirrored(mirrored, reserved, tools) == WantedNames(tools, reserved) <==> good)
            && (ApplyRegistry(registry, mirrored, reserved, tools) == Exactly(own, reserved, tools) <==> good)
  {
    ApplyKeepsInvariant(registry, mirrored, reserved, own, tools);
    var (after, now) := (ApplyRegistry(registry, mirrored, reserved, tools), ApplyMirrored(mirrored, reserved, tools));
    ExactRegistry(after, now, reserved, own, tools);
    if n :| n in mirrored && n in Names(tools) && Wanted(tools, reserved, n).None? {
      assert n in now && n !in WantedNames(tools, reserved);
    }
  }

  /** A dictated registry is exact when nothing but wanted tools is mirrored. */
  lemma ExactRegistry(
    registry: Registry, mirrored: set<string>, reserved: set<string>, own: set<string>, tools: seq<Tool>)
    requires MirrorInvariant(registry, mirrored, reserved, own) && Dictated(registry, reserved, tools)
    ensures WantedNames(tools, reserved) <= mirrored <= Names(tools)
    ensures registry == Exactly(own, reserved, tools) <==> mirrored == WantedNames(tools, reserved)
  {
    assert Exactly(own, reserved, tools).Keys == own + WantedNames(tools, reserved);
    forall n | n in WantedNames(tools, reserved) ensures n in mirrored {
      assert registry[n].Forwarding?;
    }
    forall n | n in mirrored ensures n in Names(tools) {
      assert registry[n].Forwarding?;
    }
  }

  lemma {:induction false} FirstAt(tools: seq<Tool>, i: nat)
    requires i < |tools| && forall j | 0 <= j < i :: tools[j].name != tools[i].name
    ensures First(tools, tools[i].name) == Some(tools[i])
  {
    if i > 0 {
      FirstAt(tools[1..], i - 1);
    }
  }

  /** The first tool of its name, if it is not reserved and can be mirrored, gets its definition. */
  lemma WantedAt(tools: seq<Tool>, reserved: set<string>, i: nat)
    requires i < |tools| && forall j | 0 <= j < i :: tools[j].name != tools[i].name
    requires tools[i].name !in reserved
    ensures Wanted(tools, reserved, tools[i].name).Some? <==> !Unmirrorable(tools[i].input)
    ensures !Unmirrorable(tools[i].input) ==> Describes(Wanted(tools, reserved, tools[i].name).value, tools[i])
  {
    FirstAt(tools, i);
    NormalizedCarries(tools[i].input);
    NormalizedCarries(tools[i].output);
  }

  /** What a dictated registry holds, in terms of the listing: each tool that is the first of its
      name, not reserved, and can be mirrored is forwarded under its name to the upstream tool of
      that name, and says what the listed tool says. */
  lemma DictatedForwards(registry: Registry, reserved: set<string>, tools: seq<Tool>, i: nat)
    requires Dictated(registry, reserved, tools)
    requires i < |tools| && forall j | 0 <= j < i :: tools[j].name != tools[i].name
    requires tools[i].name !in reserved && !Unmirrorable(tools[i].input)
    ensures var name := tools[i].name;
            && name in registry && registry[name].Forwarding? && registry[name].target == name
            && Describes(registry[name].definition, tools[i])
  {
    WantedAt(tools, reserved, i);
    assert tools[i].name in WantedNames(tools, reserved);
  }

  /** After a sync. */
  lemma SyncForwards(
    registry: Registry, mirrored: set<string>, reserved: set<string>, own: set<string>, tools: seq<Tool>, i: nat)
    requires MirrorInvariant(registry, mirrored, reserved, own)
    requires i < |tools| && forall j | 0 <= j < i :: tools[j].name != tools[i].name
    requires tools[i].name !in reserved && !Unmirrorable(tools[i].input)
    ensures var (after, name) := (ApplyRegistry(registry, mirrored, reserved, tools), tools[i].name);
            && name in ApplyMirrored(mirrored, reserved, tools)
            && name in after && after[name].Forwarding? && after[name].target == name
            && Describes(after[name].definition, tools[i])
  {
    ApplyKeepsInvariant(registry, mirrored, reserved, own, tools);
    DictatedForwards(ApplyRegistry(registry, mirrored, reserved, tools), reserved, tools, i);
    WantedAt(tools, reserved, i);
  }

  /** A mirrored tool whose listed schema has turned bad keeps its stale entry. */
  lemma StaleEntryKept(
    registry: Registry, mirrored: set<string>, reserved: set<string>, own: set<string>, tools: seq<Tool>, name: string)
    requires MirrorInvariant(registry, mirrored, reserved, own)
    requires name in mirrored && name in Names(tools) && Wanted(tools, reserved, name).None?
    ensures name in ApplyMirrored(mirrored, reserved, tools)
    ensures var after := ApplyRegistry(registry, mirrored, reserved, tools);
            name in after && after[name] == registry[name]
  {}

  /** Applying the same listing again changes nothing. */
  lemma ApplyIdempotent(registry: Registry, mirrored: set<string>, reserved: set<string>, tools: seq<Tool>)
    ensures var (r, m) := (ApplyRegistry(registry, mirrored, reserved, tools), ApplyMirrored(mirrored, reserved, tools));
            ApplyRegistry(r, m, reserved, tools) == r && ApplyMirrored(m, reserved, tools) == m
  {
    var (r, m) := (ApplyRegistry(registry, mirrored, reserved, tools), ApplyMirrored(mirrored, reserved, tools));
    assert m - Names(tools) == {};
    assert WantedNames(tools, reserved) <= r.Keys;
  }

  lemma {:induction false} FirstOfExtension(tools: seq<Tool>, tool: Tool, name: string)
    ensures First(tools + [tool], name) ==
            if First(tools, name).Some? then First(tools, name)
            else if tool.name == name then Some(tool) else None
  {
    if tools == [] {
      assert tools + [tool] == [tool];
    } else {
      assert (tools + [tool])[1..] == tools[1..] + [tool];
      FirstOfExtension(tools[1..], tool, name);
    }
  }

  /** One more listed tool adds at most its own name to what is wanted. */
  lemma WantedOfExtension(tools: seq<Tool>, tool: Tool, reserved: set<string>)
    ensures Names(tools + [tool]) == Names(tools) + {tool.name}
    ensures forall n | n != tool.name || n in Names(tools) ::
              Wanted(tools + [tool], reserved, n) == Wanted(tools, reserved, n)
    ensures tool.name !in Names(tools) ==>
              Wanted(tools + [tool], reserved, tool.name)
              == if tool.name in reserved || DownstreamTool(tool).Err? then None else Some(DownstreamTool(tool).value)
  {
    var longer := tools + [tool];
    assert longer[|tools|] == tool;
    forall n ensures n in Names(longer) <==> n in Names(tools) || n == tool.name {
      if n in Names(tools) {
        var i :| 0 <= i < |tools| && tools[i].name == n;
        assert longer[i].name == n;
      }
    }
    forall n ensures First(longer, n) == if First(tools, n).Some? then First(tools, n)
                                         else if tool.name == n then Some(tool) else None {
      FirstOfExtension(tools, tool, n);
    }
  }

  /** The registration step of the first loop, seen from the specification. */
  lemma OverlayOfExtension(registry: Registry, reserved: set<string>, tools: seq<Tool>, tool: Tool)
    ensures Names(tools + [tool]) == Names(tools) + {tool.name}
    ensures var added := tool.name !in Names(tools) && tool.name !in reserved && DownstreamTool(tool).Ok?;
            && WantedNames(tools + [tool], reserved)
               == WantedNames(tools, reserved) + (if added then {tool.name} else {})
            && Overlay(registry, reserved, tools + [tool])
               == if added
                  then Overlay(registry, reserved, tools)[tool.name := Forwarding(DownstreamTool(tool).value, tool.name)]
                  else Overlay(registry, reserved, tools)
  {
    WantedOfExtension(tools, tool, reserved);
    var (before, after) := (WantedNames(tools, reserved), WantedNames(tools + [tool], reserved));
    forall n ensures n in after <==> n in before || (n == tool.name && tool.name !in Names(tools)
                                                     && tool.name !in reserved && DownstreamTool(tool).Ok?) {}
  }

  /** The downstream MCP server, reduced to its tool registry. */
  class Server {
    var tools: Registry

    constructor (own: set<string>)
      ensures tools == map n | n in own :: Own
    {
      tools := map n | n in own :: Own;
    }

    /** Silently replaces a tool of the same name; panics unless the schema is an object schema. */
    method AddTool(definition: Definition, target: string)
      requires IsObjectSchema(definition.input)
      modifies this
      ensures tools == old(tools)[definition.name := Forwarding(definition, target)]
    {
      tools := tools[definition.name := Forwarding(definition, target)];
    }

    method RemoveTool(name: string)
      modifies this
      ensures tools == old(tools) - {name}
    {
      tools := tools - {name};
    }
  }

  /** The mirroring object. Network results are parameters: the session a dial yields and
      the listing a session yields, None standing for a failure. */
  class Upstream {
    var session: Option<nat>
    var server: Server?
    var mirrored: set<string>
    const reserved: set<string>

    constructor (reserved: set<string>)
      ensures this.reserved == reserved && session == None && server == null && mirrored == {}
    {
      this.reserved := reserved;
      session, server, mirrored := None, null, {};
    }

    /** First loop of SyncTools: registers what is listed and wanted. */
    method MirrorListed(downstream: Server, tools: seq<Tool>) returns (seen: set<string>)
      modifies this`mirrored, downstream
      ensures seen == Names(tools)
      ensures mirrored == old(mirrored) + WantedNames(tools, reserved)
      ensures downstream.tools == Overlay(old(downstream.tools), reserved, tools)
    {
      seen := {};
      var i := 0;
      while i < |tools|
        invariant 0 <= i <= |tools|
        invariant seen == Names(tools[..i])
        invariant mirrored == old(mirrored) + WantedNames(tools[..i], reserved)
        invariant downstream.tools == Overlay(old(downstream.tools), reserved, tools[..i])
      {
        var tool := tools[i];
        assert tools[..i + 1] == tools[..i] + [tool];
        OverlayOfExtension(old(downstream.tools), reserved, tools[..i], tool);
        if tool.name !in seen {
          seen := seen + {tool.name};
          if tool.name !in reserved {
            var definition := DownstreamTool(tool);
            if definition.Ok? {
              downstream.AddTool(definition.value, tool.name);
              mirrored := mirrored + {tool.name};
            }
          }
        }
        i := i + 1;
      }
      assert tools[..i] == tools;
    }

    /** Second loop of SyncTools, over the mirrored names in any order. */
    method RemoveVanished(downstream: Server, seen: set<string>)
      modifies this`mirrored, downstream
      ensures mirrored == old(mirrored) * seen
      ensures downstream.tools == old(downstream.tools) - (old(mirrored) - seen)
    {
      var remaining := mirrored;
      while remaining != {}
        invariant remaining <= mirrored
        invariant mirrored == old(mirrored) * seen + remaining
        invariant downstream.tools == old(downstream.tools) - (old(mirrored) - seen - remaining)
        decreases remaining
      {
        var name :| name in remaining;
        remaining := remaining - {name};
        if name !in seen {
          downstream.RemoveTool(name);
          mirrored := mirrored - {name};
        }
      }
    }

    /** A successful sync has exactly the effect of ApplyMirrored and ApplyRegistry; a failed
        one changes nothing. */
    method SyncTools(downstream: Server, listing: Option<seq<Tool>>) returns (ok: bool)
      modifies this`mirrored, downstream
      ensures ok <==> session.Some? && listing.Some?
      ensures !ok ==> mirrored == old(mirrored) && downstream.tools == old(downstream.tools)
      ensures ok ==>
                && mirrored == ApplyMirrored(old(mirrored), reserved, listing.value)
                && downstream.tools == ApplyRegistry(old(downstream.tools), old(mirrored), reserved, listing.value)
    {
      if session.None? || listing.None? {
        return false;
      }
      var seen := MirrorListed(downstream, listing.value);
      RemoveVanished(downstream, seen);
      assert WantedNames(listing.value, reserved) <= seen;
      assert mirrored == ApplyMirrored(old(mirrored), reserved, listing.value);
      ok := true;
    }

    /** A failed Connect leaves no session behind and the mirror as it was. */
    method Connect(dialed: Option<nat>, downstream: Server, listing: Option<seq<Tool>>) returns (ok: bool)
      modifies this, downstream
      ensures ok <==> dialed.Some? && listing.Some?
      ensures dialed.None? ==> session == old(session) && server == old(server)
      ensures dialed.Some? ==> server == downstream && session == if ok then dialed else None
      ensures !ok ==> mirrored == old(mirrored) && downstream.tools == old(downstream.tools)
      ensures ok ==>
                && mirrored == ApplyMirrored(old(mirrored), reserved, listing.value)
                && downstream.tools == ApplyRegistry(old(downstream.tools), old(mirrored), reserved, listing.value)
    {
      if dialed.None? {
        return false;
      }
      session := dialed;
      server := downstream;
      ok := SyncTools(downstream, listing);
      if !ok {
        if session == dialed {
          session := None;
        }
      }
    }

    /** Returns the session to close, if there was one. Idempotent. */
    method Close() returns (closed: Option<nat>)
      modifies this`session
      ensures closed == old(session) && session == None
    {
      closed := session;
      session := None;
    }

    /** A failed re-sync leaves the previous mirror in place. */
    method Resync(listing: Option<seq<Tool>>)
      modifies this`mirrored, server
      ensures server == null || session.None? || listing.None? ==> mirrored == old(mirrored)
      ensures server != null && (session.None? || listing.None?) ==> server.tools == old(server.tools)
      ensures server != null && session.Some? && listing.Some? ==>
                && mirrored == ApplyMirrored(old(mirrored), reserved, listing.value)
                && server.tools == ApplyRegistry(old(server.tools), old(mirrored), reserved, listing.value)
    {
      var downstream := server;
      if downstream == null {
        return;
      }
      var _ := SyncTools(downstream, listing);
    }
  }
}
