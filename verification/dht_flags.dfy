/**
 * `flagifyDhtBootstrap` and the argument list the sidecar is spawned with.
 */
module DhtFlags {
  import opened Decimal
  import opened Strings
  import opened JsValues
  import opened Outcomes

  const SidecarFlag := "--sidecar"
  const DhtBootstrapFlag := "--dht-bootstrap"
  const Loopback := "127.0.0.1"
  const InvalidNodeFormat := "Invalid node format"

  /** A non-array input is treated as a one-element list. */
  function Nodes(input: Value): seq<Value> {
    if input.Arr? then input.items else [input]
  }

  /** An entry that is neither a string, a number nor an object with a
      truthy `host` and a truthy `port`. */
  predicate Malformed(node: Value) {
    && !node.Str?
    && !node.Num?
    && !(Truthy(Get(node, "host")) && Truthy(Get(node, "port")))
  }

  /** `text` is what a well-formed `node` is rendered as: a string as is,
      a number `n` as `127.0.0.1:n`, an object as `host:port`. */
  predicate RendersAs(node: Value, text: string) {
    if node.Str? then text == node.str
    else if node.Num? then text == Loopback + ":" + IntString(node.num)
    else text == ToStr(Get(node, "host")) + ":" + ToStr(Get(node, "port"))
  }

  function RenderNode(node: Value): Option<string> {
    match node
    case Str(s) => Some(s)
    case Num(n) => Some(Loopback + ":" + IntString(n))
    case _ =>
      var host := Get(node, "host");
      var port := Get(node, "port");
      if Truthy(host) && Truthy(port) then Some(ToStr(host) + ":" + ToStr(port)) else None
  }

  /** The `map` over the entries: one rendering per entry, in order, or the
      format error as soon as one entry is malformed. */
  function RenderNodes(nodes: seq<Value>): (r: Result<seq<string>>)
    ensures r.Ok? <==> forall i :: 0 <= i < |nodes| ==> !Malformed(nodes[i])
    ensures r.Ok? ==> |r.value| == |nodes|
    ensures r.Ok? ==> forall i :: 0 <= i < |nodes| ==> RendersAs(nodes[i], r.value[i])
    ensures r.Err? ==> r.error == Thrown(InvalidNodeFormat)
    decreases |nodes|
  {
    if |nodes| == 0 then Ok([])
    else
      match RenderNode(nodes[0])
      case None => Err(Thrown(InvalidNodeFormat))
      case Some(text) =>
        match RenderNodes(nodes[1..])
        case Err(e) => Err(e)
        case Ok(rest) => Ok([text] + rest)
  }

  /** `flagifyDhtBootstrap(input)`: no tokens for a falsy input, otherwise
      the flag followed by the comma-joined renderings of the entries. */
  function FlagifyDhtBootstrap(input: Value): (r: Result<seq<string>>)
    ensures r == Ok([]) <==> !Truthy(input)
    ensures Truthy(input) && input.Str? ==> r == Ok([DhtBootstrapFlag, input.str])
    ensures r.Ok? && Truthy(input) ==> |r.value| == 2 && r.value[0] == DhtBootstrapFlag
    ensures r.Err? <==>
      Truthy(input) && !input.Str? && exists i :: 0 <= i < |Nodes(input)| && Malformed(Nodes(input)[i])
    ensures r.Err? ==> r.error == Thrown(InvalidNodeFormat)
    ensures r.Ok? && Truthy(input) && !input.Str? ==>
      r.value[1] == Join(RenderNodes(Nodes(input)).value, ',')
  {
    if !Truthy(input) then Ok([])
    else if input.Str? then Ok([DhtBootstrapFlag, input.str])
    else
      match RenderNodes(Nodes(input))
      case Err(e) => Err(e)
      case Ok(texts) => Ok([DhtBootstrapFlag, Join(texts, ',')])
  }

  /** The argument list of the sidecar spawn: `--sidecar` first, then the
      peer flag when `dhtBootstrap` is truthy. */
  function SpawnArgs(dhtBootstrap: Value): (r: Result<seq<string>>)
    ensures r.Ok? ==> |r.value| >= 1 && r.value[0] == SidecarFlag
    ensures r.Ok? ==> |r.value| == 1 || |r.value| == 3
    ensures !Truthy(dhtBootstrap) ==> r == Ok([SidecarFlag])
    ensures Truthy(dhtBootstrap) && dhtBootstrap.Str? ==>
      r == Ok([SidecarFlag, DhtBootstrapFlag, dhtBootstrap.str])
    ensures Truthy(dhtBootstrap) ==>
      && (r.Ok? <==> FlagifyDhtBootstrap(dhtBootstrap).Ok?)
      && (r.Ok? ==> r.value[1..] == FlagifyDhtBootstrap(dhtBootstrap).value)
      && (r.Err? ==> r.error == FlagifyDhtBootstrap(dhtBootstrap).error)
  {
    if Truthy(dhtBootstrap) then
      match FlagifyDhtBootstrap(dhtBootstrap)
      case Err(e) => Err(e)
      case Ok(flags) =>
        assert dhtBootstrap.Str? ==> [SidecarFlag] + flags == [SidecarFlag, DhtBootstrapFlag, dhtBootstrap.str];
        Ok([SidecarFlag] + flags)
    else Ok([SidecarFlag])
  }

  /** An empty array is truthy, so it yields the flag with an empty peer list. */
  lemma EmptyArrayGivesEmptyPeerString()
    ensures FlagifyDhtBootstrap(Arr([])) == Ok([DhtBootstrapFlag, ""])
  {
  }

  /** A bare number, even 0 inside a list, stands for a loopback port. */
  lemma ZeroPortNumberAccepted()
    ensures FlagifyDhtBootstrap(Arr([Num(0)])) == Ok([DhtBootstrapFlag, "127.0.0.1:0"])
  {
    assert IntString(0) == "0";
    assert Loopback + ":" + "0" == "127.0.0.1:0";
    assert RenderNode(Num(0)) == Some("127.0.0.1:0");
    assert [Num(0)][1..] == [];
    assert RenderNodes([Num(0)][1..]) == Ok([]);
    assert ["127.0.0.1:0"] + [] == ["127.0.0.1:0"];
    assert RenderNodes([Num(0)]) == Ok(["127.0.0.1:0"]);
  }

  /** Structured entries need truthy fields: a falsy host (such as '') or
      a falsy port (such as 0) is rejected, whatever the other field is. */
  lemma FalsyFieldsRejected(host: Value, port: Value)
    requires !Truthy(host) || !Truthy(port)
    ensures FlagifyDhtBootstrap(Obj(map["host" := host, "port" := port]))
      == Err(Thrown(InvalidNodeFormat))
  {
    var entry := Obj(map["host" := host, "port" := port]);
    assert Get(entry, "host") == host && Get(entry, "port") == port;
    assert Malformed(Nodes(entry)[0]);
  }
}
