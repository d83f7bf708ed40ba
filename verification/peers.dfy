/**
 * The peer-string parser of `bootstrap`: `"h:p,h:p"` becomes the list of
 * `{host, port}` records handed to the updater.
 */
module Peers {
  import opened Decimal
  import opened Strings
  import opened JsValues
  import opened Outcomes
  import opened DhtFlags

  datatype Peer = Peer(host: string, port: int)

  /** `${port}` for the destructured second field; a token without a colon
      has none, which prints as `undefined`. */
  function PortText(port: Option<string>): string {
    if port.Some? then port.value else "undefined"
  }

  /** `+port` when `Number.isInteger` accepts it. Only digit strings are
      read as numbers here (the empty one as 0); every other text, and a
      missing field, is not an integer. */
  function PortNumber(port: Option<string>): Option<int> {
    if port.Some? && AllDigits(port.value) then Some(DigitsValue(port.value)) else None
  }

  function InvalidPort(port: Option<string>): Failure {
    Thrown("Invalid port: " + PortText(port))
  }

  /** One `host:port` token: the first two `:`-separated fields, the
      second converted to a number. */
  function ParseTuple(token: string): (r: Result<Peer>)
    ensures ':' !in token ==> r == Err(Thrown("Invalid port: undefined"))
    ensures r.Ok? ==> ':' !in r.value.host && r.value.host + ":" <= token
    ensures r.Ok? ==> r.value.port >= 0
    ensures r.Err? ==> exists p :: r.error == InvalidPort(p)
  {
    var fields := Split(token, ':');
    var host := fields[0];
    var port := if |fields| >= 2 then Some(fields[1]) else None;
    assert |fields| >= 2 ==> token == host + [':'] + Join(fields[1..], ':');
    assert |fields| >= 2 ==> token[|host|] == ':';
    assert "Invalid port: " + "undefined" == "Invalid port: undefined";
    match PortNumber(port)
    case None => Err(InvalidPort(port))
    case Some(n) => Ok(Peer(host, n))
  }

  /** A token `host:port` followed by nothing or by further `:`-fields is
      decided by `port` alone; the further fields are ignored. */
  lemma ParseTupleFields(host: string, port: string, rest: string)
    requires ':' !in host && ':' !in port
    requires rest == "" || rest[0] == ':'
    ensures ParseTuple(host + ":" + port + rest) ==
      if AllDigits(port) then Ok(Peer(host, DigitsValue(port)))
      else Err(Thrown("Invalid port: " + port))
  {
    var fields := Split(host + ":" + port + rest, ':');
    SplitFields(host, port, rest);
    assert fields[0] == host && |fields| >= 2 && fields[1] == port;
  }

  lemma SplitFields(host: string, port: string, rest: string)
    requires ':' !in host && ':' !in port
    requires rest == "" || rest[0] == ':'
    ensures var fields := Split(host + ":" + port + rest, ':');
      |fields| >= 2 && fields[0] == host && fields[1] == port
  {
    var token := host + ":" + port + rest;
    var tail := port + rest;
    assert token == host + [':'] + tail;
    SplitAtFirst(host, tail, ':');
    var fields := Split(token, ':');
    assert fields == [host] + Split(tail, ':');
    if rest == "" {
      assert tail == port;
      SplitWithoutSeparator(port, ':');
    } else {
      assert tail == port + [':'] + rest[1..];
      SplitAtFirst(port, rest[1..], ':');
    }
    assert Split(tail, ':')[0] == port;
  }

  /** The `map` over the comma-separated tokens: one peer per token, in
      order, or the error of the first token that does not parse. */
  function ParseTokens(tokens: seq<string>): (r: Result<seq<Peer>>)
    ensures r.Ok? <==> forall i :: 0 <= i < |tokens| ==> ParseTuple(tokens[i]).Ok?
    ensures r.Ok? ==> |r.value| == |tokens|
    ensures r.Ok? ==> forall i :: 0 <= i < |tokens| ==> r.value[i] == ParseTuple(tokens[i]).value
    ensures r.Err? ==> exists k :: FirstFailure(tokens, k) && r.error == ParseTuple(tokens[k]).error
    decreases |tokens|
  {
    if |tokens| == 0 then Ok([])
    else
      match ParseTuple(tokens[0])
      case Err(e) =>
        assert FirstFailure(tokens, 0);
        Err(e)
      case Ok(peer) =>
        match ParseTokens(tokens[1..])
        case Err(e) =>
          var k :| FirstFailure(tokens[1..], k) && e == ParseTuple(tokens[1..][k]).error;
          assert FirstFailure(tokens, k + 1);
          Err(e)
        case Ok(rest) => Ok([peer] + rest)
  }

  /** Token `k` is the first one that does not parse. */
  predicate FirstFailure(tokens: seq<string>, k: int) {
    && 0 <= k < |tokens|
    && ParseTuple(tokens[k]).Err?
    && forall j :: 0 <= j < k ==> ParseTuple(tokens[j]).Ok?
  }

  /** `dhtBootstrap.split(',').map(...)` */
  function ParsePeers(s: string): (r: Result<seq<Peer>>)
    ensures r.Ok? ==> |r.value| == |Split(s, ',')| >= 1
    ensures r.Ok? ==> forall i :: 0 <= i < |r.value| ==>
      ':' !in r.value[i].host && r.value[i].host + ":" <= Split(s, ',')[i]
    ensures r.Err? ==> exists p :: r.error == InvalidPort(p)
  {
    ParseTokens(Split(s, ','))
  }

  /** A token with no colon at all always fails, whatever else it holds. */
  lemma TokenWithoutColonRejected(s: string)
    requires ':' !in s && ',' !in s
    ensures ParsePeers(s) == Err(Thrown("Invalid port: undefined"))
  {
    SplitWithoutSeparator(s, ',');
    assert FirstFailure([s], 0);
  }

  /** The empty string is one empty token, which has no port. */
  lemma EmptyPeerStringRejected()
    ensures ParsePeers("") == Err(Thrown("Invalid port: undefined"))
  {
    TokenWithoutColonRejected("");
  }

  /** `+''` is 0, so an empty port is accepted as port 0. */
  lemma EmptyPortIsZero(host: string)
    requires ':' !in host
    ensures ParseTuple(host + ":") == Ok(Peer(host, 0))
  {
    ParseTupleFields(host, "", "");
    assert host + ":" + "" + "" == host + ":";
  }

  /** A comma-free string is a single token and so a single peer. */
  lemma SingleTokenIsOnePeer(s: string, peer: Peer)
    requires ',' !in s
    requires ParseTuple(s) == Ok(peer)
    ensures ParsePeers(s) == Ok([peer])
  {
    SplitWithoutSeparator(s, ',');
    assert [s][0] == s && [s][1..] == [];
    assert ParseTokens([]) == Ok([]);
    assert [peer] + [] == [peer];
  }

  /** The single-peer string of the updater test. */
  lemma LoopbackPeerParses()
    ensures ParsePeers("127.0.0.1:9999") == Ok([Peer("127.0.0.1", 9999)])
  {
    var s := "127.0.0.1:9999";
    assert ',' !in s by {
      LoopbackHasNoSeparators();
      assert s == Loopback + ":9999";
    }
    assert ParseTuple(s) == Ok(Peer("127.0.0.1", 9999)) by {
      LoopbackTupleParses();
    }
    SingleTokenIsOnePeer(s, Peer("127.0.0.1", 9999));
  }

  lemma LoopbackTupleParses()
    ensures ParseTuple("127.0.0.1:9999") == Ok(Peer("127.0.0.1", 9999))
  {
    LoopbackHasNoSeparators();
    assert "127.0.0.1:9999" == Loopback + ":" + "9999" + "";
    assert AllDigits("9999");
    ParseTupleFields(Loopback, "9999", "");
    assert DigitsValue("9999") == 9999 by {
      assert "9999"[..3] == "999";
      assert "999"[..2] == "99";
      assert "99"[..1] == "9";
      assert "9"[..0] == "";
    }
  }

  /** Nodes whose rendering the parser reads back unchanged: non-negative
      numbers, `{host, port}` with a plain host and a positive port, and
      strings that are already a single parseable token. */
  predicate Canonical(node: Value) {
    || (node.Num? && node.num >= 0)
    || (&& node.Obj?
        && Get(node, "host").Str? && Get(node, "host").str != ""
        && ':' !in Get(node, "host").str && ',' !in Get(node, "host").str
        && Get(node, "port").Num? && Get(node, "port").num > 0)
    || (node.Str? && ',' !in node.str && ParseTuple(node.str).Ok?)
  }

  /** The peer a canonical node describes. */
  function PeerOf(node: Value): Peer
    requires Canonical(node)
  {
    if node.Num? then Peer(Loopback, node.num)
    else if node.Str? then ParseTuple(node.str).value
    else Peer(Get(node, "host").str, Get(node, "port").num)
  }

  lemma LoopbackHasNoSeparators()
    ensures ':' !in Loopback && ',' !in Loopback
  {
    forall i | 0 <= i < |Loopback| ensures Loopback[i] != ':' && Loopback[i] != ',' { }
  }

  /** `host:n`, with `n` printed in decimal, parses back to `{host, port: n}`. */
  lemma HostPortParsesBack(host: string, n: nat, text: string)
    requires ':' !in host && ',' !in host
    requires text == host + ":" + DecimalString(n)
    ensures ',' !in text
    ensures ParseTuple(text) == Ok(Peer(host, n))
  {
    var digits := DecimalString(n);
    assert text == host + ":" + digits + "";
    ParseTupleFields(host, digits, "");
    DecimalRoundTrip(n);
  }

  lemma {:induction false} NodeParsesBack(node: Value, text: string)
    requires Canonical(node)
    requires RendersAs(node, text)
    ensures ',' !in text
    ensures ParseTuple(text) == Ok(PeerOf(node))
  {
    if node.Num? {
      LoopbackHasNoSeparators();
      HostPortParsesBack(Loopback, node.num, text);
    } else if node.Obj? {
      HostPortParsesBack(Get(node, "host").str, Get(node, "port").num, text);
    }
  }

  /** The `--dht-bootstrap` value `flagifyDhtBootstrap` renders for a list
      parses back to the peers the caller listed, in the caller's order. */
  lemma {:induction false} RenderedPeersParseBack(nodes: seq<Value>)
    requires |nodes| >= 1
    requires forall i :: 0 <= i < |nodes| ==> Canonical(nodes[i])
    ensures FlagifyDhtBootstrap(Arr(nodes)).Ok?
    ensures var peers := ParsePeers(FlagifyDhtBootstrap(Arr(nodes)).value[1]);
      && peers.Ok?
      && |peers.value| == |nodes|
      && forall i :: 0 <= i < |nodes| ==> peers.value[i] == PeerOf(nodes[i])
  {
    var texts := RenderNodes(nodes).value;
    forall i | 0 <= i < |nodes|
      ensures ',' !in texts[i] && ParseTuple(texts[i]) == Ok(PeerOf(nodes[i]))
    {
      NodeParsesBack(nodes[i], texts[i]);
    }
    var joined := Join(texts, ',');
    assert FlagifyDhtBootstrap(Arr(nodes)).value[1] == joined;
    SplitJoin(texts, ',');
    var peers := ParseTokens(texts);
    assert ParsePeers(joined) == peers;
    assert peers.Ok?;
    assert forall i :: 0 <= i < |nodes| ==> peers.value[i] == PeerOf(nodes[i]);
  }
}
