/**
 * The launches the repository's test suite drives, stated over the model:
 * a server that answers the run request with one final event, and
 * collaborators that all resolve.
 */
module Scenarios {
  import opened JsValues
  import opened Outcomes
  import opened DhtFlags
  import opened Peers
  import opened AppLink
  import opened Bail
  import opened Launcher

  const TestLink := "pear://keet"
  const TestPeers := "127.0.0.1:9999"

  function FinalData(code: string): Value {
    Obj(map["bail" := Obj(map["code" := Str(code)])])
  }

  /** Every collaborator resolves; the run stream ends with `data`. */
  function Served(data: Value, internalStack: string): Collaborators {
    Collaborators(Resolved(Undefined), Resolved(Undefined), Resolved(data), Resolved(Undefined), internalStack)
  }

  function TestOptions(key: seq<bv8>, dir: string, appLink: Value, dhtBootstrap: Value): Options {
    Options(key, dir, appLink, Bool(false), dhtBootstrap)
  }

  lemma TestLinkIsPear()
    ensures CheckAppLink(Str(TestLink)) == Ok(TestLink)
  {
    assert TestLink == PearScheme + "//keet";
    PearPrefixSuffices("//keet");
  }

  lemma TestPeersArgs()
    ensures SpawnArgs(Str(TestPeers)) == Ok([SidecarFlag, DhtBootstrapFlag, TestPeers])
    ensures UpdaterPeers(Str(TestPeers)) == Ok(Some([Peer("127.0.0.1", 9999)]))
  {
    assert Truthy(Str(TestPeers)) by {
      assert TestPeers[0] == '1';
    }
    assert ParsePeers(TestPeers) == Ok([Peer("127.0.0.1", 9999)]) by {
      LoopbackPeerParses();
    }
  }

  lemma PreflightCodeSucceeds(internalStack: string)
    ensures InterpretResult(FinalData(Preflight), internalStack) == Ok(())
  {
  }

  /** The updater is given the key, the directory, the lock flag and the
      parsed peer list. */
  lemma UpdaterGetsParsedPeers(key: seq<bv8>, dir: string, env: Collaborators)
    ensures var launch := Bootstrap(TestOptions(key, dir, Str(TestLink), Str(TestPeers)), env);
      |launch.trace| >= 1 &&
      launch.trace[0] == UpdaterCalled(key, dir, Bool(false), Some([Peer("127.0.0.1", 9999)]))
  {
    TestPeersArgs();
  }

  /** Without peers the sidecar is spawned with `--sidecar` alone, in the
      pear directory, and the launch succeeds. */
  lemma SidecarArgsWithoutPeers(key: seq<bv8>, dir: string, internalStack: string)
    ensures var launch := Bootstrap(TestOptions(key, dir, Str(TestLink), Undefined),
                                    Served(FinalData(Preflight), internalStack));
      |launch.trace| == 4 &&
      launch.trace[1] == IpcReadyAwaited(Spawn([SidecarFlag], dir)) &&
      launch.outcome == Ok(())
  {
    TestLinkIsPear();
    PreflightCodeSucceeds(internalStack);
  }

  /** With a peer string the spawn arguments carry it after the flag. */
  lemma SidecarArgsWithPeers(key: seq<bv8>, dir: string, internalStack: string)
    ensures var launch := Bootstrap(TestOptions(key, dir, Str(TestLink), Str(TestPeers)),
                                    Served(FinalData(Preflight), internalStack));
      |launch.trace| == 4 &&
      launch.trace[1] == IpcReadyAwaited(Spawn([SidecarFlag, DhtBootstrapFlag, TestPeers], dir)) &&
      launch.outcome == Ok(())
  {
    TestLinkIsPear();
    TestPeersArgs();
    PreflightCodeSucceeds(internalStack);
  }

  /** The run request carries the app link and the preflight flag. */
  lemma RunCarriesLinkAndPreflight(key: seq<bv8>, dir: string, internalStack: string)
    ensures var launch := Bootstrap(TestOptions(key, dir, Str(TestLink), Str(TestPeers)),
                                    Served(FinalData(Preflight), internalStack));
      |launch.trace| == 4 &&
      launch.trace[2].RunRequested? &&
      launch.trace[2].link == TestLink &&
      launch.trace[2].flags.preflight
  {
    TestLinkIsPear();
    TestPeersArgs();
    CompleteLaunch(TestOptions(key, dir, Str(TestLink), Str(TestPeers)),
                   Served(FinalData(Preflight), internalStack));
  }

  /** A bail with another code fails with its message, after closing. */
  lemma NonPreflightBailFails(key: seq<bv8>, dir: string, internalStack: string)
    ensures var data := Obj(map["bail" := Obj(map["code" := Str("ERR_CONNECTION"), "message" := Str("fail")])]);
      var launch := Bootstrap(TestOptions(key, dir, Str(TestLink), Str(TestPeers)),
                              Served(data, internalStack));
      |launch.trace| == 4 &&
      launch.trace[3] == Closed &&
      launch.outcome == Err(OperationFailed(Str("fail"), Undefined))
  {
    TestLinkIsPear();
    TestPeersArgs();
    ConnectionBailReportsMessage(internalStack);
  }

  /** A missing app link fails after the updater and before any IPC. */
  lemma MissingAppLinkFails(key: seq<bv8>, dir: string, env: Collaborators)
    requires env.updater.Resolved?
    ensures var launch := Bootstrap(TestOptions(key, dir, Undefined, Str(TestPeers)), env);
      |launch.trace| == 1 &&
      launch.trace[0].UpdaterCalled? &&
      launch.outcome == Err(InvalidInput(LinkRequired))
  {
    TestPeersArgs();
  }

  /** An `http:` app link fails the same way, with the scheme message. */
  lemma HttpAppLinkFails(key: seq<bv8>, dir: string, env: Collaborators)
    requires env.updater.Resolved?
    ensures var launch := Bootstrap(TestOptions(key, dir, Str("http://invalid-link"), Str(TestPeers)), env);
      |launch.trace| == 1 &&
      launch.trace[0].UpdaterCalled? &&
      launch.outcome == Err(InvalidInput(LinkNotPear))
  {
    TestPeersArgs();
    HttpLinkRejected();
  }
}
