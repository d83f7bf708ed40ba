/**
 * `bootstrap(opts)` as a function from the options and the outcomes of its
 * collaborators (updater, IPC client, run stream, close) to the effects it
 * performs, in order, and the way it settles.
 */
module Launcher {
  import opened Strings
  import opened JsValues
  import opened Outcomes
  import opened DhtFlags
  import opened Peers
  import opened AppLink
  import opened Bail

  /** The fields of `opts` the launcher reads; callbacks are left out. */
  datatype Options = Options(
    pearKey: seq<bv8>,
    pearDir: string,
    appLink: Value,
    useLock: Value,
    dhtBootstrap: Value)

  /** How one awaited collaborator call settles. */
  datatype Settled = Resolved(value: Value) | Rejected(reason: Value)

  /** The settlements of the collaborator calls, in the order they are
      awaited, and the stack trace the internal error would carry. */
  datatype Collaborators = Collaborators(
    updater: Settled,
    ready: Settled,
    opwait: Settled,
    close: Settled,
    internalStack: string)

  /** What the sidecar would be spawned with if the client has to start it. */
  datatype Spawn = Spawn(args: seq<string>, cwd: string)

  datatype RunFlags = RunFlags(preflight: bool, trusted: bool)

  datatype Effect =
      /** `updaterBootstrap(pearKey, pearDir, {lock, bootstrap})` called */
    | UpdaterCalled(key: seq<bv8>, dir: string, lock: Value, peers: Option<seq<Peer>>)
      /** IPC client created (spawning with these arguments if needed) and `ready()` awaited;
          whether a channel remains after a rejected `ready()` is up to the client */
    | IpcReadyAwaited(spawn: Spawn)
      /** `ipc.run({link, flags})` issued */
    | RunRequested(link: string, flags: RunFlags)
      /** `ipc.close()` awaited */
    | Closed

  datatype Launch = Launch(trace: seq<Effect>, outcome: Result<()>)

  /** The position each effect takes in a complete launch. */
  function Rank(e: Effect): nat {
    match e
    case UpdaterCalled(_, _, _, _) => 0
    case IpcReadyAwaited(_) => 1
    case RunRequested(_, _) => 2
    case Closed => 3
  }

  /** Effects happen in launch order, each at most once, and none is
      skipped on the way to a later one. */
  predicate InOrder(trace: seq<Effect>) {
    forall i :: 0 <= i < |trace| ==> Rank(trace[i]) == i
  }

  /** `dhtBootstrap?.split(',').map(...)`: nothing for a nullish value, the
      parsed peers for a string, a TypeError for anything else. */
  function UpdaterPeers(dhtBootstrap: Value): (r: Result<Option<seq<Peer>>>)
    ensures Nullish(dhtBootstrap) ==> r == Ok(None)
    ensures dhtBootstrap.Str? ==>
      (r.Ok? <==> ParsePeers(dhtBootstrap.str).Ok?) &&
      (r.Ok? ==> r.value == Some(ParsePeers(dhtBootstrap.str).value)) &&
      (r.Err? ==> r.error == ParsePeers(dhtBootstrap.str).error)
    ensures !Nullish(dhtBootstrap) && !dhtBootstrap.Str? ==> r == Err(NotAFunction("split"))
  {
    if Nullish(dhtBootstrap) then Ok(None)
    else if dhtBootstrap.Str? then
      match ParsePeers(dhtBootstrap.str)
      case Err(e) => Err(e)
      case Ok(peers) => Ok(Some(peers))
    else Err(NotAFunction("split"))
  }

  const PreflightRun := RunFlags(true, true)

  function Bootstrap(opts: Options, env: Collaborators): (r: Launch)
    ensures |r.trace| <= 4
    ensures |r.trace| == 0 <==>
      SpawnArgs(opts.dhtBootstrap).Err? || UpdaterPeers(opts.dhtBootstrap).Err?
    ensures |r.trace| >= 2 ==> env.updater.Resolved? && CheckAppLink(opts.appLink).Ok?
    ensures |r.trace| >= 3 ==> env.ready.Resolved?
    ensures |r.trace| == 4 ==> env.opwait.Resolved?
    ensures env.opwait.Rejected? ==> |r.trace| <= 3
    // The prologue: the spawn arguments' error comes before the parser's.
    ensures SpawnArgs(opts.dhtBootstrap).Err? ==>
      r == Launch([], Err(SpawnArgs(opts.dhtBootstrap).error))
    ensures SpawnArgs(opts.dhtBootstrap).Ok? && UpdaterPeers(opts.dhtBootstrap).Err? ==>
      r == Launch([], Err(UpdaterPeers(opts.dhtBootstrap).error))
    // Once the prologue passes, each step runs exactly when the previous one
    // succeeded, and a rejection is rethrown after the effects so far.
    ensures |r.trace| >= 1 && env.updater.Rejected? ==>
      |r.trace| == 1 && r.outcome == Err(Rethrown(env.updater.reason))
    ensures |r.trace| >= 1 && env.updater.Resolved? ==>
      (|r.trace| >= 2 <==> CheckAppLink(opts.appLink).Ok?)
    ensures |r.trace| >= 1 && env.updater.Resolved? && CheckAppLink(opts.appLink).Err? ==>
      r.outcome == Err(CheckAppLink(opts.appLink).error)
    ensures |r.trace| >= 2 && env.ready.Resolved? ==> |r.trace| >= 3
    ensures |r.trace| == 2 ==> env.ready.Rejected? && r.outcome == Err(Rethrown(env.ready.reason))
    ensures |r.trace| >= 3 && env.opwait.Resolved? ==> |r.trace| == 4
    ensures |r.trace| == 3 ==> env.opwait.Rejected? && r.outcome == Err(Rethrown(env.opwait.reason))
    ensures |r.trace| == 4 && env.close.Rejected? ==> r.outcome == Err(Rethrown(env.close.reason))
    ensures |r.trace| == 4 && env.close.Resolved? ==>
      r.outcome == InterpretResult(env.opwait.value, env.internalStack)
    ensures r.outcome.Ok? <==>
      && |r.trace| == 4
      && env.close.Resolved?
      && Get(Get(env.opwait.value, "bail"), "code") == Str(Preflight)
    // Effect i is the i-th step of a launch, carrying these values.
    ensures |r.trace| >= 1 ==>
      r.trace[0] == UpdaterCalled(opts.pearKey, opts.pearDir, opts.useLock,
                                  UpdaterPeers(opts.dhtBootstrap).value)
    ensures |r.trace| >= 2 ==>
      && r.trace[1].IpcReadyAwaited?
      && Ok(r.trace[1].spawn.args) == SpawnArgs(opts.dhtBootstrap)
      && r.trace[1].spawn.cwd == opts.pearDir
    ensures |r.trace| >= 3 ==>
      && r.trace[2].RunRequested?
      && Str(r.trace[2].link) == opts.appLink
      && StartsWith(r.trace[2].link, PearScheme)
      && r.trace[2].flags == PreflightRun
    ensures |r.trace| == 4 ==> r.trace[3] == Closed
  {
    match SpawnArgs(opts.dhtBootstrap)
    case Err(e) => Launch([], Err(e))
    case Ok(args) =>
      match UpdaterPeers(opts.dhtBootstrap)
      case Err(e) => Launch([], Err(e))
      case Ok(peers) =>
        var updated := UpdaterCalled(opts.pearKey, opts.pearDir, opts.useLock, peers);
        if env.updater.Rejected? then Launch([updated], Err(Rethrown(env.updater.reason)))
        else
          match CheckAppLink(opts.appLink)
          case Err(e) => Launch([updated], Err(e))
          case Ok(link) =>
            var connected := IpcReadyAwaited(Spawn(args, opts.pearDir));
            if env.ready.Rejected? then Launch([updated, connected], Err(Rethrown(env.ready.reason)))
            else
              var requested := RunRequested(link, PreflightRun);
              if env.opwait.Rejected? then
                Launch([updated, connected, requested], Err(Rethrown(env.opwait.reason)))
              else
                var closed := [updated, connected, requested, Closed];
                if env.close.Rejected? then Launch(closed, Err(Rethrown(env.close.reason)))
                else Launch(closed, InterpretResult(env.opwait.value, env.internalStack))
  }

  /** Effects happen in launch order, each at most once, none skipped. */
  lemma LaunchInOrder(opts: Options, env: Collaborators)
    ensures InOrder(Bootstrap(opts, env).trace)
  {
  }

  /** A port that does not parse is reported before the updater is called. */
  lemma PortErrorBeforeUpdater(opts: Options, env: Collaborators)
    requires opts.dhtBootstrap.Str? && ParsePeers(opts.dhtBootstrap.str).Err?
    ensures Bootstrap(opts, env) ==
      Launch([], Err(ParsePeers(opts.dhtBootstrap.str).error))
  {
  }

  /** An empty peer string is falsy for the spawn arguments but still goes
      through the parser, which rejects it before any effect. */
  lemma EmptyPeerStringFailsFirst(opts: Options, env: Collaborators)
    requires opts.dhtBootstrap == Str("")
    ensures Bootstrap(opts, env) == Launch([], Err(Thrown("Invalid port: undefined")))
  {
    EmptyPeerStringRejected();
  }

  /** Only a string (or a nullish value) gets past the prologue: arrays,
      numbers and objects reach `flagifyDhtBootstrap` but then fail. */
  lemma NonStringPeersNeverLaunch(opts: Options, env: Collaborators)
    requires !Nullish(opts.dhtBootstrap) && !opts.dhtBootstrap.Str?
    ensures Bootstrap(opts, env).trace == []
    ensures Bootstrap(opts, env).outcome.Err?
    ensures FlagifyDhtBootstrap(opts.dhtBootstrap).Err? ==>
      Bootstrap(opts, env).outcome == Err(Thrown(InvalidNodeFormat))
    ensures FlagifyDhtBootstrap(opts.dhtBootstrap).Ok? ==>
      Bootstrap(opts, env).outcome == Err(NotAFunction("split"))
  {
  }

  /** The appLink checks run after the updater and before any IPC. */
  lemma AppLinkErrorAfterUpdater(opts: Options, env: Collaborators)
    requires SpawnArgs(opts.dhtBootstrap).Ok? && UpdaterPeers(opts.dhtBootstrap).Ok?
    requires env.updater.Resolved?
    requires CheckAppLink(opts.appLink).Err?
    ensures Bootstrap(opts, env) == Launch(
      [UpdaterCalled(opts.pearKey, opts.pearDir, opts.useLock, UpdaterPeers(opts.dhtBootstrap).value)],
      Err(CheckAppLink(opts.appLink).error))
  {
  }

  /** When every collaborator resolves, the launch performs all four
      effects and its outcome is the reading of the final data. */
  lemma CompleteLaunch(opts: Options, env: Collaborators)
    requires SpawnArgs(opts.dhtBootstrap).Ok? && UpdaterPeers(opts.dhtBootstrap).Ok?
    requires CheckAppLink(opts.appLink).Ok?
    requires env.updater.Resolved? && env.ready.Resolved? && env.opwait.Resolved? && env.close.Resolved?
    ensures Bootstrap(opts, env) == Launch(
      [ UpdaterCalled(opts.pearKey, opts.pearDir, opts.useLock, UpdaterPeers(opts.dhtBootstrap).value),
        IpcReadyAwaited(Spawn(SpawnArgs(opts.dhtBootstrap).value, opts.pearDir)),
        RunRequested(CheckAppLink(opts.appLink).value, PreflightRun),
        Closed ],
      InterpretResult(env.opwait.value, env.internalStack))
  {
  }

  /** A rejected updater call is rethrown before the appLink is looked at. */
  lemma UpdaterFailureStopsLaunch(opts: Options, env: Collaborators)
    requires SpawnArgs(opts.dhtBootstrap).Ok? && UpdaterPeers(opts.dhtBootstrap).Ok?
    requires env.updater.Rejected?
    ensures Bootstrap(opts, env) == Launch(
      [UpdaterCalled(opts.pearKey, opts.pearDir, opts.useLock, UpdaterPeers(opts.dhtBootstrap).value)],
      Err(Rethrown(env.updater.reason)))
  {
  }

  /** A rejected `ready()` is rethrown with no run requested and without
      `close()` being called. */
  lemma ReadyFailureSkipsClose(opts: Options, env: Collaborators)
    requires SpawnArgs(opts.dhtBootstrap).Ok? && UpdaterPeers(opts.dhtBootstrap).Ok?
    requires env.updater.Resolved? && CheckAppLink(opts.appLink).Ok?
    requires env.ready.Rejected?
    ensures Bootstrap(opts, env) == Launch(
      [ UpdaterCalled(opts.pearKey, opts.pearDir, opts.useLock, UpdaterPeers(opts.dhtBootstrap).value),
        IpcReadyAwaited(Spawn(SpawnArgs(opts.dhtBootstrap).value, opts.pearDir)) ],
      Err(Rethrown(env.ready.reason)))
  {
  }

  /** A rejected `close()` is rethrown in place of the bail's reading. */
  lemma CloseFailureRethrown(opts: Options, env: Collaborators)
    requires SpawnArgs(opts.dhtBootstrap).Ok? && UpdaterPeers(opts.dhtBootstrap).Ok?
    requires CheckAppLink(opts.appLink).Ok?
    requires env.updater.Resolved? && env.ready.Resolved? && env.opwait.Resolved?
    requires env.close.Rejected?
    ensures |Bootstrap(opts, env).trace| == 4
    ensures Bootstrap(opts, env).trace[3] == Closed
    ensures Bootstrap(opts, env).outcome == Err(Rethrown(env.close.reason))
  {
  }

  /** A failing bail is reported only after the channel has been closed. */
  lemma FailingBailClosesFirst(opts: Options, env: Collaborators)
    requires env.opwait.Resolved? && env.close.Resolved?
    requires Bootstrap(opts, env).outcome.Err?
    requires Bootstrap(opts, env).outcome.error.OperationFailed?
    ensures |Bootstrap(opts, env).trace| == 4
    ensures Bootstrap(opts, env).trace[3] == Closed
  {
  }

  /** If the run stream fails, `close()` is not called. */
  lemma OpwaitFailureSkipsClose(opts: Options, env: Collaborators)
    requires env.opwait.Rejected?
    ensures Closed !in Bootstrap(opts, env).trace
    ensures Bootstrap(opts, env).outcome.Err?
    ensures |Bootstrap(opts, env).trace| == 3 ==>
      Bootstrap(opts, env).outcome == Err(Rethrown(env.opwait.reason))
  {
  }
}
