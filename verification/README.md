# pear-distributable-bootstrap, modelled in Dafny

`bootstrap(opts)` launches a Pear application: it calls the updater to
stage the runtime, checks the `appLink`, connects to the local sidecar over
IPC (the client spawns `pear-runtime --sidecar …` when no sidecar is
listening), sends one `run` request for the link, waits for the final event,
closes the channel, and treats the final event's bail as a hand-off
(`PREFLIGHT`) or as a failure.

The model covers the decisions `index.js` makes itself:

- `flagifyDhtBootstrap`, which renders a peer list as the `--dht-bootstrap` flag
  (`DhtFlags`);
- the sidecar argument list (`DhtFlags.SpawnArgs`);
- the `host:port` peer-string parser that feeds the updater (`Peers`);
- the `appLink` checks (`AppLink`);
- the reading of the bail (`Bail`);
- the order of the effects of `bootstrap` (`Launcher`).

The last one is a function from the options and from how each awaited
collaborator call settles to the list of effects performed and the final
outcome. JavaScript values the code inspects are modelled by
`JsValues.Value`, with truthiness, nullishness, `?.` property reads and
template-literal string conversion spelled out. Exceptions become `Err`
values of `Outcomes.Result`. `Strings` holds `split`/`join`, `Decimal` the
number/text conversions. `Scenarios` restates the launches the test suite
drives.

Files: `decimal.dfy`, `strings.dfy`, `js_values.dfy`, `outcomes.dfy`,
`dht_flags.dfy`, `peers.dfy`, `app_link.dfy`, `bail.dfy`, `launcher.dfy`,
`scenarios.dfy`.

Behaviour of the code worth knowing before reading the model:

- `appLink` is checked only after the updater has been awaited
  (index.js:38-40).
- `flagifyDhtBootstrap` yields two tokens, the flag and the joined peer
  list (index.js:12, 14).
- The channel is closed only after `opwait` resolves. After a rejected run
  stream, or a failing `ready()`, `close()` is not called (index.js:49-52).
- Only a string `dhtBootstrap` gets past `.split`. Arrays, numbers and
  objects either fail in `flagifyDhtBootstrap` or reach `.split`, which is
  not a function for them (index.js:30-31).

## Model

| member | source | states |
|---|---|---|
| DhtFlags.FlagifyDhtBootstrap | index.js:10-20 | no tokens exactly for a falsy input; a string `s` gives `['--dht-bootstrap', s]` unchanged; any other truthy input gives exactly two tokens, the flag and the `,`-join of the entry renderings in input order; it fails with `Invalid node format` exactly when some entry (the input itself when it is not an array) is malformed |
| DhtFlags.RenderNodes | index.js:14-19 | one rendering per entry, in order: a string as is, a number `n` as `127.0.0.1:n`, an object as `host:port`; fails with `Invalid node format` iff some entry is neither string nor number nor has a truthy `host` and a truthy `port` |
| DhtFlags.SpawnArgs | index.js:30 | `--sidecar` is always the first token; a falsy `dhtBootstrap` gives `['--sidecar']`, a string `s` gives `['--sidecar','--dht-bootstrap',s]`, otherwise the flagify tokens follow `--sidecar` and its error is propagated |
| DhtFlags.EmptyArrayGivesEmptyPeerString | index.js:11-19 | an empty array is truthy and yields `['--dht-bootstrap', '']` |
| DhtFlags.ZeroPortNumberAccepted | index.js:16 | a bare number 0 inside a list is rendered as `127.0.0.1:0` |
| DhtFlags.FalsyFieldsRejected | index.js:17-18 | an entry `{host, port}` whose host or port is falsy (`''`, `0`, missing, …) is rejected with `Invalid node format`, whatever the other field is |
| Peers.ParseTuple | index.js:32-35 | a token without `:` fails with `Invalid port: undefined`; a parsed host is the colon-free text before the first `:`; a parsed port is a non-negative integer; every failure is an `Invalid port: …` error |
| Peers.ParseTupleFields | index.js:32-34 | for a token `host:port` followed by nothing or by more `:`-fields, the result depends on `port` alone: a digit string gives `{host, port: value}`, anything else `Invalid port: <port>`; later fields are ignored |
| Peers.ParseTokens | index.js:31-36 | succeeds iff every token parses, giving one peer per token in order; otherwise fails with the error of the first token that does not parse |
| Peers.ParsePeers | index.js:31-36 | a successful parse gives one peer per `,`-separated token, each host being the text before that token's first `:`; a failure is an `Invalid port: …` error |
| Peers.TokenWithoutColonRejected | index.js:32-34 | a peer string with no `:` and no `,` fails with `Invalid port: undefined` |
| Peers.EmptyPeerStringRejected | index.js:31-34 | the empty peer string is one empty token and fails with `Invalid port: undefined` |
| Peers.EmptyPortIsZero | index.js:33-35 | `host:` has an empty port, which converts to 0 and is accepted |
| Peers.SingleTokenIsOnePeer | index.js:31 | a comma-free string that parses as a token is a list of exactly that peer |
| Peers.LoopbackPeerParses | test/index.js:48 | `'127.0.0.1:9999'` parses to `[{host:'127.0.0.1', port:9999}]` |
| Peers.LoopbackTupleParses | index.js:32-35 | the token `127.0.0.1:9999` is the peer `{host:'127.0.0.1', port:9999}` |
| Peers.HostPortParsesBack | index.js:16-35 | a `host:n` rendering, with a host free of `:` and `,` and `n` printed in decimal, is comma-free and parses back to `{host, port: n}` |
| Peers.NodeParsesBack | index.js:15-17 | the rendering of a non-negative number, of `{host, port}` with a plain host and positive port, or of a parseable token string contains no `,` and parses back to the peer it describes |
| Peers.RenderedPeersParseBack | index.js:14-36 | for a non-empty list of such entries, the `--dht-bootstrap` value `flagifyDhtBootstrap` renders for the list parses back to the same peers in the same order |
| Peers.SplitFields | index.js:32 | splitting `host:port…` on `:` puts `host` first and `port` second |
| Peers.LoopbackHasNoSeparators | index.js:16 | the loopback host contains neither `:` nor `,` |
| Decimal.DecimalString | index.js:16 | the decimal text of a number is non-empty, all digits, without a leading zero; 0 is printed as `0` |
| Decimal.DecimalRoundTrip | index.js:33 | converting the decimal text of `n` back with `+` gives `n` |
| Strings.Split | index.js:31-32 | `split` yields at least one piece, no piece contains the separator, and joining the pieces restores the string |
| Strings.SplitJoin | index.js:19 | splitting a `join` of separator-free parts gives back the parts |
| Strings.SplitAtFirst | index.js:32 | the text before the first separator is the first piece; the rest is split on its own |
| Strings.SplitWithoutSeparator | index.js:31 | a string without the separator splits into itself alone |
| Strings.JoinExtendHead | index.js:19 | prepending a character to the first part prepends it to the join |
| AppLink.CheckAppLink | index.js:39-40 | succeeds with the link iff it is a string starting with `pear:`; a falsy link fails with `appLink is required`; a string without the prefix fails with `appLink must be pear:// link`; a truthy non-string fails calling `startsWith` |
| AppLink.PearPrefixSuffices | index.js:40 | any link starting with `pear:` is accepted, `//` or not |
| AppLink.HttpLinkRejected | test/index.js:128 | `http://invalid-link` is refused with the scheme message |
| Bail.InterpretResult | index.js:53-54 | success iff the bail's `code` is the string `PREFLIGHT`; otherwise an operation failure carrying the bail's `info` and its stack, else message, else code; a missing result or bail fails with the internal error's stack and no info |
| Bail.MissingBailFails | index.js:53 | with no result, or a result without a bail, the outcome is a failure |
| Bail.ConnectionBailReportsMessage | test/index.js:182 | the bail `{code:'ERR_CONNECTION', message:'fail'}` fails with detail `fail` |
| Launcher.UpdaterPeers | index.js:31 | nullish peers give no list; a string gives its parsed peers or the parse error; anything else fails because `split` is not a function; every error is the one the parser or the missing `split` raises |
| Launcher.Bootstrap | index.js:28-55 | at most four effects, effect i being the i-th step (updater, IPC, run, close); no effect happens iff the argument or peer prologue fails; IPC happens only after the updater resolved and the link passed its checks; close happens only after the run stream resolved; success iff all four effects happened, close resolved and the bail code is `PREFLIGHT`; after the prologue each step runs exactly when the one before it succeeded, and the outcome is the prologue's error, the rejected updater's, `ready()`'s, the run stream's or `close()`'s reason rethrown, the appLink error, or the reading of the bail, according to how far the trace got; the updater gets key, dir, lock and parsed peers; the spawn gets the built arguments and `cwd = pearDir`; the run request carries the app link and `{preflight: true, trusted: true}` |
| Launcher.LaunchInOrder | index.js:38-52 | effects occur in the order updater, IPC, run, close, each at most once, none skipped on the way to a later one |
| Launcher.PortErrorBeforeUpdater | index.js:31-38 | a peer string that does not parse fails with that error and no effect, so the updater is never called |
| Launcher.EmptyPeerStringFailsFirst | index.js:30-34 | an empty peer string fails with `Invalid port: undefined` before any effect |
| Launcher.NonStringPeersNeverLaunch | index.js:30-31 | an array, number, boolean or object `dhtBootstrap` never gets an effect performed and always fails: with `Invalid node format` when flagify rejects it, otherwise because `split` is not a function |
| Launcher.AppLinkErrorAfterUpdater | index.js:38-43 | an invalid link fails after the updater call and before any IPC effect |
| Launcher.CompleteLaunch | index.js:38-54 | when every collaborator resolves, the trace is updater, IPC, run, close and the outcome is the reading of the bail |
| Launcher.FailingBailClosesFirst | index.js:51-54 | an operation failure after a resolved run stream and close is reported with the channel already closed |
| Launcher.OpwaitFailureSkipsClose | index.js:51-52 | a rejected run stream fails without `close()` being called, and once the run was requested the stream's reason is what is thrown |
| Launcher.UpdaterFailureStopsLaunch | index.js:38-40 | a rejected updater call is rethrown after the updater effect alone, before the appLink checks |
| Launcher.ReadyFailureSkipsClose | index.js:43-50 | a rejected `ready()` is rethrown after the updater and IPC effects, with no run requested and no close |
| Launcher.CloseFailureRethrown | index.js:52-54 | a rejected `close()` after a resolved run stream is rethrown in place of the bail's reading, with all four effects performed |
| Scenarios.UpdaterGetsParsedPeers | test/index.js:44-49 | the updater receives the key, the directory, `lock: false` and `[{host:'127.0.0.1', port:9999}]` |
| Scenarios.SidecarArgsWithoutPeers | test/index.js:199-202 | without peers the spawn arguments are `['--sidecar']` with `cwd = pearDir`, and the launch succeeds |
| Scenarios.SidecarArgsWithPeers | test/index.js:242-245 | with `127.0.0.1:9999` the spawn arguments are `['--sidecar','--dht-bootstrap','127.0.0.1:9999']` |
| Scenarios.RunCarriesLinkAndPreflight | test/index.js:304-306 | the run request carries `pear://keet` and `preflight: true` |
| Scenarios.NonPreflightBailFails | test/index.js:176-191 | an `ERR_CONNECTION` bail fails with `fail` after the channel is closed |
| Scenarios.MissingAppLinkFails | test/index.js:84-117 | a missing app link fails with `appLink is required` after the updater, before IPC |
| Scenarios.HttpAppLinkFails | test/index.js:120-154 | an `http:` link fails with the scheme message after the updater, before IPC |
| Scenarios.TestLinkIsPear | test/index.js:55 | `pear://keet` passes the link checks |
| Scenarios.TestPeersArgs | test/index.js:59 | the test's peer string gives the three-token spawn arguments and one parsed peer |
| Scenarios.PreflightCodeSucceeds | test/index.js:72 | a `PREFLIGHT` bail is a success |

## Left out

- The updater (`pear-updater-bootstrap`), the `pear-ipc` client and `bare-daemon.spawn` are not part of this model. The client's connect, lock and spawn-retry logic lives in `pear-ipc`. Each awaited call is an abstract settlement (`Launcher.Settled`); the spawn is recorded only as the arguments and working directory the client would use.
- `opwait` stream consumption is not part of this model; it belongs to a foreign library. The `onstatus` callback is handed to `opwait` and the `onupdater` callback is passed through unchanged to the updater (index.js:38, 51). Both are left out of `Launcher.Options` and of the `UpdaterCalled` effect.
- The socket path, the Windows pipe name (`pipeId`, a generic hash), the lock-file path and the runtime path (`path.join`, `require.addon.host`, `isWindows`) are not modelled. They are thin wrappers over foreign code.
- `pear-api/errors` is not part of this model. Errors are kept as their constructor and arguments. The internal error object is assumed to have code `ERR_INTERNAL_ERROR` and no `info` property. Its stack trace is an opaque string supplied with the collaborators.
- TypeErrors for calling a missing method keep only the method's name. Their message text depends on the engine.
- A failure of `require('pear-ipc')` itself is not modelled.
- `pearKey` is opaque bytes and `pearDir` a string. They are passed through unchanged; other types are not modelled.
- Awaits are modelled as strictly sequential. There is no interleaving with other launches.
- Peers.ParseTuple: `+port` is read only for ASCII digit strings, with the empty string as 0. Every other text counts as not an integer, although JavaScript accepts some of them, for example surrounding whitespace, a sign, hexadecimal, binary and octal prefixes, exponents, and decimals such as `7.0` or `.0`. Digit strings past 2^53 are exact here, while JavaScript rounds them. Digit strings too long for a double become Infinity in JavaScript and are rejected there.
- Peers.ParsePeers: inherits the port scope of `Peers.ParseTuple`.
- Peers.ParseTupleFields: inherits the port scope of `Peers.ParseTuple`; its "anything else" means every text that is not a digit string.
- DhtFlags.FlagifyDhtBootstrap: numbers are integers only, with no NaN, Infinity, fractions or `-0`. They are rendered in plain decimal, whereas JavaScript uses exponent notation from 1e21.
- JsValues: objects are plain data-property bags. Prototypes, getters, custom `toString`, array holes and cyclic values are not modelled. `?.` reads of `host`, `port`, `bail`, `code`, `stack`, `message` and `info` are undefined on anything but an object.
- `example/runtime.js` is a single call without logic. The test suite's module-cache override is test scaffolding.
