# netty-socks5 core: server lifecycle and CONNECT relay, in Dafny

This project models the two sequential state machines at the heart of the
netty-socks5 proxy and proves what they promise.

- **Server lifecycle** (`Socks5Server`). The server has a state `ALREADY`,
  `RUNNING`, `STOPPED` or `FAILED`. `start()` validates four settings, binds,
  serves until the server channel closes and then, whatever happened, shuts
  down the boss and worker event loop groups and closes the channel group.
  `stop()` runs the same teardown and moves to `STOPPED`, or to `FAILED` when
  the teardown throws. Module `Lifecycle` (lifecycle.dfy) states this as
  functions on a value holding the server's fields. Module `Server`
  (server.dfy) holds the class `Socks5Server`, whose methods update those
  fields in place and are proved to follow the functions. An event loop group
  is a record with a "shut down" flag. The channel group maps each tracked
  channel id to whether it is closed. `binds` logs the port of every bind.
  The bind result (failed, interrupted while waiting for the bind, or bound
  with the accepted channels and an interruption of the wait for the close)
  and the teardown step that throws (if any) are parameters.
- **CONNECT handling and the relay pair** (`Socks5CommandRequestHandler` with
  its inner `Dest2ClientHandler` and `Client2DestHandler`), in module
  `CommandHandler` (command_handler.dfy). A channel is an object with an open
  flag, the messages written to it in order, and its pipeline of handlers.
  Whether the dial succeeds is a parameter. Replies carry the REP and ATYP
  fields of section 6 of RFC 1928. Each callback is a method on channel
  objects, proved to act as one `Step` of a value-level relay pair. The
  properties over a whole run of relay events are proved on those values.

Two behaviours of the code are worth stating up front:

- `start()` never assigns `RUNNING`, so a finished `start()` leaves the server
  in `ALREADY`, and a second `start()` validates and binds again. The branch
  that ignores `start()` on a running server is unreachable
  (`Lifecycle.NeverRunning`, `Lifecycle.StartLeavesAlready`).
- After a failed dial only the FAILURE reply is written; the client channel
  stays open (`CommandHandler.AfterDial`).

## Model

| member | source | states |
|---|---|---|
| `Lifecycle.Created` | src/main/java/com/github/cjqcn/socks5/Socks5Server.java:35-37 | a new server is in `ALREADY`, has no channel group yet and has bound nothing |
| `Lifecycle.Validate` | src/main/java/com/github/cjqcn/socks5/Socks5Server.java:107-120 | no error iff port, shouldAuth, bossGroup and workGroup are all set; otherwise the error names the first unset one in that order |
| `Lifecycle.Teardown` | src/main/java/com/github/cjqcn/socks5/Socks5Server.java:66-70 | the steps run in order (bossGroup, workGroup, channel group) and each one that runs takes effect; the first null group gives a NullPointerException and the first faulting step a teardown failure, and nothing after it runs; the teardown succeeds iff all three exist and no step throws, and then both groups are shut down and every tracked channel is closed; state, settings and tracked ids are untouched |
| `Lifecycle.Serve` | src/main/java/com/github/cjqcn/socks5/Socks5Server.java:45-65 | a failed or interrupted bind tracks nothing and throws; otherwise the channel group comes to track the bound server channel and every accepted child channel, the server channel closed iff the wait for its close completed and the children open; nothing but the group changes |
| `Lifecycle.Start` | src/main/java/com/github/cjqcn/socks5/Socks5Server.java:40-85 | the state, port and shouldAuth never change, nor whether each group is set; a failed validation throws its error and changes nothing; otherwise one bind on the configured port, the group tracks exactly the bound channels, the exception is the teardown's if it throws, else the bind failure or the interruption, else none; the groups are shut down up to the step that throws, a throwing teardown leaves the channels as the body left them (server channel closed iff its wait completed, accepted children open), and everything is released when the teardown does not throw; `RUNNING` returns quietly; `STOPPED`/`FAILED` throw IllegalStateException and change nothing |
| `Lifecycle.Stop` | src/main/java/com/github/cjqcn/socks5/Socks5Server.java:87-104 | a no-op in `STOPPED`; otherwise the fields are those the teardown leaves, with `STOPPED` when it succeeds and `FAILED` with the teardown's own exception rethrown when it throws; on success everything is released; never binds |
| `Lifecycle.StartLeavesAlready` | src/main/java/com/github/cjqcn/socks5/Socks5Server.java:40-76 | after a `start()` the server is still `ALREADY`, so a second `start()` binds the port again |
| `Lifecycle.StartUnconfigured` | src/main/java/com/github/cjqcn/socks5/Socks5Server.java:35-43 | a server built by the constructor as written, with all four settings unset, throws "Unset port" from `start()` and changes nothing |
| `Lifecycle.NeverRunning` | src/main/java/com/github/cjqcn/socks5/Socks5Server.java:73-76 | no sequence of `start()`/`stop()` calls from a non-`RUNNING` state reaches `RUNNING` |
| `Lifecycle.StoppedIsFinal` | src/main/java/com/github/cjqcn/socks5/Socks5Server.java:77-92 | from `STOPPED`, any sequence of calls leaves every field unchanged |
| `Lifecycle.StopTwice` | src/main/java/com/github/cjqcn/socks5/Socks5Server.java:87-104 | once a `stop()` succeeds the server is `STOPPED` and a second `stop()` is a silent no-op |
| `Lifecycle.StopRetriesAfterFailure` | src/main/java/com/github/cjqcn/socks5/Socks5Server.java:94-102 | `FAILED` is not final for `stop()`: a later teardown that succeeds reaches `STOPPED` with everything released |
| `Lifecycle.StopBeforeStart` | src/main/java/com/github/cjqcn/socks5/Socks5Server.java:94-101 | `stop()` before any `start()` ends `FAILED` with an exception, a NullPointerException when no step throws otherwise, after shutting down both groups when they are set |
| `Server.Socks5Server.constructor` | src/main/java/com/github/cjqcn/socks5/Socks5Server.java:35-37 | the new object's fields are `Lifecycle.Created` |
| `Server.Socks5Server.ReleaseResources` | src/main/java/com/github/cjqcn/socks5/Socks5Server.java:94-97 | the fields and error after the in-place teardown are those of `Lifecycle.Teardown` |
| `Server.Socks5Server.Start` | src/main/java/com/github/cjqcn/socks5/Socks5Server.java:40-85 | the fields and error after `start()` are those of `Lifecycle.Start` |
| `Server.Socks5Server.Stop` | src/main/java/com/github/cjqcn/socks5/Socks5Server.java:87-104 | the fields and error after `stop()` are those of `Lifecycle.Stop` |
| `CommandHandler.RouteOf` | client/src/main/java/com/github/cjqcn/socks5/client/handler/Socks5CommandRequestHandler.java:25-58 | a request is dialled iff its command code is CONNECT (X'01'), always to 127.0.0.1:11080; any other request is passed on unchanged |
| `CommandHandler.AfterDial` | client/src/main/java/com/github/cjqcn/socks5/client/handler/Socks5CommandRequestHandler.java:43-53 | the client is never closed; a relay handler for the upstream is appended iff the dial succeeded; an open client gets exactly one reply, SUCCESS or FAILURE as the dial went, with ATYP IPv4 |
| `CommandHandler.ChannelRead0` | client/src/main/java/com/github/cjqcn/socks5/client/handler/Socks5CommandRequestHandler.java:24-59 | non-CONNECT: passed on, client untouched, nothing dialled; CONNECT: a fresh upstream whose pipeline holds a Dest2Client handler for the client and the requested destination, open iff the dial succeeded, and the client as `AfterDial` says |
| `CommandHandler.Step` | client/src/main/java/com/github/cjqcn/socks5/client/handler/Socks5CommandRequestHandler.java:77-121 | relay events never change a pipeline; a close on either side leaves both sides closed; a read or activation leaves the open flags alone and touches only the side written to |
| `CommandHandler.Dest2ClientChannelActive` | client/src/main/java/com/github/cjqcn/socks5/client/handler/Socks5CommandRequestHandler.java:77-83 | writes the handshake (requested destination, tag "zjp") to the upstream: one `Step` |
| `CommandHandler.Dest2ClientChannelRead` | client/src/main/java/com/github/cjqcn/socks5/client/handler/Socks5CommandRequestHandler.java:85-89 | writes the message read from the upstream, unchanged, to the client: one `Step` |
| `CommandHandler.Dest2ClientChannelInactive` | client/src/main/java/com/github/cjqcn/socks5/client/handler/Socks5CommandRequestHandler.java:91-96 | the upstream has closed and the client is closed: one `Step` |
| `CommandHandler.Client2DestChannelRead` | client/src/main/java/com/github/cjqcn/socks5/client/handler/Socks5CommandRequestHandler.java:110-114 | writes the message read from the client, unchanged, to the upstream: one `Step` |
| `CommandHandler.Client2DestChannelInactive` | client/src/main/java/com/github/cjqcn/socks5/client/handler/Socks5CommandRequestHandler.java:116-121 | the client has closed and the upstream is closed: one `Step` |
| `CommandHandler.ClosedRelayIsInert` | client/src/main/java/com/github/cjqcn/socks5/client/handler/Socks5CommandRequestHandler.java:85-121 | once both sides are closed no later event writes or changes anything, so a repeated close is harmless |
| `CommandHandler.CloseCascades` | client/src/main/java/com/github/cjqcn/socks5/client/handler/Socks5CommandRequestHandler.java:91-121 | after a close of either side anywhere in a run, both sides are closed at its end |
| `CommandHandler.RelayForwardsInOrder` | client/src/main/java/com/github/cjqcn/socks5/client/handler/Socks5CommandRequestHandler.java:77-114 | from two open sides, each side receives exactly the handshake (upstream) and the other side's messages, unchanged and in arrival order, up to the first close |
| `CommandHandler.ConnectThenRelay` | client/src/main/java/com/github/cjqcn/socks5/client/handler/Socks5CommandRequestHandler.java:43-114 | after a successful CONNECT the client receives exactly one SUCCESS/IPv4 reply followed by what the upstream sends, and the upstream receives the handshake first and then what the client sends |
| `CommandHandler.FailedConnect` | client/src/main/java/com/github/cjqcn/socks5/client/handler/Socks5CommandRequestHandler.java:49-52 | after a failed dial the open client differs only by one FAILURE/IPv4 reply: no relay handler, not closed |

## Left out

- Netty `Bootstrap`/`ServerBootstrap` configuration and channel options (`TCP_NODELAY`, `SO_BACKLOG`, `CONNECT_TIMEOUT_MILLIS`): library configuration with no logic.
- The static `proxyGroup`, event loop threads, `ChannelFuture` listeners, `sync()` and `awaitUninterruptibly()`: the dial outcome, the bind outcome, the interruption and the teardown exception are parameters. `synchronized` is taken as given: each `start()`/`stop()` is one atomic step.
- Socket bind, accept and byte I/O, and the UTF-8 encoding of the handshake. The handshake is the message `Handshake(dest, "zjp")`, because `DestVisitAddress.toString()` is not part of this model.
- The SOCKS5 wire codec (the `Default*` request and response classes): a reply is its (status, address type) pair.
- Logging calls.
- Nothing in `Socks5Server` assigns `port`, `shouldAuth`, `bossGroup` or `workGroup`: its private constructor sets only the state, so with the class as written `validate()` always fails on the port. The model's constructor takes the four values so that the lifecycle past `validate()` can be stated; passing four `None`s gives the source's constructor.
- `super.channelActive` and `super.channelInactive` pass the event on to later handlers, and no later handler is modelled.
- `CommandHandler.ConnectThenRelay`: assumes the upstream's activation is its first relay event. A client read racing in between the relay handler's installation and the upstream's activation is not modelled.
- The upstream channel of a failed dial is returned closed. Its own close events are not followed, because Netty does not fire `channelInactive` on a channel that never became active.
- Netty's channel group drops a channel when it closes. Here the channel stays tracked with its closed flag set.
