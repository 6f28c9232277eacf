/** Specification of the SOCKS5 server's lifecycle (class Socks5Server): the
    state machine of start() and stop(), the configuration check validate(),
    and what the two calls do to the worker groups and the channel group.

    Sockets, event loops and futures are replaced by values: an event loop
    group is a record with a "shut down" flag, the channel group maps the id
    of each tracked channel to whether it has been closed, the bind attempts
    are logged as the ports handed to bind(), and what the network does (the
    bind result, an interruption, an exception during teardown) comes in as a
    parameter. The class in module Server is proved to follow these functions. */
module Lifecycle {
  import opened Wrappers

  /** Socks5Server.State. ALREADY is the state of a freshly built server. */
  datatype State = Already | Running | Stopped | Failed

  /** An event loop group (bossGroup, workGroup); shutDown is set by shutdownGracefully(). */
  datatype EventLoopGroup = EventLoopGroup(shutDown: bool)

  type ChannelId = nat

  /** The channel group: every tracked channel and whether it has been closed. */
  type ChannelGroup = map<ChannelId, bool>

  /** The four settings validate() insists on, in the order it checks them. */
  datatype Setting = Port | ShouldAuth | BossGroup | WorkGroup

  /** What start() and stop() can throw. */
  datatype Error =
    | Unset(setting: Setting)       // RuntimeException("Unset …") from validate()
    | IllegalState(state: State)    // IllegalStateException: restart after STOPPED or FAILED
    | BindFailure                   // bind(port).sync() rethrows the failed bind
    | Interrupted                   // InterruptedException from sync()
    | NullGroup                     // NullPointerException: teardown of a group that was never set
    | TeardownFailure               // any other exception thrown while tearing down

  /** Which step (if any) of the teardown throws: shutting down bossGroup,
      shutting down workGroup, or closing the channel group. A step that throws
      has no effect and the steps after it do not run. */
  datatype Fault = NoFault | BossFault | WorkFault | CloseFault

  /** How the blocking body of start() ends once validation has passed: the bind
      fails, the wait for the bind is interrupted, or the server channel is
      bound, the listed child channels are accepted, and the wait for the server
      channel's close either completes or is interrupted. */
  datatype BindOutcome =
    | BindFailed
    | BindInterrupted
    | Bound(server: ChannelId, accepted: seq<ChannelId>, interrupted: bool)

  /** The fields of a Socks5Server. binds logs the port of every bind() call. */
  datatype Server = Server(
    state: State,
    port: Option<int>,
    shouldAuth: Option<bool>,
    bossGroup: Option<EventLoopGroup>,
    workGroup: Option<EventLoopGroup>,
    channelGroup: Option<ChannelGroup>,
    binds: seq<int>)

  /** The result of one start() or stop() call: the new fields and the exception thrown, if any. */
  datatype Outcome = Outcome(server: Server, error: Option<Error>)

  /** A server as the constructor leaves it. Socks5Server's constructor sets only
      the state and nothing in the class assigns the four settings; they are
      parameters here so that the lifecycle past validate() can be stated.
      Created(None, None, None, None) is Socks5Server's constructor exactly. */
  function Created(port: Option<int>, shouldAuth: Option<bool>,
                   bossGroup: Option<EventLoopGroup>, workGroup: Option<EventLoopGroup>): (s: Server)
    ensures s.state == Already
    ensures s.channelGroup == None && s.binds == []
    ensures s.port == port && s.shouldAuth == shouldAuth
    ensures s.bossGroup == bossGroup && s.workGroup == workGroup
  {
    Server(Already, port, shouldAuth, bossGroup, workGroup, None, [])
  }

  /** validate(): the first unset setting, checked in the order port, shouldAuth,
      bossGroup, workGroup; None when all four are set. */
  function Validate(port: Option<int>, shouldAuth: Option<bool>,
                    bossGroup: Option<EventLoopGroup>, workGroup: Option<EventLoopGroup>): (r: Option<Error>)
    ensures r == None <==> port.Some? && shouldAuth.Some? && bossGroup.Some? && workGroup.Some?
    ensures r == Some(Unset(Port)) <==> port.None?
    ensures r == Some(Unset(ShouldAuth)) <==> port.Some? && shouldAuth.None?
    ensures r == Some(Unset(BossGroup)) <==> port.Some? && shouldAuth.Some? && bossGroup.None?
    ensures r == Some(Unset(WorkGroup)) <==> port.Some? && shouldAuth.Some? && bossGroup.Some? && workGroup.None?
  {
    if port.None? then Some(Unset(Port))
    else if shouldAuth.None? then Some(Unset(ShouldAuth))
    else if bossGroup.None? then Some(Unset(BossGroup))
    else if workGroup.None? then Some(Unset(WorkGroup))
    else None
  }

  function ValidateServer(s: Server): Option<Error> {
    Validate(s.port, s.shouldAuth, s.bossGroup, s.workGroup)
  }

  /** Adds channels to the group as open channels. */
  function Track(g: ChannelGroup, ids: seq<ChannelId>): (r: ChannelGroup)
    ensures r.Keys == g.Keys + set id | id in ids
    ensures forall id :: id in ids ==> r[id] == false
    ensures forall id :: id in g && id !in ids ==> r[id] == g[id]
    decreases |ids|
  {
    if ids == [] then g else Track(g[ids[0] := false], ids[1..])
  }

  /** channelGroup.close(): every tracked channel is closed. */
  function CloseAll(g: ChannelGroup): (r: ChannelGroup)
    ensures r.Keys == g.Keys
    ensures forall id :: id in r ==> r[id]
  {
    map id | id in g :: true
  }

  /** Everything start() and stop() release is released: both groups shut down
      and every tracked channel closed. */
  predicate Released(s: Server) {
    && s.bossGroup.Some? && s.bossGroup.value.shutDown
    && s.workGroup.Some? && s.workGroup.value.shutDown
    && s.channelGroup.Some? && (forall id :: id in s.channelGroup.value ==> s.channelGroup.value[id])
  }

  /** The teardown sequence shared by start()'s finally block and stop()'s try
      block: shut down bossGroup, shut down workGroup, close the channel group.
      A null group throws NullPointerException at its step, a fault throws at its
      step, and the steps after a throw do not run. */
  function Teardown(s: Server, fault: Fault): (r: Outcome)
    ensures r.server.state == s.state && r.server.binds == s.binds
    ensures r.server.port == s.port && r.server.shouldAuth == s.shouldAuth
    ensures r.server.bossGroup.Some? == s.bossGroup.Some?
    ensures r.server.workGroup.Some? == s.workGroup.Some?
    ensures r.server.channelGroup.Some? == s.channelGroup.Some?
    ensures s.channelGroup.Some? ==> r.server.channelGroup.value.Keys == s.channelGroup.value.Keys
    ensures r.error == None <==> s.bossGroup.Some? && s.workGroup.Some? && s.channelGroup.Some? && fault == NoFault
    ensures r.error == None ==> Released(r.server)
    ensures r.error != None ==> r.error == Some(NullGroup) || r.error == Some(TeardownFailure)
    ensures s.bossGroup.None? ==> r == Outcome(s, Some(NullGroup))
    ensures s.bossGroup.Some? && fault.BossFault? ==> r == Outcome(s, Some(TeardownFailure))
    // once bossGroup is shut down, workGroup is next
    ensures s.bossGroup.Some? && !fault.BossFault? ==>
      && r.server.bossGroup == Some(EventLoopGroup(true))
      && (s.workGroup.None? ==> r == Outcome(s.(bossGroup := r.server.bossGroup), Some(NullGroup)))
      && (s.workGroup.Some? && fault.WorkFault? ==> r == Outcome(s.(bossGroup := r.server.bossGroup), Some(TeardownFailure)))
    // once workGroup is shut down too, the channel group is next
    ensures s.bossGroup.Some? && !fault.BossFault? && s.workGroup.Some? && !fault.WorkFault? ==>
      && r.server.workGroup == Some(EventLoopGroup(true))
      && (s.channelGroup.None? ==>
            r == Outcome(s.(bossGroup := r.server.bossGroup, workGroup := r.server.workGroup), Some(NullGroup)))
      && (s.channelGroup.Some? && fault.CloseFault? ==>
            r == Outcome(s.(bossGroup := r.server.bossGroup, workGroup := r.server.workGroup), Some(TeardownFailure)))
      && (s.channelGroup.Some? && fault.NoFault? ==> r.server.channelGroup == Some(CloseAll(s.channelGroup.value)))
  {
    if s.bossGroup.None? then Outcome(s, Some(NullGroup))
    else if fault.BossFault? then Outcome(s, Some(TeardownFailure))
    else
      var s1 := s.(bossGroup := Some(EventLoopGroup(true)));
      if s1.workGroup.None? then Outcome(s1, Some(NullGroup))
      else if fault.WorkFault? then Outcome(s1, Some(TeardownFailure))
      else
        var s2 := s1.(workGroup := Some(EventLoopGroup(true)));
        if s2.channelGroup.None? then Outcome(s2, Some(NullGroup))
        else if fault.CloseFault? then Outcome(s2, Some(TeardownFailure))
        else Outcome(s2.(channelGroup := Some(CloseAll(s2.channelGroup.value))), None)
  }

  /** The channels a bound server tracks: the server channel and every accepted child. */
  function TrackedBy(bind: BindOutcome): set<ChannelId> {
    match bind
    case BindFailed => {}
    case BindInterrupted => {}
    case Bound(server, accepted, _) => {server} + set id | id in accepted
  }

  /** The try block of start() after a fresh, empty channel group is in place:
      bind, track the server channel and every accepted child, and block until
      the server channel is closed. */
  function Serve(s: Server, bind: BindOutcome): (r: Outcome)
    requires s.channelGroup.Some?
    ensures r.server == s.(channelGroup := r.server.channelGroup)
    ensures r.server.channelGroup.Some?
    ensures r.server.channelGroup.value.Keys == s.channelGroup.value.Keys + TrackedBy(bind)
    ensures bind.BindFailed? ==> r.error == Some(BindFailure)
    ensures bind.BindInterrupted? ==> r.error == Some(Interrupted)
    ensures bind.Bound? ==> r.error == (if bind.interrupted then Some(Interrupted) else None)
    // a completed wait means the server channel has closed; accepted children are still open
    ensures bind.Bound? ==>
      && r.server.channelGroup.value[bind.server] == !bind.interrupted
      && forall id :: id in bind.accepted && id != bind.server ==> !r.server.channelGroup.value[id]
  {
    match bind
    case BindFailed => Outcome(s, Some(BindFailure))
    case BindInterrupted => Outcome(s, Some(Interrupted))
    case Bound(server, accepted, interrupted) =>
      var g := Track(s.channelGroup.value[server := false], accepted);
      if interrupted then Outcome(s.(channelGroup := Some(g)), Some(Interrupted))
      else Outcome(s.(channelGroup := Some(g[server := true])), None)
  }

  /** start(). In state ALREADY it validates (throwing before anything is bound),
      then runs the body and, whether the body completes or throws, the teardown;
      an exception thrown by the teardown replaces the body's. RUNNING is never
      assigned, so the state is never changed. */
  function Start(s: Server, bind: BindOutcome, fault: Fault): (r: Outcome)
    ensures r.server.state == s.state
    ensures r.server.port == s.port && r.server.shouldAuth == s.shouldAuth
    ensures r.server.bossGroup.Some? == s.bossGroup.Some? && r.server.workGroup.Some? == s.workGroup.Some?
    ensures s.state == Already && ValidateServer(s).Some? ==> r == Outcome(s, ValidateServer(s))
    ensures s.state == Already && ValidateServer(s).None? ==>
      && r.server.binds == s.binds + [s.port.value]
      && r.server.channelGroup.Some?
      && r.server.channelGroup.value.Keys == TrackedBy(bind)
      && (fault == NoFault ==> Released(r.server))
      && (r.error == None <==> fault == NoFault && bind.Bound? && !bind.interrupted)
      // an exception from the teardown (the finally block) replaces the body's
      && r.error == (if fault != NoFault then Some(TeardownFailure)
                     else if bind.BindFailed? then Some(BindFailure)
                     else if bind.BindInterrupted? || bind.interrupted then Some(Interrupted)
                     else None)
      // the teardown steps before a faulting one have taken effect
      && r.server.bossGroup == (if fault.BossFault? then s.bossGroup else Some(EventLoopGroup(true)))
      && r.server.workGroup == (if fault.BossFault? || fault.WorkFault? then s.workGroup else Some(EventLoopGroup(true)))
      // a faulting teardown never closes the channel group: the channels stay as the body left them
      && (fault != NoFault && bind.Bound? ==>
            && r.server.channelGroup.value[bind.server] == !bind.interrupted
            && forall id :: id in bind.accepted && id != bind.server ==> !r.server.channelGroup.value[id])
    ensures s.state == Running ==> r == Outcome(s, None)
    ensures s.state == Stopped || s.state == Failed ==> r == Outcome(s, Some(IllegalState(s.state)))
  {
    match s.state
    case Already =>
      var invalid := ValidateServer(s);
      if invalid.Some? then Outcome(s, invalid)
      else
        var empty: ChannelGroup := map[];
        var started := s.(channelGroup := Some(empty), binds := s.binds + [s.port.value]);
        var body := Serve(started, bind);
        var teardown := Teardown(body.server, fault);
        Outcome(teardown.server, if teardown.error.Some? then teardown.error else body.error)
    case Running => Outcome(s, None)
    case Stopped => Outcome(s, Some(IllegalState(Stopped)))
    case Failed => Outcome(s, Some(IllegalState(Failed)))
  }

  /** stop(). A no-op in state STOPPED; otherwise the teardown, then STOPPED, or
      FAILED with the teardown's exception rethrown. */
  function Stop(s: Server, fault: Fault): (r: Outcome)
    ensures s.state == Stopped ==> r == Outcome(s, None)
    ensures s.state != Stopped ==> r.error == Teardown(s, fault).error
    ensures s.state != Stopped ==>
      r.server == Teardown(s, fault).server.(state := if r.error.None? then Stopped else Failed)
    ensures s.state != Stopped ==> (r.error == None <==> r.server.state == Stopped)
    ensures s.state != Stopped ==> (r.error != None <==> r.server.state == Failed)
    ensures s.state != Stopped && r.error == None ==> Released(r.server)
    ensures r.server.binds == s.binds
  {
    if s.state == Stopped then Outcome(s, None)
    else
      var teardown := Teardown(s, fault);
      if teardown.error.Some? then Outcome(teardown.server.(state := Failed), teardown.error)
      else Outcome(teardown.server.(state := Stopped), None)
  }

  /** A call on the server; an exception it throws is caught by the caller, who carries on. */
  datatype Call = StartCall(bind: BindOutcome, fault: Fault) | StopCall(fault: Fault)

  function Apply(s: Server, c: Call): Server {
    match c
    case StartCall(bind, fault) => Start(s, bind, fault).server
    case StopCall(fault) => Stop(s, fault).server
  }

  /** The server after a sequence of calls. */
  function Run(s: Server, calls: seq<Call>): Server
    decreases |calls|
  {
    if calls == [] then s else Run(Apply(s, calls[0]), calls[1..])
  }

  /** A completed start() leaves a fresh server in ALREADY, not RUNNING: a second
      start() validates and binds again instead of being ignored. */
  lemma StartLeavesAlready(port: int, shouldAuth: bool, boss: EventLoopGroup, work: EventLoopGroup,
                           bind: BindOutcome, again: BindOutcome, fault: Fault, fault': Fault)
    ensures var s := Start(Created(Some(port), Some(shouldAuth), Some(boss), Some(work)), bind, fault).server;
      && s.state == Already
      && Start(s, again, fault').server.binds == [port, port]
  {
  }

  /** With the class as written the four settings are never assigned, so
      start() on a new server throws "Unset port" and binds and releases nothing. */
  lemma StartUnconfigured(bind: BindOutcome, fault: Fault)
    ensures var s := Created(None, None, None, None);
      Start(s, bind, fault) == Outcome(s, Some(Unset(Port)))
  {
  }

  /** No sequence of start() and stop() calls reaches RUNNING: the branch of
      start() that ignores a call on a running server is unreachable. */
  lemma {:induction false} NeverRunning(s: Server, calls: seq<Call>)
    requires s.state != Running
    ensures Run(s, calls).state != Running
    decreases |calls|
  {
    if calls != [] {
      NeverRunning(Apply(s, calls[0]), calls[1..]);
    }
  }

  /** STOPPED is final: every later start() throws and changes nothing, every
      later stop() is a no-op, so nothing is bound or released again. */
  lemma {:induction false} StoppedIsFinal(s: Server, calls: seq<Call>)
    requires s.state == Stopped
    ensures Run(s, calls) == s
    decreases |calls|
  {
    if calls != [] {
      assert Apply(s, calls[0]) == s;
      StoppedIsFinal(s, calls[1..]);
    }
  }

  /** Two consecutive stop() calls: once the first succeeds, the second throws
      nothing and leaves the server STOPPED. */
  lemma StopTwice(s: Server, fault: Fault, fault': Fault)
    requires Stop(s, fault).error == None
    ensures Stop(Stop(s, fault).server, fault') == Outcome(Stop(s, fault).server, None)
    ensures Stop(s, fault).server.state == Stopped
  {
  }

  /** FAILED is not final for stop(): a later stop() whose teardown succeeds
      reaches STOPPED. */
  lemma StopRetriesAfterFailure(s: Server)
    requires s.state == Failed
    requires s.bossGroup.Some? && s.workGroup.Some? && s.channelGroup.Some?
    ensures Stop(s, NoFault).server.state == Stopped
    ensures Released(Stop(s, NoFault).server)
  {
  }

  /** stop() before any start(): the channel group is still null, so the teardown
      throws (at the latest when it reaches the channel group, after both groups
      are shut down) and the server ends FAILED with the exception rethrown. */
  lemma StopBeforeStart(port: Option<int>, shouldAuth: Option<bool>,
                        boss: Option<EventLoopGroup>, work: Option<EventLoopGroup>, fault: Fault)
    ensures var r := Stop(Created(port, shouldAuth, boss, work), fault);
      r.server.state == Failed && r.error.Some?
    ensures fault == NoFault ==> Stop(Created(port, shouldAuth, boss, work), fault).error == Some(NullGroup)
    ensures fault == NoFault && boss.Some? && work.Some? ==>
      var r := Stop(Created(port, shouldAuth, boss, work), fault).server;
      r.bossGroup == Some(EventLoopGroup(true)) && r.workGroup == Some(EventLoopGroup(true))
  {
  }
}
