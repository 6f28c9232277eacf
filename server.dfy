/** The SOCKS5 server object (class Socks5Server): its fields, and start() and
    stop() as methods that update them in place. Each method is proved to leave
    the fields, and to throw, exactly as the functions of module Lifecycle say;
    the properties of the state machine are proved there. Both methods are
    synchronized in the source, so each runs as one uninterrupted step here. */
module Server {
  import opened Wrappers
  import opened Lifecycle

  class Socks5Server {
    var state: State
    var port: Option<int>
    var shouldAuth: Option<bool>
    var bossGroup: Option<EventLoopGroup>
    var workGroup: Option<EventLoopGroup>
    var channelGroup: Option<ChannelGroup>
    /** The port of every bind() call, in order. */
    var binds: seq<int>

    /** The fields as a value. */
    function Model(): Server
      reads this
    {
      Server(state, port, shouldAuth, bossGroup, workGroup, channelGroup, binds)
    }

    /** The constructor sets the state to ALREADY. Nothing in Socks5Server
        assigns the four settings; the constructor takes them so that the
        lifecycle past validate() can be stated. All four None is the original
        constructor, with which every start() throws "Unset port"
        (Lifecycle.StartUnconfigured). */
    constructor (port: Option<int>, shouldAuth: Option<bool>,
                 bossGroup: Option<EventLoopGroup>, workGroup: Option<EventLoopGroup>)
      ensures Model() == Created(port, shouldAuth, bossGroup, workGroup)
    {
      state := Already;
      this.port := port;
      this.shouldAuth := shouldAuth;
      this.bossGroup := bossGroup;
      this.workGroup := workGroup;
      channelGroup := None;
      binds := [];
    }

    /** The teardown both start() and stop() run: shut down bossGroup, shut down
        workGroup, close every channel of the channel group. */
    method ReleaseResources(fault: Fault) returns (error: Option<Error>)
      modifies this
      ensures Outcome(Model(), error) == Teardown(old(Model()), fault)
    {
      if bossGroup.None? {
        return Some(NullGroup);
      }
      if fault.BossFault? {
        return Some(TeardownFailure);
      }
      bossGroup := Some(EventLoopGroup(true));
      if workGroup.None? {
        return Some(NullGroup);
      }
      if fault.WorkFault? {
        return Some(TeardownFailure);
      }
      workGroup := Some(EventLoopGroup(true));
      if channelGroup.None? {
        return Some(NullGroup);
      }
      if fault.CloseFault? {
        return Some(TeardownFailure);
      }
      channelGroup := Some(CloseAll(channelGroup.value));
      error := None;
    }

    /** start(): bind is what the network does with the bind and the wait for
        the server channel's close, fault where the teardown throws. */
    method Start(bind: BindOutcome, fault: Fault) returns (error: Option<Error>)
      modifies this
      ensures Outcome(Model(), error) == Lifecycle.Start(old(Model()), bind, fault)
    {
      error := None;
      if state == Already {
        error := Validate(port, shouldAuth, bossGroup, workGroup);
        if error.Some? {
          return;
        }
        // try
        channelGroup := Some(map[]);
        binds := binds + [port.value];
        var bodyError: Option<Error> := None;
        match bind {
          case BindFailed =>
            bodyError := Some(BindFailure);
          case BindInterrupted =>
            bodyError := Some(Interrupted);
          case Bound(server, accepted, interrupted) =>
            channelGroup := Some(Track(channelGroup.value[server := false], accepted));
            if interrupted {
              bodyError := Some(Interrupted);
            } else {
              channelGroup := Some(channelGroup.value[server := true]);
            }
        }
        // finally
        var teardownError := ReleaseResources(fault);
        error := if teardownError.Some? then teardownError else bodyError;
        if error.Some? {
          return;
        }
      }
      if state == Running {
        return;
      }
      if state == Stopped {
        return Some(IllegalState(Stopped));
      }
      if state == Failed {
        return Some(IllegalState(Failed));
      }
    }

    /** stop(): fault is where the teardown throws, if it does. */
    method Stop(fault: Fault) returns (error: Option<Error>)
      modifies this
      ensures Outcome(Model(), error) == Lifecycle.Stop(old(Model()), fault)
    {
      if state == Stopped {
        return None;
      }
      error := ReleaseResources(fault);
      if error.Some? {
        state := Failed;
        return;
      }
      state := Stopped;
    }
  }
}
