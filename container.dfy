/**
 * The test listener container of the JMS configuration tests: a holder of
 * one listener endpoint that records which lifecycle callbacks it received
 * and throws IllegalStateException (here: returns `IllegalState`) when a
 * callback arrives out of order.
 */
module JmsConfig {
  import opened Lifecycle

  class MessageListenerTestContainer<E> {
    const endpoint: E
    var startInvoked: bool
    var initializationInvoked: bool
    var stopInvoked: bool
    var destroyInvoked: bool

    /** The container's flags as a value. */
    function State(): Flags
      reads this
    {
      Flags(startInvoked, initializationInvoked, stopInvoked, destroyInvoked)
    }

    /** The invariant every container keeps: the ordering its guards enforce. */
    ghost predicate Valid()
      reads this
    {
      Consistent(State())
    }

    /** Binds the container to its endpoint; no lifecycle call has been made. */
    constructor (endpoint: E)
      ensures this.endpoint == endpoint
      ensures State() == Fresh && Valid()
      ensures !IsRunning() && !IsStarted() && !IsStopped()
    {
      this.endpoint := endpoint;
      startInvoked, initializationInvoked := false, false;
      stopInvoked, destroyInvoked := false, false;
    }

    /** getEndpoint: the endpoint the container was constructed with, whatever calls followed. */
    function GetEndpoint(): (e: E)
      ensures e == endpoint
    {
      endpoint
    }

    /** isStarted: in a valid container, true exactly when afterPropertiesSet has succeeded. */
    function IsStarted(): (r: bool)
      reads this
      ensures r == Started(State())
      ensures Valid() ==> (r <==> initializationInvoked)
    {
      startInvoked && initializationInvoked
    }

    /** isStopped: in a valid container, true exactly when destroy has succeeded; never while running. */
    function IsStopped(): (r: bool)
      reads this
      ensures r == Stopped(State())
      ensures Valid() ==> (r <==> destroyInvoked)
      ensures r ==> !IsRunning()
    {
      stopInvoked && destroyInvoked
    }

    /** isRunning: started and not yet stopped. */
    function IsRunning(): (r: bool)
      reads this
      ensures r == Running(State())
      ensures r ==> !Stopped(State())
    {
      startInvoked && !stopInvoked
    }

    /** start: refused when start was already invoked; otherwise records the start. */
    method Start() returns (o: Outcome)
      modifies this
      ensures (o, State()) == Step(old(State()), Call.Start)
      ensures o == IllegalState <==> old(startInvoked)
      ensures o == IllegalState ==> unchanged(this)
      ensures o == Ok ==> startInvoked
      ensures initializationInvoked == old(initializationInvoked)
      ensures stopInvoked == old(stopInvoked) && destroyInvoked == old(destroyInvoked)
      ensures old(Valid()) ==> Valid()
    {
      if startInvoked {
        return IllegalState;
      }
      startInvoked := true;
      o := Ok;
    }

    /** stop: refused only when stop was already invoked, whether or not start was. */
    method Stop() returns (o: Outcome)
      modifies this
      ensures (o, State()) == Step(old(State()), Call.Stop)
      ensures o == IllegalState <==> old(stopInvoked)
      ensures o == IllegalState ==> unchanged(this)
      ensures o == Ok ==> stopInvoked
      ensures startInvoked == old(startInvoked) && initializationInvoked == old(initializationInvoked)
      ensures destroyInvoked == old(destroyInvoked)
      ensures old(Valid()) ==> Valid()
    {
      if stopInvoked {
        return IllegalState;
      }
      stopInvoked := true;
      o := Ok;
    }

    /** afterPropertiesSet: refused before start; otherwise records the initialization, again and again. */
    method AfterPropertiesSet() returns (o: Outcome)
      modifies this
      ensures (o, State()) == Step(old(State()), Call.AfterPropertiesSet)
      ensures o == IllegalState <==> !old(startInvoked)
      ensures o == IllegalState ==> unchanged(this)
      ensures o == Ok ==> initializationInvoked
      ensures startInvoked == old(startInvoked)
      ensures stopInvoked == old(stopInvoked) && destroyInvoked == old(destroyInvoked)
      ensures old(Valid()) ==> Valid()
    {
      if !startInvoked {
        return IllegalState;
      }
      initializationInvoked := true;
      o := Ok;
    }

    /** destroy: refused before stop; otherwise records the destruction, again and again. */
    method Destroy() returns (o: Outcome)
      modifies this
      ensures (o, State()) == Step(old(State()), Call.Destroy)
      ensures o == IllegalState <==> !old(stopInvoked)
      ensures o == IllegalState ==> unchanged(this)
      ensures o == Ok ==> destroyInvoked
      ensures startInvoked == old(startInvoked) && initializationInvoked == old(initializationInvoked)
      ensures stopInvoked == old(stopInvoked)
      ensures old(Valid()) ==> Valid()
    {
      if !stopInvoked {
        return IllegalState;
      }
      destroyInvoked := true;
      o := Ok;
    }
  }

  /**
   * The ordered lifecycle start, afterPropertiesSet, stop, destroy: every
   * call succeeds; the container is running and started before the stop,
   * neither running nor stopped between stop and destroy, and started and
   * stopped but not running at the end; the endpoint never changes.
   */
  method FullLifecycle<E>(ep: E)
    returns (outcomes: seq<Outcome>, runningBeforeStop: bool, startedBeforeStop: bool,
             runningAfterStop: bool, stoppedBeforeDestroy: bool,
             started: bool, stopped: bool, running: bool, endpoint: E)
    ensures outcomes == [Ok, Ok, Ok, Ok]
    ensures runningBeforeStop && startedBeforeStop
    ensures !runningAfterStop && !stoppedBeforeDestroy
    ensures started && stopped && !running
    ensures endpoint == ep
  {
    var c := new MessageListenerTestContainer(ep);
    var o1 := c.Start();
    var o2 := c.AfterPropertiesSet();
    runningBeforeStop, startedBeforeStop := c.IsRunning(), c.IsStarted();
    var o3 := c.Stop();
    runningAfterStop, stoppedBeforeDestroy := c.IsRunning(), c.IsStopped();
    var o4 := c.Destroy();
    outcomes := [o1, o2, o3, o4];
    started, stopped, running := c.IsStarted(), c.IsStopped(), c.IsRunning();
    endpoint := c.GetEndpoint();
  }

  /**
   * Calls out of order: afterPropertiesSet before start and destroy before
   * stop fail; stop before start succeeds; a second start and a second stop
   * fail. The failed calls leave no trace in the flags.
   */
  method OutOfOrderCalls<E>(ep: E) returns (outcomes: seq<Outcome>, state: Flags)
    ensures outcomes == [IllegalState, IllegalState, Ok, Ok, IllegalState, IllegalState]
    ensures state == Flags(true, false, true, false)
  {
    var c := new MessageListenerTestContainer(ep);
    var o1 := c.AfterPropertiesSet();
    var o2 := c.Destroy();
    var o3 := c.Stop();
    var o4 := c.Start();
    var o5 := c.Start();
    var o6 := c.Stop();
    outcomes := [o1, o2, o3, o4, o5, o6];
    state := c.State();
  }
}
