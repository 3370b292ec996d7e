# Lifecycle model of the JMS test listener container

`MessageListenerTestContainer` is the stand-in listener container that the
Spring JMS configuration tests register in place of a real one. It holds one
listener endpoint, fixed at construction, and keeps four flags:
`startInvoked`, `initializationInvoked`, `stopInvoked` and `destroyInvoked`.
It receives the four lifecycle callbacks `start`, `afterPropertiesSet`,
`stop` and `destroy`. Each callback first checks a guard. If the guard fails,
it throws `IllegalStateException`; otherwise it sets its own flag. The
queries `isRunning`, `isStarted` and `isStopped` read the flags.

The project has two modules:

- `Lifecycle` (`lifecycle.dfy`) describes the flags as a value (`Flags`).
  It defines the guard of each callback (`Refuses`) and the effect of one
  callback (`Step`). It also defines the flags and outcomes of a whole
  history of callbacks (`Run`, `Outcomes`, and `Successes`, which counts
  the successful entries of `Outcomes`). Lemmas about these state the ordering properties: start and stop succeed at most once,
  afterPropertiesSet and destroy can be repeated, and the reachable states
  are exactly the consistent ones.
- `JmsConfig` (`container.dfy`) holds the class itself. Its four flags are
  mutable fields and the endpoint is a `const`. Each callback is a method
  that changes the fields in place. Each method's contract equates its
  outcome and new flags with `Lifecycle.Step` applied to the old flags, and
  names the guard and the unchanged fields outright. Two client methods
  replay the scenarios the container exists for.

A thrown `IllegalStateException` is modelled as the outcome `IllegalState`,
and a normal return as `Ok`. The endpoint type is a type parameter `E`.

The model follows the code, not a stricter reading of the lifecycle:

- `stop` checks only `stopInvoked`, so it succeeds on a container that was
  never started.
- `afterPropertiesSet` checks only `startInvoked`, and `destroy` checks only
  `stopInvoked`. Neither refuses a repeat call, so repeating either one
  succeeds and changes nothing more.
- Nothing orders `stop` after `afterPropertiesSet`.

## Model

| member | source | states |
|---|---|---|
| `JmsConfig.MessageListenerTestContainer.constructor` | spring-jms/src/test/java/org/springframework/jms/config/MessageListenerTestContainer.java:32-44 | the endpoint is the argument; all four flags are false; the container is consistent; isRunning, isStarted and isStopped are all false |
| `JmsConfig.MessageListenerTestContainer.GetEndpoint` | spring-jms/src/test/java/org/springframework/jms/config/MessageListenerTestContainer.java:46-48 | returns the `const` endpoint, which the constructor binds to its argument, so every call returns the constructor's argument |
| `JmsConfig.MessageListenerTestContainer.IsStarted` | spring-jms/src/test/java/org/springframework/jms/config/MessageListenerTestContainer.java:50-52 | isStarted agrees with `Started` on the flags; in a consistent container it holds exactly when afterPropertiesSet has succeeded |
| `JmsConfig.MessageListenerTestContainer.IsStopped` | spring-jms/src/test/java/org/springframework/jms/config/MessageListenerTestContainer.java:54-56 | isStopped agrees with `Stopped` on the flags; in a consistent container it holds exactly when destroy has succeeded; a stopped container is never running |
| `JmsConfig.MessageListenerTestContainer.IsRunning` | spring-jms/src/test/java/org/springframework/jms/config/MessageListenerTestContainer.java:67-69 | isRunning agrees with `Running` on the flags; a running container is never stopped |
| `JmsConfig.MessageListenerTestContainer.Start` | spring-jms/src/test/java/org/springframework/jms/config/MessageListenerTestContainer.java:58-64 | outcome and new flags are `Step(old flags, Start)`; fails iff start was already invoked, and then nothing changes; otherwise only startInvoked changes, to true; consistency is kept |
| `JmsConfig.MessageListenerTestContainer.Stop` | spring-jms/src/test/java/org/springframework/jms/config/MessageListenerTestContainer.java:71-77 | outcome and new flags are `Step(old flags, Stop)`; fails iff stop was already invoked, whether or not start was, and then nothing changes; otherwise only stopInvoked changes, to true; consistency is kept |
| `JmsConfig.MessageListenerTestContainer.AfterPropertiesSet` | spring-jms/src/test/java/org/springframework/jms/config/MessageListenerTestContainer.java:94-101 | outcome and new flags are `Step(old flags, AfterPropertiesSet)`; fails iff start was not invoked, and then nothing changes; otherwise only initializationInvoked is set (a repeat succeeds too); consistency is kept |
| `JmsConfig.MessageListenerTestContainer.Destroy` | spring-jms/src/test/java/org/springframework/jms/config/MessageListenerTestContainer.java:103-110 | outcome and new flags are `Step(old flags, Destroy)`; fails iff stop was not invoked, and then nothing changes; otherwise only destroyInvoked is set (a repeat succeeds too); consistency is kept |
| `Lifecycle.Raise` | spring-jms/src/test/java/org/springframework/jms/config/MessageListenerTestContainer.java:63-109 | recording a callback sets its own flag and leaves the other three as they were |
| `Lifecycle.Step` | spring-jms/src/test/java/org/springframework/jms/config/MessageListenerTestContainer.java:58-110 | a callback fails exactly when its guard refuses it (start or stop already invoked, afterPropertiesSet before start, destroy before stop); a refused callback leaves the flags unchanged; an accepted one sets exactly its own flag; no flag is ever reset; a consistent state stays consistent |
| `Lifecycle.Run` | spring-jms/src/test/java/org/springframework/jms/config/MessageListenerTestContainer.java:58-110 | over any history of callbacks, with failures included, no flag is reset, and consistency (initializationInvoked implies startInvoked, destroyInvoked implies stopInvoked) is kept |
| `Lifecycle.Outcomes` | spring-jms/src/test/java/org/springframework/jms/config/MessageListenerTestContainer.java:58-110 | a history yields one outcome per callback |
| `Lifecycle.OutcomesAt` | spring-jms/src/test/java/org/springframework/jms/config/MessageListenerTestContainer.java:58-110 | entry i of a history's outcomes is the outcome of callback i in the state the first i callbacks lead to |
| `Lifecycle.CountOk` | spring-jms/src/test/java/org/springframework/jms/config/MessageListenerTestContainer.java:58-110 | counts the successful entries of one callback in a history; never more than the history's length |
| `Lifecycle.RunAppend` | spring-jms/src/test/java/org/springframework/jms/config/MessageListenerTestContainer.java:58-110 | running a concatenated history equals running its two parts one after the other |
| `Lifecycle.StartStopSucceedAtMostOnce` | spring-jms/src/test/java/org/springframework/jms/config/MessageListenerTestContainer.java:59-77 | in any history, start (and likewise stop) has at most one `Ok` entry in the history's outcomes, and exactly once when the history took its flag from false to true |
| `Lifecycle.Repeat` | spring-jms/src/test/java/org/springframework/jms/config/MessageListenerTestContainer.java:95-110 | the history of n calls of one callback has n entries, all that callback |
| `Lifecycle.HooksRepeatable` | spring-jms/src/test/java/org/springframework/jms/config/MessageListenerTestContainer.java:95-110 | once its guard passes, any number of afterPropertiesSet (or destroy) calls in a row all succeed and leave the flags as one call does |
| `Lifecycle.ReachableIffConsistent` | spring-jms/src/test/java/org/springframework/jms/config/MessageListenerTestContainer.java:34-110 | from a fresh container, some history reaches the flags `f` if and only if `f` is consistent; no further ordering is enforced, so stop without start is reachable |
| `JmsConfig.FullLifecycle` | spring-jms/src/test/java/org/springframework/jms/config/MessageListenerTestContainer.java:42-110 | start, afterPropertiesSet, stop, destroy all succeed. Before the stop the container is running and started. Between stop and destroy it is neither running nor stopped. At the end it is started and stopped but not running, and getEndpoint returns the constructor's argument |
| `JmsConfig.OutOfOrderCalls` | spring-jms/src/test/java/org/springframework/jms/config/MessageListenerTestContainer.java:58-110 | afterPropertiesSet before start fails, and so does destroy before stop. Stop before start succeeds. A second start and a second stop fail. Failed calls leave no flag set |

## Left out

- `setupMessageListener`, `getMessageConverter` and `isPubSubDomain` (lines 79-92) are left out. They are a no-op and two constant returns over JMS types that are not part of this model.
- `toString` (lines 112-122) is string formatting that depends on the endpoint's own `toString`.
- The text of the exception messages is left out; only the fact of failure is modelled.
- The framework's own invocation of the `InitializingBean` and `DisposableBean` callbacks, and any concurrent use, are not part of this model. The container is used from one thread.
- `Environment.java` and `Aware.java` are interfaces with no behaviour to model.
