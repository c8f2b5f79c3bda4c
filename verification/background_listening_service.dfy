/**
 * The hosted listener: startup validation of its configuration, two subscriptions (generic and
 * per-location) sharing one shutdown token, and the retry loop each runs until shutdown.
 */
module BackgroundListening {
  import opened Wrappers
  import opened Strings
  import opened Configuration
  import opened Pubsub
  import opened CloudMessageHandlers

  /** Seconds between two subscription attempts. */
  const RetryConnectionSeconds := 60

  /** `CancellationTokenSource`: the shutdown flag both listening loops observe. */
  class CancellationTokenSource {
    var cancelled: bool

    constructor ()
      ensures !cancelled
    {
      cancelled := false;
    }

    method Cancel()
      modifies this
      ensures cancelled
    {
      cancelled := true;
    }
  }

  /** A subscription to listen on, the handler its messages go to, and the token that stops it. */
  datatype Listener = Listener(projectId: string, subscriptionId: string, handler: CloudMessageHandler,
                               token: CancellationTokenSource)

  datatype ListenerSetup = ListenerSetup(generic: Listener, location: Listener)

  function NotSet(key: string): string {
    "Environment variable '" + key + "' is not set for Pub/Sub client registration."
  }

  /** The outcome of one `subscriber.StartAsync`: it returns, is cancelled, or fails. */
  datatype AttemptOutcome = Completed | Canceled | Failed(exception: Exception)

  /** What the loop did, in order: an attempt (with its swallowed outcome) or a retry delay. */
  datatype LoopEvent = Attempt(outcome: AttemptOutcome) | Delay(seconds: nat)

  /**
   * The loop's trace when the first `checks` reads of the cancellation flag say "not
   * cancelled": reads alternate between the loop condition and the check after an attempt, so
   * attempts and 60-second delays alternate, starting with an attempt.
   */
  function RetryLog(attempt: nat -> AttemptOutcome, checks: nat): (r: seq<LoopEvent>)
    ensures |r| == checks
    ensures forall i :: 0 <= i < checks && i % 2 == 0 ==> r[i] == Attempt(attempt(i / 2))
    ensures forall i :: 0 <= i < checks && i % 2 == 1 ==> r[i] == Delay(RetryConnectionSeconds)
  {
    seq(checks, i requires 0 <= i => if i % 2 == 0 then Attempt(attempt(i / 2)) else Delay(RetryConnectionSeconds))
  }

  /**
   * `Subscribe`. The flag reads are numbered from 0; read k observes cancellation exactly when
   * k >= cancelAt. Every attempt's outcome, cancellation or failure, is swallowed; the loop leaves
   * only on an observed cancellation, either at the loop condition or right after an attempt.
   */
  method Subscribe(attempt: nat -> AttemptOutcome, cancelAt: nat) returns (log: seq<LoopEvent>)
    ensures log == RetryLog(attempt, cancelAt)
  {
    var flagReads := 0;
    log := [];
    while flagReads < cancelAt
      invariant flagReads <= cancelAt && flagReads % 2 == 0
      invariant log == RetryLog(attempt, flagReads)
      decreases cancelAt - flagReads
    {
      var outcome := attempt(flagReads / 2);
      log := log + [Attempt(outcome)];
      flagReads := flagReads + 1;
      if flagReads >= cancelAt {
        break;
      }
      log := log + [Delay(RetryConnectionSeconds)];
      flagReads := flagReads + 1;
    }
  }

  /**
   * A loop stopped right after an attempt ends on that attempt; one stopped at the loop
   * condition ends on a delay; a token cancelled before the start makes no attempt at all.
   */
  lemma {:induction false} RetryLogEnds(attempt: nat -> AttemptOutcome, checks: nat)
    ensures checks == 0 ==> RetryLog(attempt, checks) == []
    ensures checks % 2 == 1 ==> RetryLog(attempt, checks)[checks - 1] == Attempt(attempt(checks / 2))
    ensures checks > 0 && checks % 2 == 0 ==> RetryLog(attempt, checks)[checks - 1] == Delay(RetryConnectionSeconds)
  {
    if checks % 2 == 1 {
      assert (checks - 1) / 2 == checks / 2;
    }
  }

  /** A later cancellation only extends the trace: the earlier trace is a prefix of the later one. */
  lemma RetryLogPrefix(attempt: nat -> AttemptOutcome, m: nat, n: nat)
    requires m <= n
    ensures RetryLog(attempt, n)[..m] == RetryLog(attempt, m)
  {
  }

  class BackgroundListeningService {
    const shutdownSource: CancellationTokenSource

    constructor ()
      ensures fresh(shutdownSource) && !shutdownSource.cancelled
    {
      shutdownSource := new CancellationTokenSource();
    }

    /**
     * `StartAsync`'s validation ladder: the project id, then the generic subscription id, then
     * the location subscription id (under PUBSUB_SUBSCRIPTION_ID_ + the upper-cased location
     * tag, "" when unset) must be present and non-empty, else ArgumentNullException. On success
     * the generic handler may relay, the location handler may not, and both listeners share the
     * one shutdown token.
     */
    function StartAsync(config: Config, env: HandlerEnv): (r: Outcome<ListenerSetup>)
      ensures IsNullOrEmpty(GetCloudProjectId(config)) ==>
        r == Threw(ArgumentNullException("projectId", NotSet(CloudProjectIdKey)))
      ensures !IsNullOrEmpty(GetCloudProjectId(config)) && IsNullOrEmpty(GetGenericSubscriptionId(config)) ==>
        r == Threw(ArgumentNullException("genericSubscriptionId", NotSet(GenericSubscriptionIdKey)))
      ensures var tag := GetLocationTag(config).GetOr("");
        !IsNullOrEmpty(GetCloudProjectId(config)) && !IsNullOrEmpty(GetGenericSubscriptionId(config))
        && IsNullOrEmpty(GetSubscriptionId(config, tag)) ==>
        r == Threw(ArgumentNullException("locationSubscriptionId", NotSet(SubscriptionIdKey(tag))))
      ensures var tag := GetLocationTag(config).GetOr("");
        r.Returned? <==>
          !IsNullOrEmpty(GetCloudProjectId(config)) && !IsNullOrEmpty(GetGenericSubscriptionId(config))
          && !IsNullOrEmpty(GetSubscriptionId(config, tag))
      ensures r.Returned? ==>
        var tag := GetLocationTag(config).GetOr("");
        r.value.generic.projectId == GetCloudProjectId(config).value
        && r.value.location.projectId == GetCloudProjectId(config).value
        && r.value.generic.subscriptionId == GetGenericSubscriptionId(config).value
        && r.value.location.subscriptionId == GetSubscriptionId(config, tag).value
        && r.value.generic.handler == CloudMessageHandler(env, true)
        && r.value.location.handler == CloudMessageHandler(env, false)
        && r.value.generic.token == shutdownSource && r.value.location.token == shutdownSource
    {
      var projectId := GetCloudProjectId(config);
      var genericSubscriptionId := GetGenericSubscriptionId(config);
      var locationTag := GetLocationTag(config).GetOr("");
      var locationSubscriptionId := GetSubscriptionId(config, locationTag);
      if IsNullOrEmpty(projectId) then
        Threw(ArgumentNullException("projectId", NotSet(CloudProjectIdKey)))
      else if IsNullOrEmpty(genericSubscriptionId) then
        Threw(ArgumentNullException("genericSubscriptionId", NotSet(GenericSubscriptionIdKey)))
      else if IsNullOrEmpty(locationSubscriptionId) then
        Threw(ArgumentNullException("locationSubscriptionId", NotSet(SubscriptionIdKey(locationTag))))
      else
        Returned(ListenerSetup(
          Listener(projectId.value, genericSubscriptionId.value, CloudMessageHandler(env, true), shutdownSource),
          Listener(projectId.value, locationSubscriptionId.value, CloudMessageHandler(env, false), shutdownSource)))
    }

    /**
     * `StopAsync` cancels the shared token that both retry loops check before each attempt.
     * An attempt already running is not interrupted: the token is never passed to it.
     */
    method StopAsync()
      modifies shutdownSource
      ensures shutdownSource.cancelled
    {
      shutdownSource.Cancel();
    }
  }

  /** A successful start wires the two handlers so that only the generic subscription can relay. */
  lemma OnlyGenericListenerRelays(service: BackgroundListeningService, config: Config, env: HandlerEnv, message: PubsubMessage)
    requires service.StartAsync(config, env).Returned?
    ensures service.StartAsync(config, env).value.location.handler.OnMessage(message).relays == []
    ensures service.StartAsync(config, env).value.generic.handler.canForwardToTopic
  {
    LocationHandlerNeverRelays(env, message);
  }
}
