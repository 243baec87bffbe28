/**
 * The connectivity broadcast receiver (`NetworkChangeReceiver`): when the
 * network comes back it restarts the call service with the saved
 * credentials, at most once per ten seconds.
 *
 * The connectivity query, the clock and the saved credentials are parameters
 * of `OnReceive`; the companion object's fields are the fields of one
 * receiver object.
 */
module NetworkReceivers {
  import opened Options

  /** `ConnectivityManager.CONNECTIVITY_ACTION`. */
  const ConnectivityAction := "android.net.conn.CONNECTIVITY_CHANGE"
  const ReconnectDebounceMs: int := 10000

  /** A START_SERVICE intent sent to the call service. */
  datatype StartIntent = StartIntent(roomId: string, token: string)

  /** Consecutive entries are at least the debounce interval apart. */
  predicate Spaced(times: seq<int>) {
    forall i | 0 < i < |times| :: times[i - 1] + ReconnectDebounceMs <= times[i]
  }

  /** In a spaced history, any two attempts `j - i` positions apart are at
      least `j - i` debounce intervals apart. */
  lemma {:induction false} SpacedGaps(times: seq<int>, i: nat, j: nat)
    requires Spaced(times) && i <= j < |times|
    ensures times[i] + (j - i) * ReconnectDebounceMs <= times[j]
    decreases j - i
  {
    if i < j {
      SpacedGaps(times, i, j - 1);
    }
  }

  class NetworkChangeReceiver {
    var lastNetworkAvailable: bool
    var lastReconnectTime: int
    /** Times at which a restart was attempted, oldest first. */
    var attemptTimes: seq<int>
    /** Intents sent to restart the call service, oldest first. */
    var restarts: seq<StartIntent>

    /** Attempts are spaced by the debounce interval, the last one is the
        recorded reconnect time, and the first came at least one interval
        after time zero, the initial reconnect time. */
    ghost predicate Valid()
      reads this
    {
      && Spaced(attemptTimes)
      && (attemptTimes == [] ==> lastReconnectTime == 0)
      && (attemptTimes != [] ==>
            && attemptTimes[|attemptTimes| - 1] == lastReconnectTime
            && ReconnectDebounceMs <= attemptTimes[0])
    }

    constructor()
      ensures Valid() && !lastNetworkAvailable && lastReconnectTime == 0
      ensures attemptTimes == [] && restarts == []
    {
      lastNetworkAvailable := false;
      lastReconnectTime := 0;
      attemptTimes := [];
      restarts := [];
    }

    /**
     * `onReceive`: ignore other actions; on a change from unavailable to
     * available, debounce against the last attempt and otherwise record an
     * attempt and restart the service when both credentials are saved;
     * finally remember the availability.
     */
    method OnReceive(action: string, available: bool, now: int,
                     savedToken: Option<string>, savedRoomId: Option<string>)
      requires Valid()
      modifies this
      ensures Valid()
      ensures action != ConnectivityAction ==>
        && lastNetworkAvailable == old(lastNetworkAvailable)
        && lastReconnectTime == old(lastReconnectTime)
        && attemptTimes == old(attemptTimes) && restarts == old(restarts)
      ensures action == ConnectivityAction ==> lastNetworkAvailable == available
      ensures action == ConnectivityAction && available && !old(lastNetworkAvailable)
              && now - old(lastReconnectTime) >= ReconnectDebounceMs ==>
        && lastReconnectTime == now && attemptTimes == old(attemptTimes) + [now]
        && restarts == old(restarts) +
             (if savedToken.Some? && savedRoomId.Some?
              then [StartIntent(savedRoomId.value, savedToken.value)] else [])
      ensures !(action == ConnectivityAction && available && !old(lastNetworkAvailable)
                && now - old(lastReconnectTime) >= ReconnectDebounceMs) ==>
        && lastReconnectTime == old(lastReconnectTime)
        && attemptTimes == old(attemptTimes) && restarts == old(restarts)
    {
      if action == ConnectivityAction {
        if available && !lastNetworkAvailable {
          if now - lastReconnectTime < ReconnectDebounceMs {
            lastNetworkAvailable := available;
            return;
          }
          lastReconnectTime := now;
          attemptTimes := attemptTimes + [now];
          if savedToken.Some? && savedRoomId.Some? {
            restarts := restarts + [StartIntent(savedRoomId.value, savedToken.value)];
          }
        }
        lastNetworkAvailable := available;
      }
    }

    /** Every two restart attempts are at least ten seconds apart. */
    lemma AttemptsTenSecondsApart(i: nat, j: nat)
      requires Valid() && i < j < |attemptTimes|
      ensures attemptTimes[i] + ReconnectDebounceMs <= attemptTimes[j]
    {
      SpacedGaps(attemptTimes, i, j);
    }
  }
}
