/**
 * Timers of the browser event loop, as the components here use them.
 *
 * Time is an integer count of milliseconds. A scope's pending timers are a map from a
 * timer name to the absolute time at which it is due; arming adds an entry, clearing or
 * firing removes it. The event loop runs the pending timer that is due first.
 */
module Timing {

  /** Timer `k` is pending and no pending timer is due strictly before it, so it may run next. */
  predicate IsNext<K>(pending: map<K, nat>, k: K) {
    k in pending && forall j | j in pending :: pending[k] <= pending[j]
  }

  /** No pending timer is due before `now`: time does not run backwards. */
  predicate NotBefore<K>(pending: map<K, nat>, now: nat) {
    forall j | j in pending :: now <= pending[j]
  }
}
