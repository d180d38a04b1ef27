/** The loading / error / data state that both pages keep, and the fetch
    routine both pages run against it: set `loading`, then store the payload
    or an error message, then clear `loading`. Neither page ever resets
    `error` to null, which is what this module's lemmas pin down. */
module Fetching {
  import opened Common

  /** The three state hooks of a page. */
  datatype FetchState<T> = FetchState(loading: bool, error: Option<string>, data: T)

  /** How one request ended: with a payload, or with any transport or
      non-2xx failure. */
  datatype Outcome<T> = Loaded(payload: T) | Failed

  /** What the page renders. */
  datatype Screen<T> = Spinner | ErrorScreen(message: string) | Ready(data: T)

  /** State on mount: loading, no error, the page's empty data. */
  function Initial<T>(empty: T): FetchState<T> {
    FetchState(true, None, empty)
  }

  /** `setLoading(true)` */
  function BeginFetch<T>(st: FetchState<T>): FetchState<T> {
    st.(loading := true)
  }

  /** `setData(response.data)` */
  function StoreData<T>(st: FetchState<T>, payload: T): FetchState<T> {
    st.(data := payload)
  }

  /** `setError(message)` in the catch block */
  function RecordFailure<T>(st: FetchState<T>, message: string): FetchState<T> {
    st.(error := Some(message))
  }

  /** `setLoading(false)` in the finally block */
  function Settle<T>(st: FetchState<T>): FetchState<T> {
    st.(loading := false)
  }

  /** One complete run of the fetch routine. It always ends not loading; a
      payload replaces the data, a failure sets the message, and nothing
      clears an earlier error. */
  function Fetch<T>(st: FetchState<T>, outcome: Outcome<T>, message: string): (r: FetchState<T>)
    ensures !r.loading
    ensures r.data == (if outcome.Loaded? then outcome.payload else st.data)
    ensures r.error == (if outcome.Failed? then Some(message) else st.error)
  {
    var started := BeginFetch(st);
    Settle(match outcome
           case Loaded(p) => StoreData(started, p)
           case Failed => RecordFailure(started, message))
  }

  /** The render: loading wins over error, error wins over the data. */
  function ScreenOf<T>(st: FetchState<T>): (s: Screen<T>)
    ensures s.Spinner? <==> st.loading
    ensures s.ErrorScreen? <==> !st.loading && Truthy(st.error)
    ensures s.Ready? <==> !st.loading && !Truthy(st.error)
    ensures s.ErrorScreen? ==> st.error == Some(s.message)
    ensures s.Ready? ==> s.data == st.data
  {
    if st.loading then Spinner
    else if Truthy(st.error) then ErrorScreen(st.error.value)
    else Ready(st.data)
  }

  /** Fetches run one after another (on mount, then each "Try Again"),
      oldest first. */
  function FetchAll<T>(st: FetchState<T>, outcomes: seq<Outcome<T>>, message: string): (r: FetchState<T>)
    ensures outcomes == [] ==> r == st
    ensures outcomes != [] ==> !r.loading
    ensures st.error.Some? ==> r.error.Some?
  {
    if outcomes == [] then st
    else Fetch(FetchAll(st, outcomes[..|outcomes| - 1], message), outcomes[|outcomes| - 1], message)
  }

  predicate AnyFailed<T>(outcomes: seq<Outcome<T>>) {
    exists i :: 0 <= i < |outcomes| && outcomes[i].Failed?
  }

  /** The payload of the last request that succeeded, or `fallback` if none
      did. */
  function LatestPayload<T>(fallback: T, outcomes: seq<Outcome<T>>): (d: T)
    ensures (forall i :: 0 <= i < |outcomes| ==> outcomes[i].Failed?) ==> d == fallback
    ensures forall i :: (0 <= i < |outcomes| && outcomes[i].Loaded?
                         && (forall k :: i < k < |outcomes| ==> outcomes[k].Failed?))
                        ==> d == outcomes[i].payload
  {
    if outcomes == [] then fallback
    else match outcomes[|outcomes| - 1]
      case Loaded(p) => p
      case Failed => LatestPayload(fallback, outcomes[..|outcomes| - 1])
  }

  /** The state after a series of fetches: loading only if none ran, the
      data of the last success, and an error exactly when one was already
      there or some fetch failed. */
  lemma {:induction false} FetchAllState<T>(st: FetchState<T>, outcomes: seq<Outcome<T>>, message: string)
    ensures var r := FetchAll(st, outcomes, message);
            && r.loading == (st.loading && outcomes == [])
            && r.data == LatestPayload(st.data, outcomes)
            && r.error == (if AnyFailed(outcomes) then Some(message) else st.error)
  {
    if outcomes != [] {
      var front := outcomes[..|outcomes| - 1];
      var last := outcomes[|outcomes| - 1];
      FetchAllState(st, front, message);
      if last.Failed? {
        assert outcomes[|outcomes| - 1].Failed?;
      } else {
        assert AnyFailed(outcomes) ==> AnyFailed(front) by {
          if AnyFailed(outcomes) {
            var i :| 0 <= i < |outcomes| && outcomes[i].Failed?;
            assert front[i] == outcomes[i];
          }
        }
        assert AnyFailed(front) ==> AnyFailed(outcomes) by {
          if AnyFailed(front) {
            var i :| 0 <= i < |front| && front[i].Failed?;
            assert outcomes[i] == front[i];
          }
        }
      }
    }
  }

  /** Starting from the mount state, the page shows the spinner until the
      first fetch ends, the error screen from the first failure on (for good:
      no later success takes it away), and the latest data otherwise. */
  lemma ScreenAfterFetches<T>(empty: T, outcomes: seq<Outcome<T>>, message: string)
    requires message != ""
    ensures var s := ScreenOf(FetchAll(Initial(empty), outcomes, message));
            && (s.Spinner? <==> outcomes == [])
            && (s.ErrorScreen? <==> AnyFailed(outcomes))
            && (s.ErrorScreen? ==> s.message == message)
            && (s.Ready? <==> outcomes != [] && !AnyFailed(outcomes))
            && (s.Ready? ==> s.data == LatestPayload(empty, outcomes))
  {
    FetchAllState(Initial(empty), outcomes, message);
  }

  /** Once a fetch has failed, every later fetch, successful or not, leaves
      the page on the error screen while its data silently follows the
      latest success. */
  lemma ErrorIsSticky<T>(st: FetchState<T>, retries: seq<Outcome<T>>, message: string)
    requires Truthy(st.error) && message != ""
    requires retries != []
    ensures var r := FetchAll(st, retries, message);
            && ScreenOf(r).ErrorScreen?
            && r.data == LatestPayload(st.data, retries)
  {
    FetchAllState(st, retries, message);
  }

  /** The concrete case: the request fails, "Try Again" succeeds, and the
      page still shows the failure although the new data is stored. */
  lemma RetryAfterFailureShowsError<T>(empty: T, payload: T, message: string)
    requires message != ""
    ensures var r := FetchAll(Initial(empty), [Failed, Loaded(payload)], message);
            && ScreenOf(r) == ErrorScreen(message)
            && r.data == payload
  {
    FetchAllState(Initial(empty), [Failed, Loaded(payload)], message);
    assert [Failed, Loaded(payload)][0].Failed?;
  }
}
