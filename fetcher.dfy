/**
 * The sequenced fetcher of `src/hooks/useDateAwareCachedData.ts`: the state
 * `data / isLoading / error / isCachedData` of a screen that shows the data of
 * one selection key (a date, a week or month identifier), and the ref holding
 * the key of the latest request.
 *
 * One call of `fetchOperation` is two events: `Begin(key)` runs up to the
 * `await`; later the request settles with `Resolve(key, result)` or
 * `Reject(key, e)`, `key` being the one the call captured. Requests may
 * settle in any order, so any interleaving is a sequence of these events.
 *
 * `dataKey` is bookkeeping of the model only: the key of the request whose
 * result `data` holds. The source does not keep it; it lets the contracts
 * say which key the shown data belongs to.
 */
module Fetcher {
  import opened Basics

  const LoadingError: string := "Erreur de chargement"

  /** What a request rejects with: an `Error` (with its message) or any other value. */
  datatype Rejection = ErrorValue(message: string) | OtherValue

  /** `err instanceof Error ? err : new Error("Erreur de chargement")`, by message. */
  function ReportedError(e: Rejection): (m: string)
    ensures e.ErrorValue? ==> m == e.message
    ensures e.OtherValue? ==> m == LoadingError
  {
    match e
    case ErrorValue(message) => message
    case OtherValue => LoadingError
  }

  datatype State<T> = State(
    data: Option<T>,
    isLoading: bool,
    error: Option<string>,
    isCachedData: bool,
    lastKey: string,
    lastSuccessful: Option<T>,
    dataKey: Option<string>)

  /** The state on mount: nothing shown, nothing loading, the ref holds `""`. */
  function Initial<T>(): State<T>
  {
    State(None, false, None, false, "", None, None)
  }

  /**
   * `fetchOperation` up to the `await`: the shown data is cleared when the key
   * changes from a non-empty one (`""` is falsy, so a change from `""` clears
   * nothing); then the ref takes the new key, loading starts, the error goes.
   */
  function Start<T>(s: State<T>, key: string): (t: State<T>)
    ensures t.lastKey == key && t.isLoading && t.error == None
    ensures t.data == (if s.lastKey != "" && s.lastKey != key then None else s.data)
    ensures t.lastSuccessful == s.lastSuccessful
  {
    var clear := s.lastKey != "" && s.lastKey != key;
    s.(data := if clear then None else s.data,
       isCachedData := if clear then false else s.isCachedData,
       dataKey := if clear then None else s.dataKey,
       lastKey := key,
       isLoading := true,
       error := None)
  }

  /** The request for `reqKey` fulfils with `r`: committed only if `reqKey` is still the latest key. */
  function Succeed<T>(s: State<T>, reqKey: string, r: T): (t: State<T>)
    ensures !t.isLoading && t.lastKey == s.lastKey
    ensures t.data == (if reqKey == s.lastKey then Some(r) else s.data)
    ensures t.error == (if reqKey == s.lastKey then None else s.error)
  {
    if reqKey == s.lastKey then
      s.(data := Some(r), error := None, isCachedData := false, lastSuccessful := Some(r),
         dataKey := Some(reqKey), isLoading := false)
    else
      s.(isLoading := false)
  }

  /** The request for `reqKey` rejects with `e`: recorded whatever the latest key is. */
  function Fail<T>(s: State<T>, reqKey: string, e: Rejection): (t: State<T>)
    ensures t.data == None && t.error == Some(ReportedError(e)) && !t.isLoading
    ensures t.lastKey == s.lastKey && t.lastSuccessful == s.lastSuccessful
  {
    s.(error := Some(ReportedError(e)), data := None, isCachedData := false, dataKey := None, isLoading := false)
  }

  datatype Event<T> = Started(key: string) | Succeeded(key: string, result: T) | Failed(key: string, e: Rejection)

  function Apply<T>(s: State<T>, ev: Event<T>): State<T>
  {
    match ev
    case Started(key) => Start(s, key)
    case Succeeded(key, r) => Succeed(s, key, r)
    case Failed(key, e) => Fail(s, key, e)
  }

  /** The state after the events `evs`, in order. */
  function Run<T>(s: State<T>, evs: seq<Event<T>>): (t: State<T>)
    ensures t.lastKey == s.lastKey || Started(t.lastKey) in evs
    decreases |evs|
  {
    if evs == [] then s else Run(Apply(s, evs[0]), evs[1..])
  }

  lemma RunThree<T>(s: State<T>, e1: Event<T>, e2: Event<T>, e3: Event<T>)
    ensures Run(s, [e1, e2, e3]) == Apply(Apply(Apply(s, e1), e2), e3)
  {
    var s1 := Apply(s, e1);
    var s2 := Apply(s1, e2);
    assert [e1, e2, e3][1..] == [e2, e3];
    assert [e2, e3][1..] == [e3];
    assert [e3][1..] == [];
    assert Run(s2, [e3]) == Run(Apply(s2, e3), []);
    assert Run(s1, [e2, e3]) == Run(s2, [e3]);
  }

  lemma RunFour<T>(s: State<T>, e1: Event<T>, e2: Event<T>, e3: Event<T>, e4: Event<T>)
    ensures Run(s, [e1, e2, e3, e4]) == Apply(Apply(Apply(Apply(s, e1), e2), e3), e4)
  {
    assert [e1, e2, e3, e4][1..] == [e2, e3, e4];
    RunThree(Apply(s, e1), e2, e3, e4);
  }

  /* ---------------------------------------------------------------------
   * Single steps.
   * --------------------------------------------------------------------- */

  /**
   * Starting a request makes `key` the latest key, loading, without error, and
   * clears the data exactly when the key changes from a non-empty one.
   */
  lemma StartClearsOnKeyChange<T>(s: State<T>, key: string)
    ensures var t := Start(s, key);
            && t.lastKey == key && t.isLoading && t.error == None
            && (t.data == None <==> (s.lastKey != "" && s.lastKey != key) || s.data == None)
            && (t.data.Some? ==> t.data == s.data)
  {
  }

  /** A success is shown only for the latest key; a superseded one changes nothing but `isLoading`. */
  lemma SucceedCommitsOnlyLatest<T>(s: State<T>, reqKey: string, r: T)
    ensures var t := Succeed(s, reqKey, r);
            && !t.isLoading && t.lastKey == s.lastKey
            && (reqKey == s.lastKey ==> t.data == Some(r) && t.error == None)
            && (reqKey != s.lastKey ==> t == s.(isLoading := false))
  {
  }

  /**
   * A rejection is not checked against the latest key: even a superseded
   * request clears the data and sets the error.
   */
  lemma FailIgnoresKey<T>(s: State<T>, reqKey: string, other: string, e: Rejection)
    ensures Fail(s, reqKey, e) == Fail(s, other, e)
    ensures Fail(s, reqKey, e).data == None && Fail(s, reqKey, e).error == Some(ReportedError(e))
    ensures !Fail(s, reqKey, e).isLoading
  {
  }

  /* ---------------------------------------------------------------------
   * Invariants over any sequence of events.
   * --------------------------------------------------------------------- */

  /**
   * What the screen shows belongs to the latest key, except for data fetched
   * under the empty key, which a later key change does not clear.
   */
  predicate ShowsLatestOrEmptyKey<T>(s: State<T>)
  {
    s.data.Some? ==> s.dataKey.Some? && (s.dataKey.value == s.lastKey || s.dataKey.value == "")
  }

  lemma {:induction false} ShowsLatestOrEmptyKeyHolds<T>(s: State<T>, evs: seq<Event<T>>)
    requires ShowsLatestOrEmptyKey(s)
    ensures ShowsLatestOrEmptyKey(Run(s, evs))
    decreases |evs|
  {
    if evs != [] {
      ShowsLatestOrEmptyKeyHolds(Apply(s, evs[0]), evs[1..]);
    }
  }

  /** `isCachedData` is never set: it stays false through every sequence of events. */
  lemma {:induction false} NeverCachedData<T>(s: State<T>, evs: seq<Event<T>>)
    requires !s.isCachedData
    ensures !Run(s, evs).isCachedData
    decreases |evs|
  {
    if evs != [] {
      NeverCachedData(Apply(s, evs[0]), evs[1..]);
    }
  }

  predicate NonEmptyKeys<T>(evs: seq<Event<T>>)
  {
    forall i :: 0 <= i < |evs| ==> evs[i].key != ""
  }

  /** With every key non-empty, what is shown is exactly the latest key's data. */
  predicate ShowsLatestKey<T>(s: State<T>)
  {
    s.data.Some? ==> s.lastKey != "" && s.dataKey == Some(s.lastKey)
  }

  lemma {:induction false} ShowsLatestKeyHolds<T>(s: State<T>, evs: seq<Event<T>>)
    requires ShowsLatestKey(s) && NonEmptyKeys(evs)
    ensures ShowsLatestKey(Run(s, evs))
    decreases |evs|
  {
    if evs != [] {
      assert evs[0].key != "";
      assert NonEmptyKeys(evs[1..]) by {
        forall i | 0 <= i < |evs[1..]|
          ensures evs[1..][i].key != ""
        {
          assert evs[1..][i] == evs[i + 1];
        }
      }
      ShowsLatestKeyHolds(Apply(s, evs[0]), evs[1..]);
    }
  }

  /** From mount, with non-empty keys, the screen never shows the data of another key. */
  lemma NoStaleDataWithNonEmptyKeys<T>(evs: seq<Event<T>>)
    requires NonEmptyKeys(evs)
    ensures var s := Run(Initial<T>(), evs);
            s.data.Some? ==> s.dataKey == Some(s.lastKey)
  {
    ShowsLatestKeyHolds(Initial<T>(), evs);
  }

  /* ---------------------------------------------------------------------
   * Interleavings the source allows.
   * --------------------------------------------------------------------- */

  /** A slow result for `a` that arrives after the switch to `b` is dropped; `b`'s result shows. */
  lemma SupersededSuccessDropped<T>(a: string, b: string, ra: T, rb: T)
    requires a != b
    ensures Run(Initial<T>(), [Started(a), Started(b), Succeeded(b, rb), Succeeded(a, ra)]).data == Some(rb)
    ensures Run(Initial<T>(), [Started(a), Started(b), Succeeded(a, ra)]).data == None
  {
    RunFour(Initial<T>(), Started(a), Started(b), Succeeded(b, rb), Succeeded(a, ra));
    RunThree(Initial<T>(), Started(a), Started(b), Succeeded(a, ra));
  }

  /** A superseded request that settles first ends the loading state while `b` is still outstanding. */
  lemma SupersededSettleStopsLoading<T>(a: string, b: string, ra: T)
    requires a != b
    ensures !Run(Initial<T>(), [Started(a), Started(b), Succeeded(a, ra)]).isLoading
  {
    RunThree(Initial<T>(), Started(a), Started(b), Succeeded(a, ra));
  }

  /** A stale rejection for `a` wipes the data `b` already shows and reports an error under `b`. */
  lemma StaleRejectionWipesData<T>(a: string, b: string, rb: T, e: Rejection)
    requires a != b
    ensures var s := Run(Initial<T>(), [Started(a), Started(b), Succeeded(b, rb), Failed(a, e)]);
            s.lastKey == b && s.data == None && s.error == Some(ReportedError(e))
  {
    RunFour(Initial<T>(), Started(a), Started(b), Succeeded(b, rb), Failed(a, e));
  }

  /** Two requests for the same key: the one that settles last is shown, even if it was started first. */
  lemma SameKeyLastSettledWins<T>(k: string, first: T, second: T)
    ensures Run(Initial<T>(), [Started(k), Started(k), Succeeded(k, second), Succeeded(k, first)]).data
            == Some(first)
  {
    RunFour(Initial<T>(), Started(k), Started(k), Succeeded(k, second), Succeeded(k, first));
  }

  /** Data fetched under the empty key survives the switch to `b`, before `b`'s request settles. */
  lemma EmptyKeyDataSurvivesKeyChange<T>(b: string, r: T)
    requires b != ""
    ensures var s := Run(Initial<T>(), [Started(""), Succeeded("", r), Started(b)]);
            s.lastKey == b && s.data == Some(r)
  {
    RunThree(Initial<T>(), Started(""), Succeeded("", r), Started(b));
  }

  /* ---------------------------------------------------------------------
   * The hook's state as an object updated in place.
   * --------------------------------------------------------------------- */

  class SequencedFetcher<T> {
    var data: Option<T>
    var isLoading: bool
    var error: Option<string>
    var isCachedData: bool
    /** `lastFetchedDateKeyRef.current` */
    var lastKey: string
    /** `lastSuccessfulFetchRef.current`, as the value it resolves to; it is written, never read. */
    var lastSuccessful: Option<T>
    ghost var dataKey: Option<string>

    ghost function Snapshot(): State<T>
      reads this
    {
      State(data, isLoading, error, isCachedData, lastKey, lastSuccessful, dataKey)
    }

    constructor ()
      ensures Snapshot() == Initial<T>()
    {
      data, isLoading, error, isCachedData := None, false, None, false;
      lastKey, lastSuccessful, dataKey := "", None, None;
    }

    /** `fetchOperation()` for `dateKey`, up to the `await`. */
    method Begin(dateKey: string)
      modifies this
      ensures Snapshot() == Start(old(Snapshot()), dateKey)
    {
      if lastKey != "" && lastKey != dateKey {
        data := None;
        isCachedData := false;
        dataKey := None;
      }
      lastKey := dateKey;
      isLoading := true;
      error := None;
    }

    /** The request that captured `reqKey` fulfils with `result`. */
    method Resolve(reqKey: string, result: T)
      modifies this
      ensures Snapshot() == Succeed(old(Snapshot()), reqKey, result)
    {
      if reqKey == lastKey {
        data := Some(result);
        error := None;
        isCachedData := false;
        lastSuccessful := Some(result);
        dataKey := Some(reqKey);
      }
      isLoading := false;
    }

    /** The request that captured `reqKey` rejects with `e`; `reqKey` is not consulted. */
    method Reject(reqKey: string, e: Rejection)
      modifies this
      ensures Snapshot() == Fail(old(Snapshot()), reqKey, e)
    {
      error := Some(ReportedError(e));
      data := None;
      isCachedData := false;
      dataKey := None;
      isLoading := false;
    }
  }

  /**
   * The switch from `a` to `b` on the object: `a`'s late result is not shown,
   * and the screen is no longer loading although `b` has not answered.
   */
  method SwitchKeyBeforeResult<T>(a: string, b: string, ra: T) returns (shown: Option<T>, loading: bool)
    requires a != "" && a != b
    ensures shown == None && !loading
  {
    var f := new SequencedFetcher<T>();
    f.Begin(a);
    f.Begin(b);
    f.Resolve(a, ra);
    shown, loading := f.data, f.isLoading;
  }

  /** On the object: a failure of the superseded request `a` erases `b`'s data. */
  method StaleFailureOnObject<T>(a: string, b: string, rb: T, e: Rejection)
    returns (shown: Option<T>, err: Option<string>)
    requires a != b
    ensures shown == None && err == Some(ReportedError(e))
  {
    var f := new SequencedFetcher<T>();
    f.Begin(a);
    f.Begin(b);
    f.Resolve(b, rb);
    f.Reject(a, e);
    shown, err := f.data, f.error;
  }
}
