/**
 * The request hooks every admin screen is built on. `useApi` wraps one
 * asynchronous call in a loading / success / failure state; `useApiList`
 * wraps a list endpoint with request parameters and paging. Each awaited call
 * is given as its outcome, a Completion, and runs as one sequential step.
 */
module UseApi {
  import opened Optional

  /** A JavaScript `Error`. */
  datatype Error = Error(message: string)

  /** What an awaited call threw: an `Error`, or some other value. */
  datatype Thrown = ThrownError(error: Error) | ThrownValue

  /** How an awaited call ended: it returned a value or threw. */
  datatype Completion<T> = Return(value: T) | Throw(thrown: Thrown)

  /** `ApiState`. */
  datatype ApiState<T> = ApiState(data: Option<T>, isLoading: bool, error: Option<Error>)

  /** The message of the Error that replaces a thrown non-Error value. */
  const FallbackMessage := "Произошла ошибка"

  /** data and error are never present together. */
  predicate Consistent<T>(s: ApiState<T>) {
    !(s.data.Some? && s.error.Some?)
  }

  /** Neither data, nor loading, nor error: the initial state and the state after `reset`. */
  function Idle<T>(): (s: ApiState<T>)
    ensures Consistent(s) && s.data == None && !s.isLoading && s.error == None
  {
    ApiState(None, false, None)
  }

  /** The state `execute` enters before awaiting the call. */
  function Loading<T>(): (s: ApiState<T>)
    ensures Consistent(s) && s.data == None && s.isLoading && s.error == None
  {
    ApiState(None, true, None)
  }

  /** The error recorded for a thrown value: an Error as it is, anything else wrapped. */
  function RecordedError(t: Thrown): Error {
    match t
    case ThrownError(err) => err
    case ThrownValue => Error(FallbackMessage)
  }

  /** The state `execute` leaves: the result and no error, or the recorded error and no data. */
  function Settled<T>(c: Completion<T>): (s: ApiState<T>)
    ensures Consistent(s) && !s.isLoading
    ensures c.Return? ==> s.data == Some(c.value) && s.error == None
    ensures c.Throw? ==> s.data == None && s.error == Some(RecordedError(c.thrown))
  {
    match c
    case Return(v) => ApiState(Some(v), false, None)
    case Throw(t) => ApiState(None, false, Some(RecordedError(t)))
  }

  /** The state of one `useApi` hook. */
  class ApiHook<T> {
    var state: ApiState<T>

    ghost predicate Valid()
      reads this
    {
      Consistent(state)
    }

    constructor ()
      ensures Valid() && state == Idle()
    {
      state := ApiState(None, false, None);
    }

    /** The first step of `execute`, before the call is awaited. */
    method Start()
      modifies this
      ensures Valid() && state == Loading()
    {
      state := ApiState(None, true, None);
    }

    /** The second step of `execute`: record the outcome, then return the result or rethrow the original value. */
    method Finish(outcome: Completion<T>) returns (r: Completion<T>)
      modifies this
      ensures Valid() && state == Settled(outcome)
      ensures r == outcome
    {
      match outcome {
        case Return(v) =>
          state := ApiState(Some(v), false, None);
        case Throw(t) =>
          state := ApiState(None, false, Some(RecordedError(t)));
      }
      r := outcome;
    }

    /** `execute`. */
    method Execute(outcome: Completion<T>) returns (r: Completion<T>)
      modifies this
      ensures Valid() && state == Settled(outcome)
      ensures r == outcome
    {
      Start();
      r := Finish(outcome);
    }

    /** `reset`. */
    method Reset()
      modifies this
      ensures Valid() && state == Idle()
    {
      state := ApiState(None, false, None);
    }
  }

  /** A request parameter value. */
  datatype Param = Num(n: int) | Str(s: string)

  type Params = map<string, Param>

  /** The arguments an admin screen passes to `loadItems`. */
  datatype LoadCall = LoadCall(page: int, size: int, additional: Params)

  /**
   * What the list endpoint answered: an array; an object with an `items`
   * array; a truthy value that is not an object (a number, a non-empty
   * string, `true`), on which the `'items' in` test throws; or anything else
   * (a falsy value, or an object without an `items` array).
   */
  datatype Response<T> =
    | ArrayData(items: seq<T>)
    | PagedData(items: seq<T>, total: Option<int>)
    | TruthyPrimitive
    | OtherData

  /**
   * The parameters `loadItems` sends: the stored ones, overridden by the
   * additional ones, overridden by page and pageSize.
   */
  function LoadParams(params: Params, additional: Params, page: int, size: int): (r: Params)
    ensures "page" in r && r["page"] == Num(page)
    ensures "pageSize" in r && r["pageSize"] == Num(size)
    ensures forall k :: k in r <==> k in params || k in additional || k == "page" || k == "pageSize"
    ensures forall k :: k in additional && k != "page" && k != "pageSize" ==> r[k] == additional[k]
    ensures forall k :: k in params && k !in additional && k != "page" && k != "pageSize" ==> r[k] == params[k]
  {
    params + additional + map["page" := Num(page), "pageSize" := Num(size)]
  }

  /** The parameters a screen's `loadItems(page, size, extra)` call sends. */
  function CallParams(params: Params, call: LoadCall): Params {
    LoadParams(params, call.additional, call.page, call.size)
  }

  /** The reload the admin tables ask for when a search or a filter changes: page 1 of size 10 with one parameter. */
  function ReloadCall(key: string, value: string): LoadCall {
    LoadCall(1, 10, map[key := Str(value)])
  }

  /**
   * A reload sends page 1 of size 10 and the new value, and keeps every other
   * stored parameter; nothing else is sent.
   */
  lemma ReloadParams(params: Params, key: string, value: string)
    requires key != "page" && key != "pageSize"
    ensures var sent := CallParams(params, ReloadCall(key, value));
      sent["page"] == Num(1) && sent["pageSize"] == Num(10) && key in sent && sent[key] == Str(value)
      && (forall k :: k in params && k != key && k != "page" && k != "pageSize" ==> k in sent && sent[k] == params[k])
      && (forall k :: k in sent ==> k in params || k == key || k == "page" || k == "pageSize")
  {
  }

  /** A later reload without extra parameters repeats the filters of the previous one. */
  lemma ReloadKeepsFilters(params: Params, additional: Params, page: int, size: int,
                           page2: int, size2: int, k: string)
    requires k in additional && k != "page" && k != "pageSize"
    ensures k in LoadParams(LoadParams(params, additional, page, size), map[], page2, size2)
    ensures LoadParams(LoadParams(params, additional, page, size), map[], page2, size2)[k] == additional[k]
  {
  }

  /** `total || items.length`: a missing or zero total falls back to the item count. */
  function ReportedTotal<T>(items: seq<T>, total: Option<int>): int {
    if total.Some? && total.value != 0 then total.value else |items|
  }

  /** The items and total after a successful load; an unrecognised answer changes neither. */
  function ApplyResponse<T>(items: seq<T>, totalItems: int, data: Response<T>): (seq<T>, int) {
    match data
    case ArrayData(xs) => (xs, |xs|)
    case PagedData(xs, total) => (xs, ReportedTotal(xs, total))
    case _ => (items, totalItems)
  }

  /**
   * The total counts the shown items: a list whose total agreed with its
   * items still agrees after a load, unless and only unless the server
   * reported a non-zero total that differs from the number of items it sent.
   */
  lemma TotalCountsItems<T>(items: seq<T>, totalItems: int, data: Response<T>)
    requires totalItems == |items|
    ensures var r := ApplyResponse(items, totalItems, data);
      r.1 == |r.0| <==> !(data.PagedData? && data.total.Some? && data.total.value != 0
                         && data.total.value != |data.items|)
  {
  }

  /** A recognised answer replaces the items wholesale; any other answer keeps items and total. */
  lemma ResponseReplacesItems<T>(items: seq<T>, totalItems: int, data: Response<T>)
    ensures data.ArrayData? || data.PagedData? ==> ApplyResponse(items, totalItems, data).0 == data.items
    ensures !data.ArrayData? && !data.PagedData? ==> ApplyResponse(items, totalItems, data) == (items, totalItems)
  {
  }

  /** The state of one `useApiList` hook. */
  class ApiList<T> {
    var items: seq<T>
    var params: Params
    var totalItems: int
    var currentPage: int
    var pageSize: int
    const api: ApiHook<Response<T>>

    ghost predicate Valid()
      reads this, api
    {
      api.Valid()
    }

    constructor (initialParams: Params)
      ensures Valid() && fresh(api) && api.state == Idle()
      ensures items == [] && params == initialParams && totalItems == 0
      ensures currentPage == 1 && pageSize == 10
    {
      items, params, totalItems := [], initialParams, 0;
      currentPage, pageSize := 1, 10;
      api := new ApiHook();
    }

    /**
     * `loadItems(page, size, additionalParams)`; an omitted page or size
     * (None) defaults to the current one. The parameters are stored before
     * the call, so they change even when it fails. A failure returns an empty
     * array and leaves items and totalItems as they were; so does a truthy
     * non-object answer, whose `'items' in` test throws into the same catch
     * after the request itself succeeded.
     */
    method LoadItems(page: Option<int>, size: Option<int>, additional: Params,
                     outcome: Completion<Response<T>>) returns (r: Response<T>)
      requires Valid()
      modifies this, api
      ensures Valid() && api.state == Settled(outcome)
      ensures params == LoadParams(old(params), additional, page.GetOr(old(currentPage)), size.GetOr(old(pageSize)))
      ensures outcome.Return? && !outcome.value.TruthyPrimitive? ==> r == outcome.value
      ensures outcome.Return? && outcome.value.TruthyPrimitive? ==> r == ArrayData([])
      ensures outcome.Return? ==> (items, totalItems) == ApplyResponse(old(items), old(totalItems), outcome.value)
      ensures outcome.Throw? ==> r == ArrayData([]) && items == old(items) && totalItems == old(totalItems)
      ensures currentPage == old(currentPage) && pageSize == old(pageSize)
    {
      var newParams := LoadParams(params, additional, page.GetOr(currentPage), size.GetOr(pageSize));
      params := newParams;
      var result := api.Execute(outcome);
      match result
      case Return(data) =>
        r := data;
        match data {
          case ArrayData(xs) =>
            items, totalItems := xs, |xs|;
          case PagedData(xs, total) =>
            items, totalItems := xs, ReportedTotal(xs, total);
          case TruthyPrimitive =>
            r := ArrayData([]);
          case OtherData =>
        }
      case Throw(_) =>
        r := ArrayData([]);
    }

    /** `refresh`: reload with the current page, size and stored parameters. */
    method Refresh(outcome: Completion<Response<T>>) returns (r: Response<T>)
      requires Valid()
      modifies this, api
      ensures Valid() && api.state == Settled(outcome)
      ensures params == LoadParams(old(params), map[], old(currentPage), old(pageSize))
      ensures currentPage == old(currentPage) && pageSize == old(pageSize)
      ensures outcome.Return? ==> (items, totalItems) == ApplyResponse(old(items), old(totalItems), outcome.value)
      ensures outcome.Return? && !outcome.value.TruthyPrimitive? ==> r == outcome.value
      ensures outcome.Throw? || outcome.value.TruthyPrimitive? ==> r == ArrayData([])
      ensures outcome.Throw? ==> items == old(items) && totalItems == old(totalItems)
    {
      r := LoadItems(None, None, map[], outcome);
    }

    /** `changePage`. */
    method ChangePage(page: int, outcome: Completion<Response<T>>) returns (r: Response<T>)
      requires Valid()
      modifies this, api
      ensures Valid() && currentPage == page && pageSize == old(pageSize)
      ensures params == LoadParams(old(params), map[], page, old(pageSize))
      ensures outcome.Return? ==> (items, totalItems) == ApplyResponse(old(items), old(totalItems), outcome.value)
      ensures outcome.Throw? ==> items == old(items) && totalItems == old(totalItems)
    {
      currentPage := page;
      r := LoadItems(Some(page), Some(pageSize), map[], outcome);
    }

    /** `changePageSize`: a new page size always starts again from page 1. */
    method ChangePageSize(size: int, outcome: Completion<Response<T>>) returns (r: Response<T>)
      requires Valid()
      modifies this, api
      ensures Valid() && pageSize == size && currentPage == 1
      ensures params == LoadParams(old(params), map[], 1, size)
      ensures outcome.Return? ==> (items, totalItems) == ApplyResponse(old(items), old(totalItems), outcome.value)
      ensures outcome.Throw? ==> items == old(items) && totalItems == old(totalItems)
    {
      pageSize := size;
      currentPage := 1;
      r := LoadItems(Some(1), Some(size), map[], outcome);
    }
  }
}
