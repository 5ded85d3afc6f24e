/**
 * The transaction service: `Transaction` objects, the service that
 * bootstraps its account identifiers, the lazy stream of transactions over
 * a date range, and the enrichment of one transaction with its merchant
 * order identifier.
 *
 * The injected `fetcher`, wrapped by the rate limiter, is a `Fetcher`: a
 * deterministic test double that answers from fixed, already decoded
 * responses and records every request it receives. The rate limiter is the
 * identity.
 */
module Transactions {
  import opened Wrappers
  import opened Errors
  import opened Bootstrap
  import opened DateRange
  import Pagination

  /** One decoded item of a transactions page. */
  datatype RawItem = RawItem(
    id: string,
    amount: int,
    postDate: EpochDay,
    merchantDbaName: string,
    merchantOrderIdentifier: Option<string>)

  /** The fields of a `Transaction` object, as a value. */
  datatype Record = Record(
    id: string,
    amount: int,
    postDate: EpochDay,
    merchantDbaName: string,
    merchantOrderIdentifier: Option<string>)

  /** JavaScript truthiness of a string that may be `undefined`: `undefined` and "" are falsy. */
  predicate IsTruthy(s: Option<string>) {
    s.Some? && s.value != ""
  }

  /** The fields of the `Transaction` that `fetchTransactions` builds from `item`. */
  function RecordOf(item: RawItem): Record {
    Record(item.id, item.amount, item.postDate, item.merchantDbaName,
           if IsTruthy(item.merchantOrderIdentifier) then item.merchantOrderIdentifier else None)
  }

  /**
   * Building a transaction from a raw item keeps the four plain fields and
   * keeps the merchant order identifier only when it is a non-empty string.
   */
  lemma RecordOfKeepsFields(item: RawItem)
    ensures RecordOf(item).id == item.id && RecordOf(item).amount == item.amount
    ensures RecordOf(item).postDate == item.postDate
    ensures RecordOf(item).merchantDbaName == item.merchantDbaName
    ensures RecordOf(item).merchantOrderIdentifier.Some? <==>
              item.merchantOrderIdentifier.Some? && item.merchantOrderIdentifier.value != ""
    ensures RecordOf(item).merchantOrderIdentifier.Some? ==>
              RecordOf(item).merchantOrderIdentifier == item.merchantOrderIdentifier
  {
  }

  /** The merchant order identifier the details response gives for transaction `id`. */
  function DetailsOf(details: map<string, Option<string>>, id: string): Option<string> {
    if id in details then details[id] else None
  }

  class Transaction {
    var id: string
    var amount: int  // positive for charges, negative for credits
    var postDate: EpochDay
    var merchantDbaName: string
    var merchantOrderIdentifier: Option<string>

    function View(): Record
      reads this
    {
      Record(id, amount, postDate, merchantDbaName, merchantOrderIdentifier)
    }

    /** Copies the four plain fields; keeps `merchantOrderIdentifier` only when it is truthy. */
    constructor (id: string, amount: int, postDate: EpochDay, merchantDbaName: string,
                 merchantOrderIdentifier: Option<string>)
      ensures this.id == id && this.amount == amount && this.postDate == postDate
      ensures this.merchantDbaName == merchantDbaName
      ensures IsTruthy(merchantOrderIdentifier) ==> this.merchantOrderIdentifier == merchantOrderIdentifier
      ensures !IsTruthy(merchantOrderIdentifier) ==> this.merchantOrderIdentifier == None
    {
      this.id := id;
      this.amount := amount;
      this.postDate := postDate;
      this.merchantDbaName := merchantDbaName;
      if IsTruthy(merchantOrderIdentifier) {
        this.merchantOrderIdentifier := merchantOrderIdentifier;
      } else {
        this.merchantOrderIdentifier := None;
      }
    }
  }

  /** One request the service makes. */
  datatype Call =
    | BootstrapCall
    | PageCall(startDate: EpochDay, endDate: EpochDay, page: int)
    | DetailsCall(id: string)

  /** The page requests for the given page numbers, in order. */
  function PageCalls(startDate: EpochDay, endDate: EpochDay, pageNumbers: seq<int>): (r: seq<Call>)
    ensures |r| == |pageNumbers|
    ensures forall i :: 0 <= i < |r| ==> r[i] == PageCall(startDate, endDate, pageNumbers[i])
  {
    if pageNumbers == [] then []
    else [PageCall(startDate, endDate, pageNumbers[0])] + PageCalls(startDate, endDate, pageNumbers[1..])
  }

  /**
   * The injected fetcher behind the rate limiter, as a test double: fixed
   * decoded responses, and the log of every request received. Its pages do
   * not depend on the date range; pages past the end of `pages` are empty.
   */
  class Fetcher {
    const bootstrap: BootstrapResponse
    const pages: seq<seq<RawItem>>
    const details: map<string, Option<string>>
    var calls: seq<Call>

    constructor (bootstrap: BootstrapResponse, pages: seq<seq<RawItem>>, details: map<string, Option<string>>)
      ensures this.bootstrap == bootstrap && this.pages == pages && this.details == details
      ensures calls == []
    {
      this.bootstrap := bootstrap;
      this.pages := pages;
      this.details := details;
      calls := [];
    }

    method FetchBootstrap() returns (resp: BootstrapResponse)
      modifies this
      ensures resp == bootstrap
      ensures calls == old(calls) + [BootstrapCall]
    {
      resp := bootstrap;
      calls := calls + [BootstrapCall];
    }

    method FetchPage(startDate: EpochDay, endDate: EpochDay, page: int) returns (items: seq<RawItem>)
      modifies this
      ensures items == Pagination.PageAt(pages, page)
      ensures calls == old(calls) + [PageCall(startDate, endDate, page)]
    {
      items := Pagination.PageAt(pages, page);
      calls := calls + [PageCall(startDate, endDate, page)];
    }

    method FetchDetails(id: string) returns (merchantOrderIdentifier: Option<string>)
      modifies this
      ensures merchantOrderIdentifier == DetailsOf(details, id)
      ensures calls == old(calls) + [DetailsCall(id)]
    {
      merchantOrderIdentifier := DetailsOf(details, id);
      calls := calls + [DetailsCall(id)];
    }
  }

  /** The `data.map(...)` of `fetchTransactions`: one new `Transaction` per item, in order. */
  method ToTransactions(items: seq<RawItem>) returns (ts: seq<Transaction>)
    ensures |ts| == |items|
    ensures forall i :: 0 <= i < |ts| ==> fresh(ts[i]) && ts[i].View() == RecordOf(items[i])
    ensures forall i, j :: 0 <= i < j < |ts| ==> ts[i] != ts[j]
  {
    ts := [];
    for i := 0 to |items|
      invariant |ts| == i
      invariant forall k :: 0 <= k < i ==> fresh(ts[k]) && ts[k].View() == RecordOf(items[k])
      invariant forall k, l :: 0 <= k < l < i ==> ts[k] != ts[l]
    {
      var item := items[i];
      var t := new Transaction(item.id, item.amount, item.postDate, item.merchantDbaName,
                               item.merchantOrderIdentifier);
      ts := ts + [t];
    }
  }

  /**
   * What the first step of a transaction stream throws, if anything: the
   * bootstrap error when the service still has to initialize, otherwise the
   * first failing date check.
   */
  function StartOutcome(initialized: bool, resp: BootstrapResponse,
                        startDate: EpochDay, endDate: EpochDay, today: EpochDay): (r: Outcome<Error>)
    // the step passes only when the bootstrap, if it runs, and both date checks pass
    ensures r == Pass <==> (initialized || Parse(resp).Ok?) && CheckRange(startDate, endDate, today) == Pass
    // a failing bootstrap is thrown ahead of any date error
    ensures !initialized && Parse(resp).Err? ==> r == Fail(Parse(resp).error)
    // an initialized service, or a bootstrap that succeeds, leaves only the date checks
    ensures initialized || Parse(resp).Ok? ==> r == CheckRange(startDate, endDate, today)
  {
    if !initialized && Parse(resp).Err? then Fail(Parse(resp).error)
    else CheckRange(startDate, endDate, today)
  }

  class TransactionService {
    var defaultAccountId: int
    var profileId: int
    var initialized: bool
    const fetcher: Fetcher

    constructor (fetcher: Fetcher)
      ensures this.fetcher == fetcher && !initialized
    {
      this.fetcher := fetcher;
      defaultAccountId, profileId := 0, 0;
      initialized := false;
    }

    /** A new service that has run its bootstrap; its error, if the bootstrap fails. */
    static method Create(fetcher: Fetcher) returns (r: Result<TransactionService, Error>)
      modifies fetcher
      ensures fetcher.calls == old(fetcher.calls) + [BootstrapCall]
      ensures r.Ok? <==> Parse(fetcher.bootstrap).Ok?
      ensures r.Ok? ==> fresh(r.value) && r.value.fetcher == fetcher && r.value.initialized
      ensures r.Ok? ==> r.value.defaultAccountId == FirstEntryAccountId(fetcher.bootstrap).value
      ensures r.Ok? ==> r.value.profileId == fetcher.bootstrap.profileId.value
      ensures r.Err? ==> r.error == Parse(fetcher.bootstrap).error
    {
      var service := new TransactionService(fetcher);
      var o := service.Initialize();
      if o.Fail? {
        return Err(o.error);
      }
      return Ok(service);
    }

    /**
     * One bootstrap request; stores entry 0's default account id and the
     * profile id and marks the service initialized, or throws and changes
     * none of the three.
     */
    method Initialize() returns (o: Outcome<Error>)
      modifies this, fetcher
      ensures fetcher.calls == old(fetcher.calls) + [BootstrapCall]
      ensures o == Fail(MissingDefaultAccountId) <==> !Truthy(FirstEntryAccountId(fetcher.bootstrap))
      ensures o == Fail(MissingProfileId) <==>
                Truthy(FirstEntryAccountId(fetcher.bootstrap)) && !Truthy(fetcher.bootstrap.profileId)
      ensures o.Pass? || o == Fail(MissingDefaultAccountId) || o == Fail(MissingProfileId)
      ensures o.Pass? ==> initialized
      ensures o.Pass? ==> defaultAccountId == FirstEntryAccountId(fetcher.bootstrap).value
      ensures o.Pass? ==> profileId == fetcher.bootstrap.profileId.value
      ensures o.Fail? ==> initialized == old(initialized)
      ensures o.Fail? ==> defaultAccountId == old(defaultAccountId) && profileId == old(profileId)
      ensures o.Fail? ==> unchanged(this)
    {
      var resp := fetcher.FetchBootstrap();
      match Parse(resp)
      case Err(e) =>
        o := Fail(e);
      case Ok(ids) =>
        defaultAccountId := ids.defaultAccountId;
        profileId := ids.profileId;
        initialized := true;
        o := Pass;
    }

    /**
     * The page `page` of the range, as new transactions; bootstraps first
     * when the service is not initialized.
     */
    method FetchTransactions(startDate: EpochDay, endDate: EpochDay, page: int)
      returns (r: Result<seq<Transaction>, Error>)
      modifies this, fetcher
      ensures old(initialized) ==> r.Ok? && unchanged(this)
      ensures old(initialized) ==> fetcher.calls == old(fetcher.calls) + [PageCall(startDate, endDate, page)]
      ensures !old(initialized) ==> (r.Ok? <==> Parse(fetcher.bootstrap).Ok?)
      ensures !old(initialized) && r.Ok? ==>
                fetcher.calls == old(fetcher.calls) + [BootstrapCall, PageCall(startDate, endDate, page)]
      ensures r.Err? ==> r.error == Parse(fetcher.bootstrap).error
      ensures r.Err? ==> fetcher.calls == old(fetcher.calls) + [BootstrapCall] && unchanged(this)
      ensures r.Ok? ==> initialized
      ensures !old(initialized) && r.Ok? ==>
                defaultAccountId == FirstEntryAccountId(fetcher.bootstrap).value &&
                profileId == fetcher.bootstrap.profileId.value
      ensures r.Ok? ==> |r.value| == |Pagination.PageAt(fetcher.pages, page)|
      ensures r.Ok? ==> forall i :: 0 <= i < |r.value| ==>
                fresh(r.value[i]) && r.value[i].View() == RecordOf(Pagination.PageAt(fetcher.pages, page)[i])
      ensures r.Ok? ==> forall i, j :: 0 <= i < j < |r.value| ==> r.value[i] != r.value[j]
    {
      if !initialized {
        var o := Initialize();
        if o.Fail? {
          return Err(o.error);
        }
      }
      var items := fetcher.FetchPage(startDate, endDate, page);
      var ts := ToTransactions(items);
      return Ok(ts);
    }

    /**
     * A lazy stream of the transactions from `startDate` to `endDate`
     * (today, `now`, when it is not given). Nothing runs until its first step.
     */
    method GetTransactions(startDate: EpochDay, endDate: Option<EpochDay>, now: EpochDay)
      returns (s: TransactionStream)
      ensures fresh(s) && s.service == this
      ensures s.startDate == startDate && s.endDate == endDate.GetOr(now)
      ensures s.Valid() && s.phase == NotStarted && s.Repr == {}
    {
      s := new TransactionStream(this, startDate, endDate.GetOr(now));
    }

    /**
     * Sets the transaction's merchant order identifier from its details
     * response, even when the response has none; throws when the service is
     * not initialized. Nothing else changes.
     */
    method AddTransactionDetails(t: Transaction) returns (o: Outcome<Error>)
      modifies t, fetcher
      ensures o.Fail? <==> !initialized
      ensures o.Fail? ==> o.error == NotInitialized && unchanged(t) && fetcher.calls == old(fetcher.calls)
      ensures o.Pass? ==> fetcher.calls == old(fetcher.calls) + [DetailsCall(old(t.id))]
      ensures o.Pass? ==> t.View() == old(t.View()).(merchantOrderIdentifier := DetailsOf(fetcher.details, old(t.id)))
    {
      if !initialized {
        return Fail(NotInitialized);
      }
      var orderId := fetcher.FetchDetails(t.id);
      t.merchantOrderIdentifier := orderId;
      return Pass;
    }
  }

  /**
   * A stream in the middle of page `page` of `pages`: pages `1..page` were
   * requested, `items` is that page, and what was yielded so far, then the
   * rest of the page from `from` on, then the later pages, is the whole run.
   */
  ghost predicate OnPage(pages: seq<seq<RawItem>>, page: int, requested: seq<int>,
                         items: seq<RawItem>, from: nat, yielded: seq<RawItem>)
  {
    && 1 <= page < Pagination.StopPage(pages, 1)
    && requested == Pagination.Range(1, page + 1)
    && items == Pagination.PageAt(pages, page)
    && from <= |items|
    && yielded + items[from..] + Pagination.Yielded(pages, page + 1) == Pagination.Yielded(pages, 1)
  }

  /**
   * The transactions `ts` built from `items`, of which those from `from` on
   * are still to be yielded: these are distinct, all in `repr`, and each is
   * built from its item.
   */
  ghost predicate Pending(ts: seq<Transaction>, from: nat, items: seq<RawItem>, repr: set<Transaction>)
    reads repr
  {
    && |ts| == |items| && from <= |ts|
    && (forall i :: from <= i < |ts| ==> ts[i] in repr)
    && (forall i, j :: from <= i < j < |ts| ==> ts[i] != ts[j])
    && (forall i :: from <= i < |ts| ==> ts[i].View() == RecordOf(items[i]))
  }

  /** Yielding item `from` of the current page moves the stream one item on in the whole run. */
  lemma Advance(pages: seq<seq<RawItem>>, page: int, requested: seq<int>,
                items: seq<RawItem>, from: nat, yielded: seq<RawItem>)
    requires OnPage(pages, page, requested, items, from, yielded) && from < |items|
    ensures OnPage(pages, page, requested, items, from + 1, yielded + [items[from]])
    ensures |yielded| < |Pagination.Yielded(pages, 1)| && Pagination.Yielded(pages, 1)[|yielded|] == items[from]
  {
    var rest := Pagination.Yielded(pages, page + 1);
    assert items[from..] == [items[from]] + items[from + 1..];
    assert yielded + [items[from]] + items[from + 1..] + rest == Pagination.Yielded(pages, 1);
  }

  /** Yielding transaction `from` takes it out of `repr` and leaves the rest pending. */
  lemma PendingAdvance(ts: seq<Transaction>, from: nat, items: seq<RawItem>, repr: set<Transaction>)
    requires Pending(ts, from, items, repr) && from < |ts|
    ensures ts[from] in repr && Pending(ts, from + 1, items, repr - {ts[from]})
  {
  }

  /**
   * Reaching a non-empty page the loop gets to: the page is requested, and
   * the stream moves onto it with its first item yielded as the next item
   * of the whole run.
   */
  lemma EnterPage(pages: seq<seq<RawItem>>, page: int, requested: seq<int>, yielded: seq<RawItem>)
    requires 1 <= page <= Pagination.StopPage(pages, 1)
    requires requested == Pagination.Range(1, page)
    requires yielded + Pagination.Yielded(pages, page) == Pagination.Yielded(pages, 1)
    requires Pagination.PageAt(pages, page) != []
    ensures OnPage(pages, page, requested + [page], Pagination.PageAt(pages, page), 1,
                   yielded + [Pagination.PageAt(pages, page)[0]])
    ensures |yielded| < |Pagination.Yielded(pages, 1)|
    ensures Pagination.Yielded(pages, 1)[|yielded|] == Pagination.PageAt(pages, page)[0]
  {
    OpenPage(pages, page, requested, yielded);
    Advance(pages, page, requested + [page], Pagination.PageAt(pages, page), 0, yielded);
  }

  /** A non-empty page the loop gets to, once requested, has nothing of it yielded yet. */
  lemma OpenPage(pages: seq<seq<RawItem>>, page: int, requested: seq<int>, yielded: seq<RawItem>)
    requires 1 <= page <= Pagination.StopPage(pages, 1)
    requires requested == Pagination.Range(1, page)
    requires yielded + Pagination.Yielded(pages, page) == Pagination.Yielded(pages, 1)
    requires Pagination.PageAt(pages, page) != []
    ensures OnPage(pages, page, requested + [page], Pagination.PageAt(pages, page), 0, yielded)
  {
    var items := Pagination.PageAt(pages, page);
    var rest := Pagination.Yielded(pages, page + 1);
    assert requested + [page] == Pagination.Range(1, page + 1) by {
      Pagination.RangeSnoc(1, page);
    }
    assert page < Pagination.StopPage(pages, 1) && Pagination.Yielded(pages, page) == items + rest by {
      Pagination.Turn(pages, page);
    }
    assert items[0..] == items;
    assert yielded + items[0..] + rest == yielded + (items + rest);
  }

  /**
   * Reaching an empty page the loop gets to: once it is requested, the whole
   * run has been yielded and exactly its requests made.
   */
  lemma LeavePage(pages: seq<seq<RawItem>>, page: int, requested: seq<int>, yielded: seq<RawItem>)
    requires 1 <= page <= Pagination.StopPage(pages, 1)
    requires requested == Pagination.Range(1, page)
    requires yielded + Pagination.Yielded(pages, page) == Pagination.Yielded(pages, 1)
    requires Pagination.PageAt(pages, page) == []
    ensures yielded == Pagination.Yielded(pages, 1)
    ensures requested + [page] == Pagination.Requested(pages, 1)
  {
    Pagination.RangeSnoc(1, page);
    Pagination.Turn(pages, page);
  }

  /** The new transactions of a page, once the first is yielded: the others are pending. */
  lemma PendingStart(ts: seq<Transaction>, items: seq<RawItem>)
    requires 0 < |ts| == |items|
    requires forall i :: 0 <= i < |ts| ==> ts[i].View() == RecordOf(items[i])
    requires forall i, j :: 0 <= i < j < |ts| ==> ts[i] != ts[j]
    ensures Pending(ts, 1, items, (set t | t in ts) - {ts[0]})
  {
    PendingAdvance(ts, 0, items, set t | t in ts);
  }

  /** Where a stream is: before its first step, between pages, or done (after its end or a throw). */
  datatype Phase = NotStarted | Paging | Finished

  /** The outcome of one step: a transaction, the end, or a throw. */
  datatype Step = Yield(t: Transaction) | Done | Threw(error: Error)

  /**
   * The async generator returned by `getTransactions`. Each `Next` runs it
   * up to its next `yield`: the first one bootstraps if needed and checks the
   * dates; a step that has used up the current page requests the next one.
   */
  class TransactionStream {
    const service: TransactionService
    const startDate: EpochDay
    const endDate: EpochDay
    var phase: Phase
    var page: int                       // the page `current` came from
    var current: seq<Transaction>       // the transactions of that page
    var index: nat                      // how many of them were yielded
    ghost var currentItems: seq<RawItem>  // the raw items behind `current`
    ghost var yielded: seq<RawItem>     // the raw items behind every transaction yielded so far
    ghost var requested: seq<int>       // the page numbers requested so far
    ghost var Repr: set<Transaction>    // the transactions of `current` not yet yielded

    /** The pages the fetcher serves. */
    function Pages(): seq<seq<RawItem>> {
      service.fetcher.pages
    }

    /** Every item the stream yields when it runs to its end. */
    function AllItems(): seq<RawItem> {
      Pagination.Yielded(Pages(), 1)
    }

    /** Whatever a valid stream has yielded so far is the start of everything it yields. */
    lemma YieldedIsPrefix()
      requires Valid()
      ensures yielded <= AllItems()
    {
    }

    ghost predicate Valid()
      reads this, service, Repr
    {
      && (phase == NotStarted ==> yielded == [] && requested == [])
      && (phase == Paging ==>
            && service.initialized
            && OnPage(Pages(), page, requested, currentItems, index, yielded)
            && Pending(current, index, currentItems, Repr))
      && (phase == Finished ==>
            || (yielded == AllItems() && requested == Pagination.Requested(Pages(), 1))
            || (yielded == [] && requested == []))
    }

    constructor (service: TransactionService, startDate: EpochDay, endDate: EpochDay)
      ensures this.service == service && this.startDate == startDate && this.endDate == endDate
      ensures Valid() && phase == NotStarted && Repr == {}
    {
      this.service := service;
      this.startDate := startDate;
      this.endDate := endDate;
      phase := NotStarted;
      page := 0;
      current := [];
      index := 0;
      currentItems := [];
      yielded := [];
      requested := [];
      Repr := {};
    }

    /**
     * Runs the generator to its next `yield`, its end or a throw. `today` is
     * the date the first step reads from the clock.
     */
    method Next(today: EpochDay) returns (r: Step)
      requires Valid()
      modifies this, service, service.fetcher
      ensures Valid()
      // the bootstrap runs only in the first step, and only for a service not yet initialized
      ensures old(requested) <= requested && |requested| <= |old(requested)| + 1
      ensures service.fetcher.calls ==
                old(service.fetcher.calls)
                + (if old(phase) == NotStarted && !old(service.initialized) then [BootstrapCall] else [])
                + PageCalls(startDate, endDate, requested[|old(requested)|..])
      ensures old(service.initialized) || old(phase) != NotStarted ==> unchanged(service)
      // the bootstrap of the first step stores both identifiers, or changes nothing when it throws
      ensures old(phase) == NotStarted && !old(service.initialized) && Parse(service.fetcher.bootstrap).Ok? ==>
                && service.initialized
                && service.defaultAccountId == FirstEntryAccountId(service.fetcher.bootstrap).value
                && service.profileId == service.fetcher.bootstrap.profileId.value
      ensures old(phase) == NotStarted && !old(service.initialized) && Parse(service.fetcher.bootstrap).Err? ==>
                unchanged(service)
      // every transaction yielded is a new object that the stream no longer holds
      ensures fresh(Repr - old(Repr))
      ensures r.Yield? ==> r.t !in Repr && (r.t in old(Repr) || fresh(r.t))
      // a throw comes only from the first step, and before any page is requested
      ensures r.Threw? ==> old(phase) == NotStarted && phase == Finished && requested == []
      ensures old(phase) == NotStarted ==>
                (r.Threw? <==> StartOutcome(old(service.initialized), service.fetcher.bootstrap,
                                            startDate, endDate, today).Fail?)
      ensures r.Threw? ==>
                r.error == StartOutcome(old(service.initialized), service.fetcher.bootstrap,
                                        startDate, endDate, today).error
      // every yield is the next item of the whole run, as a transaction built from it
      ensures r.Yield? ==> |old(yielded)| < |AllItems()|
      ensures r.Yield? ==> yielded == old(yielded) + [AllItems()[|old(yielded)|]]
      ensures r.Yield? ==> r.t.View() == RecordOf(AllItems()[|old(yielded)|])
      ensures !r.Yield? ==> yielded == old(yielded)
      ensures r.Done? ==> phase == Finished
      ensures r.Done? && old(phase) != Finished ==>
                yielded == AllItems() && requested == Pagination.Requested(Pages(), 1)
      ensures old(phase) == Finished ==> r.Done? && unchanged(this) && unchanged(service.fetcher)
      ensures old(phase) != NotStarted ==> !r.Threw?
      ensures phase != NotStarted
    {
      match phase
      case Finished =>
        r := Done;
      case NotStarted =>
        r := Start(today);
      case Paging =>
        r := Resume();
    }

    /**
     * The first step: bootstraps the service if it is not initialized, checks
     * the dates against `today`, and only then requests page 1.
     */
    method Start(today: EpochDay) returns (r: Step)
      requires Valid() && phase == NotStarted
      modifies this, service, service.fetcher
      ensures Valid() && phase != NotStarted
      ensures old(service.initialized) ==> unchanged(service)
      ensures !old(service.initialized) && Parse(service.fetcher.bootstrap).Ok? ==>
                && service.initialized
                && service.defaultAccountId == FirstEntryAccountId(service.fetcher.bootstrap).value
                && service.profileId == service.fetcher.bootstrap.profileId.value
      ensures !old(service.initialized) && Parse(service.fetcher.bootstrap).Err? ==> unchanged(service)
      ensures fresh(Repr - old(Repr))
      ensures r.Yield? ==> r.t !in Repr && fresh(r.t)
      ensures
        var outcome := StartOutcome(old(service.initialized), service.fetcher.bootstrap, startDate, endDate, today);
        && (r.Threw? <==> outcome.Fail?)
        && (r.Threw? ==> r.error == outcome.error && phase == Finished && requested == [] && yielded == [])
      ensures
        var boot := if old(service.initialized) then [] else [BootstrapCall];
        && (r.Threw? ==> service.fetcher.calls == old(service.fetcher.calls) + boot)
        && (!r.Threw? ==> requested == [1])
        && (!r.Threw? ==> service.fetcher.calls == old(service.fetcher.calls) + boot + [PageCall(startDate, endDate, 1)])
      ensures r.Yield? ==> |AllItems()| > 0 && yielded == [AllItems()[0]] && r.t.View() == RecordOf(AllItems()[0])
      ensures r.Done? ==> phase == Finished && yielded == AllItems() == [] && requested == Pagination.Requested(Pages(), 1)
    {
      if !service.initialized {
        var o := service.Initialize();
        if o.Fail? {
          phase := Finished;
          return Threw(o.error);
        }
      }
      var check := CheckRange(startDate, endDate, today);
      if check.Fail? {
        phase := Finished;
        return Threw(check.error);
      }
      page := 1;
      r := FetchAndStep();
    }

    /**
     * A later step: yields the next transaction of the current page, or, once
     * the page is used up, requests the next page.
     */
    method Resume() returns (r: Step)
      requires Valid() && phase == Paging
      modifies this, service, service.fetcher
      ensures Valid() && phase != NotStarted && unchanged(service)
      ensures requested == old(requested) || requested == old(requested) + [old(page) + 1]
      ensures fresh(Repr - old(Repr))
      ensures r.Yield? ==> r.t !in Repr && (r.t in old(Repr) || fresh(r.t))
      ensures service.fetcher.calls == old(service.fetcher.calls) + PageCalls(startDate, endDate, requested[|old(requested)|..])
      ensures r.Yield? || r.Done?
      ensures r.Yield? ==> |old(yielded)| < |AllItems()|
      ensures r.Yield? ==> yielded == old(yielded) + [AllItems()[|old(yielded)|]]
      ensures r.Yield? ==> r.t.View() == RecordOf(AllItems()[|old(yielded)|])
      ensures r.Done? ==> phase == Finished && yielded == old(yielded) == AllItems()
      ensures r.Done? ==> requested == Pagination.Requested(Pages(), 1)
    {
      if index < |current| {
        r := YieldCurrent();
      } else {
        page := page + 1;
        r := FetchAndStep();
      }
    }

    /** Yields the next transaction of the current page. */
    method YieldCurrent() returns (r: Step)
      requires Valid() && phase == Paging && index < |current|
      modifies this
      ensures Valid() && phase == Paging
      ensures page == old(page) && requested == old(requested)
      ensures |old(yielded)| < |AllItems()|
      ensures r.Yield? && yielded == old(yielded) + [AllItems()[|old(yielded)|]]
      ensures r.t.View() == RecordOf(AllItems()[|old(yielded)|])
      ensures r.t in old(Repr) && Repr == old(Repr) - {r.t}
    {
      Advance(Pages(), page, requested, currentItems, index, yielded);
      PendingAdvance(current, index, currentItems, Repr);
      r := Yield(current[index]);
      Repr := Repr - {current[index]};
      yielded := yielded + [currentItems[index]];
      index := index + 1;
    }

    /**
     * One turn of the pagination loop: requests page `page` and yields its
     * first transaction, or ends the stream when the page is empty.
     */
    method FetchAndStep() returns (r: Step)
      requires service.initialized && 1 <= page
      requires page <= Pagination.StopPage(Pages(), 1)
      requires requested == Pagination.Range(1, page)
      requires yielded + Pagination.Yielded(Pages(), page) == AllItems()
      modifies this, service, service.fetcher
      ensures Valid() && phase != NotStarted
      ensures unchanged(service)
      ensures requested == old(requested) + [old(page)]
      ensures fresh(Repr - old(Repr))
      ensures r.Yield? ==> r.t !in Repr && fresh(r.t)
      ensures service.fetcher.calls == old(service.fetcher.calls) + [PageCall(startDate, endDate, old(page))]
      ensures r.Yield? || r.Done?
      ensures r.Yield? ==> |old(yielded)| < |AllItems()|
      ensures r.Yield? ==> yielded == old(yielded) + [AllItems()[|old(yielded)|]]
      ensures r.Yield? ==> r.t.View() == RecordOf(AllItems()[|old(yielded)|])
      ensures r.Done? ==> phase == Finished && yielded == old(yielded)
      ensures r.Done? ==> yielded == AllItems() && requested == Pagination.Requested(Pages(), 1)
    {
      var res := service.FetchTransactions(startDate, endDate, page);
      r := TakePage(res.value);
    }

    /**
     * What the loop does with `ts`, the transactions of page `page`: ends the
     * stream on an empty page, otherwise makes it the current page and yields
     * its first transaction.
     */
    method TakePage(ts: seq<Transaction>) returns (r: Step)
      requires service.initialized && 1 <= page
      requires page <= Pagination.StopPage(Pages(), 1)
      requires requested == Pagination.Range(1, page)
      requires yielded + Pagination.Yielded(Pages(), page) == AllItems()
      requires |ts| == |Pagination.PageAt(Pages(), page)|
      requires forall i :: 0 <= i < |ts| ==> ts[i].View() == RecordOf(Pagination.PageAt(Pages(), page)[i])
      requires forall i, j :: 0 <= i < j < |ts| ==> ts[i] != ts[j]
      modifies this
      ensures Valid() && phase != NotStarted
      ensures requested == old(requested) + [old(page)]
      ensures Repr <= set t | t in ts
      ensures r.Yield? ==> r.t !in Repr && r.t in ts
      ensures r.Yield? || r.Done?
      ensures r.Yield? ==> |old(yielded)| < |AllItems()|
      ensures r.Yield? ==> yielded == old(yielded) + [AllItems()[|old(yielded)|]]
      ensures r.Yield? ==> r.t.View() == RecordOf(AllItems()[|old(yielded)|])
      ensures r.Done? ==> phase == Finished && yielded == old(yielded)
      ensures r.Done? ==> yielded == AllItems() && requested == Pagination.Requested(Pages(), 1)
    {
      if |ts| == 0 {
        r := LastPage();
      } else {
        r := NextPage(ts);
      }
    }

    /** The loop at an empty page: the page is requested and the stream ends. */
    method LastPage() returns (r: Step)
      requires 1 <= page <= Pagination.StopPage(Pages(), 1)
      requires requested == Pagination.Range(1, page)
      requires yielded + Pagination.Yielded(Pages(), page) == AllItems()
      requires Pagination.PageAt(Pages(), page) == []
      modifies this
      ensures Valid() && phase == Finished && r == Done && Repr == {}
      ensures requested == old(requested) + [old(page)] && yielded == old(yielded)
      ensures yielded == AllItems() && requested == Pagination.Requested(Pages(), 1)
    {
      LeavePage(Pages(), page, requested, yielded);
      requested := requested + [page];
      phase, index, current, currentItems, Repr := Finished, 0, [], [], {};
      r := Done;
    }

    /** The loop at a non-empty page `page` with transactions `ts`: the page is requested and its first transaction yielded. */
    method NextPage(ts: seq<Transaction>) returns (r: Step)
      requires service.initialized && 1 <= page
      requires page <= Pagination.StopPage(Pages(), 1)
      requires requested == Pagination.Range(1, page)
      requires yielded + Pagination.Yielded(Pages(), page) == AllItems()
      requires 0 < |ts| == |Pagination.PageAt(Pages(), page)|
      requires forall i :: 0 <= i < |ts| ==> ts[i].View() == RecordOf(Pagination.PageAt(Pages(), page)[i])
      requires forall i, j :: 0 <= i < j < |ts| ==> ts[i] != ts[j]
      modifies this
      ensures Valid() && phase == Paging
      ensures requested == old(requested) + [old(page)]
      ensures r.Yield? && r.t == ts[0] && Repr == (set t | t in ts) - {ts[0]}
      ensures |old(yielded)| < |AllItems()|
      ensures yielded == old(yielded) + [AllItems()[|old(yielded)|]]
      ensures r.t.View() == RecordOf(AllItems()[|old(yielded)|])
    {
      EnterPage(Pages(), page, requested, yielded);
      PendingStart(ts, Pagination.PageAt(Pages(), page));
      r := BeginPage(ts);
    }

    /** Makes `ts`, the transactions of the non-empty page `page`, the current page and yields its first one. */
    method BeginPage(ts: seq<Transaction>) returns (r: Step)
      requires service.initialized && |ts| > 0 && |Pagination.PageAt(Pages(), page)| > 0
      requires OnPage(Pages(), page, requested + [page], Pagination.PageAt(Pages(), page), 1,
                      yielded + [Pagination.PageAt(Pages(), page)[0]])
      requires Pending(ts, 1, Pagination.PageAt(Pages(), page), (set t | t in ts) - {ts[0]})
      modifies this
      ensures Valid() && phase == Paging
      ensures page == old(page) && requested == old(requested) + [page]
      ensures yielded == old(yielded) + [Pagination.PageAt(Pages(), page)[0]]
      ensures r == Yield(ts[0]) && Repr == (set t | t in ts) - {ts[0]}
    {
      ghost var items := Pagination.PageAt(Pages(), page);
      requested := requested + [page];
      phase, index, current, currentItems := Paging, 1, ts, items;
      yielded, Repr := yielded + [items[0]], (set t | t in ts) - {ts[0]};
      r := Yield(ts[0]);
    }
  }
}
