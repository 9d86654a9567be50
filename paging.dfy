/** The paginated lists (pets.facade.ts and tutores.facade.ts, which are the
    same code over a different item type and error text): a query, the page
    the API answers with, the one state record each facade publishes, the
    request parameters built from a query, and the facade object itself with
    its cancel-the-previous-fetch rule. */
module Paging {
  import opened Common

  /** `PetQuery` / `TutorQuery`: every field may be absent. */
  datatype Query = Query(nome: Option<string>, page: Option<int>, size: Option<int>)

  /** `PetResponse` / `TutorResponse`. */
  datatype Page<T> = Page(page: int, size: int, total: int, pageCount: int, content: seq<T>)

  /** `PetsState` / `TutoresState`; `items` is `pets` or `tutores`. */
  datatype ListState<T> = ListState(
    items: seq<T>,
    loading: bool,
    error: Option<string>,
    query: Query,
    total: int,
    pageCount: int,
    currentPage: int,
    pageSize: int)

  const DefaultPage := 0
  const DefaultSize := 10

  /** `INITIAL_STATE`. */
  function InitialState<T>(): (s: ListState<T>)
    ensures s.items == [] && !s.loading && s.error.None?
    ensures s.query == Query(None, Some(DefaultPage), Some(DefaultSize))
    ensures s.total == 0 && s.pageCount == 0 && s.currentPage == 0 && s.pageSize == DefaultSize
  {
    ListState([], false, None, Query(None, Some(DefaultPage), Some(DefaultSize)), 0, 0, 0, DefaultSize)
  }

  /** A query carrying both paging fields. */
  predicate Paged(q: Query) {
    q.page.Some? && q.size.Some?
  }

  /** `{ page: 0, size: 10, ...query }`: the caller's fields win. */
  function WithDefaults(q: Query): (r: Query)
    ensures Paged(r)
    ensures r.nome == q.nome
    ensures q.page.Some? ==> r.page == q.page
    ensures q.size.Some? ==> r.size == q.size
    ensures q.page.None? ==> r.page == Some(DefaultPage)
    ensures q.size.None? ==> r.size == Some(DefaultSize)
  {
    Query(q.nome,
          if q.page.Some? then q.page else Some(DefaultPage),
          if q.size.Some? then q.size else Some(DefaultSize))
  }

  /** A query that already has both paging fields is used as it is. */
  lemma PagedQueryUnchanged(q: Query)
    requires Paged(q)
    ensures WithDefaults(q) == q
  {
  }

  /** Applying the defaults twice is applying them once. */
  lemma WithDefaultsIdempotent(q: Query)
    ensures WithDefaults(WithDefaults(q)) == WithDefaults(q)
  {
    PagedQueryUnchanged(WithDefaults(q));
  }

  // ---------------------------------------------------------------------------
  // The state transitions (each an `updateState` merge)

  /** A load starts: loading, no error, the effective query recorded;
      everything shown so far stays. */
  function Started<T>(s: ListState<T>, q: Query): (r: ListState<T>)
    ensures r.loading && r.error.None? && r.query == q
    ensures r.items == s.items && r.total == s.total && r.pageCount == s.pageCount
    ensures r.currentPage == s.currentPage && r.pageSize == s.pageSize
  {
    s.(loading := true, error := None, query := q)
  }

  /** A load succeeded: the page replaces the list and the paging counters;
      the query and the error stay. */
  function Loaded<T>(s: ListState<T>, p: Page<T>): (r: ListState<T>)
    ensures !r.loading && r.items == p.content
    ensures r.total == p.total && r.pageCount == p.pageCount
    ensures r.currentPage == p.page && r.pageSize == p.size
    ensures r.query == s.query && r.error == s.error
  {
    s.(loading := false, items := p.content, total := p.total, pageCount := p.pageCount,
       currentPage := p.page, pageSize := p.size)
  }

  /** A load failed: the error is shown (the thrown string itself, else
      `fallback`) and the previous list and counters stay. */
  function LoadFailed<T>(s: ListState<T>, e: Thrown, fallback: string): (r: ListState<T>)
    ensures !r.loading && r.error.Some?
    ensures e.Text? ==> r.error == Some(e.text)
    ensures !e.Text? ==> r.error == Some(fallback)
    ensures r.items == s.items && r.total == s.total && r.pageCount == s.pageCount
    ensures r.currentPage == s.currentPage && r.pageSize == s.pageSize && r.query == s.query
  {
    s.(loading := false, error := Some(if e.Text? then e.text else fallback))
  }

  /** The page a failed load answers with: empty, echoing the query's paging. */
  function EmptyPage<T>(q: Query): (p: Page<T>)
    ensures p.content == [] && p.total == 0 && p.pageCount == 0
    ensures p.page == q.page.GetOr(DefaultPage) && p.size == q.size.GetOr(DefaultSize)
  {
    Page(q.page.GetOr(DefaultPage), q.size.GetOr(DefaultSize), 0, 0, [])
  }

  /** The empty page of a failed load echoes the effective query exactly. */
  lemma EmptyPageEchoesQuery<T>(q: Query)
    ensures var p: Page<T> := EmptyPage(WithDefaults(q));
      Some(p.page) == WithDefaults(q).page && Some(p.size) == WithDefaults(q).size
  {
  }

  // ---------------------------------------------------------------------------
  // Request parameters (`getPets` / `getTutores`)

  datatype ParamValue = ParamText(text: string) | ParamNumber(number: int)

  /** The params record: `nome` only when non-empty, `page` and `size` whenever
      present (0 included). */
  function QueryParams(q: Query): (m: map<string, ParamValue>)
    ensures "nome" in m <==> TruthyText(q.nome)
    ensures "page" in m <==> q.page.Some?
    ensures "size" in m <==> q.size.Some?
    ensures forall k :: k in m ==> k == "nome" || k == "page" || k == "size"
    ensures "nome" in m ==> m["nome"] == ParamText(q.nome.value)
    ensures "page" in m ==> m["page"] == ParamNumber(q.page.value)
    ensures "size" in m ==> m["size"] == ParamNumber(q.size.value)
  {
    var withName: map<string, ParamValue> := if TruthyText(q.nome) then map["nome" := ParamText(q.nome.value)] else map[];
    var withPage := if q.page.Some? then withName["page" := ParamNumber(q.page.value)] else withName;
    if q.size.Some? then withPage["size" := ParamNumber(q.size.value)] else withPage
  }

  /** A blank search sends no name filter, so it lists everything. */
  lemma BlankSearchListsAll(page: int, size: int)
    ensures QueryParams(Query(Some(""), Some(page), Some(size))) == QueryParams(Query(None, Some(page), Some(size)))
  {
  }

  /** Every effective query sends both paging parameters. */
  lemma EffectiveQuerySendsPaging(q: Query)
    ensures var m := QueryParams(WithDefaults(q)); "page" in m && "size" in m
  {
  }

  // ---------------------------------------------------------------------------
  // The facade object

  /** One list facade. Each load gets a ticket (its index in `requests`, the
      effective queries in start order); `live` holds the loads whose answer
      will still be applied, and `activeRequest` the one `fetch` subscribed
      last. */
  class ListFacade<T> {
    /** The fallback error text (`'Erro ao carregar pets'`, ...). */
    const loadError: string
    var state: ListState<T>
    var activeRequest: Option<nat>
    var requests: seq<Query>
    var live: set<nat>

    ghost predicate Valid()
      reads this
    {
      && Paged(state.query)
      && (forall t :: t in live ==> t < |requests|)
      && (activeRequest.Some? ==> activeRequest.value < |requests|)
    }

    constructor (loadError: string)
      ensures Valid()
      ensures this.loadError == loadError
      ensures state == InitialState() && activeRequest.None? && requests == [] && live == {}
    {
      this.loadError := loadError;
      state := InitialState();
      activeRequest := None;
      requests := [];
      live := {};
    }

    /** `loadX(query)`, subscribed by its caller: the state shows the load at
        once; the answer is applied later by `Answered`. */
    method Load(query: Query) returns (ticket: nat)
      requires Valid()
      modifies this`state, this`requests, this`live
      ensures Valid()
      ensures ticket == old(|requests|) && requests == old(requests) + [WithDefaults(query)]
      ensures live == old(live) + {ticket}
      ensures state == Started(old(state), WithDefaults(query))
    {
      var effective := WithDefaults(query);
      state := Started(state, effective);
      ticket := |requests|;
      requests := requests + [effective];
      live := live + {ticket};
    }

    /** `fetchX(query)`: the previous fetch is unsubscribed, so its answer
        will be ignored, and the new load becomes the active one. */
    method Fetch(query: Query) returns (ticket: nat)
      requires Valid()
      modifies this`state, this`requests, this`live, this`activeRequest
      ensures Valid()
      ensures ticket == old(|requests|) && requests == old(requests) + [WithDefaults(query)]
      ensures activeRequest == Some(ticket)
      ensures old(activeRequest).None? ==> live == old(live) + {ticket}
      ensures old(activeRequest).Some? ==> live == old(live) - {old(activeRequest).value} + {ticket}
      ensures state == Started(old(state), WithDefaults(query))
    {
      if activeRequest.Some? {
        live := live - {activeRequest.value};
      }
      ticket := Load(query);
      activeRequest := Some(ticket);
    }

    /** The API has answered load `ticket`. A cancelled load changes nothing;
        otherwise the answer is applied and passed on (a failure as the empty
        page). */
    method Answered(ticket: nat, response: Result<Page<T>, Thrown>) returns (emitted: Option<Page<T>>)
      requires Valid() && ticket < |requests|
      modifies this`state, this`live
      ensures Valid()
      ensures ticket !in old(live) ==> emitted.None? && state == old(state) && live == old(live)
      ensures ticket in old(live) ==> live == old(live) - {ticket}
      ensures ticket in old(live) && response.Success? ==>
        state == Loaded(old(state), response.value) && emitted == Some(response.value)
      ensures ticket in old(live) && response.Failure? ==>
        && state == LoadFailed(old(state), response.error, loadError)
        && emitted == Some(EmptyPage(requests[ticket]))
    {
      if ticket !in live {
        emitted := None;
        return;
      }
      live := live - {ticket};
      match response
      case Success(p) =>
        state := Loaded(state, p);
        emitted := Some(p);
      case Failure(e) =>
        state := LoadFailed(state, e, loadError);
        emitted := Some(EmptyPage(requests[ticket]));
    }

    /** `searchByName(nome)`: a fresh first page filtered by the trimmed name. */
    method SearchByName(nome: string) returns (ticket: nat)
      requires Valid()
      modifies this`state, this`requests, this`live, this`activeRequest
      ensures Valid() && activeRequest == Some(ticket)
      ensures ticket == old(|requests|)
      ensures requests == old(requests) + [Query(Some(Trim(nome)), Some(0), Some(10))]
      ensures state == Started(old(state), Query(Some(Trim(nome)), Some(0), Some(10)))
      ensures old(activeRequest).None? ==> live == old(live) + {ticket}
      ensures old(activeRequest).Some? ==> live == old(live) - {old(activeRequest).value} + {ticket}
    {
      ticket := Fetch(Query(Some(Trim(nome)), Some(0), Some(10)));
    }

    /** `goToPage(page)`: the current query with only the page replaced. */
    method GoToPage(page: int) returns (ticket: nat)
      requires Valid()
      modifies this`state, this`requests, this`live, this`activeRequest
      ensures Valid() && activeRequest == Some(ticket)
      ensures ticket == old(|requests|)
      ensures requests == old(requests) + [old(state.query).(page := Some(page))]
      ensures state == Started(old(state), old(state.query).(page := Some(page)))
      ensures state.query.nome == old(state.query.nome) && state.query.size == old(state.query.size)
      ensures state.query.page == Some(page)
      ensures old(activeRequest).None? ==> live == old(live) + {ticket}
      ensures old(activeRequest).Some? ==> live == old(live) - {old(activeRequest).value} + {ticket}
    {
      ticket := Fetch(state.query.(page := Some(page)));
    }
  }

  /** Two fetches in a row, answered out of order: the older answer arrives
      after it was cancelled and is ignored; only the newer one is shown. */
  method LatestFetchWinsRun() returns (shown: seq<int>, ignored: bool)
    ensures shown == [2] && ignored
  {
    var f := new ListFacade<int>("Erro ao carregar pets");
    var first := f.Fetch(Query(Some("rex"), None, None));
    var second := f.Fetch(Query(Some("bob"), None, None));
    var late := f.Answered(first, Success(Page(0, 10, 1, 1, [1])));
    ignored := late.None?;
    var applied := f.Answered(second, Success(Page(0, 10, 1, 1, [2])));
    shown := f.state.items;
  }
}
