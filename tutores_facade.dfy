/** The tutors list and the single-tutor operations (tutores.facade.ts). The
    list is a `ListFacade` over tutors; every other operation forwards one API
    call and only rewrites its error, except `deleteTutor`, which refetches
    the list when it succeeds. */
module Tutores {
  import opened Common
  import opened Paging
  import opened Api

  const LoadError := "Erro ao carregar tutores"

  /** The operations that wrap a single API call. */
  datatype Operation =
    | FetchDetail | Create | Update | UploadPhoto | DeletePhoto | LinkPet | UnlinkPet | Delete

  /** The text shown when an operation fails with something that is not a
      string: always an "Erro ao ..." sentence. */
  function Fallback(op: Operation): (m: string)
    ensures |m| > 8 && m[..8] == "Erro ao "
  {
    match op
    case FetchDetail => "Erro ao carregar detalhes do tutor"
    case Create => "Erro ao criar tutor"
    case Update => "Erro ao atualizar tutor"
    case UploadPhoto => "Erro ao fazer upload da foto"
    case DeletePhoto => "Erro ao remover foto do tutor"
    case LinkPet => "Erro ao vincular pet"
    case UnlinkPet => "Erro ao desvincular pet"
    case Delete => "Erro ao excluir tutor"
  }

  /** Each operation has its own fallback text, so the message says which
      operation failed. */
  lemma FallbacksDistinct(a: Operation, b: Operation)
    requires a != b
    ensures Fallback(a) != Fallback(b)
  {
    var fa, fb := Fallback(a), Fallback(b);
    if |fa| == |fb| {
      assert {a, b} == {Update, UnlinkPet};
      assert fa[|fa| - 1] != fb[|fb| - 1];
    }
  }

  /** The `catchError` of every single-call operation: a string error is
      re-raised as it is, anything else as the operation's fallback. */
  function OperationError(op: Operation, e: Thrown): (m: string)
    ensures e.Text? ==> m == e.text
    ensures !e.Text? ==> m == Fallback(op)
  {
    if e.Text? then e.text else Fallback(op)
  }

  /** A string error reads the same whichever operation raised it. */
  lemma TextErrorsPassThrough(a: Operation, b: Operation, s: string)
    ensures OperationError(a, Text(s)) == OperationError(b, Text(s))
  {
  }

  /** What one of those operations hands its caller, given the API's outcome:
      the value unchanged, or the rewritten error. */
  function Wrapped<X>(op: Operation, outcome: Result<X, Thrown>): (r: Result<X, string>)
    ensures outcome.Success? <==> r.Success?
    ensures outcome.Success? ==> r.value == outcome.value
    ensures outcome.Failure? ==> r.error == OperationError(op, outcome.error)
  {
    match outcome
    case Success(v) => Success(v)
    case Failure(e) => Failure(OperationError(op, e))
  }

  class TutoresFacade {
    const list: ListFacade<Tutor>

    constructor ()
      ensures fresh(list) && list.Valid()
      ensures list.loadError == LoadError
      ensures list.state == InitialState() && list.activeRequest.None? && list.requests == []
    {
      list := new ListFacade(LoadError);
    }

    /** `deleteTutor(id)` once the API has answered: success refetches the
        current query (cancelling any fetch still running); failure changes
        nothing and re-raises the rewritten error. */
    method DeleteTutor(outcome: Result<(), Thrown>) returns (r: Result<(), string>, refetch: Option<nat>)
      requires list.Valid()
      modifies list`state, list`requests, list`live, list`activeRequest
      ensures list.Valid()
      ensures r == Wrapped(Delete, outcome)
      ensures outcome.Success? ==>
        && refetch == Some(old(|list.requests|)) && list.activeRequest == refetch
        && list.requests == old(list.requests) + [old(list.state.query)]
        && list.state == Started(old(list.state), old(list.state.query))
        && list.state.query == old(list.state.query) && list.state.loading
      ensures outcome.Success? && old(list.activeRequest).None? ==>
        list.live == old(list.live) + {refetch.value}
      ensures outcome.Success? && old(list.activeRequest).Some? ==>
        list.live == old(list.live) - {old(list.activeRequest).value} + {refetch.value}
      ensures outcome.Failure? ==>
        && refetch.None?
        && list.state == old(list.state) && list.requests == old(list.requests)
        && list.live == old(list.live) && list.activeRequest == old(list.activeRequest)
    {
      r := Wrapped(Delete, outcome);
      if outcome.Success? {
        PagedQueryUnchanged(list.state.query);
        var ticket := list.Fetch(list.state.query);
        refetch := Some(ticket);
      } else {
        refetch := None;
      }
    }
  }

  /** Deleting a tutor while page 2 of a name search is shown reloads exactly
      that page of that search. */
  method DeleteRefetchRun() returns (reloaded: Query, loads: nat)
    ensures reloaded == Query(Some("ana"), Some(2), Some(10)) && loads == 3
  {
    var f := new TutoresFacade();
    var search := f.list.SearchByName("ana");
    TrimKeepsTrimmed("ana");
    var paged := f.list.GoToPage(2);
    var r, refetch := f.DeleteTutor(Success(()));
    reloaded := f.list.requests[|f.list.requests| - 1];
    loads := |f.list.requests|;
  }
}
