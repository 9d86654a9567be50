/** The pets list (pets.facade.ts): a `ListFacade` over pets whose failed
    loads read "Erro ao carregar pets". */
module Pets {
  import opened Paging
  import opened Api

  const LoadError := "Erro ao carregar pets"

  class PetsFacade {
    const list: ListFacade<Pet>

    constructor ()
      ensures fresh(list) && list.Valid()
      ensures list.loadError == LoadError
      ensures list.state == InitialState() && list.activeRequest.None? && list.requests == []
    {
      list := new ListFacade(LoadError);
    }
  }
}
