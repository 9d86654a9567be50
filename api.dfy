/** The HTTP calls the API services make (pets-api.service.ts,
    tutores-api.service.ts), as descriptions: verb, path relative to the API
    base URL, query parameters and body. Sending them is the transport's
    business and is not modelled. */
module Api {
  import opened Common
  import opened Paging

  /** `Pet`, the list item. */
  datatype Pet = Pet(id: int, nome: string, raca: string, idade: Option<int>)

  /** `Tutor`, the list item. */
  datatype Tutor = Tutor(id: int, nome: string, email: Option<string>, telefone: Option<string>,
                         endereco: Option<string>, cpf: Option<int>)

  /** `TutorRequest`, the body of a create or an update. */
  datatype TutorRequest = TutorRequest(nome: string, telefone: string, email: Option<string>,
                                       endereco: Option<string>, cpf: Option<int>)

  /** A file picked in the browser. */
  datatype FileRef = FileRef(name: string)

  datatype Verb = Get | Post | Put | PostMultipart

  datatype Body = NoBody | Json(request: TutorRequest) | FormData(field: string, file: FileRef)

  datatype HttpCall = HttpCall(verb: Verb, path: string, params: map<string, ParamValue>, body: Body)

  const PetsPath := "/v1/pets"
  const TutoresPath := "/v1/tutores"

  /** `collection/<id>`. */
  function ItemPath(collection: string, id: int): (p: string)
    ensures |p| > |collection| + 1 && p[..|collection|] == collection && p[|collection|] == '/'
    ensures p[|collection| + 1..] == IntToDecimal(id)
  {
    collection + "/" + IntToDecimal(id)
  }

  /** Different ids address different items of a collection. */
  lemma ItemPathInjective(collection: string, a: int, b: int)
    requires ItemPath(collection, a) == ItemPath(collection, b)
    ensures a == b
  {
    IntToDecimalInjective(a, b);
  }

  // ---------------------------------------------------------------------------
  // pets-api.service.ts

  /** `getPets(query)`. */
  function GetPets(q: Query): (c: HttpCall)
    ensures c.verb == Get && c.path == PetsPath && c.body == NoBody
    ensures c.params == QueryParams(q)
  {
    HttpCall(Get, PetsPath, QueryParams(q), NoBody)
  }

  /** `getPetById(id)`. */
  function GetPetById(id: int): (c: HttpCall)
    ensures c.verb == Get && c.params == map[] && c.body == NoBody
    ensures c.path == ItemPath(PetsPath, id)
  {
    HttpCall(Get, ItemPath(PetsPath, id), map[], NoBody)
  }

  // ---------------------------------------------------------------------------
  // tutores-api.service.ts

  /** `getTutores(query)`. */
  function GetTutores(q: Query): (c: HttpCall)
    ensures c.verb == Get && c.path == TutoresPath && c.body == NoBody
    ensures c.params == QueryParams(q)
  {
    HttpCall(Get, TutoresPath, QueryParams(q), NoBody)
  }

  /** `getTutorById(id)`. */
  function GetTutorById(id: int): (c: HttpCall)
    ensures c.verb == Get && c.path == ItemPath(TutoresPath, id)
    ensures c.params == map[] && c.body == NoBody
  {
    HttpCall(Get, ItemPath(TutoresPath, id), map[], NoBody)
  }

  /** `createTutor(tutor)`: posted to the collection. */
  function CreateTutor(tutor: TutorRequest): (c: HttpCall)
    ensures c.verb == Post && c.path == TutoresPath && c.body == Json(tutor) && c.params == map[]
  {
    HttpCall(Post, TutoresPath, map[], Json(tutor))
  }

  /** `updateTutor(id, tutor)`: put to the item. */
  function UpdateTutor(id: int, tutor: TutorRequest): (c: HttpCall)
    ensures c.verb == Put && c.path == ItemPath(TutoresPath, id) && c.body == Json(tutor) && c.params == map[]
  {
    HttpCall(Put, ItemPath(TutoresPath, id), map[], Json(tutor))
  }

  /** `uploadTutorPhoto(id, file)`: multipart, under the field `file`. */
  function UploadTutorPhoto(id: int, file: FileRef): (c: HttpCall)
    ensures c.verb == PostMultipart && c.body == FormData("file", file)
    ensures c.path == ItemPath(TutoresPath, id) + "/fotos" && c.params == map[]
  {
    HttpCall(PostMultipart, ItemPath(TutoresPath, id) + "/fotos", map[], FormData("file", file))
  }

  /** A create and an update never reach the same endpoint: the update path
      is the collection path followed by an id. */
  lemma CreateAndUpdateDiffer(id: int, a: TutorRequest, b: TutorRequest)
    ensures CreateTutor(a).path != UpdateTutor(id, b).path
  {
    assert |UpdateTutor(id, b).path| > |TutoresPath|;
  }

  /** A photo upload for one tutor never lands on another tutor's photos. */
  lemma UploadPathInjective(a: int, b: int, f: FileRef, g: FileRef)
    requires UploadTutorPhoto(a, f).path == UploadTutorPhoto(b, g).path
    ensures a == b
  {
    var pa, pb := ItemPath(TutoresPath, a), ItemPath(TutoresPath, b);
    assert |pa| == |pb|;
    assert pa == (pa + "/fotos")[..|pa|];
    assert pb == (pb + "/fotos")[..|pb|];
    ItemPathInjective(TutoresPath, a, b);
  }
}
