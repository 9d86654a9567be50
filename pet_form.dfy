/** The pet create/edit page (features/pets/pages/pet-form): the photo flags
    it keeps while the pet is edited (a newly selected file, a pending
    removal of the current photo, the preview), the payload its submit
    builds, and the photo operation it runs once the pet is saved. */
module PetForm {
  import opened Common
  import opened Api

  // ---------------------------------------------------------------------------
  // The payload

  /** The `idade` control: null, the empty text of a cleared field, or a
      number. */
  datatype AgeInput = NullAge | EmptyAge | AgeNumber(years: int)

  /** The pet data the page sends to create or update a pet. */
  datatype PetRequest = PetRequest(nome: string, raca: string, idade: Option<int>)

  /** The save the submit starts. */
  datatype PetSave = CreatePet(request: PetRequest) | UpdatePet(id: int, request: PetRequest)

  /** `idade !== null && idade !== '' ? Number(idade) : undefined`. */
  function AgeField(a: AgeInput): (r: Option<int>)
    ensures r.None? <==> !a.AgeNumber?
    ensures r.Some? ==> r.value == a.years
  {
    if a.AgeNumber? then Some(a.years) else None
  }

  /** `Validators.required` on `nome` and `raca`, `Validators.min(0)` on
      `idade` (which lets an empty value through). */
  predicate AgeAllowed(a: AgeInput) {
    !a.AgeNumber? || a.years >= 0
  }

  /** A form that passes validation never sends a negative age. */
  lemma SentAgeNotNegative(a: AgeInput)
    requires AgeAllowed(a)
    ensures AgeField(a).None? || AgeField(a).value >= 0
  {
  }

  // ---------------------------------------------------------------------------
  // What follows a successful save

  /** The photo step after the pet is saved, with the pet id it works on. */
  datatype PhotoAction =
    | ReplacePhoto(petId: int, oldPhotoId: int)
    | UploadPhoto(petId: int)
    | DeletePhoto(petId: int, photoId: int)
    | FinishSave(petId: int)

  /** The choice made once the save answers: the photo step is decided by two
      independent questions, whether a new file is selected (it is uploaded)
      and whether removing the current photo of an existing pet is pending
      (it is deleted); the pet id is the page's own when it has one, else the
      saved pet's. */
  function PostSaveAction(hasFile: bool, id: Option<int>, removePending: bool,
                          photoId: Option<int>, savedId: int): (a: PhotoAction)
    ensures a.petId == (if TruthyNumber(id) then id.value else savedId)
    ensures a.ReplacePhoto? || a.UploadPhoto? <==> hasFile
    ensures a.ReplacePhoto? || a.DeletePhoto? <==> TruthyNumber(id) && removePending && TruthyNumber(photoId)
    ensures a.ReplacePhoto? ==> a.oldPhotoId == photoId.value
    ensures a.DeletePhoto? ==> a.photoId == photoId.value
  {
    var target := if TruthyNumber(id) then id.value else savedId;
    var removal := TruthyNumber(id) && removePending && TruthyNumber(photoId);
    if hasFile then
      if removal then ReplacePhoto(target, photoId.value) else UploadPhoto(target)
    else if removal then DeletePhoto(target, photoId.value)
    else FinishSave(target)
  }

  /** With nothing to do to the photo, the save finishes at once. */
  lemma NothingPendingFinishes(id: Option<int>, removePending: bool, photoId: Option<int>, savedId: int)
    requires !(TruthyNumber(id) && removePending && TruthyNumber(photoId))
    ensures PostSaveAction(false, id, removePending, photoId, savedId).FinishSave?
  {
  }

  const Saved := Toast("success", "Sucesso", "Pet salvo com sucesso!")
  const SaveFailed := "Erro ao salvar pet. Verifique os dados e tente novamente."

  /** The warning text when the photo step fails with something that is not
      a non-blank string. */
  function PhotoFallback(a: PhotoAction): string
    requires !a.FinishSave?
  {
    match a
    case ReplacePhoto(_, _) => "Pet salvo, mas houve erro ao atualizar a foto."
    case DeletePhoto(_, _) => "Pet salvo, mas houve erro ao remover a foto."
    case UploadPhoto(_) => "Pet salvo, mas houve erro ao fazer upload da foto."
  }

  /** None of the fallbacks is blank. */
  lemma PhotoFallbackNotBlank(a: PhotoAction)
    requires !a.FinishSave?
    ensures Trim(PhotoFallback(a)) != ""
  {
    VisibleEndNotBlank(PhotoFallback(a));
  }

  /** Each photo step fails with its own warning. */
  lemma PhotoFallbacksDistinct(a: PhotoAction, b: PhotoAction)
    requires !a.FinishSave? && !b.FinishSave?
    requires PhotoFallback(a) == PhotoFallback(b)
    ensures a.ReplacePhoto? == b.ReplacePhoto? && a.DeletePhoto? == b.DeletePhoto? && a.UploadPhoto? == b.UploadPhoto?
  {
    assert |PhotoFallback(a)| == |PhotoFallback(b)|;
  }

  /** The warning toast after a failed photo step: it always says something,
      the server's message when it has one and the step's fallback otherwise. */
  function PhotoWarning(step: PhotoAction, e: Thrown): (t: Toast)
    requires !step.FinishSave?
    ensures t.severity == "warn"
    ensures IsNonBlankText(e) ==> t.detail == e.text
    ensures !IsNonBlankText(e) ==> t.detail == PhotoFallback(step)
  {
    Toast("warn", "Aten\U{00E7}\U{00E3}o", ErrorDetail(e, PhotoFallback(step)))
  }

  /** The warning always says something. */
  lemma PhotoWarningNeverBlank(step: PhotoAction, e: Thrown)
    requires !step.FinishSave?
    ensures Trim(PhotoWarning(step, e).detail) != ""
  {
    PhotoFallbackNotBlank(step);
  }

  /** `['/pets', id]`. */
  function PetPage(id: int): Navigation {
    Navigation(["/pets", IntToDecimal(id)], None)
  }

  // ---------------------------------------------------------------------------
  // Loading the pet being edited

  /** The photo of a loaded pet. */
  datatype PhotoRef = PhotoRef(id: int, url: Option<string>)

  /** `PetDetail`, the pet as `fetchPetDetail` returns it. */
  datatype PetDetail = PetDetail(nome: string, raca: string, idade: Option<int>, foto: Option<PhotoRef>)

  const LoadFailed := Toast("error", "Erro", "Erro ao carregar dados do pet")

  /** `idade: pet.idade ?? null`. */
  function AgeOf(idade: Option<int>): (a: AgeInput)
    ensures a == NullAge <==> idade.None?
    ensures idade.Some? ==> a == AgeNumber(idade.value)
  {
    if idade.Some? then AgeNumber(idade.value) else NullAge
  }

  /** A loaded age is sent back unchanged by the next save. */
  lemma LoadedAgeRoundTrip(idade: Option<int>)
    ensures AgeField(AgeOf(idade)) == idade
  {
  }

  /** `fetchPetDetail` answered with the pet. */
  predicate Loaded(answer: Option<Result<PetDetail, Thrown>>) {
    answer.Some? && answer.value.Success?
  }

  /** `currentPhotoId.set(pet.foto?.id ?? null)`; no load leaves it null. */
  function LoadedPhotoId(answer: Option<Result<PetDetail, Thrown>>): (r: Option<int>)
    ensures r.Some? <==> Loaded(answer) && answer.value.value.foto.Some?
    ensures r.Some? ==> r.value == answer.value.value.foto.value.id
  {
    if Loaded(answer) && answer.value.value.foto.Some? then Some(answer.value.value.foto.value.id) else None
  }

  /** The photo URL is kept only when it is truthy; otherwise it is null (and
      the preview, null since `ngOnInit`, is left alone). */
  function LoadedPhotoUrl(answer: Option<Result<PetDetail, Thrown>>): (r: Option<string>)
    ensures r.Some? <==> Loaded(answer) && answer.value.value.foto.Some? && TruthyText(answer.value.value.foto.value.url)
    ensures r.Some? ==> r == answer.value.value.foto.value.url && r.value != ""
  {
    if Loaded(answer) && answer.value.value.foto.Some? && TruthyText(answer.value.value.foto.value.url)
    then answer.value.value.foto.value.url
    else None
  }

  // ---------------------------------------------------------------------------
  // The page

  class PetFormComponent {
    const router: Router
    const messages: MessageService
    /** The route's `id`, when editing. */
    const petId: Option<int>
    /** The loaded pet's photo (`foto.id`, and `foto.url` when truthy). */
    const currentPhotoId: Option<int>
    const currentPhotoUrl: Option<string>
    var nome: string
    var raca: string
    var idade: AgeInput
    var isLoading: bool
    var isUploading: bool
    var selectedFile: Option<FileRef>
    var previewUrl: Option<string>
    var removeCurrentPhotoOnSave: bool
    /** The `value` of the file input element. */
    var fotoInputValue: string

    /** A removal can only be pending for an existing pet that has a photo. */
    ghost predicate Valid()
      reads this
    {
      removeCurrentPhotoOnSave ==> TruthyNumber(petId) && TruthyNumber(currentPhotoId)
    }

    /** The page after `ngOnInit` and, when it has an id, `loadPet` once
        `fetchPetDetail` has answered (`answer`, present exactly then): the
        loaded pet fills the form, its photo is the preview, and a failed load
        is reported; nothing is pending. */
    constructor (router: Router, messages: MessageService, petId: Option<int>,
                 answer: Option<Result<PetDetail, Thrown>>)
      requires answer.Some? <==> TruthyNumber(petId)
      modifies messages
      ensures Valid()
      ensures this.router == router && this.messages == messages && this.petId == petId
      ensures currentPhotoId == LoadedPhotoId(answer) && currentPhotoUrl == LoadedPhotoUrl(answer)
      ensures previewUrl == currentPhotoUrl
      ensures Loaded(answer) ==>
        && nome == answer.value.value.nome && raca == answer.value.value.raca
        && idade == AgeOf(answer.value.value.idade)
      ensures !Loaded(answer) ==> nome == "" && raca == "" && idade == NullAge
      ensures answer.Some? && answer.value.Failure? ==> messages.toasts == old(messages.toasts) + [LoadFailed]
      ensures !(answer.Some? && answer.value.Failure?) ==> messages.toasts == old(messages.toasts)
      ensures !isLoading && !isUploading && selectedFile.None? && !removeCurrentPhotoOnSave
    {
      this.router := router;
      this.messages := messages;
      this.petId := petId;
      currentPhotoId := LoadedPhotoId(answer);
      currentPhotoUrl := LoadedPhotoUrl(answer);
      previewUrl := LoadedPhotoUrl(answer);
      if Loaded(answer) {
        var pet := answer.value.value;
        nome, raca, idade := pet.nome, pet.raca, AgeOf(pet.idade);
      } else {
        nome, raca, idade := "", "", NullAge;
      }
      isLoading, isUploading := false, false;
      selectedFile := None;
      removeCurrentPhotoOnSave := false;
      fotoInputValue := "";
      new;
      if answer.Some? && answer.value.Failure? {
        messages.Add(LoadFailed);
      }
    }

    /** `clearSelectedPhoto`: drops the selected file; the preview goes back
        to the current photo, or stays empty while its removal is pending. */
    method ClearSelectedPhoto()
      requires Valid()
      modifies this`selectedFile, this`fotoInputValue, this`previewUrl
      ensures Valid() && selectedFile.None?
      ensures old(selectedFile).None? ==> previewUrl == old(previewUrl) && fotoInputValue == old(fotoInputValue)
      ensures old(selectedFile).Some? ==> fotoInputValue == ""
      ensures old(selectedFile).Some? && removeCurrentPhotoOnSave ==> previewUrl.None?
      ensures old(selectedFile).Some? && !removeCurrentPhotoOnSave ==> previewUrl == currentPhotoUrl
    {
      if selectedFile.None? {
        return;
      }
      selectedFile := None;
      fotoInputValue := "";
      if removeCurrentPhotoOnSave {
        previewUrl := None;
        return;
      }
      previewUrl := currentPhotoUrl;
    }

    /** When the removal toggle does nothing. */
    predicate ToggleBlocked()
      reads this
    {
      !TruthyNumber(petId) || !TruthyNumber(currentPhotoId) || isLoading || isUploading || selectedFile.Some?
    }

    /** `toggleRemoveCurrentPhoto`, with `confirmed` the answer to the
        confirmation dialog (asked only when a removal is being requested). */
    method ToggleRemoveCurrentPhoto(confirmed: bool)
      requires Valid()
      modifies this`removeCurrentPhotoOnSave, this`previewUrl
      ensures Valid()
      ensures ToggleBlocked() ==>
        removeCurrentPhotoOnSave == old(removeCurrentPhotoOnSave) && previewUrl == old(previewUrl)
      ensures !ToggleBlocked() && old(removeCurrentPhotoOnSave) ==>
        !removeCurrentPhotoOnSave && previewUrl == currentPhotoUrl
      ensures !ToggleBlocked() && !old(removeCurrentPhotoOnSave) && confirmed ==>
        removeCurrentPhotoOnSave && previewUrl.None?
      ensures !ToggleBlocked() && !old(removeCurrentPhotoOnSave) && !confirmed ==>
        !removeCurrentPhotoOnSave && previewUrl == old(previewUrl)
    {
      if ToggleBlocked() {
        return;
      }
      if removeCurrentPhotoOnSave {
        removeCurrentPhotoOnSave := false;
        previewUrl := currentPhotoUrl;
        return;
      }
      if confirmed {
        removeCurrentPhotoOnSave := true;
        previewUrl := None;
      }
    }

    /** `onFileSelected`: the first chosen file, if any, becomes the selected
        one. */
    method OnFileSelected(files: seq<FileRef>)
      requires Valid()
      modifies this`selectedFile
      ensures Valid()
      ensures files == [] ==> selectedFile == old(selectedFile)
      ensures files != [] ==> selectedFile == Some(files[0])
    {
      if |files| > 0 {
        selectedFile := Some(files[0]);
      }
    }

    /** The file reader has produced the selected file's data URL. */
    method OnPreviewRead(dataUrl: string)
      requires Valid()
      modifies this`previewUrl
      ensures Valid() && previewUrl == Some(dataUrl)
    {
      previewUrl := Some(dataUrl);
    }

    predicate FormValid()
      reads this
    {
      nome != "" && raca != "" && AgeAllowed(idade)
    }

    function Payload(): (p: PetRequest)
      reads this
      ensures p.nome == nome && p.raca == raca && p.idade == AgeField(idade)
    {
      PetRequest(nome, raca, AgeField(idade))
    }

    /** `onSubmit` up to the API call: an invalid form sends nothing; a valid
        one starts loading and updates the page's pet, or creates one when
        the page has no id. */
    method OnSubmit() returns (save: Option<PetSave>)
      requires Valid()
      modifies this`isLoading
      ensures Valid()
      ensures save.Some? <==> FormValid()
      ensures save.None? ==> isLoading == old(isLoading)
      ensures save.Some? ==> isLoading
      ensures save.Some? && TruthyNumber(petId) ==> save.value == UpdatePet(petId.value, Payload())
      ensures save.Some? && !TruthyNumber(petId) ==> save.value == CreatePet(Payload())
      ensures save.Some? ==> save.value.request.idade.None? || save.value.request.idade.value >= 0
    {
      if !FormValid() {
        return None;
      }
      isLoading := true;
      SentAgeNotNegative(idade);
      if TruthyNumber(petId) {
        save := Some(UpdatePet(petId.value, Payload()));
      } else {
        save := Some(CreatePet(Payload()));
      }
    }

    /** The save has answered. On success the photo step is chosen: with
        nothing to do the page reports success and goes to the pet,
        otherwise the photo step starts. On failure the error is shown. A
        pending removal is never lost. */
    method OnSaved(result: Result<Pet, Thrown>) returns (step: Option<PhotoAction>)
      requires Valid()
      modifies this`isLoading, this`isUploading, router, messages
      ensures Valid() && !isLoading
      ensures result.Success? ==> step == Some(PostSaveAction(selectedFile.Some?, petId,
                                   removeCurrentPhotoOnSave, currentPhotoId, result.value.id))
      ensures result.Success? && removeCurrentPhotoOnSave ==> step.value.ReplacePhoto? || step.value.DeletePhoto?
      ensures result.Success? && step.value.FinishSave? ==>
        && messages.toasts == old(messages.toasts) + [Saved]
        && router.navigations == old(router.navigations) + [PetPage(step.value.petId)]
        && isUploading == old(isUploading)
      ensures result.Success? && !step.value.FinishSave? ==>
        && isUploading
        && messages.toasts == old(messages.toasts) && router.navigations == old(router.navigations)
      ensures result.Failure? ==>
        && step.None? && isUploading == old(isUploading)
        && messages.toasts == old(messages.toasts) + [Toast("error", "Erro", ErrorDetail(result.error, SaveFailed))]
        && router.navigations == old(router.navigations)
    {
      isLoading := false;
      match result
      case Success(pet) =>
        var action := PostSaveAction(selectedFile.Some?, petId, removeCurrentPhotoOnSave, currentPhotoId, pet.id);
        step := Some(action);
        if action.FinishSave? {
          messages.Add(Saved);
          router.Navigate(PetPage(action.petId));
        } else {
          isUploading := true;
        }
      case Failure(e) =>
        step := None;
        messages.Add(Toast("error", "Erro", ErrorDetail(e, SaveFailed)));
    }

    /** The photo step has answered: success is reported, a failure is a
        warning (the pet itself was saved); either way the page goes to the
        pet. */
    method OnPhotoSettled(step: PhotoAction, result: Result<(), Thrown>)
      requires Valid() && !step.FinishSave?
      modifies this`isUploading, router, messages
      ensures Valid() && !isUploading
      ensures router.navigations == old(router.navigations) + [PetPage(step.petId)]
      ensures result.Success? ==> messages.toasts == old(messages.toasts) + [Saved]
      ensures result.Failure? ==>
        messages.toasts == old(messages.toasts) + [PhotoWarning(step, result.error)]
    {
      isUploading := false;
      if result.Success? {
        messages.Add(Saved);
      } else {
        messages.Add(PhotoWarning(step, result.error));
      }
      router.Navigate(PetPage(step.petId));
    }
  }

  /** Editing pet 5 whose photo is 9: asking to remove the photo and
      confirming hides the preview; toggling again restores it. With a
      removal pending and a new file chosen, the save replaces the photo. */
  method RemovalToggleRun() returns (hiddenAfterConfirm: bool, restored: bool, replaced: bool)
    ensures hiddenAfterConfirm && restored && replaced
  {
    var router := new Router();
    var messages := new MessageService();
    var loaded := PetDetail("Rex", "Vira-lata", Some(3), Some(PhotoRef(9, Some("foto.png"))));
    var page := new PetFormComponent(router, messages, Some(5), Some(Success(loaded)));
    page.ToggleRemoveCurrentPhoto(true);
    hiddenAfterConfirm := page.removeCurrentPhotoOnSave && page.previewUrl.None?;
    page.ToggleRemoveCurrentPhoto(true);
    restored := !page.removeCurrentPhotoOnSave && page.previewUrl == Some("foto.png");
    page.ToggleRemoveCurrentPhoto(true);
    page.OnFileSelected([FileRef("nova.png")]);
    var save := page.OnSubmit();
    var step := page.OnSaved(Success(Pet(5, "Rex", "Vira-lata", None)));
    replaced := step == Some(ReplacePhoto(5, 9));
  }
}
