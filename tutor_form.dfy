/** The tutor create/edit page (features/tutores/pages/tutor-form): the CPF
    formatting it applies when a tutor is loaded, the pets offered for
    linking, the payload its submit builds, and what happens once the save
    (and the photo upload) answers. */
module TutorForm {
  import opened Common
  import opened Masks
  import opened Api
  import opened Tutores

  // ---------------------------------------------------------------------------
  // formatCpf

  /** `formatCpf` accepts a number (the stored CPF) or a string. */
  datatype CpfValue = CpfNumber(number: int) | CpfText(text: string)

  /** `String(value)`. */
  function StringOf(v: CpfValue): string {
    match v
    case CpfNumber(n) => IntToDecimal(n)
    case CpfText(s) => s
  }

  /** The component's own `formatCpf`: it always agrees with the CPF mask
      directive. */
  function ComponentFormatCpf(value: CpfValue): (r: string)
    ensures r == FormatCpf(StringOf(value))
  {
    var digits := Slice(Digits(StringOf(value)), 0, 11);
    if |digits| <= 3 then digits
    else if |digits| <= 6 then Slice(digits, 0, 3) + "." + digits[3..]
    else if |digits| <= 9 then Slice(digits, 0, 3) + "." + Slice(digits, 3, 6) + "." + digits[6..]
    else Slice(digits, 0, 3) + "." + Slice(digits, 3, 6) + "." + Slice(digits, 6, 9) + "-" + Slice(digits, 9, 11)
  }

  // ---------------------------------------------------------------------------
  // Pets offered for linking

  /** `TutorDetail`: the tutor and the pets linked to it (possibly null). */
  datatype TutorDetail = TutorDetail(tutor: Tutor, pets: Option<seq<Pet>>)

  function LinkedIds(t: TutorDetail): set<int> {
    set p | p in t.pets.GetOr([]) :: p.id
  }

  /** `a` is `b` with some elements left out, the rest in order. */
  predicate IsSubsequence<X(==)>(a: seq<X>, b: seq<X>)
    decreases |b|
  {
    a == [] || (b != [] && if a[0] == b[0] then IsSubsequence(a[1..], b[1..]) else IsSubsequence(a, b[1..]))
  }

  /** The pets of `ps` whose id is not in `ids`, in order. */
  function Unlinked(ps: seq<Pet>, ids: set<int>): (r: seq<Pet>)
    ensures forall p :: p in r <==> p in ps && p.id !in ids
    ensures IsSubsequence(r, ps)
    ensures forall p :: multiset(r)[p] == if p.id in ids then 0 else multiset(ps)[p]
  {
    if ps == [] then []
    else
      assert ps == [ps[0]] + ps[1..];
      if ps[0].id in ids then Unlinked(ps[1..], ids)
      else [ps[0]] + Unlinked(ps[1..], ids)
  }

  /** `getAvailablePetsForLinking`: without a loaded tutor every available
      pet; otherwise the available pets not already linked to it, in their
      original order. */
  function LinkablePets(available: seq<Pet>, detail: Option<TutorDetail>): (r: seq<Pet>)
    ensures detail.None? ==> r == available
    ensures detail.Some? ==> forall p :: p in r <==> p in available && p.id !in LinkedIds(detail.value)
    ensures detail.Some? ==> forall p ::
      multiset(r)[p] == if p.id in LinkedIds(detail.value) then 0 else multiset(available)[p]
    ensures IsSubsequence(r, available)
  {
    if detail.None? then
      assert IsSubsequence(available, available) by { SubsequenceReflexive(available); }
      available
    else Unlinked(available, LinkedIds(detail.value))
  }

  lemma {:induction false} SubsequenceReflexive<X>(a: seq<X>)
    ensures IsSubsequence(a, a)
    decreases |a|
  {
    if a != [] {
      SubsequenceReflexive(a[1..]);
    }
  }

  /** No pet already linked to the tutor is offered again. */
  lemma LinkedPetsNotOffered(available: seq<Pet>, detail: TutorDetail, p: Pet)
    requires p in detail.pets.GetOr([])
    ensures p !in LinkablePets(available, Some(detail))
  {
  }

  // ---------------------------------------------------------------------------
  // The submit payload

  /** The form's values: `email`, `endereco` and `cpf` may be null. */
  datatype FormValue = FormValue(nome: string, telefone: string, email: Option<string>,
                                 endereco: Option<string>, cpf: Option<string>)

  /** `value?.trim() || undefined`. */
  function Optional(o: Option<string>): (r: Option<string>)
    ensures r.Some? <==> o.Some? && Trim(o.value) != ""
    ensures r.Some? ==> r.value == Trim(o.value)
  {
    if o.Some? && Trim(o.value) != "" then Some(Trim(o.value)) else None
  }

  /** The `cpf` field of the payload: absent without digits, else
      `Number(digits)`. */
  function CpfField(cpf: Option<string>): (r: Option<int>)
    ensures r.None? <==> Digits(cpf.GetOr("")) == []
    ensures r.Some? ==> r.value >= 0 && r.value == DecimalValue(Digits(cpf.GetOr("")))
  {
    var digits := Digits(cpf.GetOr(""));
    if |digits| > 0 then Some(DecimalValue(digits) as int) else None
  }

  /** The `tutorData` object `onSubmit` sends. */
  function BuildPayload(v: FormValue): (p: TutorRequest)
    ensures p.nome == Trim(v.nome)
    ensures p.telefone == Digits(v.telefone)
    ensures p.email == Optional(v.email) && p.endereco == Optional(v.endereco)
    ensures p.cpf == CpfField(v.cpf)
  {
    TutorRequest(Trim(v.nome), Digits(v.telefone), Optional(v.email), Optional(v.endereco), CpfField(v.cpf))
  }

  /** The form a payload would fill back in: its own fields, the CPF as
      digits. */
  function FormOf(p: TutorRequest): FormValue {
    FormValue(p.nome, p.telefone, p.email, p.endereco,
              if p.cpf.Some? && p.cpf.value >= 0 then Some(NatToDecimal(p.cpf.value)) else None)
  }

  /** An optional field that was already normalised stays as it is. */
  lemma OptionalStable(o: Option<string>)
    ensures Optional(Optional(o)) == Optional(o)
  {
    if o.Some? { TrimIdempotent(o.value); }
  }

  /** A CPF number printed back into the form is read as the same number. */
  lemma CpfFieldStable(n: nat)
    ensures CpfField(Some(NatToDecimal(n))) == Some(n)
  {
    DigitsOfDigits(NatToDecimal(n));
    DecimalRoundTrip(n);
  }

  /** Normalising is idempotent: submitting a form that holds a payload's own
      values sends that payload again. */
  lemma PayloadStable(v: FormValue)
    ensures BuildPayload(FormOf(BuildPayload(v))) == BuildPayload(v)
  {
    var p := BuildPayload(v);
    var f := FormOf(p);
    assert Trim(f.nome) == p.nome by { TrimIdempotent(v.nome); }
    assert Digits(f.telefone) == p.telefone by { DigitsIdempotent(v.telefone); }
    assert Optional(f.email) == p.email by { OptionalStable(v.email); }
    assert Optional(f.endereco) == p.endereco by { OptionalStable(v.endereco); }
    assert CpfField(f.cpf) == p.cpf by {
      if p.cpf.Some? {
        CpfFieldStable(p.cpf.value);
      }
    }
  }

  /** The save `onSubmit` issues: an update when the page has a (truthy)
      tutor id, a create otherwise. */
  function SaveCall(id: Option<int>, p: TutorRequest): (c: HttpCall)
    ensures c.body == Json(p)
    ensures TruthyNumber(id) ==> c.verb == Put && c.path == ItemPath(TutoresPath, id.value)
    ensures !TruthyNumber(id) ==> c.verb == Post && c.path == TutoresPath
  {
    if TruthyNumber(id) then UpdateTutor(id.value, p) else CreateTutor(p)
  }

  // ---------------------------------------------------------------------------
  // The CPF shown when a tutor is loaded

  /** `tutor.cpf ? this.formatCpf(tutor.cpf) : ''`, as written: the stored
      number is printed without leading zeros. */
  function LoadedCpfText(cpf: Option<int>): (r: string)
    ensures !TruthyNumber(cpf) ==> r == ""
    ensures TruthyNumber(cpf) ==> r == FormatCpf(IntToDecimal(cpf.value))
  {
    if TruthyNumber(cpf) then ComponentFormatCpf(CpfNumber(cpf.value)) else ""
  }

  /** The CPF text the edit page shows, with the stored number padded back
      to eleven digits before formatting. */
  function RestoredCpfText(cpf: Option<int>): (r: string)
    ensures !TruthyNumber(cpf) ==> r == ""
    ensures TruthyNumber(cpf) ==> r == FormatCpf(PadZeros(IntToDecimal(cpf.value), 11))
  {
    if TruthyNumber(cpf) then FormatCpf(PadZeros(IntToDecimal(cpf.value), 11)) else ""
  }

  /** As written, a CPF whose first digit is 0 does not survive a save and a
      reload: the reloaded text has fewer digits than the one entered. */
  lemma LeadingZeroCpfLost(text: string)
    requires |Digits(text)| == 11 && Digits(text)[0] == '0' && DecimalValue(Digits(text)) != 0
    ensures LoadedCpfText(CpfField(Some(text))) != FormatCpf(text)
  {
    var d := Digits(text);
    var x := NatToDecimal(DecimalValue(d));
    PadNumeral(d);
    assert |x| < 11;
    assert Digits(LoadedCpfText(CpfField(Some(text)))) == Slice(Digits(x), 0, 11);
    DigitsOfDigits(x);
    assert Digits(FormatCpf(text)) == d;
  }

  /** With the padding, every eleven-digit CPF survives a save and a reload
      exactly as the mask showed it. */
  lemma CpfRoundTrip(text: string)
    requires |Digits(text)| == 11 && DecimalValue(Digits(text)) != 0
    ensures RestoredCpfText(CpfField(Some(text))) == FormatCpf(text)
  {
    var d := Digits(text);
    PadNumeral(d);
    DigitsOfDigits(d);
    assert Slice(d, 0, 11) == d;
  }

  // ---------------------------------------------------------------------------
  // The page

  const SaveFailed := "Erro ao salvar tutor. Verifique os dados e tente novamente."
  const UploadFailed := "Tutor salvo, mas houve erro ao fazer upload da foto."

  /** `['/tutores', id]`. */
  function TutorPage(id: int): Navigation {
    Navigation(["/tutores", IntToDecimal(id)], None)
  }

  class TutorFormComponent {
    const router: Router
    /** The route's `id`, when editing. */
    const tutorId: Option<int>
    var form: FormValue
    /** Whether `email` passes `Validators.email`. */
    var emailWellFormed: bool
    var isLoading: bool
    var isUploading: bool
    var errorMessage: Option<string>
    var selectedFile: Option<FileRef>

    constructor (router: Router, tutorId: Option<int>)
      ensures this.router == router && this.tutorId == tutorId
      ensures form == FormValue("", "", Some(""), Some(""), Some("")) && emailWellFormed
      ensures !isLoading && !isUploading && errorMessage.None? && selectedFile.None?
    {
      this.router := router;
      this.tutorId := tutorId;
      form := FormValue("", "", Some(""), Some(""), Some(""));
      emailWellFormed := true;
      isLoading := false;
      isUploading := false;
      errorMessage := None;
      selectedFile := None;
    }

    /** `nome` and `telefone` are required; `email` must be well formed. */
    predicate FormValid()
      reads this
    {
      form.nome != "" && form.telefone != "" && emailWellFormed
    }

    /** `onSubmit` up to the API call: an invalid form sends nothing; a valid
        one starts loading, clears the error and saves the normalised
        payload. */
    method OnSubmit() returns (call: Option<HttpCall>)
      modifies this`isLoading, this`errorMessage
      ensures call.Some? <==> FormValid()
      ensures call.None? ==> isLoading == old(isLoading) && errorMessage == old(errorMessage)
      ensures call.Some? ==> call.value == SaveCall(tutorId, BuildPayload(form)) && isLoading && errorMessage.None?
    {
      if !FormValid() {
        return None;
      }
      isLoading := true;
      errorMessage := None;
      call := Some(SaveCall(tutorId, BuildPayload(form)));
    }

    /** The id the page continues with: its own, else the saved tutor's. */
    function IdToUse(saved: Tutor): int
      reads this
    {
      if TruthyNumber(tutorId) then tutorId.value else saved.id
    }

    /** The save has answered (errors already rewritten by the facade). On
        success, a selected photo is uploaded next, otherwise the page goes
        to the tutor; on failure the error is shown. */
    method OnSaved(result: Result<Tutor, string>) returns (upload: Option<HttpCall>)
      modifies this`isLoading, this`isUploading, this`errorMessage, router
      ensures !isLoading
      ensures result.Success? && selectedFile.Some? ==>
        && upload == Some(UploadTutorPhoto(IdToUse(result.value), selectedFile.value))
        && isUploading && router.navigations == old(router.navigations)
      ensures result.Success? && selectedFile.None? ==>
        && upload.None? && isUploading == old(isUploading)
        && router.navigations == old(router.navigations) + [TutorPage(IdToUse(result.value))]
      ensures result.Success? ==> errorMessage == old(errorMessage)
      ensures result.Failure? ==>
        && upload.None? && isUploading == old(isUploading)
        && errorMessage == Some(ErrorDetail(Text(result.error), SaveFailed))
        && router.navigations == old(router.navigations)
    {
      isLoading := false;
      upload := None;
      match result
      case Success(tutor) =>
        var id := IdToUse(tutor);
        if selectedFile.Some? {
          isUploading := true;
          upload := Some(UploadTutorPhoto(id, selectedFile.value));
        } else {
          router.Navigate(TutorPage(id));
        }
      case Failure(e) =>
        errorMessage := Some(ErrorDetail(Text(e), SaveFailed));
    }

    /** The photo upload for tutor `id` has answered: the page goes to the
        tutor either way (after a pause on failure), showing the error when
        there was one. */
    method OnUploaded(id: int, result: Result<(), string>)
      modifies this`isUploading, this`errorMessage, router
      ensures !isUploading
      ensures router.navigations == old(router.navigations) + [TutorPage(id)]
      ensures result.Success? ==> errorMessage == old(errorMessage)
      ensures result.Failure? ==> errorMessage == Some(ErrorDetail(Text(result.error), UploadFailed))
    {
      isUploading := false;
      if result.Failure? {
        errorMessage := Some(ErrorDetail(Text(result.error), UploadFailed));
      }
      router.Navigate(TutorPage(id));
    }

    /** `loadTutor`'s `patchValue`; the CPF is the mask of the stored number
        as it is printed, without padding. */
    method OnTutorLoaded(detail: TutorDetail)
      modifies this`form
      ensures form.nome == detail.tutor.nome
      ensures form.telefone == detail.tutor.telefone.GetOr("")
      ensures form.email == Some(detail.tutor.email.GetOr(""))
      ensures form.endereco == Some(detail.tutor.endereco.GetOr(""))
      ensures form.cpf == Some(LoadedCpfText(detail.tutor.cpf))
    {
      var t := detail.tutor;
      form := FormValue(t.nome, t.telefone.GetOr(""), Some(t.email.GetOr("")),
                        Some(t.endereco.GetOr("")), Some(LoadedCpfText(t.cpf)));
    }
  }
}
