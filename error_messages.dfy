/** The HTTP error to message mapping (error-handler.service.ts): every
    failed API call reaches its caller as one of these strings. */
module ErrorMessages {
  import opened Common

  /** What `handleError` looks at in an `HttpErrorResponse`: whether
      `error.error` is a client-side `ErrorEvent`, the status, and
      `error.error?.message` when the body has one. */
  datatype HttpErrorResponse = HttpErrorResponse(clientSide: bool, status: int, bodyMessage: Option<string>)

  const CommunicationFailure := "Erro de comunica\U{00E7}\U{00E3}o. Verifique sua conex\U{00E3}o."
  const ApiUnreachable := "N\U{00E3}o foi poss\U{00ED}vel conectar na API. Verifique se ela est\U{00E1} rodando e se a URL est\U{00E1} correta."
  const InvalidData := "Dados inv\U{00E1}lidos. Verifique as informa\U{00E7}\U{00F5}es."
  /** The 401 message, which opens with "Não autorizado". */
  const NotAuthorizedLead := "N\U{00E3}o autorizado"
  const Unauthorized := NotAuthorizedLead + ". Fa\U{00E7}a login novamente."
  const Forbidden := "Acesso negado."
  const NotFound := "Recurso n\U{00E3}o encontrado."
  const ServerFailure := "Erro interno do servidor. Tente novamente mais tarde."

  /** `Erro ${status}. Tente novamente.` */
  function StatusFallback(status: int): (m: string)
    ensures |m| > 5 && m[..5] == "Erro "
  {
    "Erro " + IntToDecimal(status) + ". Tente novamente."
  }

  /** The statuses whose message ignores the body. */
  predicate FixedStatus(status: int) {
    status == 0 || status == 401 || status == 403 || status == 404 || status == 500
  }

  /** `handleError`. */
  function HandleError(e: HttpErrorResponse): (m: string)
    ensures m != ""
    ensures e.clientSide ==> m == CommunicationFailure
    ensures !e.clientSide && e.status == 0 ==> m == ApiUnreachable
    ensures !e.clientSide && e.status == 401 ==> m == Unauthorized
    ensures !e.clientSide && e.status == 403 ==> m == Forbidden
    ensures !e.clientSide && e.status == 404 ==> m == NotFound
    ensures !e.clientSide && e.status == 500 ==> m == ServerFailure
    // 400 and 422 prefer the server's message, then a fixed one
    ensures !e.clientSide && (e.status == 400 || e.status == 422) ==>
      m == if TruthyText(e.bodyMessage) then e.bodyMessage.value else InvalidData
    // any other status prefers the server's message, then one naming the status
    ensures !e.clientSide && !FixedStatus(e.status) && e.status != 400 && e.status != 422 ==>
      m == if TruthyText(e.bodyMessage) then e.bodyMessage.value else StatusFallback(e.status)
  {
    if e.clientSide then CommunicationFailure
    else if e.status == 0 then ApiUnreachable
    else if e.status == 400 || e.status == 422 then
      (if TruthyText(e.bodyMessage) then e.bodyMessage.value else InvalidData)
    else if e.status == 401 then Unauthorized
    else if e.status == 403 then Forbidden
    else if e.status == 404 then NotFound
    else if e.status == 500 then ServerFailure
    else if TruthyText(e.bodyMessage) then e.bodyMessage.value
    else StatusFallback(e.status)
  }

  /** A client-side failure reads the same whatever the status and body. */
  lemma ClientSideIgnoresResponse(a: HttpErrorResponse, b: HttpErrorResponse)
    requires a.clientSide && b.clientSide
    ensures HandleError(a) == HandleError(b)
  {
  }

  /** For 0, 401, 403, 404 and 500 the server's body is never shown. */
  lemma FixedStatusIgnoresBody(status: int, a: Option<string>, b: Option<string>)
    requires FixedStatus(status)
    ensures HandleError(HttpErrorResponse(false, status, a)) == HandleError(HttpErrorResponse(false, status, b))
  {
  }

  /** Two texts with the same frame around them are equal only when their
      middles are. */
  lemma MiddleCancels(head: string, x: string, y: string, tail: string)
    requires head + x + tail == head + y + tail
    ensures x == y
  {
    var s, t := head + x + tail, head + y + tail;
    assert |x| == |y|;
    assert x == s[|head|..|head| + |x|];
    assert y == t[|head|..|head| + |y|];
  }

  /** Unrecognised statuses without a body message are told apart by their
      message. */
  lemma {:induction false} StatusFallbackInjective(a: int, b: int)
    requires StatusFallback(a) == StatusFallback(b)
    ensures a == b
  {
    MiddleCancels("Erro ", IntToDecimal(a), IntToDecimal(b), ". Tente novamente.");
    IntToDecimalInjective(a, b);
  }
}
