# pet-core-mt session, list and form logic in Dafny

This project models the client-side core of `pet-core-mt`, an Angular admin
client for a pet registry (pets, their tutors and the links between them),
and proves properties of that model. The core covers six areas:

- **Session.** The authentication session: the five-field `AuthState` record
  held by `AuthFacade`, its recovery from `sessionStorage` at start-up, and
  login, token refresh and logout. Every change is written through to the
  single storage key `pet_auth_state` by `AuthStorageService`.
- **HTTP interceptor.** It attaches `Authorization: Bearer <token>`
  (RFC 6750, section 2.1). On a 401 it runs a single-flight
  refresh-and-retry: one request starts the refresh, the others wait for the
  new token, and each request is resent at most once.
- **Guard and login page.** The route guard redirects to `/login` with a
  `returnUrl`. The login page sends the user back there once logged in, or
  shows why the login failed.
- **HTTP errors.** The mapping from an HTTP error to the Portuguese message
  the user sees.
- **Input masks.** The CPF and phone masks and the tutor form's own
  `formatCpf`.
- **Lists and forms.**
  - The paginated pets and tutors lists: query defaults, the
    loading/success/failure transitions, search and paging, and the rule
    that only the latest fetch is applied.
  - The query-parameter builders and endpoint paths of the API services.
  - The tutor form's linkable-pets filter, payload normalisation and
    create/update choice.
  - The pet form's loading of the edited pet, its photo flags and its
    post-save photo step.

Each module is one `.dfy` file:

| file | module | models |
|---|---|---|
| `common.dfy` | `Common` | JavaScript string operations (`trim`, `toLowerCase`, `includes`, `replace(/\D/g, '')`, `slice`, numerals), thrown values, and the router and toast services |
| `session.dfy` | `Session` | `AuthState` and its stored text |
| `storage.dfy` | `Storage` | `AuthStorageService` |
| `facade.dfy` | `Facade` | `AuthFacade` |
| `interceptor.dfy` | `Interceptor` | `authInterceptor` |
| `guard.dfy` | `Guard` | `authGuard` |
| `error_messages.dfy` | `ErrorMessages` | `ErrorHandlerService.handleError` |
| `login_page.dfy` | `LoginPage` | `LoginComponent` |
| `masks.dfy` | `Masks` | `CpfMaskDirective`, `PhoneMaskDirective` |
| `paging.dfy` | `Paging` | the list state and facade shared by pets and tutors |
| `api.dfy` | `Api` | `PetsApiService`, `TutoresApiService` |
| `pets_facade.dfy` | `Pets` | `PetsFacade` |
| `tutores_facade.dfy` | `Tutores` | `TutoresFacade` |
| `tutor_form.dfy` | `TutorForm` | `TutorFormComponent` |
| `pet_form.dfy` | `PetForm` | `PetFormComponent` |

Objects whose fields the code updates in place are Dafny classes whose
methods state the whole new state:

- `AuthFacade` and its behaviour subject, with `published` as the log of
  emitted values;
- `AuthStorageService` over a `BrowserStorage` map;
- the interceptor's module-level `isRefreshing` flag and `refreshTokenSubject`;
- the list facades;
- the two form components;
- the mask directives.

Pure computations are functions with their properties proved as lemmas:

- the start-up recovery;
- the login error translation;
- the guard decision;
- `handleError`;
- the masks;
- the query builders;
- the payload builders.

Asynchrony is modelled as explicit events. An API answer, or a refresh
settling, is a parameter of the method that consumes it. Each `Date.now()`
read is the parameter `now`.

Where the repository's tests describe behaviour the code does not have, the
model follows the code. Examples are a storage `isValid`/`watchChanges`
pair, a `raca` query parameter and a `foto` multipart field. The stale
four-field `AuthState` in `auth.models.ts` is not used. The facade builds
and stores five fields from the snake_case response (`access_token`,
`expires_in`, ...), and that is what is modelled.

## Model

All source paths are under `pet-core-mt/src/app/`, written out in full.

| member | source | states |
|---|---|---|
| Common.Router.Navigate | pet-core-mt/src/app/features/pets/pages/pet-form/pet-form.component.ts:185 | a navigation is appended to the router's log and nothing else changes |
| Common.MessageService.Add | pet-core-mt/src/app/features/pets/pages/pet-form/pet-form.component.ts:180-184 | a toast is appended to the toast log |
| Common.Slice | pet-core-mt/src/app/shared/forms/cpf-mask.directive.ts:14-19 | `slice(a, b)` clamps both bounds to the length: it is `s[a..b]` inside the string, runs to the end when only `b` is past it, and is empty when `b <= a` or `a` is past the end |
| Common.Digits | pet-core-mt/src/app/shared/forms/cpf-mask.directive.ts:14 | `replace(/\D/g, '')` yields only digits and is never longer than its input |
| Common.DigitsAppend | pet-core-mt/src/app/shared/forms/cpf-mask.directive.ts:14 | the digit filter distributes over concatenation |
| Common.DigitsOfDigits | pet-core-mt/src/app/shared/forms/cpf-mask.directive.ts:14 | a string of digits is left unchanged by the filter |
| Common.DigitsOfNonDigits | pet-core-mt/src/app/shared/forms/cpf-mask.directive.ts:14 | a string without digits filters to "" |
| Common.DigitsIdempotent | pet-core-mt/src/app/features/tutores/pages/tutor-form/tutor-form.component.ts:216 | filtering digits twice is filtering once |
| Common.TrimStart | pet-core-mt/src/app/features/pets/services/pets.facade.ts:87 | the result is a suffix of the input that does not start with ECMAScript white space |
| Common.TrimEnd | pet-core-mt/src/app/features/pets/services/pets.facade.ts:87 | the result is a prefix of the input that does not end with white space |
| Common.TrimStartSkipsSpaces | pet-core-mt/src/app/features/pets/services/pets.facade.ts:87 | everything the leading trim drops is white space |
| Common.TrimEndSkipsSpaces | pet-core-mt/src/app/features/pets/services/pets.facade.ts:87 | everything the trailing trim drops is white space |
| Common.TrimStartKeepsVisibleEnd | pet-core-mt/src/app/features/pets/services/pets.facade.ts:87 | a string that ends in a visible character does not trim-start to "" |
| Common.Trim | pet-core-mt/src/app/features/pets/services/pets.facade.ts:87 | `trim()` is no longer than its input and has no white space at either end |
| Common.TrimRemovesOnlyEdgeSpaces | pet-core-mt/src/app/features/pets/services/pets.facade.ts:87 | `trim()` is a window of the input with only white space outside it |
| Common.TrimKeepsTrimmed | pet-core-mt/src/app/features/pets/services/pets.facade.ts:87 | a string with no white space at its ends trims to itself |
| Common.TrimIdempotent | pet-core-mt/src/app/features/pets/services/pets.facade.ts:87 | trimming twice is trimming once |
| Common.ErrorDetail | pet-core-mt/src/app/features/auth/pages/login/login.component.ts:50-53 | the detail is the thrown string when it is non-blank, else the fallback; it is non-blank whenever the fallback is |
| Common.VisibleEndNotBlank | pet-core-mt/src/app/features/auth/pages/login/login.component.ts:51 | a string ending in a visible character passes `trim().length > 0` |
| Common.LowerChar | pet-core-mt/src/app/core/auth/auth.facade.ts:85 | ASCII capitals map to lower case; characters outside A-Z and U+00C0..U+00DE are unchanged |
| Common.ToLower | pet-core-mt/src/app/core/auth/auth.facade.ts:85 | `toLowerCase()` keeps the length and maps each character on its own |
| Common.ToLowerAppend | pet-core-mt/src/app/core/auth/auth.facade.ts:85 | lower-casing distributes over concatenation |
| Common.ContainsPrefix | pet-core-mt/src/app/core/auth/auth.facade.ts:85 | `includes` finds a prefix |
| Common.LoweredContainsLoweredHead | pet-core-mt/src/app/core/auth/auth.facade.ts:85 | a lower-cased string includes its own lower-cased head |
| Common.ContainsIff | pet-core-mt/src/app/core/auth/auth.facade.ts:85 | `includes` holds exactly when the needle occurs at some index (both directions) |
| Common.NatToDecimal | pet-core-mt/src/app/core/http/error-handler.service.ts:43 | the numeral of a natural number is non-empty digits with no leading zero |
| Common.IntToDecimal | pet-core-mt/src/app/features/pets/services/pets-api.service.ts:29 | the numeral of an integer is never empty |
| Common.DecimalRoundTrip | pet-core-mt/src/app/features/tutores/pages/tutor-form/tutor-form.component.ts:219 | `Number(String(n)) == n` for every natural `n` |
| Common.Zeros | pet-core-mt/src/app/features/tutores/pages/tutor-form/tutor-form.component.ts:111 | `k` zero digits |
| Common.PadZeros | pet-core-mt/src/app/features/tutores/pages/tutor-form/tutor-form.component.ts:111 | `padStart(k, '0')` leaves long strings alone and left-fills short ones with zeros |
| Common.PadNumeral | pet-core-mt/src/app/features/tutores/pages/tutor-form/tutor-form.component.ts:111 | a digit string is recovered from its number by padding to its length: `Number` loses only leading zeros |
| Common.ParseInt | pet-core-mt/src/app/features/tutores/pages/tutor-form/tutor-form.component.ts:68 | a numeral without a sign parses to a non-negative integer |
| Common.IntDecimalRoundTrip | pet-core-mt/src/app/features/tutores/pages/tutor-form/tutor-form.component.ts:68 | `parseInt(String(n), 10) == n` for every integer |
| Common.IntToDecimalInjective | pet-core-mt/src/app/features/tutores/services/tutores-api.service.ts:37 | distinct integers print differently |
| Session.Serialize | pet-core-mt/src/app/core/auth/auth-storage.service.ts:23 | the stored text of a record is never empty (so `load` never mistakes it for a missing value) |
| Session.DeserializeSerialize | pet-core-mt/src/app/core/auth/auth-storage.service.ts:20-43 | parsing the stored text gives back exactly the saved record |
| Session.SerializeInjective | pet-core-mt/src/app/core/auth/auth-storage.service.ts:23 | distinct records are stored as distinct texts |
| Storage.AuthStorageService.constructor | pet-core-mt/src/app/core/auth/auth-storage.service.ts:12-18 | the service holds the browser storage, or null when it was unavailable |
| Storage.AuthStorageService.Load | pet-core-mt/src/app/core/auth/auth-storage.service.ts:29-43 | null for a missing or throwing store, a missing or empty key, or unparseable text; otherwise the parsed record |
| Storage.AuthStorageService.Save | pet-core-mt/src/app/core/auth/auth-storage.service.ts:20-27 | writes only `pet_auth_state`, leaves a throwing or missing store as it was, and a later load returns the saved record |
| Storage.AuthStorageService.Clear | pet-core-mt/src/app/core/auth/auth-storage.service.ts:45-52 | removes only `pet_auth_state`, never raises, and a later load returns null |
| Storage.SavedRecordLoads | pet-core-mt/src/app/core/auth/auth-storage.service.ts:20-43 | whatever else the store holds, reading back the saved key yields the saved record |
| Facade.SessionFrom | pet-core-mt/src/app/core/auth/auth.facade.ts:69-79 | authenticated, the server's tokens, `expiresAt = now + expires_in*1000` and `refreshExpiresAt = now + refresh_expires_in*1000` |
| Facade.Recover | pet-core-mt/src/app/core/auth/auth.facade.ts:42-65 | the anonymous record when nothing is stored; a wipe exactly when the refresh expiry is past; refresh half copied; access half kept only while valid; authenticated iff the refresh token is usable |
| Facade.RecoverAtRefreshBoundary | pet-core-mt/src/app/core/auth/auth.facade.ts:49-59 | at `refreshExpiresAt == now` the session is not authenticated and storage is not wiped |
| Facade.RecoverIdempotent | pet-core-mt/src/app/core/auth/auth.facade.ts:42-65 | recovering a recovered record changes nothing and wipes nothing |
| Facade.RecoverLoggedInSession | pet-core-mt/src/app/core/auth/auth.facade.ts:42-79 | a session saved by login and reloaded before either expiry comes back unchanged |
| Facade.LoginError | pet-core-mt/src/app/core/auth/auth.facade.ts:82-90 | credential errors become "Usuário ou senha incorretos.", every other error is re-raised unchanged |
| Facade.ToLowerIdempotent | pet-core-mt/src/app/core/auth/auth.facade.ts:85 | lower-casing twice is lower-casing once |
| Facade.CredentialErrorIgnoresCase | pet-core-mt/src/app/core/auth/auth.facade.ts:83-86 | an error and its lower-cased form are recognised alike (both directions) |
| Facade.NotAuthorizedLeadIsCredentialError | pet-core-mt/src/app/core/auth/auth.facade.ts:83-87 | a message opening with "não autorizado" in any case becomes the credentials message |
| Facade.AuthFacade.constructor | pet-core-mt/src/app/core/auth/auth.facade.ts:24 | publishes the recovered record, clears storage exactly once when recovery says so, and otherwise leaves storage untouched |
| Facade.AuthFacade.IsAuthenticated | pet-core-mt/src/app/core/auth/auth.facade.ts:34-36 | the flag of the last published record |
| Facade.AuthFacade.AccessToken | pet-core-mt/src/app/core/auth/auth.facade.ts:38-40 | the access token of the last published record |
| Facade.AuthFacade.UpdateState | pet-core-mt/src/app/core/auth/auth.facade.ts:130-133 | publishes then saves the new record once; the stored copy equals the published state |
| Facade.AuthFacade.Logout | pet-core-mt/src/app/core/auth/auth.facade.ts:125-128 | publishes and saves the anonymous record and navigates to `/login` once |
| Facade.AuthFacade.Login | pet-core-mt/src/app/core/auth/auth.facade.ts:67-92 | success publishes and saves the new session once; failure re-raises the translated error and touches neither state nor storage; never navigates |
| Facade.AuthFacade.RefreshToken | pet-core-mt/src/app/core/auth/auth.facade.ts:94-104 | no refresh token: false and no change; an expired one: logout and false without the API; else the API is asked with the current refresh token |
| Facade.AuthFacade.CompleteRefresh | pet-core-mt/src/app/core/auth/auth.facade.ts:104-122 | success publishes and saves the new session; failure logs out and re-raises the error |
| Interceptor.Bearer | pet-core-mt/src/app/core/auth/auth.interceptor.ts:16 | the header value is exactly "Bearer " followed by the token |
| Interceptor.Authorize | pet-core-mt/src/app/core/auth/auth.interceptor.ts:11-19 | the bearer header is set iff the token is non-empty and the URL is not under `/autenticacao/`; otherwise the request is unchanged |
| Interceptor.BearerInjective | pet-core-mt/src/app/core/auth/auth.interceptor.ts:64-70 | the header carries exactly the token it was built from |
| Interceptor.RetrySends | pet-core-mt/src/app/core/auth/auth.interceptor.ts:57-71 | one resend per waiting call, in order, each with `Bearer <new token>` |
| Interceptor.Sends | pet-core-mt/src/app/core/auth/auth.interceptor.ts:21 | counts the requests of one call among those handed to `next`, never more than were handed |
| Interceptor.SendsAppend | pet-core-mt/src/app/core/auth/auth.interceptor.ts:21 | one more request handed to `next` counts for its own call only |
| Interceptor.SendsMatchResend | pet-core-mt/src/app/core/auth/auth.interceptor.ts:64-70 | a resend of a known call keeps the send counts equal to the calls' attempts |
| Interceptor.SentAtMostTwice | pet-core-mt/src/app/core/auth/auth.interceptor.ts:21-70 | in every reachable state a request has gone out at most twice (its first send and one resend), and nothing went out for a call that has not entered |
| Interceptor.AuthInterceptor.constructor | pet-core-mt/src/app/core/auth/auth.interceptor.ts:6-7 | not refreshing, no token published, nothing sent |
| Interceptor.AuthInterceptor.Intercept | pet-core-mt/src/app/core/auth/auth.interceptor.ts:9-21 | the request is sent once at once, with the header `Authorize` chooses from the facade's current token; the send counts still match the attempts |
| Interceptor.AuthInterceptor.Finish | pet-core-mt/src/app/core/auth/auth.interceptor.ts:21-28 | only the finishing call changes and the waiter list stays exact |
| Interceptor.AuthInterceptor.FailRefresh | pet-core-mt/src/app/core/auth/auth.interceptor.ts:38-53 | the flag is cleared, the call fails with "Token refresh failed", and logout runs twice |
| Interceptor.AuthInterceptor.Reply | pet-core-mt/src/app/core/auth/auth.interceptor.ts:21-28 | success and non-recovered errors end the call and leave the session, what it published, the stored copy and the navigations alone; a 401 during a refresh waits, with the same session, publications and stored copy; a 401 otherwise starts exactly one refresh; resend errors are final; nothing is sent in answer |
| Interceptor.AuthInterceptor.ResendFailed | pet-core-mt/src/app/core/auth/auth.interceptor.ts:43-53 | a resend error is re-raised unchanged; only on the initiating call does it clear the flag and log out |
| Interceptor.AuthInterceptor.Handle401 | pet-core-mt/src/app/core/auth/auth.interceptor.ts:31-62 | while refreshing the call subscribes without a new refresh, leaving the session, what it published and the stored copy alone; otherwise refresh is called exactly once with the broadcast reset |
| Interceptor.AuthInterceptor.Subscribe | pet-core-mt/src/app/core/auth/auth.interceptor.ts:57-59 | the call waits for the token and joins the end of the waiter list |
| Interceptor.AuthInterceptor.StartRefresh | pet-core-mt/src/app/core/auth/auth.interceptor.ts:32-36 | flag up, broadcast reset to null, one refresh call; an immediate false fails the call after two logouts, or three when the facade logged out itself |
| Interceptor.AuthInterceptor.ReleaseWaiters | pet-core-mt/src/app/core/auth/auth.interceptor.ts:57-61 | every waiting call, and no other, is resent once with the token in subscription order; each resent call's send count goes from 1 to 2 with its attempts |
| Interceptor.AuthInterceptor.Resume | pet-core-mt/src/app/core/auth/auth.interceptor.ts:37-44 | flag cleared, token published, waiters resent, then the initiating call resent with `Bearer <new>` |
| Interceptor.AuthInterceptor.RefreshSettled | pet-core-mt/src/app/core/auth/auth.interceptor.ts:36-54 | success with a token resumes every held call; an empty token or an error fails the initiating call after two logouts and resends nothing |
| Interceptor.RefreshAndRetryRun | pet-core-mt/src/app/core/auth/auth.interceptor.ts:9-44 | "old" → 401 → refresh → resent once with "new" and delivered; one refresh call, no logout |
| Interceptor.TwoRequestsMeet401 | pet-core-mt/src/app/core/auth/auth.interceptor.ts:9-62 | two requests sent with "old" both get 401: the first starts the only refresh, the second waits for its token |
| Interceptor.ConcurrentRetryRun | pet-core-mt/src/app/core/auth/auth.interceptor.ts:31-62 | two 401s during one refresh give one refresh call; the waiter is resent before the initiator |
| Interceptor.FailedRefreshRun | pet-core-mt/src/app/core/auth/auth.interceptor.ts:31-61 | a failed refresh fails the initiator after two logouts; the waiter is still waiting at the end of the run and has not been resent |
| Guard.Decide | pet-core-mt/src/app/core/auth/auth.guard.ts:12-18 | allow iff authenticated; otherwise exactly the redirect to `/login` with `returnUrl` set to the URL |
| Guard.CanActivate | pet-core-mt/src/app/core/auth/auth.guard.ts:6-20 | answers the current flag, navigates once only when refusing, and never changes the session |
| ErrorMessages.StatusFallback | pet-core-mt/src/app/core/http/error-handler.service.ts:43 | `Erro <status>. Tente novamente.` opens with "Erro " |
| ErrorMessages.HandleError | pet-core-mt/src/app/core/http/error-handler.service.ts:11-48 | client-side, 0, 401, 403, 404 and 500 give fixed messages; 400/422 and other statuses prefer the body's message; the result is never empty |
| ErrorMessages.ClientSideIgnoresResponse | pet-core-mt/src/app/core/http/error-handler.service.ts:14-16 | a client-side error gives the same message whatever the status and body |
| ErrorMessages.FixedStatusIgnoresBody | pet-core-mt/src/app/core/http/error-handler.service.ts:20-41 | for 0, 401, 403, 404 and 500 the body never changes the message |
| ErrorMessages.StatusFallbackInjective | pet-core-mt/src/app/core/http/error-handler.service.ts:43 | different statuses give different fallback messages |
| LoginPage.LoginTarget | pet-core-mt/src/app/features/auth/pages/login/login.component.ts:46 | `returnUrl` when truthy, else "/" |
| LoginPage.FailureToast | pet-core-mt/src/app/features/auth/pages/login/login.component.ts:49-54 | an error toast whose detail is the non-blank thrown string or the fixed fallback, never blank |
| LoginPage.LoginComponent.constructor | pet-core-mt/src/app/features/auth/pages/login/login.component.ts:26-31 | both fields empty, not loading |
| LoginPage.LoginComponent.OnSubmit | pet-core-mt/src/app/features/auth/pages/login/login.component.ts:33-42 | sends the credentials iff both fields are filled, and then starts loading; otherwise changes nothing |
| LoginPage.LoginComponent.OnLoginSettled | pet-core-mt/src/app/features/auth/pages/login/login.component.ts:41-56 | loading ends either way; success stores the session and navigates to the target; failure leaves the session and shows the translated error |
| LoginPage.LoginComponent.Present | pet-core-mt/src/app/features/auth/pages/login/login.component.ts:44-55 | success navigates once with no toast; failure shows one toast with no navigation |
| LoginPage.GuardRedirectReturns | pet-core-mt/src/app/features/auth/pages/login/login.component.ts:46 | a user the guard stopped at a URL is sent back to that URL after logging in |
| LoginPage.UnauthorizedIsCredentialError | pet-core-mt/src/app/core/http/error-handler.service.ts:28 | the 401 message is read by the facade as a credential error |
| LoginPage.RejectedLoginMessage | pet-core-mt/src/app/features/auth/pages/login/login.component.ts:49-54 | a login refused with 401 shows "Usuário ou senha incorretos." whatever the body says |
| Masks.DigitsAround | pet-core-mt/src/app/shared/forms/cpf-mask.directive.ts:21-24 | a separator adds no digits |
| Masks.CpfShape | pet-core-mt/src/app/shared/forms/cpf-mask.directive.ts:16-24 | the 3/6/9 layout by digit count, at most 14 characters, whose digits are exactly the input |
| Masks.FormatCpf | pet-core-mt/src/app/shared/forms/cpf-mask.directive.ts:14-24 | removing `.` and `-` gives back the first 11 digits; at most 14 characters; 3 or fewer digits unchanged |
| Masks.FormatCpfIdempotent | pet-core-mt/src/app/shared/forms/cpf-mask.directive.ts:12-28 | masking a masked CPF changes nothing |
| Masks.FormatCpfDependsOnDigitsOnly | pet-core-mt/src/app/shared/forms/cpf-mask.directive.ts:14 | inputs with the same first 11 digits mask alike |
| Masks.CpfOfGroups | pet-core-mt/src/app/shared/forms/cpf-mask.directive.ts:24 | 11 digits give `ddd.ddd.ddd-dd` |
| Masks.FormatCpfExample | pet-core-mt/src/app/shared/forms/cpf-mask.directive.ts:24 | "12345678901" gives "123.456.789-01" |
| Masks.DigitsOfAreaForm | pet-core-mt/src/app/shared/forms/phone-mask.directive.ts:20 | the digits of `(a) b` are those of `a` then `b` |
| Masks.DigitsOfLineForm | pet-core-mt/src/app/shared/forms/phone-mask.directive.ts:22 | the digits of `(a) b-c` are those of `a`, `b`, `c` |
| Masks.PhoneShape | pet-core-mt/src/app/shared/forms/phone-mask.directive.ts:17-25 | the 2/6/10/11+ layouts, with digits past the eleventh appended unchanged; its digits are exactly the input |
| Masks.FormatPhone | pet-core-mt/src/app/shared/forms/phone-mask.directive.ts:15-25 | the digits of the output equal those of the input, with no length cap; 2 or fewer digits unchanged |
| Masks.FormatPhoneIdempotent | pet-core-mt/src/app/shared/forms/phone-mask.directive.ts:13-31 | masking a masked phone number changes nothing |
| Masks.PhoneOfGroups | pet-core-mt/src/app/shared/forms/phone-mask.directive.ts:24 | 11 digits give `(dd) ddddd-dddd` |
| Masks.FormatPhoneExample | pet-core-mt/src/app/shared/forms/phone-mask.directive.ts:24 | "65999990000" gives "(65) 99999-0000" |
| Masks.CpfMaskDirective.constructor | pet-core-mt/src/app/shared/forms/cpf-mask.directive.ts:9 | the optional control is held |
| Masks.CpfMaskDirective.OnInput | pet-core-mt/src/app/shared/forms/cpf-mask.directive.ts:12-28 | the input holds the masked text and the control, when present, holds the same string |
| Masks.PhoneMaskDirective.constructor | pet-core-mt/src/app/shared/forms/phone-mask.directive.ts:10 | the optional control is held |
| Masks.PhoneMaskDirective.OnInput | pet-core-mt/src/app/shared/forms/phone-mask.directive.ts:13-31 | the input holds the masked text and the control, when present, holds the same string |
| Masks.CpfTypingRun | pet-core-mt/src/app/shared/forms/cpf-mask.directive.ts:12-28 | typing "12345678901" leaves "123.456.789-01" in input and control |
| Masks.PhoneTypingRun | pet-core-mt/src/app/shared/forms/phone-mask.directive.ts:13-31 | typing "65999990000" leaves "(65) 99999-0000" in input and control |
| Paging.InitialState | pet-core-mt/src/app/features/pets/services/pets.facade.ts:17-26 | empty list, not loading, no error, query `{page: 0, size: 10}`, `total`, `pageCount` and `currentPage` 0, `pageSize` 10 |
| Paging.WithDefaults | pet-core-mt/src/app/features/pets/services/pets.facade.ts:57 | `{page: 0, size: 10, ...query}`: the caller's fields win and both paging fields are set |
| Paging.PagedQueryUnchanged | pet-core-mt/src/app/features/pets/services/pets.facade.ts:57 | a query with both paging fields is used as it is |
| Paging.WithDefaultsIdempotent | pet-core-mt/src/app/features/pets/services/pets.facade.ts:57 | applying the defaults twice is applying them once |
| Paging.Started | pet-core-mt/src/app/features/pets/services/pets.facade.ts:59 | loading, no error, the query recorded, every other field unchanged |
| Paging.Loaded | pet-core-mt/src/app/features/pets/services/pets.facade.ts:62-70 | not loading; list and counters from the page; query and error kept |
| Paging.LoadFailed | pet-core-mt/src/app/features/pets/services/pets.facade.ts:72-74 | not loading; the string error or the fallback; list, counters and query kept |
| Paging.EmptyPage | pet-core-mt/src/app/features/pets/services/pets.facade.ts:75-81 | an empty page echoing the query's page and size (0 and 10 when absent) |
| Paging.EmptyPageEchoesQuery | pet-core-mt/src/app/features/pets/services/pets.facade.ts:75-81 | the empty page of a failed load repeats the effective query's paging |
| Paging.QueryParams | pet-core-mt/src/app/features/pets/services/pets-api.service.ts:13-23 | `nome` iff non-empty; `page` and `size` iff present, 0 included; no other keys |
| Paging.BlankSearchListsAll | pet-core-mt/src/app/features/pets/services/pets-api.service.ts:15-17 | an empty name sends the same parameters as no name |
| Paging.EffectiveQuerySendsPaging | pet-core-mt/src/app/features/pets/services/pets-api.service.ts:18-23 | every effective query sends both paging parameters |
| Paging.ListFacade.constructor | pet-core-mt/src/app/features/pets/services/pets.facade.ts:34 | the initial state, no active request |
| Paging.ListFacade.Load | pet-core-mt/src/app/features/pets/services/pets.facade.ts:56-84 | records the effective query, shows the load at once and keeps its answer live |
| Paging.ListFacade.Fetch | pet-core-mt/src/app/features/pets/services/pets.facade.ts:51-54 | cancels the previous active fetch and makes the new load the active one |
| Paging.ListFacade.Answered | pet-core-mt/src/app/features/pets/services/pets.facade.ts:61-83 | a cancelled answer changes nothing; otherwise success is loaded and failure shown, emitting the empty page |
| Paging.ListFacade.SearchByName | pet-core-mt/src/app/features/pets/services/pets.facade.ts:86-90 | fetches exactly `{nome: trimmed, page: 0, size: 10}`: the state shows that query loading, the new load is the active one and replaces the cancelled one in the live set |
| Paging.ListFacade.GoToPage | pet-core-mt/src/app/features/pets/services/pets.facade.ts:92-95 | refetches the current query with only `page` replaced: the state shows it loading, the new load is the active one and replaces the cancelled one in the live set |
| Paging.LatestFetchWinsRun | pet-core-mt/src/app/features/pets/services/pets.facade.ts:51-54 | of two fetches answered out of order, only the newer one is shown |
| Api.ItemPath | pet-core-mt/src/app/features/pets/services/pets-api.service.ts:29 | `<collection>/<id>` |
| Api.ItemPathInjective | pet-core-mt/src/app/features/tutores/services/tutores-api.service.ts:37 | different ids give different item paths |
| Api.GetPets | pet-core-mt/src/app/features/pets/services/pets-api.service.ts:12-26 | GET `/v1/pets` with the query's params |
| Api.GetPetById | pet-core-mt/src/app/features/pets/services/pets-api.service.ts:28-30 | GET `/v1/pets/<id>` |
| Api.GetTutores | pet-core-mt/src/app/features/tutores/services/tutores-api.service.ts:12-26 | GET `/v1/tutores` with the query's params |
| Api.GetTutorById | pet-core-mt/src/app/features/tutores/services/tutores-api.service.ts:28-30 | GET `/v1/tutores/<id>` |
| Api.CreateTutor | pet-core-mt/src/app/features/tutores/services/tutores-api.service.ts:32-34 | POST the tutor to `/v1/tutores`, with no query parameters |
| Api.UpdateTutor | pet-core-mt/src/app/features/tutores/services/tutores-api.service.ts:36-38 | PUT the tutor to `/v1/tutores/<id>`, with no query parameters |
| Api.UploadTutorPhoto | pet-core-mt/src/app/features/tutores/services/tutores-api.service.ts:40-44 | multipart POST to `/v1/tutores/<id>/fotos` under the field `file`, with no query parameters |
| Api.CreateAndUpdateDiffer | pet-core-mt/src/app/features/tutores/services/tutores-api.service.ts:32-38 | a create and an update never reach the same path |
| Api.UploadPathInjective | pet-core-mt/src/app/features/tutores/services/tutores-api.service.ts:40-44 | a photo upload never lands on another tutor's path |
| Pets.PetsFacade.constructor | pet-core-mt/src/app/features/pets/services/pets.facade.ts:34 | a fresh list in the initial state whose failures read "Erro ao carregar pets" |
| Tutores.Fallback | pet-core-mt/src/app/features/tutores/services/tutores.facade.ts:97-170 | every fallback text is an "Erro ao ..." sentence |
| Tutores.FallbacksDistinct | pet-core-mt/src/app/features/tutores/services/tutores.facade.ts:97-170 | different operations have different fallback texts |
| Tutores.OperationError | pet-core-mt/src/app/features/tutores/services/tutores.facade.ts:108-111 | a string error is kept; anything else becomes the operation's fallback |
| Tutores.TextErrorsPassThrough | pet-core-mt/src/app/features/tutores/services/tutores.facade.ts:108-111 | a string error reads the same whichever operation raised it |
| Tutores.Wrapped | pet-core-mt/src/app/features/tutores/services/tutores.facade.ts:106-113 | the value passes unchanged; an error is rewritten; success iff the API succeeded |
| Tutores.TutoresFacade.constructor | pet-core-mt/src/app/features/tutores/services/tutores.facade.ts:34 | a fresh list in the initial state whose failures read "Erro ao carregar tutores" |
| Tutores.TutoresFacade.DeleteTutor | pet-core-mt/src/app/features/tutores/services/tutores.facade.ts:160-170 | success refetches the current query exactly once (the list shows it loading, the refetch is the active load and replaces the cancelled one); failure changes nothing and re-raises the rewritten error |
| Tutores.DeleteRefetchRun | pet-core-mt/src/app/features/tutores/services/tutores.facade.ts:160-170 | deleting while page 2 of a search is shown reloads exactly that page of that search |
| TutorForm.ComponentFormatCpf | pet-core-mt/src/app/features/tutores/pages/tutor-form/tutor-form.component.ts:291-297 | `formatCpf` returns the CPF mask directive's text for every input |
| TutorForm.Unlinked | pet-core-mt/src/app/features/tutores/pages/tutor-form/tutor-form.component.ts:144-145 | exactly the pets whose id is not linked, as a subsequence of the input, each kept as many times as it occurs |
| TutorForm.LinkablePets | pet-core-mt/src/app/features/tutores/pages/tutor-form/tutor-form.component.ts:140-146 | all pets without a tutor; else exactly the unlinked ones, in order, each kept as many times as it occurs |
| TutorForm.LinkedPetsNotOffered | pet-core-mt/src/app/features/tutores/pages/tutor-form/tutor-form.component.ts:144-145 | a pet linked to the tutor is never offered |
| TutorForm.Optional | pet-core-mt/src/app/features/tutores/pages/tutor-form/tutor-form.component.ts:217-218 | the trimmed value, absent when blank or null (present iff non-blank) |
| TutorForm.CpfField | pet-core-mt/src/app/features/tutores/pages/tutor-form/tutor-form.component.ts:213-219 | absent iff there are no digits, else the non-negative number of the digits |
| TutorForm.BuildPayload | pet-core-mt/src/app/features/tutores/pages/tutor-form/tutor-form.component.ts:212-220 | trimmed name, phone digits, optional email and address, numeric CPF |
| TutorForm.OptionalStable | pet-core-mt/src/app/features/tutores/pages/tutor-form/tutor-form.component.ts:217 | normalising an optional field twice is normalising once |
| TutorForm.CpfFieldStable | pet-core-mt/src/app/features/tutores/pages/tutor-form/tutor-form.component.ts:219 | a CPF number printed back is read as the same number |
| TutorForm.PayloadStable | pet-core-mt/src/app/features/tutores/pages/tutor-form/tutor-form.component.ts:212-220 | a form holding a payload's values submits that payload again |
| TutorForm.SaveCall | pet-core-mt/src/app/features/tutores/pages/tutor-form/tutor-form.component.ts:221-225 | update when the page has an id, create otherwise, carrying the payload |
| TutorForm.LoadedCpfText | pet-core-mt/src/app/features/tutores/pages/tutor-form/tutor-form.component.ts:111 | as written: "" for no CPF, else the mask of the printed number |
| TutorForm.RestoredCpfText | pet-core-mt/src/app/features/tutores/pages/tutor-form/tutor-form.component.ts:111 | the mask of the number padded back to 11 digits |
| TutorForm.LeadingZeroCpfLost | pet-core-mt/src/app/features/tutores/pages/tutor-form/tutor-form.component.ts:111 | as written, a CPF starting with 0 does not survive a save and a reload |
| TutorForm.CpfRoundTrip | pet-core-mt/src/app/features/tutores/pages/tutor-form/tutor-form.component.ts:111 | with the padding, every 11-digit CPF survives a save and a reload |
| TutorForm.TutorFormComponent.constructor | pet-core-mt/src/app/features/tutores/pages/tutor-form/tutor-form.component.ts:57-64 | empty form, nothing loading, no error, no file |
| TutorForm.TutorFormComponent.OnSubmit | pet-core-mt/src/app/features/tutores/pages/tutor-form/tutor-form.component.ts:203-225 | an invalid form sends nothing; a valid one starts loading, clears the error and sends the normalised payload to the right endpoint |
| TutorForm.TutorFormComponent.OnSaved | pet-core-mt/src/app/features/tutores/pages/tutor-form/tutor-form.component.ts:227-256 | loading ends; success uploads a selected photo or navigates to the tutor; failure shows the error |
| TutorForm.TutorFormComponent.OnUploaded | pet-core-mt/src/app/features/tutores/pages/tutor-form/tutor-form.component.ts:248-272 | uploading ends and the page goes to the tutor either way, showing the error on failure |
| TutorForm.TutorFormComponent.OnTutorLoaded | pet-core-mt/src/app/features/tutores/pages/tutor-form/tutor-form.component.ts:104-112 | the form takes the tutor's fields, absent ones as ""; the CPF is `formatCpf(tutor.cpf)` as written (`LoadedCpfText`, no padding, so a leading zero is lost) |
| PetForm.AgeField | pet-core-mt/src/app/features/pets/pages/pet-form/pet-form.component.ts:158 | `idade` is absent iff null or '', else the number |
| PetForm.SentAgeNotNegative | pet-core-mt/src/app/features/pets/pages/pet-form/pet-form.component.ts:50 | a form that passes `Validators.min(0)` never sends a negative age |
| PetForm.PostSaveAction | pet-core-mt/src/app/features/pets/pages/pet-form/pet-form.component.ts:169-186 | replace/upload iff a file is selected; replace/delete iff id, pending removal and photo id; the pet id is the page's or the saved one |
| PetForm.NothingPendingFinishes | pet-core-mt/src/app/features/pets/pages/pet-form/pet-form.component.ts:177-186 | with no file and no pending removal the save finishes at once |
| PetForm.PhotoFallbackNotBlank | pet-core-mt/src/app/features/pets/pages/pet-form/pet-form.component.ts:198-287 | none of the photo-step fallback texts is blank |
| PetForm.PhotoFallbacksDistinct | pet-core-mt/src/app/features/pets/pages/pet-form/pet-form.component.ts:198-287 | each photo step has its own fallback text |
| PetForm.PhotoWarning | pet-core-mt/src/app/features/pets/pages/pet-form/pet-form.component.ts:218-223 | a warning with the non-blank thrown string, else the step's fallback |
| PetForm.PhotoWarningNeverBlank | pet-core-mt/src/app/features/pets/pages/pet-form/pet-form.component.ts:218-223 | the warning always says something |
| PetForm.AgeOf | pet-core-mt/src/app/features/pets/pages/pet-form/pet-form.component.ts:72 | a loaded age is null exactly when the pet has none, else that number |
| PetForm.LoadedAgeRoundTrip | pet-core-mt/src/app/features/pets/pages/pet-form/pet-form.component.ts:72 | a loaded age is sent back unchanged by the next save |
| PetForm.LoadedPhotoId | pet-core-mt/src/app/features/pets/pages/pet-form/pet-form.component.ts:74 | the photo id is present exactly when the pet loaded and has a photo, and is that photo's id |
| PetForm.LoadedPhotoUrl | pet-core-mt/src/app/features/pets/pages/pet-form/pet-form.component.ts:75-80 | the photo URL is kept exactly when the pet loaded with a photo whose URL is truthy |
| PetForm.PetFormComponent.constructor | pet-core-mt/src/app/features/pets/pages/pet-form/pet-form.component.ts:46-90 | with an id, a loaded pet fills `nome`, `raca` and `idade` (null when absent) and its photo (url only when truthy) is the preview; a failed load shows the 'Erro ao carregar dados do pet' toast and leaves the form empty; nothing is pending |
| PetForm.PetFormComponent.ClearSelectedPhoto | pet-core-mt/src/app/features/pets/pages/pet-form/pet-form.component.ts:92-104 | nothing without a file; else file and input cleared, preview null while removal is pending, else the current photo |
| PetForm.PetFormComponent.ToggleRemoveCurrentPhoto | pet-core-mt/src/app/features/pets/pages/pet-form/pet-form.component.ts:106-130 | no-op when blocked; cancels a pending removal and restores the preview; a confirmed request hides the preview |
| PetForm.PetFormComponent.OnFileSelected | pet-core-mt/src/app/features/pets/pages/pet-form/pet-form.component.ts:132-137 | the first chosen file becomes the selected one; no file changes nothing |
| PetForm.PetFormComponent.OnPreviewRead | pet-core-mt/src/app/features/pets/pages/pet-form/pet-form.component.ts:139-141 | the preview becomes the file's data URL |
| PetForm.PetFormComponent.Payload | pet-core-mt/src/app/features/pets/pages/pet-form/pet-form.component.ts:155-159 | name, breed and the converted age |
| PetForm.PetFormComponent.OnSubmit | pet-core-mt/src/app/features/pets/pages/pet-form/pet-form.component.ts:146-164 | an invalid form sends nothing; with an id it updates, else creates; never a negative age |
| PetForm.PetFormComponent.OnSaved | pet-core-mt/src/app/features/pets/pages/pet-form/pet-form.component.ts:166-196 | success picks the photo step, never dropping a pending removal, and finishes at once only with nothing to do; failure shows the error |
| PetForm.PetFormComponent.OnPhotoSettled | pet-core-mt/src/app/features/pets/pages/pet-form/pet-form.component.ts:198-287 | uploading ends and the page goes to the pet; success says saved; failure shows the step's warning |
| PetForm.RemovalToggleRun | pet-core-mt/src/app/features/pets/pages/pet-form/pet-form.component.ts:106-178 | confirming a removal hides the preview, toggling restores it, and a pending removal with a new file replaces the photo |

## Left out

- HTTP transport is not part of this model. This covers `http-helper.service.ts`, `auth-api.service.ts`, the base URL and `HttpParams`. Requests are described as `HttpCall` values, and every API answer is a method parameter.
- `ErrorHandlerService.logError` and all console output: logging only.
- `sessionStorage` and `JSON.stringify`/`JSON.parse` are replaced. The store is a map in `BrowserStorage`, where a `throwing` flag stands for a store that raises. JSON becomes the `Serialize`/`Deserialize` pair, whose round trip is proved.
- `Date.now()` is a parameter. Login and refresh read the clock twice; the model uses one `now` for both reads.
- RxJS asynchrony is modelled as sequential events, each applied to one shared state:
  - observables become returned values;
  - the interceptor's in-flight requests become `Intercept`/`Reply`/`RefreshSettled` events;
  - the subjects become published logs.

  Subscription timing beyond "the latest fetch wins" is not modelled.
- `isAuthenticated$`/`accessToken$` are not modelled as streams. The guard reads the current value, which is what the replayed first value is.
- `FileReader`: `OnPreviewRead` takes the data URL the reader produces.
- The 2-second `setTimeout` before navigating after a failed photo step. `OnPhotoSettled` and `OnUploaded` navigate at once.
- The confirmation dialog of `toggleRemoveCurrentPhoto` is the `confirmed` parameter.
- Angular validators are reduced to what the forms check:
  - required fields are non-empty;
  - `Validators.email` is the `emailWellFormed` flag;
  - `Validators.min(0)` applies to the age.
- `markFormGroupTouched` only changes display state.
- NaN from `Number`/`parseInt` on non-numeric text is not modelled. The age control holds a number or is empty, and route ids are integers.
- `Number(cpfDigits)` and `Number(idade)` are modelled as exact integers. The CPF mask caps the field at 11 digits, far below 2^53, and the age is taken as an integer (fractional ages are not modelled).
- Letter case: `ToLower` maps ASCII and the Latin-1 capitals (which cover Portuguese), not full Unicode case mapping.
- The `cancel` methods of the forms (navigation only) are not modelled.
- The pet form's `loadPet` is folded into the constructor: its `answer` parameter is what `fetchPetDetail` answered, so the form is modelled after that answer and not while it is pending (`isLoading` true in between).
- The tutor form's dialog, search and photo plumbing are not modelled: `linkPet`, `unlinkPet`, `openLinkDialog`, `closeLinkDialog`, the debounced search subject, `loadTutor`'s error branch, `loadTutor`'s `tutorDetail.set` and `previewUrl.set`, and `onFileSelected` with its preview. The component has no `tutorDetail` or `previewUrl` field. `OnSaved` states the upload branch for any `selectedFile`, but no modelled method puts a file there.
- `pets.facade.ts` has no `createPet`, `updatePet`, `deletePetPhoto`, `uploadPetPhoto` or `fetchPetDetail`, although the pet form calls them. The saves are therefore `PetSave` values, the photo steps `PhotoAction` values, and the loaded pet a `PetDetail` given to the constructor.
- `tutores-api.service.ts` has no `deleteTutorPhoto`, `linkPet`, `unlinkPet` or `deleteTutor`, although the tutors facade calls them. Those facade operations are modelled only through `Wrapped`, their error rewriting.
- The initial `message` value in `handleError` is never returned (every branch assigns), so it is not modelled.
- `PetsFacade` and `TutoresFacade` share one generic `ListFacade`, since their list code is identical apart from the item type and the error text.
- These are not part of this model:
  - the list components (`list-pets`, `list-tutores`);
  - `pet-detail` and `tutor-detail`;
  - the route tables, `app.ts` and `app.config.ts`;
  - the unrouted duplicate `pages/login/login.component.ts`;
  - the stale `auth.models.ts` types.
- Common.LowerChar: only states ASCII capitals and the characters it leaves unchanged; the Latin-1 capitals are mapped in the body without an ensures of their own.

## Findings

| source | as written | input that shows it | evidently intended | confidence | as-written member | corrected member |
|---|---|---|---|---|---|---|
| pet-core-mt/src/app/features/tutores/pages/tutor-form/tutor-form.component.ts:111 | The edit page formats the stored CPF number (`formatCpf(tutor.cpf)`). The save at line 219 had turned the digits into `Number(cpfDigits)`, so leading zeros are gone. | "012.345.678-90" is saved as 1234567890 and shows again as "123.456.789-0", one digit short. | The stored number should be padded back to 11 digits before formatting, so the CPF shows as it was entered. | not executed | TutorForm.LeadingZeroCpfLost | TutorForm.CpfRoundTrip |
