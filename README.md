# Beauty-service catalog and booking site: a Dafny model of its logic

This project models the logic of a small Vue site that shows a catalog of
beauty services and prepares WhatsApp booking messages. The model covers five
pieces:

- **Schemas** (`schemas.dfy`): the zod schemas `ServiceSchema`,
  `ServiceListSchema` and `AppointmentResponseSchema`. Each is written twice.
  A predicate says which decoded JSON values the schema accepts. A parse
  function builds the typed record. Lemmas show that the two agree. They also
  show that parsing drops exactly the unknown keys, and that a record
  serialised to JSON parses back to itself exactly when it satisfies the
  record invariant.
- **Service fetching** (`beauty_service.dfy`): the static-mode decision, the
  API and snapshot URLs, and `fetchServices`, `fetchServiceById` and
  `createAppointment`. Each is a function from the build environment and a
  transport to a result. The transport is a function from the requested URL
  to what came back.
- **Catalog loading state** (`use_services.dfy`): the `services` / `loading` /
  `error` refs of `useServices` as a class. Its mount handler is a method.
- **Theme** (`use_theme.dfy`): the global `isDark` ref, the `<html>` class
  list and `localStorage` as a class. Its methods are `updateTheme`,
  `toggleTheme`, `initTheme` and the system-preference listener.
- **WhatsApp links** (`whatsapp.dfy`, `uri_encoding.dfy`): the message
  builders, and the link built with `encodeURIComponent`. That built-in is
  modelled as ECMA-262 defines it (section 19.2.6, URI Handling Functions),
  with UTF-8 percent-encoding. `decodeURIComponent` is modelled as its
  inverse.

Supporting modules: `wrappers.dfy` holds `Option` and `Result`. `json.dfy`
holds the decoded-JSON datatype. `service_types.dfy` holds the records of
`src/types/service.ts` and `src/types/appointment.ts`.

The state-changing parts (`useServices`, `useTheme`) are classes whose fields
the methods update. Each method's postcondition ties the new state to a pure
function of the old state (`Settled`, `Updated`, `Toggled`, `Initialized`,
`AfterSystemChange`). The lemmas are stated about those functions.

Behaviour worth noting:

- In static mode, a failed catalog fetch gives the empty list.
- In live mode, every `fetchServices` failure is passed on to the caller.
- `estimated_price` may have any sign.
- `name` and `category` may be empty strings.
- The `details` lists are required whenever `details` is present. This
  follows the schema, not the `ServiceDetails` interface, where they are
  optional.
- `fetchServiceById` always uses `API_URL`. In static mode this is the local
  default `http://127.0.0.1:8000` (see `FetchServiceByIdAlwaysUsesApi`).

## Model

| member | source | states |
|---|---|---|
| `Schemas.ParseArray` | src/types/schemas.ts:20 | `z.array`: succeeds iff every item parses; then the same length, with each item's parse at its own index |
| `Schemas.ParseDetails` | src/types/schemas.ts:13-16 | a details value parses iff it is an object with both `products_used` and `contraindications` as string arrays |
| `Schemas.ParseService` | src/types/schemas.ts:4-17 | parses exactly the JSON `ServiceSchema` accepts (strings for the text fields, any string allowed; price > 0; duration a positive integer; URL-checked image and gallery entries; optional details); every parsed Service satisfies `ValidService` |
| `Schemas.ParseServiceList` | src/types/schemas.ts:20 | a list is accepted iff every element is a Service (so `[]` is accepted); the result keeps length and order and holds only valid Services |
| `Schemas.ParseAppointmentResponse` | src/types/schemas.ts:23-28 | accepts exactly objects with string `status`, `message`, `appointment_id` and a numeric `estimated_price` of any sign; the parsed response serialises back to the input's four fields, unknown keys dropped |
| `Schemas.ParsedServiceIsStrippedInput` | src/types/schemas.ts:4-17 | a parsed Service serialises back to its input with the unnamed keys removed (also inside `details`) |
| `Schemas.ParseServiceIgnoresUnknownKeys` | src/types/schemas.ts:4-17 | removing keys the schema does not name never changes the parse result |
| `Schemas.ServiceRoundTrip` | src/types/schemas.ts:4-17 | a Service serialised and parsed back is itself iff it satisfies the record invariant, otherwise rejected |
| `Schemas.DetailsRoundTrip` | src/types/schemas.ts:13-16 | every details record survives serialisation and parsing |
| `Schemas.ServiceListRoundTrip` | src/types/schemas.ts:20 | a list of valid Services survives serialisation and list parsing unchanged, in order |
| `Schemas.AppointmentResponseRoundTrip` | src/types/schemas.ts:23-28 | every appointment response, whatever its price sign, survives serialisation and parsing |
| `BeautyService.IsStaticMode` | src/services/beautyService.ts:19 | static mode iff `PROD` and `VITE_API_URL` is unset or empty |
| `BeautyService.ApiUrl` | src/services/beautyService.ts:11 | the API base is a truthy `VITE_API_URL`; an unset or empty one gives the local default; never empty; always the default in static mode |
| `BeautyService.RepoBase` | src/services/beautyService.ts:7 | `BASE_URL` with at most one trailing `/` removed, removed exactly when there is one |
| `BeautyService.ReceiveServices` | src/services/beautyService.ts:32-49 | succeeds iff the response is ok with a JSON body the list schema accepts; network error, non-ok status, non-JSON body and schema failure each give their own error, the last with the message `Dados recebidos da API são inválidos.` |
| `BeautyService.FetchServices` | src/services/beautyService.ts:17-57 | static mode never fails: the validated snapshot list, or `[]` on any failure; live mode returns the validated `/services` list or passes the failure on; every returned Service is valid |
| `BeautyService.FetchServicesReadsOneUrl` | src/services/beautyService.ts:19-33 | the result depends only on the snapshot URL in static mode and only on `/services` otherwise |
| `BeautyService.FetchServiceById` | src/services/beautyService.ts:62-86 | `null` iff the status is 404; a Service iff ok with a body `ServiceSchema` accepts; otherwise the matching error, the schema one with `Dados do serviço inválidos.` |
| `BeautyService.FetchServiceByIdAlwaysUsesApi` | src/services/beautyService.ts:64 | the result depends only on `API_URL/services/<id>`, which in static mode is the local default |
| `BeautyService.CreateAppointment` | src/services/beautyService.ts:91-116 | always `success` with estimated price 0; id `mock-123` after 1000 ms in static mode, else `123` at once; the reply passes `AppointmentResponseSchema` |
| `BeautyService.CreateAppointmentIgnoresRequest` | src/services/beautyService.ts:91-93 | the reply does not depend on the request |
| `UseServices.Settled` | src/composables/useServices.ts:21-33 | after the handler, `loading` is false whatever the outcome; on success `services` is the data and `error` unchanged; on failure `error` is the fixed message and `services` unchanged |
| `UseServices.StaticModeNeverSetsError` | src/composables/useServices.ts:25-29 | in static mode the handler never sets `error`, even for an empty catalog |
| `UseServices.SettledServicesAreValid` | src/composables/useServices.ts:25-26 | the services shown after loading are all valid |
| `UseServices.CatalogStore.constructor` | src/composables/useServices.ts:12-18 | initially no services, loading, no error |
| `UseServices.CatalogStore.OnMounted` | src/composables/useServices.ts:21-33 | the new state is `Settled(old state, fetchServices())`; `loading` ends false; in static mode `error` is unchanged |
| `UseTheme.Updated` | src/composables/useTheme.ts:5-13 | afterwards the `dark` class is present iff `isDark`, and the stored theme is `dark` iff `isDark`, else `light`; no other class or storage key changes |
| `UseTheme.Toggled` | src/composables/useTheme.ts:16-19 | `isDark` is negated and the page is in sync; other classes and other storage keys are unchanged |
| `UseTheme.Initialized` | src/composables/useTheme.ts:21-31 | dark iff `dark` is stored, or no theme (or the empty string) is stored and the system prefers dark; the page is in sync, so a theme is stored; other classes and other storage keys are unchanged |
| `UseTheme.AfterSystemChange` | src/composables/useTheme.ts:37-42 | with a theme stored nothing changes; otherwise `isDark` follows the event and the page is in sync; other classes and other storage keys are unchanged |
| `UseTheme.UpdatedIsIdempotent` | src/composables/useTheme.ts:5-13 | applying `updateTheme` twice equals applying it once |
| `UseTheme.ToggledTwice` | src/composables/useTheme.ts:16-19 | toggling twice equals syncing the original `isDark` |
| `UseTheme.SystemChangeIgnoredAfterInit` | src/composables/useTheme.ts:37-42 | after `initTheme`, and after later toggles, a theme is stored and the listener is a no-op |
| `UseTheme.ThemeToggleScenario` | src/tests/ThemeToggle.test.ts:58-77 | from a cleared light page: mounting leaves no `dark` class; one toggle gives the class and `dark` stored; a second gives no class, `light` stored, `isDark` false |
| `UseTheme.ThemeStore.constructor` | src/composables/useTheme.ts:3 | `isDark` starts false; the class list and storage are as given |
| `UseTheme.ThemeStore.UpdateTheme` | src/composables/useTheme.ts:5-13 | the new page is `Updated(old page)` |
| `UseTheme.ThemeStore.ToggleTheme` | src/composables/useTheme.ts:16-19 | the new page is `Toggled(old page)` |
| `UseTheme.ThemeStore.InitTheme` | src/composables/useTheme.ts:21-31 | the new page is `Initialized(old page, system preference)` |
| `UseTheme.ThemeStore.OnSystemChange` | src/composables/useTheme.ts:37-42 | the new page is `AfterSystemChange(old page, event value)` |
| `UriEncoding.EncodeURIComponent` | src/utils/whatsapp.ts:8 | the encoding is never shorter than its input and holds only unreserved characters, `%` and upper-case hex digits |
| `UriEncoding.Utf8RoundTrip` | src/utils/whatsapp.ts:8 | the UTF-8 bytes of a scalar value decode back to it, and their first byte announces their count |
| `UriEncoding.DecodeEncodedChar` | src/utils/whatsapp.ts:8 | decoding one encoded character gives it back, then decoding goes on with what follows |
| `UriEncoding.DecodeEncode` | src/utils/whatsapp.ts:8 | `decodeURIComponent(encodeURIComponent(s)) == s` for every string |
| `UriEncoding.EncodeInjective` | src/utils/whatsapp.ts:8 | different strings have different encodings |
| `UriEncoding.EncodeIsIdentityIff` | src/utils/whatsapp.ts:8 | the encoding leaves a string unchanged iff every character is unreserved |
| `UriEncoding.EncodeConcat` | src/utils/whatsapp.ts:8 | encoding a concatenation concatenates the encodings |
| `WhatsApp.CreateWhatsAppLink` | src/utils/whatsapp.ts:7-10 | the link is `https://wa.me/5595991522205?text=` followed by exactly `EncodeURIComponent(message)`; that part decodes exactly to the message and holds no character that could end the parameter |
| `WhatsApp.LinkIsInjective` | src/utils/whatsapp.ts:7-10 | different messages give different links |
| `WhatsApp.LinkOfPlainMessage` | src/utils/whatsapp.ts:8-9 | a message of unreserved characters (ASCII letters and digits among them) appears in the link verbatim |
| `WhatsApp.GetAppointmentMessage` | src/utils/whatsapp.ts:12-15 | the message is the greeting (`Olá Cléia, meu nome é <name>.` for a non-empty name, `Olá Cléia.` otherwise), then ` Gostaria de agendar o serviço `, then `*<service>*. Poderia me informar os horários disponíveis?`, and nothing else: it starts with greeting and request, ends with the starred service and the question, and its length is the sum of those parts |
| `WhatsApp.AppointmentMessageIdentifiesService` | src/utils/whatsapp.ts:14 | for one customer, different services give different messages |
| `WhatsApp.GetGeneralContactMessage` | src/utils/whatsapp.ts:17-19 | one fixed message, addressed `Olá Cléia, ` like the others |

## Left out

- `fetch`, `response.json()`, `setTimeout` and `console` are not modelled as
  calls. The transport is a function parameter. A body that is not JSON is
  `None`. The 1000 ms delay is a field of the reply. Logging is dropped.
- zod's `.url()` uses WHATWG URL parsing, which is not modelled. It is the
  uninterpreted parameter `isUrl`, and nothing is assumed about it.
- zod's error contents (the list of issues and their paths) are not
  modelled. A failed parse is `None`, and the fetch error carries the message
  the code rethrows.
- The HTTP status text is not modelled. A non-ok response becomes
  `HttpStatus(status)` in both `FetchServices` and `FetchServiceById`, which
  carries the status code instead of the thrown messages
  `Erro ao buscar serviços: <statusText>` and `Erro ao buscar serviço: <statusText>`.
- The non-zod rethrow branches (`throw validationError`) are not modelled,
  because the schemas' `parse` throws only `ZodError`.
- JavaScript numbers are exact reals. Overflow to infinity and rounding are
  not modelled. A number literal too large for a double, such as `1e400`,
  parses to Infinity: zod's `.positive()` accepts that as a price and `.int()`
  rejects it as a duration, while the model keeps the exact value and accepts
  `10^400` as a duration. A literal such as `1.0000000000000001` rounds to 1
  and passes `.int()`, while the model's exact `IsInteger` rejects it.
- Vue reactivity and the `onMounted` lifecycle are not modelled. The mount
  handler is one method, and the `await` is the call to `FetchServices`.
  Registering the system-preference listener is not modelled;
  `ThemeStore.OnSystemChange` is the listener's body, called when the event
  fires.
- `encodeURIComponent` throws a URIError on lone UTF-16 surrogates. This
  cannot be expressed, because a Dafny `char` is a Unicode scalar value.
  `DecodeURIComponent` likewise returns one `char` where JavaScript returns a
  surrogate pair.
- `ThemeToggle.vue`, the component the theme test mounts, is not part of this
  model. The test's ARIA-attribute checks are therefore not stated.
- `manage-project.js` is not part of this model. It only runs shell commands,
  git and npm.
