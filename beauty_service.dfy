/** src/services/beautyService.ts: where the catalog comes from, and what each
    fetch function makes of what the transport delivers.

    `fetch` is a parameter: a function from the requested URL to what came back
    (a rejected promise, or a response with a status and a body that either
    decodes as JSON or does not). Console logging and the one-second timer are
    not modelled; the timer's length is part of the result. */
module BeautyService {
  import opened Wrappers
  import opened JsonValues
  import opened ServiceTypes
  import opened Schemas

  /** The build-time environment, `import.meta.env`: `PROD`, `VITE_API_URL`
      (possibly unset) and `BASE_URL`. */
  datatype Env = Env(prod: bool, viteApiUrl: Option<string>, baseUrl: string)

  datatype HttpOutcome =
    | NetworkError
    | Response(status: int, body: Option<Json>)

  type Transport = string -> HttpOutcome

  /** The error a fetch function rejects with. */
  datatype FetchError =
    | NetworkFailure              // `fetch` itself rejected
    | HttpStatus(status: int)     // "Erro ao buscar serviço(s): <statusText>"
    | BodyNotJson                 // `response.json()` rejected
    | InvalidData(message: string) // a schema failure, rethrown with this message

  const DefaultApiUrl: string := "http://127.0.0.1:8000"
  const CatalogSnapshotPath: string := "/services_catalog.json"
  const ListInvalidMessage: string := "Dados recebidos da API são inválidos."
  const ServiceInvalidMessage: string := "Dados do serviço inválidos."

  /** JavaScript truthiness of a string that may be unset. */
  predicate IsTruthy(v: Option<string>) {
    v.Some? && v.value != ""
  }

  /** `isProd && !import.meta.env.VITE_API_URL`, the guard shared by
      `fetchServices` and `createAppointment`. */
  predicate IsStaticMode(env: Env)
    ensures IsStaticMode(env) <==> env.prod && (env.viteApiUrl == None || env.viteApiUrl == Some(""))
  {
    env.prod && !IsTruthy(env.viteApiUrl)
  }

  /** `VITE_API_URL || 'http://127.0.0.1:8000'` */
  function ApiUrl(env: Env): (r: string)
    ensures r != ""
    ensures env.viteApiUrl.Some? && env.viteApiUrl.value != "" ==> r == env.viteApiUrl.value
    ensures !IsTruthy(env.viteApiUrl) ==> r == DefaultApiUrl
    ensures IsStaticMode(env) ==> r == DefaultApiUrl
  {
    if IsTruthy(env.viteApiUrl) then env.viteApiUrl.value else DefaultApiUrl
  }

  /** `BASE_URL.replace(/\/$/, '')`: one trailing slash removed, nothing else. */
  function RepoBase(baseUrl: string): (r: string)
    ensures baseUrl == r || baseUrl == r + "/"
    ensures |baseUrl| > 0 && baseUrl[|baseUrl| - 1] == '/' <==> baseUrl == r + "/"
  {
    if |baseUrl| > 0 && baseUrl[|baseUrl| - 1] == '/' then baseUrl[..|baseUrl| - 1] else baseUrl
  }

  function SnapshotUrl(env: Env): string {
    RepoBase(env.baseUrl) + CatalogSnapshotPath
  }

  function ServicesUrl(env: Env): string {
    ApiUrl(env) + "/services"
  }

  function ServiceUrl(env: Env, id: string): string {
    ApiUrl(env) + "/services/" + id
  }

  predicate IsOk(status: int) {
    200 <= status <= 299
  }

  /** The body of a list fetch: a non-ok status, a body that is not JSON and a
      schema failure each reject; otherwise the validated list. */
  function ReceiveServices(o: HttpOutcome, isUrl: UrlCheck): (r: Result<seq<Service>, FetchError>)
    ensures r.Success? <==> o.Response? && IsOk(o.status) && o.body.Some? && ServiceListSchema(isUrl, o.body.value)
    ensures r.Success? ==> ParseServiceList(isUrl, o.body.value) == Some(r.value)
    ensures o.NetworkError? ==> r == Failure(NetworkFailure)
    ensures o.Response? && !IsOk(o.status) ==> r == Failure(HttpStatus(o.status))
    ensures o.Response? && IsOk(o.status) && o.body.None? ==> r == Failure(BodyNotJson)
    ensures o.Response? && IsOk(o.status) && o.body.Some? && !ServiceListSchema(isUrl, o.body.value) ==>
              r == Failure(InvalidData(ListInvalidMessage))
  {
    match o
    case NetworkError => Failure(NetworkFailure)
    case Response(status, body) =>
      if !IsOk(status) then Failure(HttpStatus(status))
      else
        match body
        case None => Failure(BodyNotJson)
        case Some(j) =>
          match ParseServiceList(isUrl, j)
          case Some(services) => Success(services)
          case None => Failure(InvalidData(ListInvalidMessage))
  }

  /** `fetchServices()`. In static mode it reads the catalog snapshot and never
      rejects: any failure gives the empty list. Otherwise it reads the API's
      `/services` and every failure reaches the caller. */
  function FetchServices(env: Env, isUrl: UrlCheck, fetch: Transport): (r: Result<seq<Service>, FetchError>)
    ensures IsStaticMode(env) ==> r.Success?
    ensures IsStaticMode(env) && ReceiveServices(fetch(SnapshotUrl(env)), isUrl).Failure? ==> r == Success([])
    ensures IsStaticMode(env) && ReceiveServices(fetch(SnapshotUrl(env)), isUrl).Success? ==>
              r == ReceiveServices(fetch(SnapshotUrl(env)), isUrl)
    ensures !IsStaticMode(env) ==> r == ReceiveServices(fetch(ServicesUrl(env)), isUrl)
    ensures r.Success? ==> forall i :: 0 <= i < |r.value| ==> ValidService(isUrl, r.value[i])
  {
    if IsStaticMode(env) then
      match ReceiveServices(fetch(SnapshotUrl(env)), isUrl)
      case Success(services) => Success(services)
      case Failure(_) => Success([])
    else
      ReceiveServices(fetch(ServicesUrl(env)), isUrl)
  }

  /** `fetchServiceById(id)`: `null` exactly on a 404; any other failure rejects;
      otherwise the validated Service. */
  function FetchServiceById(env: Env, isUrl: UrlCheck, fetch: Transport, id: string): (r: Result<Option<Service>, FetchError>)
    ensures var o := fetch(ServiceUrl(env, id));
      (r == Success(None) <==> o.Response? && o.status == 404) &&
      (r.Success? && r.value.Some? <==>
         o.Response? && IsOk(o.status) && o.body.Some? && ServiceSchema(isUrl, o.body.value)) &&
      (r.Success? && r.value.Some? ==> ParseService(isUrl, o.body.value) == r.value) &&
      (o.NetworkError? ==> r == Failure(NetworkFailure)) &&
      (o.Response? && !IsOk(o.status) && o.status != 404 ==> r == Failure(HttpStatus(o.status))) &&
      (o.Response? && IsOk(o.status) && o.body.None? ==> r == Failure(BodyNotJson)) &&
      (o.Response? && IsOk(o.status) && o.body.Some? && !ServiceSchema(isUrl, o.body.value) ==>
         r == Failure(InvalidData(ServiceInvalidMessage)))
  {
    match fetch(ServiceUrl(env, id))
    case NetworkError => Failure(NetworkFailure)
    case Response(status, body) =>
      if !IsOk(status) then
        if status == 404 then Success(None) else Failure(HttpStatus(status))
      else
        match body
        case None => Failure(BodyNotJson)
        case Some(j) =>
          match ParseService(isUrl, j)
          case Some(service) => Success(Some(service))
          case None => Failure(InvalidData(ServiceInvalidMessage))
  }

  /** What `createAppointment` resolves with, and after how many milliseconds. */
  datatype SimulatedReply = SimulatedReply(response: AppointmentResponse, delayMs: nat)

  /** `createAppointment(params)`: a canned success, never a rejection. The
      request is not looked at. */
  function CreateAppointment(env: Env, request: AppointmentRequest): (r: SimulatedReply)
    ensures r.response.status == "success" && r.response.estimatedPrice == 0.0
    ensures r.response.appointmentId == if IsStaticMode(env) then "mock-123" else "123"
    ensures r.delayMs == if IsStaticMode(env) then 1000 else 0
    ensures ParseAppointmentResponse(AppointmentResponseToJson(r.response)) == Some(r.response)
  {
    if IsStaticMode(env) then
      SimulatedReply(AppointmentResponse("success", "Agendamento simulado com sucesso! (Modo Estático)", "mock-123", 0.0), 1000)
    else
      SimulatedReply(AppointmentResponse("success", "Agendamento realizado (Simulação)", "123", 0.0), 0)
  }

  // ---------------------------------------------------------------------------
  // Properties relating several calls

  /** `fetchServices` depends on one URL only: the snapshot in static mode, the
      API's `/services` otherwise. */
  lemma FetchServicesReadsOneUrl(env: Env, isUrl: UrlCheck, f1: Transport, f2: Transport)
    requires IsStaticMode(env) ==> f1(SnapshotUrl(env)) == f2(SnapshotUrl(env))
    requires !IsStaticMode(env) ==> f1(ServicesUrl(env)) == f2(ServicesUrl(env))
    ensures FetchServices(env, isUrl, f1) == FetchServices(env, isUrl, f2)
  {
  }

  /** `fetchServiceById` always asks the API, also in static mode, where the API
      base is the local default. */
  lemma FetchServiceByIdAlwaysUsesApi(env: Env, isUrl: UrlCheck, f1: Transport, f2: Transport, id: string)
    requires f1(ApiUrl(env) + "/services/" + id) == f2(ApiUrl(env) + "/services/" + id)
    ensures FetchServiceById(env, isUrl, f1, id) == FetchServiceById(env, isUrl, f2, id)
    ensures IsStaticMode(env) ==> ServiceUrl(env, id) == DefaultApiUrl + "/services/" + id
  {
  }

  /** `createAppointment` gives the same reply whatever it is asked. */
  lemma CreateAppointmentIgnoresRequest(env: Env, a: AppointmentRequest, b: AppointmentRequest)
    ensures CreateAppointment(env, a) == CreateAppointment(env, b)
  {
  }
}
