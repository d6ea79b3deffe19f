/** src/composables/useServices.ts: the catalog's loading state. The three refs
    `services`, `loading` and `error` are the fields of `CatalogStore`; the mount
    handler is `OnMounted`. `CatalogState` and `Settled` say on values what the
    handler does, so that lemmas can talk about it. */
module UseServices {
  import opened Wrappers
  import opened ServiceTypes
  import opened Schemas
  import opened BeautyService

  const LoadErrorMessage: string := "Erro ao carregar catálogo de serviços."

  datatype CatalogState = CatalogState(services: seq<Service>, loading: bool, error: Option<string>)

  /** The state once `fetchServices()` has settled: on success the list replaces
      `services`, on a rejection `error` is set and `services` is kept; in both
      cases `loading` ends false. */
  function Settled(st: CatalogState, outcome: Result<seq<Service>, FetchError>): (r: CatalogState)
    ensures !r.loading
    ensures outcome.Success? ==> r.services == outcome.value && r.error == st.error
    ensures outcome.Failure? ==> r.services == st.services && r.error == Some(LoadErrorMessage)
  {
    match outcome
    case Success(data) => st.(services := data, loading := false)
    case Failure(_) => st.(error := Some(LoadErrorMessage), loading := false)
  }

  /** In static mode `fetchServices` never rejects, so the mount handler never
      sets `error`, even when the catalog comes back empty. */
  lemma StaticModeNeverSetsError(st: CatalogState, env: Env, isUrl: UrlCheck, fetch: Transport)
    requires IsStaticMode(env)
    ensures Settled(st, FetchServices(env, isUrl, fetch)).error == st.error
  {
  }

  /** After a mount handler, the services shown are valid whatever the source. */
  lemma SettledServicesAreValid(st: CatalogState, env: Env, isUrl: UrlCheck, fetch: Transport)
    requires forall i :: 0 <= i < |st.services| ==> ValidService(isUrl, st.services[i])
    ensures var r := Settled(st, FetchServices(env, isUrl, fetch));
      forall i :: 0 <= i < |r.services| ==> ValidService(isUrl, r.services[i])
  {
  }

  class CatalogStore {
    var services: seq<Service>
    var loading: bool
    var error: Option<string>

    function State(): CatalogState
      reads this
    {
      CatalogState(services, loading, error)
    }

    /** `useServices()`: no services yet, loading, no error. */
    constructor ()
      ensures State() == CatalogState([], true, None)
    {
      services := [];
      loading := true;
      error := None;
    }

    /** The `onMounted` handler. The `await` is the call to `FetchServices`;
        while it is pending `loading` is true. */
    method OnMounted(env: Env, isUrl: UrlCheck, fetch: Transport)
      modifies this
      ensures State() == Settled(old(State()), FetchServices(env, isUrl, fetch))
      ensures IsStaticMode(env) ==> error == old(error)
      ensures !loading
    {
      loading := true;
      var outcome := FetchServices(env, isUrl, fetch);
      match outcome {
        case Success(data) =>
          services := data;
        case Failure(_) =>
          error := Some(LoadErrorMessage);
      }
      loading := false;
    }
  }
}
