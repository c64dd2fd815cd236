/** frontend/app/lib/adapters/api-adapter.ts: rewriting Dify console endpoints
    to this backend's endpoints. */
module ApiAdapter {

  import opened Common

  const DefaultBaseUrl: string := "/api/v1"

  /** The adapter object; the source's constructor defaults `baseUrl`. */
  datatype Adapter = Adapter(baseUrl: string)

  function NewAdapter(baseUrl: string := DefaultBaseUrl): (a: Adapter)
    ensures a.baseUrl == baseUrl
  {
    Adapter(baseUrl)
  }

  /** The endpoint mapping table. */
  const Mapping: map<string, string> :=
    map["/console/api/apps" := "/apps", "/console/api/datasets" := "/datasets"]

  /** `mapping[e] || e` */
  function AdaptEndpoint(e: string): (r: string)
    ensures e in Mapping ==> r == Mapping[e]
    ensures e !in Mapping ==> r == e
    ensures r != e ==> e in Mapping
  {
    if e in Mapping && Mapping[e] != [] then Mapping[e] else e
  }

  /** Adapting is idempotent: an adapted endpoint is never itself a Dify
      console endpoint. */
  lemma AdaptIdempotent(e: string)
    ensures AdaptEndpoint(AdaptEndpoint(e)) == AdaptEndpoint(e)
  {
  }

  /** Only the two console endpoints are rewritten. */
  lemma AdaptChangesExactlyMapped(e: string)
    ensures AdaptEndpoint(e) != e <==> e == "/console/api/apps" || e == "/console/api/datasets"
  {
  }

  /** `adaptRequest` and `adaptResponse` pass the value through unchanged. */
  function AdaptRequest(data: Value): (r: Value)
    ensures r == data
  {
    data
  }

  function AdaptResponse(response: Value): (r: Value)
    ensures r == response
  {
    response
  }
}
