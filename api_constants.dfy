/** frontend/app/lib/api-constants.ts: the API base URL and `endpoint(path)`. */
module ApiConstants {

  import opened Common

  const DefaultBase: string := "http://localhost:8000"

  /** `API.BASE`: the `NEXT_PUBLIC_API_URL` environment value when it is set and
      non-empty, else the local default. */
  function Base(env: Option<string>): (r: string)
    ensures r != []
    ensures env.Some? && env.value != [] ==> r == env.value
  {
    if env.Some? && env.value != [] then env.value else DefaultBase
  }

  predicate HasLeadingSlash(path: string) {
    |path| > 0 && path[0] == '/'
  }

  /** `endpoint(path)`: the base followed by the path, with a '/' inserted when
      the path lacks one. */
  function Endpoint(base: string, path: string): (r: string)
    ensures base <= r
    ensures HasLeadingSlash(r[|base|..])
    ensures |r| == |base| + |path| + (if HasLeadingSlash(path) then 0 else 1)
    ensures r[|r| - |path|..] == path
  {
    if HasLeadingSlash(path) then base + path else base + "/" + path
  }

  /** `endpoint('x')` and `endpoint('/x')` name the same URL exactly when `x`
      does not itself start with '/'. */
  lemma SlashInsensitive(base: string, x: string)
    ensures Endpoint(base, x) == Endpoint(base, "/" + x) <==> !HasLeadingSlash(x)
  {
    if HasLeadingSlash(x) {
      assert |Endpoint(base, x)| < |Endpoint(base, "/" + x)|;
    }
  }

  /** Applying the slash rule twice changes nothing more: the path part of a
      result is already slash-led. */
  lemma EndpointOfPathPart(base: string, path: string)
    ensures var r := Endpoint(base, path); Endpoint(base, r[|base|..]) == r
  {
    var r := Endpoint(base, path);
    assert base + r[|base|..] == r;
  }
}
