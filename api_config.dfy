/** Where the client sends its requests: the base URL chosen by the build
    environment, and the versioned endpoint paths. */
module ApiConfig {
  import opened Common

  const GatewayUrl: string := "https://reth9yeru3.execute-api.us-east-1.amazonaws.com/prod/"
  const CurrentVersion: string := "v1"

  const ActiveGuessEndpoint: string := "active-guess"
  const MakeGuessEndpoint: string := "make-guess"
  const ScoreEndpoint: string := "score"
  const BtcPriceEndpoint: string := "btc-price"
  const ResolveGuessEndpoint: string := "resolve-guess"

  /** The build environment: whether it is a production build, and the
      `NEXT_PUBLIC_API_BASE_URL` override if one is set. */
  datatype Env = Env(production: bool, baseUrlOverride: Option<string>)

  /** `BASE_URL`: the API gateway in production, the site root otherwise. */
  function BaseUrl(production: bool): (url: string)
    ensures production ==> url == GatewayUrl
    ensures !production ==> url == "/"
  {
    if production then GatewayUrl else "/"
  }

  /** `getApiBaseUrl`: a non-empty override wins, else `BASE_URL`. */
  function ApiBaseUrl(env: Env): (url: string)
    ensures PresentString(env.baseUrlOverride) ==> url == env.baseUrlOverride.value
    ensures !PresentString(env.baseUrlOverride) ==> url == BaseUrl(env.production)
  {
    if PresentString(env.baseUrlOverride) then env.baseUrlOverride.value else BaseUrl(env.production)
  }

  /** The version table: only "v1" is listed, and it is active. */
  predicate IsActiveVersion(version: string)
  {
    version == "v1"
  }

  /** `getVersionedEndpoint`: "/<version>/<endpoint>", the version defaulting to
      the current one; a version that is not active throws. */
  function VersionedEndpoint(endpoint: string, version: Option<string>): (r: Result<string, string>)
    ensures r.Success? <==> !PresentString(version) || IsActiveVersion(version.value)
    ensures r.Success? ==> r.value == "/v1/" + endpoint
    ensures r.Failure? ==> r.error == "API version " + version.value + " is not active"
  {
    var ver := if PresentString(version) then version.value else CurrentVersion;
    if !IsActiveVersion(ver) then Failure("API version " + ver + " is not active")
    else Success("/" + ver + "/" + endpoint)
  }

  /** Without a version the current one is used, and that call never throws. */
  lemma DefaultVersionIsActive(endpoint: string)
    ensures VersionedEndpoint(endpoint, None) == Success("/v1/" + endpoint)
    ensures VersionedEndpoint(endpoint, Some("v2")).Failure?
  {
  }
}
