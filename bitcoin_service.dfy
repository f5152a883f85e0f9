/** The client's game service: the five calls the browser makes, as the
    requests handed to the HTTP client. */
module BitcoinService {
  import opened Common
  import ApiClient
  import ApiConfig
  import MakeGuess
  import ResolveGuess

  /** The JSON bodies the service posts. */
  datatype Payload =
    | MakeGuessPayload(userId: string, direction: Direction, currentPrice: real)
    | ResolveGuessPayload(userId: string, guessId: string, currentPrice: real)

  type ServiceRequest = ApiClient.Request<Payload>

  /** A service over a client, pinned to an API version. */
  datatype Service = Service(client: ApiClient.Client, version: string)
  {
    /** GET the active guess; the user id goes into the query string as is. */
    function GetActiveGuess(userId: string): (r: Result<ServiceRequest, string>)
      ensures version == "" || version == "v1" ==> r == Success(client.Get("/v1/active-guess?userId=" + userId))
      ensures r.Success? <==> version == "" || ApiConfig.IsActiveVersion(version)
    {
      assert "/v1/" + ApiConfig.ActiveGuessEndpoint + "?userId=" == "/v1/active-guess?userId=";
      match ApiConfig.VersionedEndpoint(ApiConfig.ActiveGuessEndpoint, Some(version))
      case Success(endpoint) => Success(client.Get(endpoint + "?userId=" + userId))
      case Failure(e) => Failure(e)
    }

    /** GET the score. */
    function GetUserScore(userId: string): (r: Result<ServiceRequest, string>)
      ensures version == "" || version == "v1" ==> r == Success(client.Get("/v1/score?userId=" + userId))
      ensures r.Success? <==> version == "" || ApiConfig.IsActiveVersion(version)
    {
      assert "/v1/" + ApiConfig.ScoreEndpoint + "?userId=" == "/v1/score?userId=";
      match ApiConfig.VersionedEndpoint(ApiConfig.ScoreEndpoint, Some(version))
      case Success(endpoint) => Success(client.Get(endpoint + "?userId=" + userId))
      case Failure(e) => Failure(e)
    }

    /** GET the price. */
    function GetBitcoinPrice(): (r: Result<ServiceRequest, string>)
      ensures version == "" || version == "v1" ==> r == Success(client.Get("/v1/btc-price"))
      ensures r.Success? <==> version == "" || ApiConfig.IsActiveVersion(version)
    {
      assert "/v1/" + ApiConfig.BtcPriceEndpoint == "/v1/btc-price";
      match ApiConfig.VersionedEndpoint(ApiConfig.BtcPriceEndpoint, Some(version))
      case Success(endpoint) => Success(client.Get(endpoint))
      case Failure(e) => Failure(e)
    }

    /** POST a new guess with `{userId, direction, currentPrice}`. */
    function MakeGuess(userId: string, direction: Direction, currentPrice: real): (r: Result<ServiceRequest, string>)
      ensures version == "" || version == "v1" ==>
        r == Success(client.Post("/v1/make-guess", MakeGuessPayload(userId, direction, currentPrice)))
      ensures r.Success? <==> version == "" || ApiConfig.IsActiveVersion(version)
    {
      assert "/v1/" + ApiConfig.MakeGuessEndpoint == "/v1/make-guess";
      match ApiConfig.VersionedEndpoint(ApiConfig.MakeGuessEndpoint, Some(version))
      case Success(endpoint) => Success(client.Post(endpoint, MakeGuessPayload(userId, direction, currentPrice)))
      case Failure(e) => Failure(e)
    }

    /** POST a resolution with `{userId, guessId, currentPrice}`. */
    function ResolveGuess(userId: string, guessId: string, currentPrice: real): (r: Result<ServiceRequest, string>)
      ensures version == "" || version == "v1" ==>
        r == Success(client.Post("/v1/resolve-guess", ResolveGuessPayload(userId, guessId, currentPrice)))
      ensures r.Success? <==> version == "" || ApiConfig.IsActiveVersion(version)
    {
      assert "/v1/" + ApiConfig.ResolveGuessEndpoint == "/v1/resolve-guess";
      match ApiConfig.VersionedEndpoint(ApiConfig.ResolveGuessEndpoint, Some(version))
      case Success(endpoint) => Success(client.Post(endpoint, ResolveGuessPayload(userId, guessId, currentPrice)))
      case Failure(e) => Failure(e)
    }
  }

  /** The service the app uses: the default client and the current version. */
  function DefaultService(env: ApiConfig.Env): Service
  {
    Service(ApiClient.Client(ApiConfig.ApiBaseUrl(env)), ApiConfig.CurrentVersion)
  }

  /** The body make-guess reads from the posted JSON. */
  function MakeGuessBody(p: Payload): (b: MakeGuess.Body)
    requires p.MakeGuessPayload?
  {
    MakeGuess.Body(Some(p.userId), Some(DirectionName(p.direction)), Some(p.currentPrice))
  }

  /** The body resolve-guess reads from the posted JSON. */
  function ResolveGuessBody(p: Payload): (b: ResolveGuess.Body)
    requires p.ResolveGuessPayload?
  {
    ResolveGuess.Body(Some(p.userId), Some(p.guessId), Some(p.currentPrice))
  }

  /** The posted bodies carry what the handlers validate: a make-guess post
      passes make-guess's validation exactly when the user id is non-empty and
      the price non-zero, and likewise for resolve-guess (with the guess id). */
  lemma PostedBodiesMeetHandlerValidation(p: Payload)
    ensures p.MakeGuessPayload? ==> (MakeGuess.Valid(MakeGuessBody(p)) <==> p.userId != "" && p.currentPrice != 0.0)
    ensures p.ResolveGuessPayload? ==>
      (ResolveGuess.Valid(ResolveGuessBody(p)) <==> p.userId != "" && p.guessId != "" && p.currentPrice != 0.0)
  {
    if p.MakeGuessPayload? {
      assert |DirectionName(p.direction)| > 0;
    }
  }

  /** With no override, a development build requests "//v1/...": the root
      base URL and the leading slash of the versioned path are concatenated,
      which a browser reads as a protocol-relative URL naming host "v1". */
  lemma DevelopmentUrlsStartWithDoubleSlash(userId: string)
    ensures DefaultService(ApiConfig.Env(false, None)).GetBitcoinPrice() ==
            Success(ApiClient.Request("//v1/btc-price", "GET", None))
    ensures StartsWith(DefaultService(ApiConfig.Env(false, None)).GetActiveGuess(userId).value.url, "//v1/")
  {
    var s := DefaultService(ApiConfig.Env(false, None));
    assert s.GetBitcoinPrice().value.url == "/" + "/v1/btc-price" == "//v1/btc-price";
    assert s.GetActiveGuess(userId).value.url == "/" + "/v1/active-guess?userId=" + userId;
  }
}
