/**
 * The API endpoint table (constants/api.ts): a base URL chosen by the build's
 * development flag and the device platform, and every endpoint as that base
 * followed by `/api/` and a path.
 */
module Api {

  /** The two facts the base URL depends on: the `__DEV__` build flag and `Platform.OS`. */
  datatype Config = Config(dev: bool, os: string)

  const LocalIp := "192.168.1.230"
  /** The development server on the local network, used from phones and emulators. */
  const LanServer := "http://" + LocalIp + ":3000"
  /** The development server on the same machine, used from the web build. */
  const LocalServer := "http://localhost:3000"
  /** The deployed server. */
  const ProductionServer := "https://motour_server_101.onrender.com"

  /** The platform runs as a native app (the two platforms that reach the server over the LAN). */
  predicate IsNative(os: string) {
    os == "android" || os == "ios"
  }

  /** `getApiBaseUrl()`. */
  function BaseUrl(cfg: Config): (r: string)
    ensures r == LanServer <==> cfg.dev && IsNative(cfg.os)
    ensures r == LocalServer <==> cfg.dev && !IsNative(cfg.os)
    ensures r == ProductionServer <==> !cfg.dev
    ensures cfg.dev ==> "http://" <= r
    ensures !cfg.dev ==> "https://" <= r
  {
    if cfg.dev then
      if cfg.os == "android" then LanServer
      else if cfg.os == "ios" then LanServer
      else LocalServer
    else ProductionServer
  }

  /** `API_BASE_URL`. */
  function ApiBaseUrl(cfg: Config): (r: string)
    ensures BaseUrl(cfg) <= r
    ensures r[|BaseUrl(cfg)|..] == "/api"
  {
    BaseUrl(cfg) + "/api"
  }

  /** `${API_BASE_URL}/<path>`: the shape of every entry of `API_ENDPOINTS`. */
  function Under(cfg: Config, path: string): (r: string)
    ensures ApiBaseUrl(cfg) + "/" <= r
    ensures r[|ApiBaseUrl(cfg)| + 1..] == path
  {
    ApiBaseUrl(cfg) + "/" + path
  }

  /** The entries of `API_ENDPOINTS`; four of them take a resource id. */
  datatype Endpoint =
    | Register | Login | Health
    | Profile | ProfileImage | ProfileUploadImage | ProfileEmail | ProfilePhone | ProfileStats
    | Destinations | DestinationById(id: string) | DestinationRatings(id: string)
    | SavedDestinations | SavedDestinationToggle(id: string) | SavedDestinationCheck(id: string)

  /** The path of an endpoint below `API_BASE_URL + "/"`. */
  function Path(e: Endpoint): string {
    match e
    case Register => "auth/register"
    case Login => "auth/login"
    case Health => "health"
    case Profile => "profile"
    case ProfileImage => "profile/image"
    case ProfileUploadImage => "profile/upload-image"
    case ProfileEmail => "profile/email"
    case ProfilePhone => "profile/phone"
    case ProfileStats => "profile/stats"
    case Destinations => "destinations"
    case DestinationById(id) => "destinations/" + id
    case DestinationRatings(id) => "destinations/" + id + "/ratings"
    case SavedDestinations => "saved-destinations"
    case SavedDestinationToggle(id) => "saved-destinations/" + id
    case SavedDestinationCheck(id) => "saved-destinations/check/" + id
  }

  /** The URL of an endpoint: every entry starts with `API_BASE_URL + "/"`. */
  function Url(cfg: Config, e: Endpoint): (r: string)
    ensures ApiBaseUrl(cfg) + "/" <= r
    ensures r[|ApiBaseUrl(cfg)| + 1..] == Path(e)
  {
    Under(cfg, Path(e))
  }

  /** The URL `getSavedCount` builds by hand: `${SAVED_DESTINATIONS}/count/${id}`. */
  function SavedCountUrl(cfg: Config, id: string): (r: string)
    ensures ApiBaseUrl(cfg) + "/" <= r
    ensures r[|ApiBaseUrl(cfg)| + 1..] == "saved-destinations/count/" + id
  {
    Url(cfg, SavedDestinations) + "/count/" + id
  }

  /** `"p/" + id` is `p` followed by `"/" + id`. */
  lemma AppendSegment(cfg: Config, p: string, sep: string, id: string)
    ensures Under(cfg, p + sep + id) == Under(cfg, p) + sep + id
  {
    var root := ApiBaseUrl(cfg) + "/";
    assert root + (p + sep + id) == root + p + sep + id;
  }

  /**
   * The id-taking builders put the id verbatim after the collection's URL:
   * one path segment below it, or below `check/`, and the ratings URL extends
   * the destination's URL by `/ratings`.
   */
  lemma IdBuilders(cfg: Config, id: string)
    ensures Url(cfg, DestinationById(id)) == Url(cfg, Destinations) + "/" + id
    ensures Url(cfg, DestinationRatings(id)) == Url(cfg, DestinationById(id)) + "/ratings"
    ensures Url(cfg, SavedDestinationToggle(id)) == Url(cfg, SavedDestinations) + "/" + id
    ensures Url(cfg, SavedDestinationCheck(id)) == Url(cfg, SavedDestinations) + "/check/" + id
  {
    assert "destinations/" == "destinations" + "/";
    AppendSegment(cfg, "destinations", "/", id);
    AppendSegment(cfg, "destinations/" + id, "/ratings", "");
    assert "destinations/" + id + "/ratings" + "" == "destinations/" + id + "/ratings";
    assert "saved-destinations/" == "saved-destinations" + "/";
    AppendSegment(cfg, "saved-destinations", "/", id);
    assert "saved-destinations/check/" == "saved-destinations" + "/check/";
    AppendSegment(cfg, "saved-destinations", "/check/", id);
  }

  /** The id can be read back from the end of the by-id, toggle and check URLs. */
  lemma IdRecoverable(cfg: Config, e: Endpoint)
    requires e.DestinationById? || e.SavedDestinationToggle? || e.SavedDestinationCheck?
    ensures |e.id| <= |Url(cfg, e)|
    ensures Url(cfg, e)[|Url(cfg, e)| - |e.id|..] == e.id
  {
  }

  /** Two URLs of the same id-taking builder are equal only for equal ids. */
  lemma IdInjective(cfg: Config, e1: Endpoint, e2: Endpoint)
    requires e1.DestinationById? || e1.DestinationRatings? || e1.SavedDestinationToggle? || e1.SavedDestinationCheck?
    requires e1.DestinationById? == e2.DestinationById?
    requires e1.DestinationRatings? == e2.DestinationRatings?
    requires e1.SavedDestinationToggle? == e2.SavedDestinationToggle?
    requires e1.SavedDestinationCheck? == e2.SavedDestinationCheck?
    requires Url(cfg, e1) == Url(cfg, e2)
    ensures e1.id == e2.id
  {
    assert Path(e1) == Path(e2);
    if e1.DestinationRatings? {
      var p, q := "destinations/", "/ratings";
      assert |e1.id| == |e2.id|;
      assert e1.id == (p + e1.id + q)[|p|..|p| + |e1.id|];
      assert e2.id == (p + e2.id + q)[|p|..|p| + |e2.id|];
    } else {
      var p := if e1.DestinationById? then "destinations/"
               else if e1.SavedDestinationToggle? then "saved-destinations/"
               else "saved-destinations/check/";
      assert e1.id == (p + e1.id)[|p|..];
      assert e2.id == (p + e2.id)[|p|..];
    }
  }

  /** For one id, the toggle URL and the check URL differ: the check URL is six characters longer. */
  lemma ToggleAndCheckDiffer(cfg: Config, id: string)
    ensures |Url(cfg, SavedDestinationCheck(id))| == |Url(cfg, SavedDestinationToggle(id))| + 6
    ensures Url(cfg, SavedDestinationToggle(id)) != Url(cfg, SavedDestinationCheck(id))
  {
  }
}
