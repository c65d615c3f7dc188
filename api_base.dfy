/** The HTTP base of the client: where requests go and how endpoints are joined to it. */
module ApiBase {
  import opened StringUtil

  /** The server port every request targets. */
  const Port: nat := 3000

  /** The base URL: the page's protocol and host name, with the port replaced by `Port`. */
  function BaseUrl(protocol: string, hostname: string): (r: string)
    ensures r == protocol + "//" + hostname + ":3000"
  {
    assert NatToString(Port) == "3000" by {
      assert NatToString(3) == "3";
      assert NatToString(30) == "30";
      assert NatToString(300) == "300";
    }
    protocol + "//" + hostname + ":" + NatToString(Port)
  }

  /** An endpoint with a leading slash, added when it is missing. */
  function Normalize(endpoint: string): (r: string)
    ensures StartsWith(r, "/")
    ensures StartsWith(endpoint, "/") ==> r == endpoint
    ensures |endpoint| <= |r| <= |endpoint| + 1 && r[|r| - |endpoint|..] == endpoint
  {
    if StartsWith(endpoint, "/") then endpoint else "/" + endpoint
  }

  /** `makeUrl(endpoint)`. */
  function MakeUrl(baseUrl: string, endpoint: string): (r: string)
    ensures exists tail :: r == baseUrl + tail && StartsWith(tail, "/") && (StartsWith(endpoint, "/") ==> tail == endpoint)
  {
    var tail := Normalize(endpoint);
    assert baseUrl + tail == baseUrl + tail;
    baseUrl + tail
  }

  /** Normalising twice is normalising once. */
  lemma NormalizeIdempotent(endpoint: string)
    ensures Normalize(Normalize(endpoint)) == Normalize(endpoint)
  {
  }

  /** A missing leading slash makes no difference, so the empty endpoint is the root. */
  lemma MissingSlashIsAdded(baseUrl: string, endpoint: string)
    ensures !StartsWith(endpoint, "/") ==> MakeUrl(baseUrl, endpoint) == MakeUrl(baseUrl, "/" + endpoint)
    ensures MakeUrl(baseUrl, "") == baseUrl + "/"
  {
    if !StartsWith(endpoint, "/") {
      assert ("/" + endpoint)[..1] == "/";
    }
  }
}
