/** The call `PUT /qrscanner/update` makes to the asset-location endpoint
    after an ordinary user moves an item, and the reply it derives from it. */
module AssetCall {
  import opened Schema

  /** What came back from `fetch`: a response with its status and the
      `message` of its JSON body, or an exception. */
  datatype Outcome = Responded(status: nat, message: Option<string>) | Threw(error: string)

  /** `response.ok`. */
  predicate IsOk(status: nat)
  {
    200 <= status < 300
  }

  const PATH := "/api/asset/item-location"

  /** The URL as the handler writes it: a single-quoted literal, so the
      text `${domain}` is sent as it stands and never replaced. */
  const URL_AS_WRITTEN := "${domain}" + PATH

  /** The URL evidently meant: the configured domain followed by the path. */
  function IntendedUrl(domain: string): string
  {
    domain + PATH
  }

  /** A URL that `fetch` on the server can resolve without a base. */
  predicate IsAbsoluteUrl(url: string)
  {
    (|url| >= 7 && url[..7] == "http://") || (|url| >= 8 && url[..8] == "https://")
  }

  /** The behaviour assumed of `fetch(url, …)` on the server: a URL without
      a scheme is rejected before any request is sent; otherwise the
      endpoint's answer comes back. */
  function Fetch(url: string, endpoint: Outcome): Outcome
  {
    if IsAbsoluteUrl(url) then endpoint else Threw("Failed to parse URL from " + url)
  }

  /** As written, the call never reaches the endpoint, whatever it would
      have answered. */
  lemma AsWrittenNeverReachesEndpoint(endpoint: Outcome)
    ensures Fetch(URL_AS_WRITTEN, endpoint).Threw?
  {
    assert URL_AS_WRITTEN[0] == '$';
  }

  /** As written, the `user` branch therefore always replies 500 with the
      error of the rejected call, after the temporary location is written. */
  lemma AsWrittenUserBranchFails(endpoint: Outcome, item: Item)
    ensures Fetch(URL_AS_WRITTEN, endpoint).Threw?
         && Reply(Fetch(URL_AS_WRITTEN, endpoint), item)
            == Response(500, MessageAndError(LOCATION_ERROR, Fetch(URL_AS_WRITTEN, endpoint).error))
  {
    AsWrittenNeverReachesEndpoint(endpoint);
  }

  /** With the intended URL and a configured absolute domain, the endpoint's
      answer is what the handler sees. */
  lemma IntendedUrlReachesEndpoint(domain: string, endpoint: Outcome)
    requires IsAbsoluteUrl(domain)
    ensures Fetch(IntendedUrl(domain), endpoint) == endpoint
  {
  }

  const UPDATED := "Item updated successfully"
  const LOCATION_FAILED := "Failed to create item location"
  const LOCATION_ERROR := "Error occurred while creating item location"

  /** The reply once the item row already holds `item`: success only when
      the endpoint answered with a 2xx status; otherwise its status and
      message (or a default), or 500 when the call threw. */
  function Reply(o: Outcome, item: Item): (r: Response<Option<Item>>)
    ensures r.body.MessageAndData? <==> o.Responded? && IsOk(o.status)
    ensures r.body.MessageAndData? ==> r == Response(200, MessageAndData(UPDATED, Some(item)))
    ensures o.Responded? && !IsOk(o.status) ==>
      r == Response(o.status, Message(if Present(o.message) then o.message.value else LOCATION_FAILED))
    ensures o.Threw? ==> r == Response(500, MessageAndError(LOCATION_ERROR, o.error))
  {
    match o
    case Responded(status, message) =>
      if IsOk(status) then Response(200, MessageAndData(UPDATED, Some(item)))
      else Response(status, Message(if Present(message) then message.value else LOCATION_FAILED))
    case Threw(error) => Response(500, MessageAndError(LOCATION_ERROR, error))
  }
}
