/**
 * The tracking dispatcher: the two fire-and-forget primitives, kept as an
 * append-only log of the calls made, and the two fixed endpoints.
 */
module Tracking {
  import opened Base
  import opened QueryEncoder

  const InitUrl: string := "https://confirm.fiduciadlt.com/init"
  const ImpressionUrl: string := "https://confirm.fiduciadlt.com/imp"

  /** One ad unit of an init event: its code and its fresh delivery id. */
  datatype AdUnitRef = AdUnitRef(adUnitId: string, adDeliveryId: string)

  /** The body of the init POST. An unconfigured publisher id is absent. */
  datatype InitBody = InitBody(adUnits: seq<AdUnitRef>, publisherMemberId: Option<string>)

  /** One tracking call with its arguments, as a stub on trackGet/trackPost records it. */
  datatype Call =
    | Get(url: string, params: Query)
    | Post(url: string, body: InitBody)

  /** The request a call issues: a GET puts its parameters, stringified, after `?`. */
  function RequestUrl(c: Call): string {
    match c
    case Get(url, params) => url + "?" + Stringify(params)
    case Post(url, _) => url
  }

  /** The receiver of a GET with flat parameters reads exactly those parameters
      back from the part of the request after `?`. */
  lemma GetCarriesParams(url: string, params: Query)
    requires IsFlat(params)
    ensures RequestUrl(Get(url, params))[..|url| + 1] == url + "?"
    ensures ParseQuery(RequestUrl(Get(url, params))[|url| + 1..]) == params
  {
    var r := RequestUrl(Get(url, params));
    assert r[|url| + 1..] == Stringify(params);
    FlatRoundTrip(params);
  }

  /** The log of tracking calls; nothing is ever removed from it. */
  class Tracker {
    var calls: seq<Call>

    constructor ()
      ensures calls == []
    {
      calls := [];
    }

    /** track.trackGet(url, params) */
    method TrackGet(url: string, params: Query)
      modifies this
      ensures calls == old(calls) + [Get(url, params)]
    {
      calls := calls + [Get(url, params)];
    }

    /** track.trackPost(url, body) */
    method TrackPost(url: string, body: InitBody)
      modifies this
      ensures calls == old(calls) + [Post(url, body)]
    {
      calls := calls + [Post(url, body)];
    }
  }
}
