/** `Server._prepare_request`: the compute server resource takes the request
    the generic framework builds and rewrites three keys of its body before
    sending it. The request body is `{"server": <wrapped body>, ...}`. */
module ServerRequest {
  import opened Json

  /** `Server.resource_key`: the key wrapping the server body. */
  const ResourceKey := "server"

  /** Keys carrying a namespace prefix on responses but not on requests. */
  const AzKey := "OS-EXT-AZ:availability_zone"
  const BareAzKey := "availability_zone"
  const UserDataKey := "OS-EXT-SRV-ATTR:user_data"
  const BareUserDataKey := "user_data"

  /** Scheduler hints travel beside the wrapped body, under the same name. */
  const HintKey := "os:scheduler_hints"

  /** The keys `_prepare_request` may touch inside the wrapped body. */
  predicate SpecialWrappedKey(k: string)
  {
    k == AzKey || k == BareAzKey || k == UserDataKey || k == BareUserDataKey || k == HintKey
  }

  /** `m[to] = m.pop(from)` when `from in m`; otherwise `m` as it is. */
  function Renamed(m: Record, from: string, to: string): Record
  {
    if from in m then (m - {from})[to := m[from]] else m
  }

  /** The request body after the three edits, or the error the lookup
      `request.body[self.resource_key]` (and the dict operations on it) raise. */
  function PrepareBody(body: Record): (r: Result<Record>)
    // Errors: the wrapper key must be present and hold a dict.
    ensures r.Failure? <==> !(ResourceKey in body && body[ResourceKey].Object?)
    ensures ResourceKey !in body ==> r == Failure(KeyError(ResourceKey))
    ensures ResourceKey in body && !body[ResourceKey].Object? ==> r == Failure(NotAnObject(ResourceKey))
    ensures r.Success? ==>
      var w := body[ResourceKey].fields;
      var out := r.value;
      && ResourceKey in out && out[ResourceKey].Object?
      && var w' := out[ResourceKey].fields;
      // the prefixed names and the hints are gone from the wrapped body
      && AzKey !in w' && UserDataKey !in w' && HintKey !in w'
      // availability zone: renamed, overwriting a bare key already there
      && (AzKey in w ==> BareAzKey in w' && w'[BareAzKey] == w[AzKey])
      && (AzKey !in w ==> (BareAzKey in w' <==> BareAzKey in w) && (BareAzKey in w ==> w'[BareAzKey] == w[BareAzKey]))
      // user data: the same rule
      && (UserDataKey in w ==> BareUserDataKey in w' && w'[BareUserDataKey] == w[UserDataKey])
      && (UserDataKey !in w ==> (BareUserDataKey in w' <==> BareUserDataKey in w) && (BareUserDataKey in w ==> w'[BareUserDataKey] == w[BareUserDataKey]))
      // scheduler hints: moved to the top level under the full name
      && (HintKey in w ==> HintKey in out && out[HintKey] == w[HintKey])
      && (HintKey !in w ==> (HintKey in out <==> HintKey in body) && (HintKey in body ==> out[HintKey] == body[HintKey]))
      // nothing else changes, inside or outside the wrapper
      && (forall k :: !SpecialWrappedKey(k) ==> (k in w' <==> k in w))
      && (forall k :: !SpecialWrappedKey(k) && k in w ==> w'[k] == w[k])
      && (forall k :: k != ResourceKey && k != HintKey ==> (k in out <==> k in body))
      && (forall k :: k != ResourceKey && k != HintKey && k in body ==> out[k] == body[k])
    // with none of the three keys present the body comes back unchanged
    ensures r.Success? ==>
      (AzKey !in body[ResourceKey].fields && UserDataKey !in body[ResourceKey].fields && HintKey !in body[ResourceKey].fields
       ==> r.value == body)
  {
    if ResourceKey !in body then Failure(KeyError(ResourceKey))
    else if !body[ResourceKey].Object? then Failure(NotAnObject(ResourceKey))
    else
      var w := Renamed(Renamed(body[ResourceKey].fields, AzKey, BareAzKey), UserDataKey, BareUserDataKey);
      if HintKey in w then Success(body[ResourceKey := Object(w - {HintKey})][HintKey := w[HintKey]])
      else Success(body[ResourceKey := Object(w)])
  }

  /** Rewriting an already rewritten body changes nothing more: none of the
      three prefixed or nested keys is left in the wrapped body. */
  lemma PrepareBodyIdempotent(body: Record)
    requires PrepareBody(body).Success?
    ensures PrepareBody(PrepareBody(body).value) == PrepareBody(body)
  {
  }

  /** The request object the framework's `_prepare_request` returns. */
  class Request {
    var uri: string
    var body: Record
    var headers: map<string, string>

    constructor (uri: string, body: Record, headers: map<string, string>)
      ensures this.uri == uri && this.body == body && this.headers == headers
    {
      this.uri := uri;
      this.body := body;
      this.headers := headers;
    }
  }

  /** `Server._prepare_request` after the base call: edits `request.body` in
      place through `server_body`, which aliases `request.body["server"]`.
      The base request is the input; building it is the framework's job. */
  method PrepareRequest(request: Request) returns (outcome: Result<()>)
    modifies request
    ensures request.uri == old(request.uri) && request.headers == old(request.headers)
    ensures PrepareBody(old(request.body)).Success? ==>
              outcome == Success(()) && request.body == PrepareBody(old(request.body)).value
    ensures PrepareBody(old(request.body)).Failure? ==>
              outcome == Failure(PrepareBody(old(request.body)).error) && request.body == old(request.body)
  {
    if ResourceKey !in request.body {
      return Failure(KeyError(ResourceKey));
    }
    if !request.body[ResourceKey].Object? {
      return Failure(NotAnObject(ResourceKey));
    }
    var serverBody := request.body[ResourceKey].fields;

    if AzKey in serverBody {
      var zone := serverBody[AzKey];
      serverBody := serverBody - {AzKey};
      serverBody := serverBody[BareAzKey := zone];
      request.body := request.body[ResourceKey := Object(serverBody)];
    }

    if UserDataKey in serverBody {
      var userData := serverBody[UserDataKey];
      serverBody := serverBody - {UserDataKey};
      serverBody := serverBody[BareUserDataKey := userData];
      request.body := request.body[ResourceKey := Object(serverBody)];
    }

    if HintKey in serverBody {
      var hints := serverBody[HintKey];
      serverBody := serverBody - {HintKey};
      request.body := request.body[ResourceKey := Object(serverBody)];
      request.body := request.body[HintKey := hints];
    }
    outcome := Success(());
  }
}
