# Compute server core of the Huawei cloud Python SDK, in Dafny

This project models the logic of the compute `Server` resource in
`openstack/compute/v2/server.py` of the SDK, and proves properties of that
model. The logic has three parts.

- **Request rewriting** (`Server._prepare_request`). The request body is
  `{"server": <wrapped body>, ...}`. Before a request is sent:
  - `OS-EXT-AZ:availability_zone` is renamed to `availability_zone` inside
    the wrapped body;
  - `OS-EXT-SRV-ATTR:user_data` is renamed to `user_data`;
  - `os:scheduler_hints` is moved out of the wrapper to the top level of
    the body, keeping its full name.

  Module `ServerRequest`: a `Request` class and a method that edits its
  body in place. The method is proved against `PrepareBody`, a function
  whose contract states the result key by key.
- **Server actions** (`Server._action` and the action methods, plus
  `ServerOS.reinstall`). Each action posts `{actionName: payload}` to
  `Server.base_path/<id>/action`. An optional argument adds its key only
  when it is not `None`. Module `ServerActions`. The fixed-shape bodies are
  functions. `rescue`, `evacuate` and `add_floating_ip` add keys to a body
  after creating it, so they are methods proved equal to those functions.
- **Marker/limit pagination** (`ServerListDetail.list_ext`). Module
  `ServerListing`. `ListExt` is the `while more_data` loop and its inner
  `for` loop (`YieldPage`). It is proved to compute `Run`, a recursive
  definition over the server's pages. The stop rules, the order of items,
  the parameters of each follow-up request and the bound on the number of
  requests are lemmas about `Run`. `paginated` defaults to `False`
  (`server.py:436`), so a bare `list_ext(session)` fetches exactly one page
  (`ListingNotPaginated`).

Module `Json` holds the shared JSON value type and Python's truthiness.
It also holds `int < value` comparison with Python 3 semantics. `None` is
`Null`.

Assumptions where the code relies on framework parts not modelled here:
- The loop tests `cls.query_limit_key` but reads the literal key `"limit"`.
  Both are taken to be `"limit"`, and `query_marker_key` to be `"marker"`.
- `existing(**data).id` is taken to read the item's `"id"` entry, and to be
  `None` when that entry is missing.
- `get_next_marker` is given as one value per page.
- `get_next_marker` is taken not to change the `query_params` dict it is
  given (`server.py:470-473`). `ListingContinuation`'s "no other parameter
  changes" rests on this.
- The server is a finite sequence of pages. A request past its end gets an
  empty page. The bounds on the number of requests come from this
  assumption alone: `list_ext` has no bound of its own, and against a server
  that ignores `marker` and keeps returning the same full page with ids it
  would request forever. What is proved is that the client stops at the
  first empty response.
- `utils.urljoin` is not part of this model. A path is kept as the list of
  segments passed to it.

Two behaviours of the code that are easy to miss:
- The hints keep the full name `os:scheduler_hints` at the top level
  (`server.py:235-237`); they are not renamed to `scheduler_hints`.
- A full last page with no end marker costs one extra request
  (`FullLastPageExample`: 4 items with limit 2 take 3 requests; the third
  gets an empty page, and the missing marker ends the listing). This does
  not happen when the response marks the end (metadata marker `-1`) or when
  the last item has no id: the listing then stops after the full page with
  reason NoMarker (`EndMarkerExample`).

## Model

| member | source | states |
|---|---|---|
| `ServerRequest.PrepareBody` | openstack/compute/v2/server.py:210-239 | KeyError when the wrapper key `"server"` is missing. Otherwise the two prefixed keys are gone from the wrapped body and their values are under the bare names, overwriting bare keys already there. The hints are gone from the wrapped body and sit at the top level under `os:scheduler_hints`. Every other key, inside and outside the wrapper, keeps its presence and value. With none of the three keys present, the body is returned unchanged |
| `ServerRequest.PrepareBodyIdempotent` | openstack/compute/v2/server.py:222-237 | preparing an already prepared body changes nothing more |
| `ServerRequest.PrepareRequest` | openstack/compute/v2/server.py:210-239 | the in-place edits through the aliased `server_body` leave `request.body` equal to `PrepareBody` of the old body, or unchanged with the error. URI and headers are not touched |
| `ServerActions.PutKeeps` | openstack/compute/v2/server.py:279-288 | `if v is not None: d[k] = v` adds `k` exactly when `v` is not `None`, holding `v`, and keeps every other entry |
| `ServerActions.Payload` | openstack/compute/v2/server.py:254-411 | the value under each action's name: the literal dict of a fixed-shape action (for example `{"flavorRef": flavor}` for resize, `{"length": lines}` for console output), `None` exactly for the argument-less actions, the built dict for rebuild, create_image, add_floating_ip, rescue and evacuate. The contract states that the payload is `None` exactly for the argument-less actions and a dict otherwise |
| `ServerActions.ActionBody` | openstack/compute/v2/server.py:254-411 | every action body has exactly one top-level key, the action's name |
| `ServerActions.RebuildPayloadKeys` | openstack/compute/v2/server.py:269-290 | `rebuild` always sends `name`, `adminPass` and `preserve_ephemeral`. Each of `imageRef`, `accessIPv4`, `accessIPv6`, `metadata` and `personality` is sent exactly when its argument is not `None`. No other key is sent |
| `ServerActions.RebuildPayloadValues` | openstack/compute/v2/server.py:269-290 | every key `rebuild` sends holds its argument |
| `ServerActions.RebuildDefaultsBody` | openstack/compute/v2/server.py:269-278 | with only the required arguments, the body is `{"rebuild": {name, adminPass, "preserve_ephemeral": False}}` |
| `ServerActions.CreateImageBodyKeys` | openstack/compute/v2/server.py:310-316 | `create_image` sends `name`, plus `metadata` exactly when it is not `None` |
| `ServerActions.RescuePayloadKeys` | openstack/compute/v2/server.py:372-378 | `rescue` sends `adminPass` and `rescue_image_ref` exactly when each argument is not `None` |
| `ServerActions.EvacuatePayloadKeys` | openstack/compute/v2/server.py:384-392 | `evacuate` sends `host`, `adminPass` and `force` exactly when each argument is not `None` |
| `ServerActions.RescueBody` | openstack/compute/v2/server.py:372-378 | building `{"rescue": {}}` and adding keys one at a time gives the rescue action body |
| `ServerActions.EvacuateBody` | openstack/compute/v2/server.py:384-392 | building `{"evacuate": {}}` and adding keys one at a time gives the evacuate action body |
| `ServerActions.AddFloatingIpPayloadKeys` | openstack/compute/v2/server.py:338-342 | `add_floating_ip` always sends `address`, and sends `fixed_address` exactly when it is not `None` |
| `ServerActions.AddFloatingIpBody` | openstack/compute/v2/server.py:338-342 | building `{"addFloatingIp": {"address": ...}}` and then adding `fixed_address` gives the add-floating-ip action body |
| `ServerActions.ActionPost` | openstack/compute/v2/server.py:241-252 | the path is `Server.base_path`, the id, `"action"`, even for detail-class instances whose own `base_path` differs. The header is `Accept: ""`. The body is `{name: payload}` |
| `ServerActions.ActionPostAnyClass` | openstack/compute/v2/server.py:241-252 | the action request of a detail-class instance is the same request as for a plain `Server` |
| `ServerActions.ReinstallPost` | openstack/compute/v2/server.py:578-586 | the path is `/cloudservers`, the server id, `"reinstallos"`. The body is `{"os-reinstall": <dirty attributes>}` |
| `ServerActions.ConsoleOutputText` | openstack/compute/v2/server.py:410-412 | succeeds exactly when the response has `"output"` and returns that value. Otherwise KeyError |
| `ServerActions.RebootExample` | openstack/compute/v2/server.py:259-262 | a soft reboot of server 42 posts `{"reboot": {"type": "SOFT"}}` to `/servers`, `42`, `action` |
| `ServerListing.Strip` | openstack/compute/v2/server.py:465 | `data.pop("self", None)`: the item has no `"self"` entry afterwards, and every other entry keeps its presence and value |
| `ServerListing.StripAll` | openstack/compute/v2/server.py:464-465 | one yielded item per listed item, each the item without its `"self"` entry |
| `ServerListing.MarkerAfter` | openstack/compute/v2/server.py:463-475 | a truthy metadata marker other than `-1` wins. `-1` means no marker. Otherwise the marker is the id of the page's last item, or none for an empty page |
| `ServerListing.PageStep` | openstack/compute/v2/server.py:447-484 | covers the `while more_data` test (line 447), the empty-page test (lines 460-461) and lines 470-484. The loop continues only after a non-empty page with a truthy marker, in paginated mode, and only when the page was not shorter than a limit already in the query. The next query is the old one with `limit` set to the page's count and `marker` to its marker. NoMarker and NotPaginated are the stops exactly when their conditions hold. LimitTypeError and ShortPage come only from the limit comparison. EmptyPage comes only after an empty page whose limit comparison passed |
| `ServerListing.Run` | openstack/compute/v2/server.py:447-484 | reference definition: request page i with the current query, yield its stripped items, then stop or continue with the query `PageStep` gives. The contract states that a run makes at least one request, the first with the given query |
| `ServerListing.YieldPage` | openstack/compute/v2/server.py:462-469 | the inner loop yields the stripped items in order, counts them, and keeps the last id as the candidate marker |
| `ServerListing.AfterPage` | openstack/compute/v2/server.py:470-484 | the code after the `for` loop returns early for exactly the stop `PageStep` gives (no marker, not paginated, a limit of the wrong type, a short page). Otherwise it returns the query `PageStep` continues with, or the loop's own empty-page test ends the listing |
| `ServerListing.ListExt` | openstack/compute/v2/server.py:436-484 | the loop yields exactly the items, issues exactly the requests and stops for exactly the reason that `Run` defines |
| `ServerListing.RunItems` | openstack/compute/v2/server.py:462-469 | the items of a run are the items of its requested pages, in request order |
| `ServerListing.RunChain` | openstack/compute/v2/server.py:470-484 | every request after the first is the query `PageStep` gives after the page before it |
| `ServerListing.RunLast` | openstack/compute/v2/server.py:460-482 | the step after the last requested page is the run's stop |
| `ServerListing.RunBound` | openstack/compute/v2/server.py:447-484 | a run requests at most one page past the server's last page |
| `ServerListing.RunShape` | openstack/compute/v2/server.py:447-484 | the first request uses the given query. Items are the requested pages' items in order. Each later request is the step after the page before it. The last page's step is the stop. At most one request goes past the server's pages |
| `ServerListing.ListingTerminates` | openstack/compute/v2/server.py:447-484 | the client stops at the first empty response: against a finite server, a listing makes at least one request and at most one more than the server has pages |
| `ServerListing.ListingYieldsPagesInOrder` | openstack/compute/v2/server.py:464-469 | the yielded items are the pages' items in response order, with `"self"` removed |
| `ServerListing.ListingNotPaginated` | openstack/compute/v2/server.py:478-479 | with `paginated=False`, exactly one request is made (with the given query), and only its items are yielded |
| `ServerListing.ListingContinuation` | openstack/compute/v2/server.py:470-484 | each follow-up request copies the previous query, with `limit` set to the previous page's count and `marker` set to its marker. No other parameter changes. Only a non-empty page with a marker, in paginated mode, is followed |
| `ServerListing.ListingStopRules` | openstack/compute/v2/server.py:460-482 | no request follows an empty page, a page without a marker (including the `-1` sentinel, which stops with reason NoMarker), or a page shorter than the integer limit in its query |
| `ServerListing.ListingStopReason` | openstack/compute/v2/server.py:474-482 | the stop reason matches the last page. NoMarker exactly when it had no marker. NotPaginated exactly when it had one and pagination was off. EmptyPage only after an empty page whose limit comparison passed. ShortPage only after a page shorter than the limit. LimitTypeError only when the limit is neither an int nor a bool |
| `ServerListing.ShortLastPageExample` | openstack/compute/v2/server.py:478-484 | limit 2 with pages `[1,2]` and `[3]` yields 1, 2, 3 in two requests. The second request carries `limit=2, marker=2`. The short page stops the listing |
| `ServerListing.EndMarkerExample` | openstack/compute/v2/server.py:474-477 | limit 2 with two full pages, the second carrying the metadata marker `-1`: two requests, stop NoMarker, no third request |
| `ServerListing.FullLastPageExample` | openstack/compute/v2/server.py:460-477 | limit 2 with two full pages takes three requests. The empty third response has no marker, which stops the listing |

## Left out

- HTTP and session plumbing is not modelled: `session.get`, `session.post`, endpoint overrides, service filters, microversions, and the header merge in `list_ext`, which also updates the caller's `headers` dict in place (`server.py:441-442`). The others are I/O. Responses are given as data.
- The base `Resource._prepare_request`, including `requires_id`/`prepend_key`, is framework code. The request it builds is the input of `PrepareRequest`.
- `PrepareBody`: a `"server"` entry that is not a dict is reported as an error. The framework always puts a dict there. Python would dispatch `in` and `pop` on whatever other type it found.
- `_query_mapping._transpose`, the query alias table and `get_list_uri` are framework code. The transposed query is the input of `ListExt`.
- `find_value_by_accessor` is framework code. Each page's item list is given. A response without the `"servers"` key is not modelled.
- `get_next_marker` is framework code. Its result is a per-page input value, and it is taken not to change the `query_params` dict it is given.
- `existing(**data)` is framework code. The yielded value is the item record without `"self"`. The `pop` also changes the response dict in place. The only later reader is `get_next_marker` (`server.py:471-473`), whose result is a per-page input here, so the change cannot be seen in the model.
- `list_ext` is a generator. The model describes a listing consumed to the end. A consumer that stops early sees a prefix of the items and makes no further request.
- LessThan follows Python 3 semantics: comparing with a limit that is not an int or bool raises TypeError. Under Python 2 the comparison would instead give a result.
- `utils.urljoin` is not part of this model. Action and reinstall paths are the lists of segments passed to it.
- `Resource._get_id` on rebuild's `image` is not modelled. The argument is taken to be the image id already. `_translate_response` after rebuild is not modelled either.
- `ServerOS._body.dirty` is given as a record.
- `console_output` reads the response's JSON; the model takes the decoded response as a given record.
- Numbers are integers only: `Json.Value` has no float case. Decoded JSON floats are not modelled, so three float behaviours are missing: `-1.0 != -1` is false at `server.py:475`, `0.0` is falsy at `server.py:474` and `server.py:476`, and a float limit compares at `server.py:481`.
- Dict key order is not modelled. Dafny maps are unordered.
- The `resource2.Body` field declarations carry no logic. `openstack/identity/v3/service.py` and `openstack/bssintl/bss_intl_service.py` hold only declarations and thin wrappers.
