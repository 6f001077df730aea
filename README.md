# Reconciliation real-time-data submodule, modelled in Dafny

This project models the reconciliation RTD submodule of Prebid.js. The
submodule correlates ad slots on a publisher page with impressions reported
from inside their iframes. It does five things:

- **Query encoder (`stringify`).** An ordered parameter object becomes
  `key=value` pairs joined by `&`, with every key and value percent-encoded. A
  nested object is stringified on its own, and that inner string is then
  encoded once more as a single value.
- **Window walker (`getTopIFrameWin`).** From a window it climbs `parent` links
  until it reaches the window whose parent is the page's top window, and
  returns that window. It returns null for a null start, a null `parent` on
  the way, or a `parent` that cannot be read.
- **Slot lookup (`getSlotByWin`).** It returns the first ad slot whose element
  contains an iframe with the given content window, or null.
- **Targeting generator (`getTargetingData`, after `init`).** For each
  non-empty identifier it resolves a slot, first by unit path and then by
  element id. It gives the identifier a fresh delivery id, writes `RSDK_AUID`
  and `RSDK_ADID` into the slot's targeting, and returns
  `{RSDK_AUID, RSDK_ADID}` keyed by the identifier as the caller gave it. If
  any identifier was processed, it then posts one init event with the whole
  batch; a request of empty identifiers only posts nothing.
- **Impression listener.** An `rsdk:impression:req` message from a frame
  inside a slot that holds both targeting keys leads to exactly one impression
  GET. The GET carries the stored unit path and delivery id, the creative's
  `sourceMemberId` and `sourceImpressionId`, and the configured
  `publisherMemberId`.

The model follows the module's structure:

| file | module | contents |
|---|---|---|
| `base.dfy` | `Base` | `Option` and duplicate-freedom |
| `query_encoder.dfy` | `QueryEncoder` | `stringify`, percent-encoding, and a decoder and query parser as its inverse |
| `window_walker.dfy` | `WindowWalker` | the window graph, the walk as a function, and `GetTopIFrameWin` as a loop proved against that function |
| `slots.dfy` | `Slots` | the `Slot` class (its targeting map is a mutable field), slot lookup by frame, and identifier resolution |
| `tracking.dfy` | `Tracking` | the two endpoints and the `Tracker` class, an append-only log of the GET and POST calls made |
| `targeting.dfy` | `Targeting` | what one targeting cycle computes, as functions, with their lemmas |
| `impression.dfy` | `Impression` | the listener's decision as a function, and the impression parameters |
| `provider.dfy` | `Provider` | the `ReconciliationSubmodule` class with `Init`, `GetTargetingData` and `HandleMessage` |
| `scenarios.dfy` | `Scenarios`, `ProviderScenarios` | the module's documented examples, stated over the model |

Where the module's test suite and the module's prose documentation differ,
the model follows the test suite:

- **Unresolved identifiers.** An identifier that names no slot is not skipped.
  Its entry's `RSDK_AUID` is the identifier itself, and it takes part in the
  init batch. The init-event test (lines 81-93) posts `adUnitId: '/adunit'`
  although no slot with that path exists.
- **Failed `init`.** An `init` without a publisher id still returns true, and
  it keeps the configuration already stored. The same test expects the
  publisher id of the earlier successful `init` after a failing one has run
  (lines 45-52 and 92).

## Model

| member | source | states |
|---|---|---|
| QueryEncoder.Stringify | test/spec/modules/reconciliationRtdProvider_spec.js:96-117 | The query string is empty exactly when the parameter object is; its meaning is given by ParseStringify below. |
| QueryEncoder.EncodeChar | test/spec/modules/reconciliationRtdProvider_spec.js:103-116 | An unreserved character is sent as itself; any other ASCII character becomes a three-character `%XX` escape. |
| QueryEncoder.EncodeComponent | test/spec/modules/reconciliationRtdProvider_spec.js:103-116 | `encodeURIComponent`: each character is encoded in turn, so the result is between one and three times as long as the input. |
| QueryEncoder.ParseStringify | test/spec/modules/reconciliationRtdProvider_spec.js:96-117 | Parsing a stringified query (split on `&` and the first `=`, percent-decode) gives back its pairs in insertion order. Each scalar comes back as itself, and each nested object comes back as its own query string. |
| QueryEncoder.FlatRoundTrip | test/spec/modules/reconciliationRtdProvider_spec.js:97-104 | A flat parameter object is recovered exactly from its query string. |
| QueryEncoder.NestedRoundTrip | test/spec/modules/reconciliationRtdProvider_spec.js:106-117 | A nested value is sent as one pair whose value is the inner object's query string. Parsing that string again gives the inner pairs. |
| QueryEncoder.DecodeEncode | test/spec/modules/reconciliationRtdProvider_spec.js:103 | Percent-decoding undoes percent-encoding for every string. |
| QueryEncoder.EncodeHasNoSeparators | test/spec/modules/reconciliationRtdProvider_spec.js:116 | An encoded key or value never contains `&` or `=`. Only the separators that `stringify` adds remain. |
| QueryEncoder.EncodePlain | test/spec/modules/reconciliationRtdProvider_spec.js:103 | Letters, digits and `-_.!~*'()` are encoded as themselves. |
| QueryEncoder.EncodeConcat | test/spec/modules/reconciliationRtdProvider_spec.js:103 | Encoding works character by character, so it distributes over concatenation. |
| QueryEncoder.EncodesSeparators | test/spec/modules/reconciliationRtdProvider_spec.js:103-116 | `/`, `=` and `&` are encoded as `%2F`, `%3D` and `%26`. |
| Scenarios.StringifyFlatExample | test/spec/modules/reconciliationRtdProvider_spec.js:97-104 | `{adUnitId: '/adunit', adDeliveryId: '12345'}` stringifies to `adUnitId=%2Fadunit&adDeliveryId=12345`. |
| Scenarios.StringifyNestedExample | test/spec/modules/reconciliationRtdProvider_spec.js:106-117 | With `ext: {adSize: '300x250', adType: 'banner'}` appended, the result ends in `&ext=adSize%3D300x250%26adType%3Dbanner`. |
| WindowWalker.TopIFrameWin | test/spec/modules/reconciliationRtdProvider_spec.js:120-152 | A null start gives null. Any window returned has a readable parent, and that parent is the top window. |
| WindowWalker.GetTopIFrameWin | test/spec/modules/reconciliationRtdProvider_spec.js:120-152 | The climbing loop returns exactly what the walk function defines, and any window it returns is a child of the top window. |
| WindowWalker.BrokenChainGivesNull | test/spec/modules/reconciliationRtdProvider_spec.js:138-144 | If the climb reaches a window whose `parent` is null or unreadable before it reaches a child of the top, the walk gives null and never a partial result. |
| WindowWalker.IntactChainGivesTopIFrame | test/spec/modules/reconciliationRtdProvider_spec.js:146-152 | If every link up to a child of the top is readable, the walk gives that child. |
| WindowWalker.ResultIsAncestor | test/spec/modules/reconciliationRtdProvider_spec.js:121-126 | Any window the walk returns is an ancestor of the start window, some number of parent steps up. |
| Scenarios.NoWindowGivesNull | test/spec/modules/reconciliationRtdProvider_spec.js:134-136 | Walking from null gives null. |
| Scenarios.BrokenChainExample | test/spec/modules/reconciliationRtdProvider_spec.js:138-144 | Walking from an iframe whose parent is null gives null. |
| Scenarios.TopWindowGivesNull | test/spec/modules/reconciliationRtdProvider_spec.js:121-126 | Walking from the top window itself gives null, because the top window is modelled without a parent. |
| Scenarios.TopmostIFrameExample | test/spec/modules/reconciliationRtdProvider_spec.js:146-152 | On top ← iframe1 ← iframe2, walking from iframe2 gives iframe1. |
| Slots.GetSlotByWin | test/spec/modules/reconciliationRtdProvider_spec.js:155-180 | The result is null exactly when no slot's element holds the frame. Otherwise it is the first slot whose element holds it. |
| Slots.FirstMatch | test/spec/modules/reconciliationRtdProvider_spec.js:155-180 | Gives the first index at or after `from` that satisfies the predicate, or none when there is no such index. |
| Slots.ResolveSlot | test/spec/modules/reconciliationRtdProvider_spec.js:56-70 | Gives the first slot whose code is the identifier. Failing that, it gives the first slot whose element id is the identifier. It gives none exactly when neither exists. |
| Slots.CodeOrDivIdResolves | test/spec/modules/reconciliationRtdProvider_spec.js:56-70 | If slot names are distinct, a slot's code and its element id both resolve to that slot. |
| ProviderScenarios.SlotOfNestedFrame | test/spec/modules/reconciliationRtdProvider_spec.js:156-167 | A frame inside the slot's element finds that slot. |
| ProviderScenarios.SlotOfOutsideFrame | test/spec/modules/reconciliationRtdProvider_spec.js:169-180 | A frame outside every slot's element finds null. |
| Targeting.NonEmptyFilters | test/spec/modules/reconciliationRtdProvider_spec.js:72-77 | The processed identifiers are exactly the non-empty ones requested, and `""` is never among them. |
| Targeting.PlanFollowsRequest | test/spec/modules/reconciliationRtdProvider_spec.js:56-77 | The cycle handles the non-empty identifiers in order. The i-th is resolved and takes the i-th delivery id supplied. |
| Targeting.TargetingKeysAndValues | test/spec/modules/reconciliationRtdProvider_spec.js:56-77 | The keys of the result are exactly the non-empty identifiers as the caller wrote them. Each `RSDK_AUID` is the resolved slot's code, or the identifier when no slot matches. Each `RSDK_ADID` is one of the supplied delivery ids. |
| Targeting.TargetingOfKeys | test/spec/modules/reconciliationRtdProvider_spec.js:56-77 | A key is in the result exactly when some processed entry has that identifier. |
| Targeting.TargetingOfValue | test/spec/modules/reconciliationRtdProvider_spec.js:56-77 | Each key's value comes from the last processed entry with that identifier. |
| Targeting.DistinctDeliveryIds | test/spec/modules/reconciliationRtdProvider_spec.js:61-69 | If the supplied ids are distinct, two identifiers in one result never share a delivery id. |
| Targeting.InitEvent | test/spec/modules/reconciliationRtdProvider_spec.js:81-93 | A cycle with a non-empty identifier posts exactly once, to the init endpoint. Unit i of the batch is the i-th identifier's unit id with its delivery id, and the configured publisher id is attached. An empty cycle posts nothing. |
| Targeting.BatchOfAt | test/spec/modules/reconciliationRtdProvider_spec.js:90-91 | Entry i of the init batch carries the unit id and delivery id of the i-th processed identifier. |
| Targeting.RetargetWritesLast | test/spec/modules/reconciliationRtdProvider_spec.js:194-203 | A slot that some identifier resolved to afterwards holds `[code]` under `RSDK_AUID` and `[delivery id of the last such identifier]` under `RSDK_ADID`. |
| Targeting.RetargetUntouched | test/spec/modules/reconciliationRtdProvider_spec.js:194-203 | A slot that no identifier resolved to keeps its targeting. |
| Targeting.RetargetKeepsOtherKeys | test/spec/modules/reconciliationRtdProvider_spec.js:194-203 | A cycle changes no targeting key other than `RSDK_AUID` and `RSDK_ADID`. |
| Provider.ReconciliationSubmodule.GetTargetingData | test/spec/modules/reconciliationRtdProvider_spec.js:55-93 | Returns the targeting map of the cycle. It appends the delivery ids handed out to those already issued, and none is issued twice. It appends exactly the cycle's init calls to the tracker log. It leaves every slot with the targeting the cycle writes, and keeps the configuration. |
| Targeting.Plan | test/spec/modules/reconciliationRtdProvider_spec.js:56-93 | One planned entry per non-empty identifier; PlanFollowsRequest says which. |
| Targeting.TargetingOf | test/spec/modules/reconciliationRtdProvider_spec.js:56-77 | The returned map has at most one key per processed identifier, and the last processed identifier maps to its own entry. |
| Targeting.BatchOf | test/spec/modules/reconciliationRtdProvider_spec.js:88-91 | The init batch has one unit per processed identifier; BatchOfAt says which. |
| Targeting.InitCalls | test/spec/modules/reconciliationRtdProvider_spec.js:88-92 | At most one call, and only for a non-empty cycle: a POST to the init endpoint with one unit per processed identifier and the configured publisher id. |
| Targeting.Retarget | test/spec/modules/reconciliationRtdProvider_spec.js:194-203 | A cycle only adds keys to a slot's targeting, and only `RSDK_AUID` and `RSDK_ADID`. |
| Targeting.PlanAuid | test/spec/modules/reconciliationRtdProvider_spec.js:56-70 | Every planned entry carries the slot its identifier resolves to, and an entry with a slot reports that slot's code as its unit id. |
| Targeting.CycleWritesSlot | test/spec/modules/reconciliationRtdProvider_spec.js:56-70 | After a cycle, a slot that the i-th processed identifier resolves to, and no later one, holds its own code under `RSDK_AUID` and the i-th delivery id under `RSDK_ADID`. |
| Provider.WriteStep | test/spec/modules/reconciliationRtdProvider_spec.js:55-77 | One step of the identifier loop extends the plan, the targeting map and the slots' targeting from the first i identifiers to the first i+1. |
| Provider.WriteTargeting | test/spec/modules/reconciliationRtdProvider_spec.js:55-77 | The identifier loop builds the cycle's plan and targeting map, and writes each entry into the slot it resolved to. |
| Provider.WriteEntry | test/spec/modules/reconciliationRtdProvider_spec.js:194-203 | Writing one entry sets `RSDK_AUID` and then `RSDK_ADID` on its slot alone. This extends the targeting of the cycle so far by that entry. |
| Provider.ReconciliationSubmodule.Init | test/spec/modules/reconciliationRtdProvider_spec.js:45-52 | Always returns true. With a publisher id, it stores the id and registers the listener. Without one, it changes nothing. |
| Provider.ReconciliationSubmodule.HandleMessage | test/spec/modules/reconciliationRtdProvider_spec.js:183-226 | Once registered, the listener appends exactly the impression GET that the message leads to, and nothing for a discarded message. Before registration it appends nothing. |
| Impression.ImpressionForwards | test/spec/modules/reconciliationRtdProvider_spec.js:216-225 | A forwarded impression comes from a child of the top window inside a slot. It carries that slot's stored `RSDK_AUID` and `RSDK_ADID`, the message's `sourceMemberId` and `sourceImpressionId`, and the publisher id. |
| Impression.ImpressionDiscards | test/spec/modules/reconciliationRtdProvider_spec.js:183-226 | A message is discarded if its source is null or does not walk to the top, its payload is unparsable, of another type or without both creative ids, the window it walks to is inside no slot, or the first slot holding that window lacks `RSDK_AUID` or `RSDK_ADID`. |
| Impression.ImpressionAccepted | test/spec/modules/reconciliationRtdProvider_spec.js:184-225 | Conversely, a well-formed `rsdk:impression:req` from a window just below the top, whose first slot holds both keys, gives exactly the GET parameters built from that slot's first stored values, the creative's two ids and the publisher id. |
| Impression.ExpectedImpression | test/spec/modules/reconciliationRtdProvider_spec.js:183-226 | A message leads to parameters only if its source walks to a window just below the top and its payload is an impression request; the parameters are five flat values. |
| Impression.ImpressionParams | test/spec/modules/reconciliationRtdProvider_spec.js:219-223 | The impression GET carries five flat parameters. |
| Slots.Slot.GetTargeting | test/spec/modules/reconciliationRtdProvider_spec.js:198-200 | The values stored under a key, or none when the key was never set. |
| Impression.ImpressionParamsFields | test/spec/modules/reconciliationRtdProvider_spec.js:219-223 | The impression parameters hold exactly the five named values. |
| Impression.ImpressionParamsRoundTrip | test/spec/modules/reconciliationRtdProvider_spec.js:216-223 | The five parameters are read back unchanged from the GET's query string. |
| Impression.RequestArgs | test/spec/modules/reconciliationRtdProvider_spec.js:205-213 | A payload is accepted exactly when it parsed, has type `rsdk:impression:req` and carries both ids, and those ids are passed on. |
| Tracking.GetCarriesParams | test/spec/modules/reconciliationRtdProvider_spec.js:216-223 | A GET's URL is the endpoint, then `?`, then a query string from which the flat parameters are read back exactly. |
| Tracking.Tracker.TrackGet | test/spec/modules/reconciliationRtdProvider_spec.js:21-25 | Appends one GET record to the call log. |
| Tracking.Tracker.TrackPost | test/spec/modules/reconciliationRtdProvider_spec.js:21-25 | Appends one POST record to the call log. |
| Slots.Slot.SetTargeting | test/spec/modules/reconciliationRtdProvider_spec.js:195-197 | After the call, the key maps to `[value]` and every other key is unchanged. |
| ProviderScenarios.InitAlwaysSucceeds | test/spec/modules/reconciliationRtdProvider_spec.js:45-52 | `init` returns true with a publisher id and without one. |
| ProviderScenarios.TargetingByCode | test/spec/modules/reconciliationRtdProvider_spec.js:56-62 | A unit path is answered under that path, with that path as `RSDK_AUID`. |
| ProviderScenarios.TargetingByDivId | test/spec/modules/reconciliationRtdProvider_spec.js:64-70 | An element id is answered under that id, with the slot's unit path as `RSDK_AUID`. |
| ProviderScenarios.TargetingSkipsEmpty | test/spec/modules/reconciliationRtdProvider_spec.js:72-77 | `['reconciliationAd3', '']` gives exactly one key. |
| ProviderScenarios.InitEventAfterReconfiguration | test/spec/modules/reconciliationRtdProvider_spec.js:81-93 | After a good `init` and then a bad one, a cycle for `'/adunit'` logs exactly one POST. It goes to the init endpoint, carries unit `'/adunit'` with its delivery id, and carries `'test_prebid_publisher'`. |
| ProviderScenarios.ImpressionFromSlotFrame | test/spec/modules/reconciliationRtdProvider_spec.js:184-226 | A request from the slot's frame logs exactly one GET. It goes to the impression endpoint and carries `/reconciliationAdunit`, `12345`, `test_member_id`, `123` and `test_prebid_publisher`. |

## Left out

- **Delivery ids.** Random generation is not modelled. `GetTargetingData` takes the ids to hand out as a parameter, and requires them to be distinct and never issued before.
- **Message delivery.** `postMessage`, `setTimeout`, writing into an iframe's document and JSON parsing are not modelled. A message reaches `HandleMessage` already parsed, or marked unparsable, with its source window as an id.
- **Window reads that throw.** A cross-origin `parent` read is a set of windows whose `parent` cannot be read, and the walk gives null there. Exceptions and `logError` are not modelled.
- **The DOM and the googletag slot registry.** Both are an explicit list of slots, which the entry points receive as a parameter. Each slot element holds a constant set of frame ids, so moving iframes between elements at run time is not modelled.
- **HTTP and logging.** Tracking calls are records in the tracker's log, and no HTTP request is modelled. `utils.logError` on a missing publisher id is not modelled.
- **QueryEncoder.EncodeChar: non-ASCII characters.** These are passed through unchanged, so the UTF-8 bytes that `encodeURIComponent` would percent-encode are not produced. ASCII is encoded exactly.
- **An absent publisher id in the impression GET.** `HandleMessage` runs only when a publisher id is configured, so the wire form `publisherMemberId=undefined` never arises.
- **WindowWalker.TopIFrameWin: self-parented windows.** Every parent link must lead to a shallower window, so no window is its own parent, not even the top window (in a browser `top.parent` is `top`). The top window is therefore modelled without a parent, and a walk that starts at the top window gives null, where a climb comparing `parent` against the top would return the top window itself. Graphs with parent cycles are excluded because a walk on them need not end.
- **The reply to the creative.** Anything the listener might send back to the iframe is not modelled.
