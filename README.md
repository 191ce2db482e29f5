# sneaker: server view, map detection and store lifecycle

A model of the non-presentational logic of `src/App.tsx` in the sneaker
client. The client connects to a simulation server, mirrors that server's state
into the process-wide `serverStore`, and picks the map to show from a reference
coordinate the server reports. The model covers:

- **Geofence**: the if/else chain in `ServerContainer`. It sorts the reference
  coordinate into Syria, Georgia or "Failed to detect map." using open
  bounding boxes, Syria first. Latitude and longitude are `real`. The source only
  compares them strictly against integer constants.
- **ServerView**: the reference pair read from entity `0`, and the single view
  `ServerContainer` renders. The views are Redirect, Error, Loading, MapFailure
  and Map, in the source's fixed priority order.
- **ServerEffect**: the `useEffect` that writes `serverStore.server` and resets it
  in its cleanup. This is modelled twice:
  - as a pure step function over React events (a commit with new dependencies,
    an unmount);
  - as a class `EffectHost` whose fields the methods update in place.
- **Links**: `ServerConnectModal`'s link target `/servers/<name>`, and the
  `/servers/:serverName` route template that receives it.
- **ServerStore**: the entity values the reference selector reads from the
  store's `entities` field, a map from id to entity whose properties map a name
  to a number. The `Server` value the effect writes is kept abstract. Its shape
  in the model is an assumption, and no member reads it.

Three behaviours of the code worth stating:

- No stale-response guard. The effect writes whatever `server` the fetch hook
  currently reports whenever `server && !error && !loading`. It does not check
  which server name that data was fetched for. The model claims nothing beyond
  that.
- A reference value of `0` is treated as missing, the same as `undefined`
  (`!refLat || !refLng`). Such a point gives Loading, not geofencing.
- The store write does not look at the response status. A 404 keeps the store
  null only if the fetch hook also reports an error or no data. What a 404
  changes directly is the rendered view (Redirect). That `<Redirect to="/" />`
  then makes App's `Switch` unmount `ServerContainer`, and the pending cleanup
  resets the store. In the model this is a commit followed by an unmount, and
  `UnmountClears` proves the store ends null.

## Model

| member | source | states |
|---|---|---|
| `Geofence.FirstContaining` | src/App.tsx:112-124 | Scanning the maps in order gives a map in the list whose open box contains the point. It gives None exactly when no listed box contains the point. |
| `Geofence.DetectMap` | src/App.tsx:112-124 | The source's comparison chain, with its literal constants, equals the ordered registry scan over [Syria, Georgia]. |
| `Geofence.FirstContainingIsFirstMatch` | src/App.tsx:112-124 | First match wins: the scan returns m exactly when m sits at some position, contains the point, and no earlier entry contains it. |
| `Geofence.BoxesDisjoint` | src/App.tsx:113-116 | No point lies in both the Syria box and the Georgia box. |
| `Geofence.SyriaBoxResolves` | src/App.tsx:113-114 | Every point with 28 < lat < 32 and 29 < lng < 33 resolves to Syria. |
| `Geofence.GeorgiaBoxResolves` | src/App.tsx:115-116 | Every point with 37 < lat < 41 and 34 < lng < 38 resolves to Georgia. |
| `Geofence.DetectMapCharacterized` | src/App.tsx:112-124 | Detection gives m if and only if m's box contains the point. It fails if and only if neither box contains the point. |
| `Geofence.OrderIrrelevant` | src/App.tsx:112-124 | Since the boxes are disjoint, scanning Georgia first gives the same result. |
| `Geofence.EdgeIsOutside` | src/App.tsx:113-123 | Bounds are exclusive. A point on an edge line of a box is outside that box. If it is also outside the other box, detection fails. |
| `ServerView.ReferenceOf` | src/App.tsx:70-77 | Both values are undefined when entity 0 is absent. Otherwise each value is defined exactly when entity 0 has that property, and it equals the property. |
| `ServerView.Decide` | src/App.tsx:92-126 | A 404 redirects, and Redirect happens only on a 404. Otherwise an error shows the error view, and only then. Otherwise loading or a falsy reference value shows Loading, exactly. A map is shown only when its box contains the reference. A failure carries the non-zero reference point, and no registry box contains that point. |
| `ServerView.ServerContainer` | src/App.tsx:69-126 | Without entity 0 the view is never a map or a map failure. |
| `ServerView.NotFoundRedirects` | src/App.tsx:92-94 | A 404 redirects whatever the error flag, loading flag and reference are. |
| `ServerView.ReadyViewIsGeofence` | src/App.tsx:104-126 | Once the fetch has settled without error and both values are non-zero, the view is exactly the geofence outcome, in both directions. |
| `ServerView.MissingReferenceLoads` | src/App.tsx:104-110 | With no 404 and no error, a missing entity 0 or an undefined or zero value always gives Loading, never a map failure. |
| `ServerView.ReferenceScenario` | src/App.tsx:70-126 | Entity 0 at (30, 31) shows Syria, and moved to (39, 36) it shows Georgia. At (0, 0) it shows Loading. On the edge (28, 31) it fails. |
| `ServerEffect.Cleanup` | src/App.tsx:88 | The cleanup resets the store to null when a cleanup was registered, leaves the store alone otherwise, and leaves no cleanup pending. |
| `ServerEffect.RunEffect` | src/App.tsx:86-88 | The effect writes the server and registers a cleanup exactly when `server && !error && !loading`. Otherwise the store is untouched. The dependencies are recorded. |
| `ServerEffect.Step` | src/App.tsx:85-90 | React's handling of the effect, in three rules. A commit with unchanged dependencies leaves everything as it was. A commit with changed dependencies runs the pending cleanup before the new effect body: the store holds the new server if it qualifies, is null if a cleanup was pending, and is otherwise untouched. An unmount runs the pending cleanup and forgets the dependencies. |
| `ServerEffect.Run` | src/App.tsx:85-90 | The state after a sequence of events. The empty sequence gives the initial state, with a null store and nothing pending. Otherwise the recorded dependencies are those of the last event if it is a commit, and none after an unmount. |
| `ServerEffect.StepPreservesConsistent` | src/App.tsx:85-90 | Each commit or unmount keeps the lifecycle invariant. The store holds exactly the value expected for the last dependencies, and a cleanup is pending exactly when the store is non-null. |
| `ServerEffect.RunConsistent` | src/App.tsx:85-90 | The invariant holds after every sequence of events, starting from a null store. |
| `ServerEffect.StoreAfterEvent` | src/App.tsx:85-90 | Whatever the history, after a commit the store holds its server exactly when it qualifies, and is null otherwise. After an unmount it is null. |
| `ServerEffect.NeverStale` | src/App.tsx:87-88 | At every point of any event sequence, the store is null or the server of the latest event, which is a qualifying commit. |
| `ServerEffect.UnmountClears` | src/App.tsx:88 | After unmount the store is null and no cleanup is pending. |
| `ServerEffect.SwitchResetsFirst` | src/App.tsx:85-90 | After a qualifying commit for one server, a non-qualifying commit leaves the store null. It never keeps the earlier server. |
| `ServerEffect.EffectHost.constructor` | src/App.tsx:85-90 | A fresh host has a null store, no pending cleanup and an empty history. |
| `ServerEffect.EffectHost.OnDepsChange` | src/App.tsx:85-90 | In place, for changed dependencies: the previous cleanup runs first, then the effect body. The host stays Valid and records the commit. Afterwards the store holds `server` if `server && !error && !loading`, and null otherwise. |
| `ServerEffect.EffectHost.Render` | src/App.tsx:85-90 | In place: the host performs one React commit step and keeps Valid. Afterwards the store holds `server` if `server && !error && !loading`, and null otherwise. |
| `ServerEffect.EffectHost.Unmount` | src/App.tsx:88 | In place: the host performs the unmount step and keeps Valid. Afterwards the store is null and no cleanup is pending. |
| `Links.ServerLink` | src/App.tsx:56 | The link is the `/servers/` prefix followed by exactly the name. |
| `Links.ServerLinks` | src/App.tsx:52-61 | There is one link per listed server, in list order, and each is `/servers/` + its name. |
| `Links.MatchServerRoute` | src/App.tsx:136-141 | A match captures a non-empty segment without `/`. The path is the prefix plus that segment, with at most one trailing `/`. |
| `Links.MatchServerRouteComplete` | src/App.tsx:136-141 | Every path made of `/servers/` and one segment, with or without a trailing `/`, matches and captures that segment. |
| `Links.LinkMatchesRoute` | src/App.tsx:138-140 | A link target matches the route with `serverName` equal to the name, if and only if the name is a non-empty single path segment. |
| `Links.EveryLinkMatches` | src/App.tsx:52-56 | Every listed server whose name is a single segment reaches the route with its own name as the parameter. |

## Left out

- Rendering: JSX markup, `classNames` styling, icons and the `Map` component. They are presentational. The model covers only which view is chosen.
- `useFetch`, `CachePolicies.NO_CACHE` and the retry button `get()`. These belong to the external `use-http` library, whose caching, retry and stale-response behaviour this file does not show. The fetch result enters the model as its parameters: status, error, loading and data.
- `ServerConnectModal`'s loading, error and list blocks. They are independent presentational conditionals. Only the link-target construction is modelled.
- The choice of base URL from `process.env.NODE_ENV`. It is deployment configuration.
- `route()` from `./util` and the internals of `./stores/ServerStore` are not part of this model. The store is a single `server` field that starts null, and this effect is its only writer. The entities the reference selector reads are given as a map.
- Property values: only numeric entity properties are modelled. The TypeScript cast assumes them to be `number | undefined`. Strings, booleans and `NaN` are not modelled.
- `response.status` is an integer. A status that is still undefined stands for any value other than 404.
- React's dependency comparison uses `Object.is`. The model compares dependencies by value, so object identity of a re-fetched but equal server is not modelled.
- React Router matching beyond the literal `/servers/:serverName` template: case-insensitive matching, URL decoding and query/hash parsing. Also `console.log` of the failed coordinate, beyond carrying it in the `MapFailure` view.
- Concurrency between fetch completions. Events are applied one at a time in the order React delivers them.
