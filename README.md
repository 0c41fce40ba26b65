# WalletConnect v1 demo page — a verified model

The demo page pairs a browser dApp with the Vault mobile wallet through a WalletConnect
v1 client and then sends the wallet two custom requests: one for the account address and
one to sign an arbitrary message. This project models two parts of that page.

- **The links that hand the session URI to the wallet** (`deep_links.dfy`). Two Firebase
  dynamic links (release path `qL6j`, beta path `muUh`) and one custom-scheme deep link
  (`app.dosivault://wc`). When a session URI is present (JavaScript-truthy: not null,
  undefined or empty), each link carries it percent-encoded as the query parameter `uri_wc`.
  Otherwise each is the bare link.
- **`encodeURIComponent`** (`uri_component.dfy`), which the links use. It follows the
  algorithm of ECMA-262: letters, digits and `- _ . ! ~ * ' ( )` are kept, and every other
  character becomes its UTF-8 octets written `%XY` in upper-case hexadecimal.
  `decodeURIComponent` is modelled too, as the wallet's side of the link. The two give the
  round trip that shows a link really carries the session URI.
- **The session and page state machine** (`session.dfy`). The `App` component's hook
  state (`chainId`, `connect`, `sessionUri`, `address`, `msgToSign`, `signature`) is class
  `Page`. The module-level WalletConnect client is class `Client`, which holds `connected`,
  `pending` and `uri`, and a ghost log of what it did (restored, created, killed, sent a
  request). The live sessions are counted from that log: those created or restored since
  the last kill or disconnect. Each handler is one atomic method:
  - mount, and the session effect that re-runs when the chain changes;
  - the "connect" and "disconnect" listeners;
  - `showQRCodeModal`, `fetchAddress` and `handleSignArbitraryMsg`;
  - the two chain switches, the message input and the manual kill button.

Wallet answers are method parameters: the created session's URI (or a failed creation),
the account list or the rejection of that request, the signature list or its
rejection, and the connect event's error. So is the random
request id. The invariant `Page.Valid` holds after every handler. It says:
- the client is connected or pending, never both, and its log leaves exactly that session
  live: no session is ever created beside another, because a connected one is killed
  first and a pending one is kept;
- the chain is `finschia-1` or `finschia-beta-1`;
- an address is shown only after a successful connect event;
- a shown session URI is one the client created (or restored at load).

Two behaviours of the code are worth stating:
- A chain switch while connected does not merely re-fetch the address. The effect kills
  the connected session and creates a new one (`src/App.jsx:54-59`).
- An empty wallet answer is not a decoding error. The code reads `[0]` unchecked and the
  field read on `undefined` raises a TypeError (error `UndefinedFirstElement`). In the
  connect listener this happens after `connect` has already become true.

A wallet answer is a `Result`: a rejected `sendCustomRequest` (the wallet declines, the
relay fails) raises `RequestRejected` before `setAddress` or `setSignature` runs; in the
connect listener `connect` has already become true. The client also tracks
a pending pairing (created, not yet approved). `createSession` does nothing while one is
pending, so a chain switch before pairing keeps the pending URI.

The method `Session.PairSignAndDisconnect` walks through one page life and checks, from
the contracts alone, what the page and the client hold after each handler.

## Model

| member | source | states |
|---|---|---|
| `UriComponent.Encode` | src/App.jsx:80 | the encoded URI holds only unescaped characters and `%`, so it cannot end the `uri_wc` value or start another parameter |
| `UriComponent.DecodeEncode` | src/App.jsx:80 | decoding the encoded URI gives back exactly the URI, for every string |
| `UriComponent.EncodeInjective` | src/App.jsx:80 | distinct URIs encode to distinct strings |
| `DeepLinks.DynamicLinkUrlRelease` | src/App.jsx:78-85 | every release link starts with `https://dosivault.page.link/qL6j`, whichever branch is taken |
| `DeepLinks.DynamicLinkUrlBeta` | src/App.jsx:95-102 | every beta link starts with `https://dosivault.page.link/muUh`, whichever branch is taken |
| `DeepLinks.DeepLinkUrl` | src/App.jsx:104-111 | every deep link as written, including the fallback with its stray quote, starts with `app.dosivault://wc` |
| `DeepLinks.DeepLinkUrlIntended` | src/App.jsx:104-111 | the corrected deep link starts with `app.dosivault://wc` in both branches |
| `DeepLinks.LinksCarrySessionUri` | src/App.jsx:78-111 | with a non-empty URI, each link is its base plus `?uri_wc=` plus a value that is query-safe and decodes to that URI |
| `DeepLinks.LinksWithoutSessionUri` | src/App.jsx:78-111 | with null, undefined or `""` (as in the argument-less call at line 185), the links are exactly the bare release link, the bare beta link and `app.dosivault://wc"` |
| `DeepLinks.ReleaseAndBetaDifferInPathOnly` | src/App.jsx:78-102 | for every argument, the release and beta links agree except for the path segment `qL6j` versus `muUh` |
| `DeepLinks.LinksDistinguishSessionUris` | src/App.jsx:78-111 | different session URIs give different links from each builder |
| `DeepLinks.DynamicLinkFallbackIsPrefix` | src/App.jsx:78-102 | the bare dynamic link is a prefix of every link its builder makes |
| `DeepLinks.DeepLinkFallbackIsNotPrefix` | src/App.jsx:109 | the deep link's fallback as written is not the bare deep link and is not a prefix of any link that carries a URI |
| `DeepLinks.IntendedDeepLinkFallbackIsPrefix` | src/App.jsx:104-111 | with the corrected fallback, the bare deep link is a prefix of every deep link, and a present URI is carried and decodes back |
| `Session.AddressFrom` | src/App.jsx:116-122 | the address is the `bech32Address` of the first account; a rejected request raises `RequestRejected` with its reason; an empty answer raises on the field read; it succeeds exactly when the request resolved with a non-empty answer |
| `Session.SignatureFrom` | src/App.jsx:126-131 | the signature is that of the first answer element; a rejected request raises `RequestRejected` with its reason; an empty answer raises on the field read; it succeeds exactly when the request resolved with a non-empty answer |
| `Session.Client.constructor` | src/App.jsx:9-17 | the shared client at page load, possibly still connected to a restored session (logged as restored), never pending; one session is live exactly when it is connected |
| `Session.Client.KillSession` | src/App.jsx:55 | afterwards nothing is connected, pending or live and the URI is cleared; a kill is logged |
| `Session.Client.CreateSession` | src/App.jsx:58 | callable only when not connected; while a pairing is pending it resolves and changes nothing; otherwise on success the URI is the new session's, which is pending and the one live session; on failure nothing changes |
| `Session.LiveSessionsStep` | src/App.jsx:55-58 | in the client's history a creation or restore opens one more live session, a kill or disconnect ends them all, and a request or approval leaves the count alone |
| `Session.Client.SendCustomRequest` | src/App.jsx:116-120 | the request is logged; connection state and the live sessions are untouched |
| `Session.Client.PeerConnect` | src/App.jsx:30 | the wallet approves the pending session, which becomes connected with its URI unchanged; the client then emits "connect" |
| `Session.Client.PeerDisconnect` | src/App.jsx:45 | the wallet ends the session: nothing connected, pending or live, URI cleared; the client then emits "disconnect" |
| `Session.Page.constructor` | src/App.jsx:20-25 | the initial hook state (`finschia-1`, not connected, no address or signature, message `Any text`), then the session effect from no session URI; on a failed creation the client is left without a session (URI cleared if it was killed, otherwise as it was) and `sessionUri` stays null |
| `Session.Page.InitSession` | src/App.jsx:52-60 | a connected session is killed before anything is created. A pending pairing is kept and its URI shown again. Otherwise a new session is created and `sessionUri` becomes its URI, with the client pending and one session live. On a failed creation the client has no session (URI cleared by the kill, or as it was) and `sessionUri` keeps its value. Fails only in that last case; no other page field changes |
| `Session.Page.ChangeChainId` | src/App.jsx:66 | the effect re-runs only when the chain actually changes; then it has exactly the effect of `InitSession` on the client and `sessionUri`, and leaves `connect` and `address` alone; otherwise neither the page nor the client changes |
| `Session.Page.ChangeChainIdToRelease` | src/App.jsx:87-89 | the chain becomes `finschia-1`, with the session effect if it was `finschia-beta-1` |
| `Session.Page.ChangeChainIdToBeta` | src/App.jsx:91-93 | the chain becomes `finschia-beta-1`, with the session effect if it was `finschia-1` |
| `Session.Page.FetchAddress` | src/App.jsx:113-123 | sends `keplr_get_key_wallet_connect_v1` with params `[chainId]` and the given id; returns the first account's address, or the rejection or read error |
| `Session.Page.OnConnect` | src/App.jsx:30-43 | with an error: `sessionUri` becomes null, the error is rethrown, and `connect` and `address` stay unchanged. Without one: the modal closes, `connect` becomes true, one key request is sent, and `address` becomes the fetched address when the request resolved with a readable answer |
| `Session.Page.OnDisconnect` | src/App.jsx:45-50 | `sessionUri` and `address` become null and nothing else on the page changes |
| `Session.Page.ShowQRCodeModal` | src/App.jsx:68-76 | when connected, only `address` is refreshed by a key request; otherwise the page is unchanged, nothing is sent and the modal shows the client's URI |
| `Session.Page.HandleSignArbitraryMsg` | src/App.jsx:125-132 | sends `keplr_sign_free_message_wallet_connect_v1` with params `[chainId, address, msgToSign]`; `signature` becomes the first element's signature, or stays unchanged when the request is rejected or the answer is empty |
| `Session.Page.SetMsgToSign` | src/App.jsx:181 | only the message to sign changes |
| `Session.Page.KillSessionManually` | src/App.jsx:198-200 | the client is killed whatever its state: nothing connected, pending or live, and the URI cleared; the page's hook state is untouched |

## Left out

- JSX rendering, styling, the `hidden` toggles and the background colour from `client.session.key`: these are presentation only.
- Construction of the WalletConnect client, the bridge transport and the internals of `sendCustomRequest`: these are network I/O inside a library. The created URI, the wallet's answers and creation failure are parameters. The client's own behaviour is abstracted to the contracts of `Session.Client`.
- Request ids come from `Math.random()`. They are an arbitrary parameter below 100000, and nothing is claimed about uniqueness or about matching answers to requests by id (the library does that matching).
- Listener registration and removal with `on`/`off`, asynchronous interleaving and the awaits inside handlers: each handler is one atomic step.
- `window.location.reload()` after a disconnect, and `console.log`: these are environment side effects. The reload would reset the page to its constructor state.
- Opening and closing the QR modal: this is a foreign UI library, kept only as the ghost field `qrModal`.
- A `killSession` emits a local "disconnect" event in the library. That event is not chained automatically; a caller models it with `OnDisconnect`.
- `Session.Client.KillSession`: the URI the library reports after a kill is not visible, so the model clears it.
- `Session.Client.CreateSession`: the client library is not part of this model. Its refusal while connected and its no-op while a pairing is pending are taken from the WalletConnect v1 client's documented behaviour, not from source in this repository.
- A lone surrogate, for which `encodeURIComponent` raises a URIError: Dafny strings hold only Unicode scalar values, so it cannot occur in the model.

## Findings

| source | as written | input that shows it | evidently intended | confidence | as-written member | corrected member |
|---|---|---|---|---|---|---|
| src/App.jsx:109 | the deep link without a session URI is `app.dosivault://wc"`, with a stray double quote | `getDeepLinkUrl(null)` returns `app.dosivault://wc"`, which is not a prefix of `getDeepLinkUrl("x")` = `app.dosivault://wc?uri_wc=x` | `app.dosivault://wc`, the bare deep link, like the bare dynamic links at lines 83 and 100 | high; not executed | `DeepLinks.DeepLinkFallbackIsNotPrefix` | `DeepLinks.IntendedDeepLinkFallbackIsPrefix` |
