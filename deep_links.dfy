/**
  The links the page offers for handing the WalletConnect session URI to the Vault
  mobile wallet: a Firebase dynamic link for the release app, one for the beta app, and
  a custom-scheme deep link. Each one carries the session URI, percent-encoded, as the
  query parameter `uri_wc` when there is one, and is the bare link otherwise.
 */
module DeepLinks {
  import opened Wrappers
  import UriComponent

  const DynamicLinkHost := "https://dosivault.page.link/"
  const ReleaseBase := "https://dosivault.page.link/qL6j"
  const BetaBase := "https://dosivault.page.link/muUh"
  const DeepLinkBase := "app.dosivault://wc"
  /** What the deep-link builder returns when there is no session URI. */
  const DeepLinkFallback := "app.dosivault://wc\""
  const UriParam := "?uri_wc="

  /** JavaScript truthiness of the argument `wcUrl` (`!!wcUrl`): null, undefined and the
      empty string are all absent. */
  predicate Present(wcUrl: Option<string>) {
    wcUrl.Some? && wcUrl.value != ""
  }

  /** `getDynamicLinkUrlRelease(wcUrl)`. */
  function DynamicLinkUrlRelease(wcUrl: Option<string>): (r: string)
    ensures ReleaseBase <= r
  {
    if Present(wcUrl) then "https://dosivault.page.link/qL6j?uri_wc=" + UriComponent.Encode(wcUrl.value)
    else "https://dosivault.page.link/qL6j"
  }

  /** `getDynamicLinkUrlBeta(wcUrl)`. */
  function DynamicLinkUrlBeta(wcUrl: Option<string>): (r: string)
    ensures BetaBase <= r
  {
    if Present(wcUrl) then "https://dosivault.page.link/muUh?uri_wc=" + UriComponent.Encode(wcUrl.value)
    else "https://dosivault.page.link/muUh"
  }

  /** `getDeepLinkUrl(wcUrl)`, as written: its fallback ends in a stray double quote. */
  function DeepLinkUrl(wcUrl: Option<string>): (r: string)
    ensures DeepLinkBase <= r
  {
    if Present(wcUrl) then "app.dosivault://wc?uri_wc=" + UriComponent.Encode(wcUrl.value)
    else "app.dosivault://wc\""
  }

  /** `getDeepLinkUrl` with the fallback it evidently means: the bare deep link. */
  function DeepLinkUrlIntended(wcUrl: Option<string>): (r: string)
    ensures DeepLinkBase <= r
  {
    if Present(wcUrl) then "app.dosivault://wc?uri_wc=" + UriComponent.Encode(wcUrl.value)
    else "app.dosivault://wc"
  }

  /** A link that carries `u` as the value of its only query parameter `uri_wc`: the value
      is everything after `base + "?uri_wc="`, it holds no character that could end it or
      start another parameter, and decoding it gives `u` back. */
  predicate CarriesUri(link: string, base: string, u: string) {
    var head := base + UriParam;
    && head <= link
    && (forall c | c in link[|head|..] :: UriComponent.Unescaped(c) || c == '%')
    && UriComponent.Decode(link[|head|..]) == Some(u)
  }

  lemma EncodedQueryCarriesUri(base: string, u: string)
    ensures CarriesUri(base + UriParam + UriComponent.Encode(u), base, u)
  {
    var link := base + UriParam + UriComponent.Encode(u);
    assert link[|base + UriParam|..] == UriComponent.Encode(u);
    UriComponent.DecodeEncode(u);
  }

  /** With a session URI, every builder's link hands exactly that URI to the wallet. */
  lemma LinksCarrySessionUri(u: string)
    requires u != ""
    ensures CarriesUri(DynamicLinkUrlRelease(Some(u)), ReleaseBase, u)
    ensures CarriesUri(DynamicLinkUrlBeta(Some(u)), BetaBase, u)
    ensures CarriesUri(DeepLinkUrl(Some(u)), DeepLinkBase, u)
  {
    EncodedQueryCarriesUri(ReleaseBase, u);
    EncodedQueryCarriesUri(BetaBase, u);
    EncodedQueryCarriesUri(DeepLinkBase, u);
  }

  /** Without a session URI (null, undefined or empty, as in the argument-less call that
      brings the Vault to the front), the links are the bare ones. */
  lemma LinksWithoutSessionUri(wcUrl: Option<string>)
    requires !Present(wcUrl)
    ensures DynamicLinkUrlRelease(wcUrl) == ReleaseBase
    ensures DynamicLinkUrlBeta(wcUrl) == BetaBase
    ensures DeepLinkUrl(wcUrl) == DeepLinkFallback
  {
  }

  /** The release and beta links differ only in the path segment `qL6j` / `muUh`. */
  lemma ReleaseAndBetaDifferInPathOnly(wcUrl: Option<string>)
    ensures var release, beta, n := DynamicLinkUrlRelease(wcUrl), DynamicLinkUrlBeta(wcUrl), |DynamicLinkHost|;
      && |release| == |beta| && n + 4 <= |release|
      && release[..n] == beta[..n] == DynamicLinkHost
      && release[n..n + 4] == "qL6j" && beta[n..n + 4] == "muUh"
      && release[n + 4..] == beta[n + 4..]
  {
    var release, beta, n := DynamicLinkUrlRelease(wcUrl), DynamicLinkUrlBeta(wcUrl), |DynamicLinkHost|;
    var tail := if Present(wcUrl) then UriParam + UriComponent.Encode(wcUrl.value) else "";
    assert release == DynamicLinkHost + "qL6j" + tail;
    assert beta == DynamicLinkHost + "muUh" + tail;
  }

  /** Two different session URIs never produce the same link. */
  lemma LinksDistinguishSessionUris(u1: string, u2: string)
    requires u1 != "" && u2 != "" && u1 != u2
    ensures DynamicLinkUrlRelease(Some(u1)) != DynamicLinkUrlRelease(Some(u2))
    ensures DynamicLinkUrlBeta(Some(u1)) != DynamicLinkUrlBeta(Some(u2))
    ensures DeepLinkUrl(Some(u1)) != DeepLinkUrl(Some(u2))
  {
    LinksCarrySessionUri(u1);
    LinksCarrySessionUri(u2);
  }

  /** The dynamic links' fallback is a prefix of every link the builder makes. */
  lemma DynamicLinkFallbackIsPrefix(absent: Option<string>, wcUrl: Option<string>)
    requires !Present(absent)
    ensures DynamicLinkUrlRelease(absent) <= DynamicLinkUrlRelease(wcUrl)
    ensures DynamicLinkUrlBeta(absent) <= DynamicLinkUrlBeta(wcUrl)
  {
  }

  /** As written, the deep link's fallback is not the bare deep link and is not a prefix
      of the link that carries a URI: they part at the character after `wc`. */
  lemma DeepLinkFallbackIsNotPrefix(absent: Option<string>, u: string)
    requires !Present(absent) && u != ""
    ensures DeepLinkUrl(absent) != DeepLinkBase
    ensures !(DeepLinkUrl(absent) <= DeepLinkUrl(Some(u)))
  {
    var n := |DeepLinkBase|;
    assert DeepLinkUrl(absent)[n] == '"';
    assert DeepLinkUrl(Some(u))[n] == '?';
  }

  /** With the intended fallback, the deep link behaves like the dynamic links: the
      fallback is the bare link and a prefix of every link the builder makes. */
  lemma IntendedDeepLinkFallbackIsPrefix(absent: Option<string>, wcUrl: Option<string>)
    requires !Present(absent)
    ensures DeepLinkUrlIntended(absent) == DeepLinkBase
    ensures DeepLinkUrlIntended(absent) <= DeepLinkUrlIntended(wcUrl)
    ensures Present(wcUrl) ==> CarriesUri(DeepLinkUrlIntended(wcUrl), DeepLinkBase, wcUrl.value)
  {
    if Present(wcUrl) {
      EncodedQueryCarriesUri(DeepLinkBase, wcUrl.value);
    }
  }
}
