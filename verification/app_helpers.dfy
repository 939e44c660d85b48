/** The small pure helpers of the application shell: address validation,
    the auto-connect URL check, text direction, and the NFT preview (which
    metadata source to use, which image field to show, and whether it is a
    video). */
module AppHelpers {
  import opened Common

  // ------------------------------------------------------------ addresses

  /** `isValidAddress`: a present address matching `^0x[a-fA-F0-9]{40}$`,
      that is `0x` followed by forty hexadecimal digits of either case. */
  function IsValidAddress(address: Option<string>): (valid: bool)
    ensures valid <==>
              && address.Some? && |address.value| == 42
              && address.value[..2] == "0x"
              && forall i :: 2 <= i < 42 ==> IsHexDigit(address.value[i])
  {
    if address.Some? && |address.value| == 42 then
      assert address.value[..2] == [address.value[0], address.value[1]];
      Truthy(address) && AddressPattern(address.value)
    else Truthy(address) && AddressPattern(address.value)
  }

  /** Changing the case of the digits keeps a valid address valid. */
  lemma ValidAddressIgnoresDigitCase(a: string)
    requires AddressPattern(a)
    ensures AddressPattern(ToLower(a))
  {
    var l := ToLower(a);
    forall i | 2 <= i < 42
      ensures IsHexDigit(l[i])
    {
      assert l[i] == LowerChar(a[i]);
    }
  }

  // ---------------------------------------------------------- auto-connect

  /** `hasAutoConnectParams` over the `walletId`, `authCookie` and
      `autoConnect` query parameters (missing parameters are `None`). */
  function HasAutoConnectParams(walletId: Option<string>, authCookie: Option<string>, autoConnect: Option<string>): (on: bool)
    ensures autoConnect == Some("true") ==> on
    ensures on ==> walletId == Some("inApp") || autoConnect == Some("true")
    ensures on && autoConnect != Some("true") ==> authCookie.Some? && authCookie.value != ""
  {
    (walletId == Some("inApp") && Truthy(authCookie)) || autoConnect == Some("true")
  }

  /** Auto-connect needs either the in-app wallet with a non-empty cookie
      or an explicit `autoConnect=true`; nothing else turns it on, so the
      in-app wallet with a missing or empty cookie does not. */
  lemma AutoConnectCases(walletId: Option<string>, authCookie: Option<string>, autoConnect: Option<string>)
    ensures HasAutoConnectParams(walletId, authCookie, autoConnect) <==>
              || (walletId == Some("inApp") && authCookie.Some? && authCookie.value != "")
              || autoConnect == Some("true")
  {
  }

  // -------------------------------------------------------------- language

  /** The selector's languages; the first one is the fallback. */
  const Languages: seq<string> := ["en", "es", "zh", "ja", "he", "ar"]

  const RtlLanguages: seq<string> := ["he", "ar"]

  datatype Direction = Ltr | Rtl

  /** The document direction for a language code: right to left exactly
      for Hebrew and Arabic. */
  function DirectionOf(language: string): (d: Direction)
    ensures d == Rtl <==> language == "he" || language == "ar"
    ensures d == Rtl ==> language in Languages
  {
    if language in RtlLanguages then Rtl else Ltr
  }

  /** The language the selector displays for the active language code. */
  function SelectedLanguage(language: string): (r: string)
    ensures r in Languages
    ensures language in Languages ==> r == language
    ensures language !in Languages ==> r == Languages[0]
  {
    if language in Languages then language else Languages[0]
  }

  /** Hebrew and Arabic are the right-to-left languages, and the selector
      shows English for any code it does not know, while the document
      direction still follows the code itself. */
  lemma DirectionRule(language: string)
    ensures DirectionOf(language) == Rtl <==> language == "he" || language == "ar"
    ensures DirectionOf(language) == Rtl ==> DirectionOf(SelectedLanguage(language)) == Rtl
    ensures language !in Languages ==> SelectedLanguage(language) == "en" && DirectionOf(language) == Ltr
  {
  }

  // ------------------------------------------------------------- preview

  const IpfsScheme := "ipfs://"
  const IpfsGateway := "https://ipfs.io/ipfs/"
  const JsonBase64Prefix := "data:application/json;base64,"
  const JsonTextPrefix := "data:application/json,"

  /** An `ipfs://` locator rewritten to the public gateway; anything else
      unchanged. */
  function ResolveIpfs(url: string): (r: string)
    ensures StartsWith(url, IpfsScheme) ==> StartsWith(r, IpfsGateway) && r[|IpfsGateway|..] == url[|IpfsScheme|..]
    ensures !StartsWith(url, IpfsScheme) ==> r == url
  {
    if StartsWith(url, IpfsScheme) then ReplacePrefix(url, IpfsScheme, IpfsGateway) else url
  }

  /** Undoing the rewrite gives back the `ipfs://` locator. */
  lemma ResolveIpfsRoundTrip(url: string)
    requires StartsWith(url, IpfsScheme)
    ensures IpfsScheme + ResolveIpfs(url)[|IpfsGateway|..] == url
    ensures !StartsWith(ResolveIpfs(url), IpfsScheme)
  {
    assert url == url[..|IpfsScheme|] + url[|IpfsScheme|..];
    var r := ResolveIpfs(url);
    assert r[..|IpfsScheme|] != IpfsScheme by {
      assert r[0] == 'h';
    }
  }

  /** Where the preview's metadata comes from. */
  datatype PreviewSource =
    | Configured(url: string, isVideo: bool)   // the theme's image override
    | NoMetadata                               // no token URI to read
    | DecodeBase64(payload: string)            // `atob` then `JSON.parse`
    | DecodePercent(payload: string)           // `decodeURIComponent` then `JSON.parse`
    | FetchRemote(url: string)                 // HTTP fetch of the metadata document

  /** The dispatch of `fetchMetadata`, in order: the configured image, a
      missing URI, the two inline JSON data URLs, and a remote fetch. */
  function ChoosePreviewSource(configuredUrl: Option<string>, configuredIsVideo: bool,
                               tokenUri: Option<string>): (r: PreviewSource)
    ensures Truthy(configuredUrl) ==> r == Configured(configuredUrl.value, configuredIsVideo)
    ensures !Truthy(configuredUrl) && !Truthy(tokenUri) ==> r == NoMetadata
    ensures !Truthy(configuredUrl) && Truthy(tokenUri) && StartsWith(tokenUri.value, JsonBase64Prefix)
            ==> r == DecodeBase64(tokenUri.value[|JsonBase64Prefix|..])
    ensures !Truthy(configuredUrl) && Truthy(tokenUri) && !StartsWith(tokenUri.value, JsonBase64Prefix)
            && StartsWith(tokenUri.value, JsonTextPrefix)
            ==> r == DecodePercent(tokenUri.value[|JsonTextPrefix|..])
    ensures !Truthy(configuredUrl) && Truthy(tokenUri) && !StartsWith(tokenUri.value, JsonBase64Prefix)
            && !StartsWith(tokenUri.value, JsonTextPrefix)
            ==> r == FetchRemote(ResolveIpfs(tokenUri.value))
  {
    if Truthy(configuredUrl) then Configured(configuredUrl.value, configuredIsVideo)
    else if !Truthy(tokenUri) then NoMetadata
    else
      var uri := tokenUri.value;
      var metadataUrl := ResolveIpfs(uri);
      if StartsWith(uri, JsonBase64Prefix) then DecodeBase64(ReplacePrefix(uri, JsonBase64Prefix, ""))
      else if StartsWith(uri, JsonTextPrefix) then DecodePercent(ReplacePrefix(uri, JsonTextPrefix, ""))
      else FetchRemote(metadataUrl)
  }

  /** Without a configured image, a token URI is dispatched on its prefix
      alone: base64 JSON is decoded, URL-encoded JSON is decoded, and
      anything else is fetched, `ipfs://` going through the gateway. The
      payload handed to a decoder is exactly what follows the prefix. */
  lemma PreviewDispatchByPrefix(configuredUrl: Option<string>, isVideo: bool, rest: string)
    requires !Truthy(configuredUrl)
    ensures ChoosePreviewSource(configuredUrl, isVideo, Some(JsonBase64Prefix + rest)) == DecodeBase64(rest)
    ensures ChoosePreviewSource(configuredUrl, isVideo, Some(JsonTextPrefix + rest)) == DecodePercent(rest)
    ensures ChoosePreviewSource(configuredUrl, isVideo, Some(IpfsScheme + rest)) == FetchRemote(IpfsGateway + rest)
  {
    assert (JsonBase64Prefix + rest)[..|JsonBase64Prefix|] == JsonBase64Prefix;
    assert (JsonTextPrefix + rest)[..|JsonTextPrefix|] == JsonTextPrefix;
    assert (JsonBase64Prefix + rest)[|JsonBase64Prefix|..] == rest;
    assert (JsonTextPrefix + rest)[|JsonTextPrefix|..] == rest;
    var ipfs := IpfsScheme + rest;
    assert ipfs[..|IpfsScheme|] == IpfsScheme;
    assert ipfs[|IpfsScheme|..] == rest;
    assert !StartsWith(JsonTextPrefix + rest, JsonBase64Prefix) by {
      assert (JsonTextPrefix + rest)[21] == ',';
    }
    assert !StartsWith(ipfs, JsonBase64Prefix) && !StartsWith(ipfs, JsonTextPrefix) by {
      assert ipfs[0] == 'i';
    }
  }

  /** The image fields of a metadata document, as parsed JSON strings. */
  datatype JsonMetadata = JsonMetadata(image: Option<string>, imageUrl: Option<string>, animationUrl: Option<string>)

  datatype Preview = Preview(url: string, isVideo: bool)

  const VideoExtensions: seq<string> := [".mp4", ".webm", ".mov"]

  /** The URL, lower-cased, mentions one of the video extensions. */
  predicate HasVideoExtension(url: string)
  {
    exists i :: 0 <= i < |VideoExtensions| && Contains(ToLower(url), VideoExtensions[i])
  }

  /** `image || image_url || animation_url`: the first non-empty field. */
  function FirstImageField(m: JsonMetadata): (r: Option<string>)
    ensures r.Some? <==> Truthy(m.image) || Truthy(m.imageUrl) || Truthy(m.animationUrl)
    ensures r.Some? ==> r.value != ""
  {
    if Truthy(m.image) then m.image
    else if Truthy(m.imageUrl) then m.imageUrl
    else if Truthy(m.animationUrl) then m.animationUrl
    else None
  }

  /** `processMetadata`: the preview to show, or none when the document has
      no image field. */
  function ProcessMetadata(m: JsonMetadata): (r: Option<Preview>)
    ensures r.Some? <==> FirstImageField(m).Some?
    ensures r.Some? ==> r.value.url == ResolveIpfs(FirstImageField(m).value)
  {
    match FirstImageField(m)
    case None => None
    case Some(picked) =>
      var url := ResolveIpfs(picked);
      Some(Preview(url, HasVideoExtension(url) || Truthy(m.animationUrl)))
  }

  /** A preview is a video exactly when the document has an animation or
      the chosen URL names a video file, in any letter case. */
  lemma VideoDetection(m: JsonMetadata)
    requires ProcessMetadata(m).Some?
    ensures ProcessMetadata(m).value.isVideo
            <==> Truthy(m.animationUrl) || HasVideoExtension(ProcessMetadata(m).value.url)
  {
  }

  /** The extension check ignores letter case: a preview URL containing
      `.MOV`, `.Mp4` or any other spelling of a video extension plays as a
      video. */
  lemma UpperCaseExtensionIsVideo(m: JsonMetadata, variant: string)
    requires ProcessMetadata(m).Some?
    requires ToLower(variant) in VideoExtensions
    requires Contains(ProcessMetadata(m).value.url, variant)
    ensures HasVideoExtension(ProcessMetadata(m).value.url)
    ensures ProcessMetadata(m).value.isVideo
  {
    var url := ProcessMetadata(m).value.url;
    ContainsToLower(url, variant);
    var i :| 0 <= i < |VideoExtensions| && VideoExtensions[i] == ToLower(variant);
    assert Contains(ToLower(url), VideoExtensions[i]);
  }
}
