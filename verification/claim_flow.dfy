/** The claim flow end to end: what the contract does with the transaction
    each front-end sends, how the contract's metadata reaches the preview,
    and how the proxy's counts feed the activity gate. */
module ClaimFlow {
  import opened Common
  import ClaimContract
  import MintingUi
  import InlineMinting
  import AppHelpers
  import WalletActivity

  /** The component reads the contract's price and attaches it, so a
      click that sends a transaction is never refused for underpayment; it
      succeeds exactly when the contract is running, the caller has not
      claimed and the caller is a real address. The price is attached even
      for a caller the contract lets claim for free, and the contract keeps
      it. */
  lemma ComponentClaimNeverUnderpays(s: ClaimContract.State, caller: ClaimContract.Address,
                                     now: int, last: int, price: Option<nat>, cost: Option<nat>)
    requires MintingUi.HandleMint(now, last, true, true, false,
                                  MintingUi.ResolvedMintPrice(Some(s.mintPrice), price, cost)).sent.Some?
    ensures var tx := MintingUi.HandleMint(now, last, true, true, false,
                                           MintingUi.ResolvedMintPrice(Some(s.mintPrice), price, cost)).sent.value;
            var r := ClaimContract.Mint(s, caller, tx.value);
            && tx.value == s.mintPrice
            && r != Err(ClaimContract.Reason(ClaimContract.InsufficientPaymentReason))
            && (r.Ok? <==> !s.paused && caller !in s.hasMinted && caller != ClaimContract.ZeroAddress)
            && (r.Ok? ==> r.value.state.ethBalance == s.ethBalance + s.mintPrice)
  {
  }

  /** The inline copy sends no value, so its claim goes through only for a
      caller the contract lets claim for free; a paying caller is refused
      for underpayment whenever the price is positive. */
  lemma InlineClaimNeedsFreeCaller(s: ClaimContract.State, caller: ClaimContract.Address, now: int, last: int)
    requires !s.paused && caller !in s.hasMinted && caller != ClaimContract.ZeroAddress
    requires InlineMinting.HandleMint(now, last, true, true, false).sent.Some?
    ensures var tx := InlineMinting.HandleMint(now, last, true, true, false).sent.value;
            var r := ClaimContract.Mint(s, caller, tx.value);
            && (r.Ok? <==> ClaimContract.IsFreeForAddress(s, caller))
            && (r.Err? ==> r.error == ClaimContract.Reason(ClaimContract.InsufficientPaymentReason))
            && (r.Ok? ==> r.value.state.ethBalance == s.ethBalance)
  {
  }

  /** The two front-ends disagree only for a caller who must pay: for a
      free caller both succeed, otherwise only the component's does. */
  lemma FrontEndsDisagreeOnlyOnPaidClaims(s: ClaimContract.State, caller: ClaimContract.Address)
    requires !s.paused && caller !in s.hasMinted && caller != ClaimContract.ZeroAddress
    ensures ClaimContract.Mint(s, caller, s.mintPrice).Ok?
    ensures ClaimContract.Mint(s, caller, 0).Ok? <==> ClaimContract.IsFreeForAddress(s, caller)
    ensures !ClaimContract.IsFreeForAddress(s, caller) ==> s.mintPrice > 0
  {
  }

  /** The fields `JSON.parse` finds in the contract's metadata document. */
  function ParsedMetadata(m: ClaimContract.Metadata): (j: AppHelpers.JsonMetadata)
    ensures j.image == Some(m.image) && j.animationUrl == Some(m.animationUrl) && j.imageUrl.None?
  {
    AppHelpers.JsonMetadata(Some(m.image), None, Some(m.animationUrl))
  }

  /** Text made of single-byte characters only. */
  predicate AsciiText(text: string)
  {
    forall i :: 0 <= i < |text| ==> text[i] as int < 128
  }

  /** Metadata whose every text field is single-byte, the only documents
      `atob` followed by `JSON.parse` reads back unchanged. */
  predicate AsciiMetadata(m: ClaimContract.Metadata)
  {
    AsciiText(m.name) && AsciiText(m.description) && AsciiText(m.image) && AsciiText(m.animationUrl)
  }

  /** A minted token's URI, a base64 JSON data URL, reaches the decoder
      with exactly the encoded document; once decoded, the preview shows
      the collection image through the IPFS gateway (or the animation when
      there is no image) and plays it as a video whenever the collection
      has an animation. `encode` stands for JSON serialisation and base64
      encoding, `decode` for the reverse; the round trip is assumed for
      single-byte text only, since `atob` yields one character per byte. */
  lemma TokenPreviewFollowsCollection(s: ClaimContract.State, tokenId: nat,
                                      encode: ClaimContract.Metadata -> string,
                                      decode: string -> Option<AppHelpers.JsonMetadata>)
    requires ClaimContract.TokenUri(s, tokenId).Ok?
    requires AsciiMetadata(ClaimContract.TokenUri(s, tokenId).value)
    requires forall m :: AsciiMetadata(m) ==> decode(encode(m)) == Some(ParsedMetadata(m))
    ensures var m := ClaimContract.TokenUri(s, tokenId).value;
            var uri := AppHelpers.JsonBase64Prefix + encode(m);
            var c := s.collection;
            && AppHelpers.ChoosePreviewSource(None, false, Some(uri)) == AppHelpers.DecodeBase64(encode(m))
            && decode(AppHelpers.ChoosePreviewSource(None, false, Some(uri)).payload) == Some(ParsedMetadata(m))
            && (c.imageUri != "" ==>
                  AppHelpers.ProcessMetadata(ParsedMetadata(m)).value.url == AppHelpers.ResolveIpfs(c.imageUri))
            && (c.imageUri == "" && c.animationUri != "" ==>
                  AppHelpers.ProcessMetadata(ParsedMetadata(m))
                  == Some(AppHelpers.Preview(AppHelpers.ResolveIpfs(c.animationUri), true)))
            && (c.imageUri == "" && c.animationUri == "" ==> AppHelpers.ProcessMetadata(ParsedMetadata(m)).None?)
            && (AppHelpers.ProcessMetadata(ParsedMetadata(m)).Some? && c.animationUri != "" ==>
                  AppHelpers.ProcessMetadata(ParsedMetadata(m)).value.isVideo)
  {
    var m := ClaimContract.TokenUri(s, tokenId).value;
    AppHelpers.PreviewDispatchByPrefix(None, false, encode(m));
  }

  /** The test collection's first token previews as its gateway image,
      played as a video because the collection has an animation. */
  lemma TestCollectionPreview()
    ensures var s := ClaimContract.Mint(ClaimContract.Deploy(1, TestCollection, 10, {}), 2, 10).value.state;
            AppHelpers.ProcessMetadata(ParsedMetadata(ClaimContract.TokenUri(s, 1).value))
            == Some(AppHelpers.Preview("https://ipfs.io/ipfs/test-image", true))
  {
    var s0 := ClaimContract.Deploy(1, TestCollection, 10, {});
    var s := ClaimContract.Mint(s0, 2, 10).value.state;
    assert s.collection == TestCollection;
    var m := ClaimContract.TokenUri(s, 1).value;
    assert m.image == "ipfs://test-image" && m.animationUrl == "ipfs://test-animation";
    var url := "ipfs://test-image";
    assert StartsWith(url, AppHelpers.IpfsScheme) by {
      assert url[..7] == "ipfs://";
    }
    var r := AppHelpers.ResolveIpfs(url);
    assert r == "https://ipfs.io/ipfs/test-image" by {
      assert r[..|AppHelpers.IpfsGateway|] == AppHelpers.IpfsGateway;
      assert r[|AppHelpers.IpfsGateway|..] == url[7..] == "test-image";
      assert r == r[..|AppHelpers.IpfsGateway|] + r[|AppHelpers.IpfsGateway|..];
    }
    assert AppHelpers.FirstImageField(ParsedMetadata(m)) == Some(url);
  }

  /** The proxy's address pattern accepts exactly the addresses the app's
      validator accepts: a keyed POST is refused with 400 exactly when the
      app would call the address invalid, and an address the app accepts
      is queried as given. */
  lemma ProxyUsesAppValidator(apiKey: string, networkUrl: Option<string>, address: Option<string>,
                              upstream: WalletActivity.Query -> WalletActivity.Upstream)
    requires apiKey != ""
    ensures var h := WalletActivity.Handle("POST", Some(apiKey), networkUrl, address, upstream);
            && (h.response.status == 400 <==> !AppHelpers.IsValidAddress(address))
            && (AppHelpers.IsValidAddress(address) ==>
                  h.queries == WalletActivity.Queries(WalletActivity.EndpointUrl(networkUrl, apiKey), address.value))
  {
  }

  const TestCollection := ClaimContract.Collection("Test Collection", "TEST", "Test Description",
                                                   "ipfs://test-image", "ipfs://test-animation",
                                                   2_000_000_000, true, 10)

  /** The counts a 200 answer carries, as the activity widget reads them. */
  function ActivityOf(b: WalletActivity.Body): (a: Option<MintingUi.Activity>)
    ensures a.Some? <==> b.CountsBody?
    ensures a.Some? ==> a.value.transactions == b.transactions && a.value.erc20 == b.erc20 && a.value.nft == b.nft
  {
    if b.CountsBody? then Some(MintingUi.Activity(b.transactions, b.erc20, b.nft)) else None
  }

  /** The gate compares the threshold with the sum of the six query
      counts; a proxy failure leaves no activity, and the gate then stays
      open whatever the threshold. */
  lemma GateSeesSixCounts(address: string, apiKey: string, networkUrl: Option<string>,
                          upstream: WalletActivity.Query -> WalletActivity.Upstream, threshold: int)
    requires apiKey != "" && AddressPattern(address)
    ensures var h := WalletActivity.Handle("POST", Some(apiKey), networkUrl, Some(address), upstream);
            var qs := WalletActivity.Queries(WalletActivity.EndpointUrl(networkUrl, apiKey), address);
            && (h.response.status == 200 ==>
                  MintingUi.TotalActivity(ActivityOf(h.response.body))
                  == WalletActivity.Count(upstream(qs[0])) + WalletActivity.Count(upstream(qs[1]))
                     + WalletActivity.Count(upstream(qs[2])) + WalletActivity.Count(upstream(qs[3]))
                     + WalletActivity.Count(upstream(qs[4])) + WalletActivity.Count(upstream(qs[5])))
            && (h.response.status == 200 && threshold > 0 ==>
                  (MintingUi.MeetsThreshold(true, threshold, false, ActivityOf(h.response.body))
                   <==> MintingUi.TotalActivity(ActivityOf(h.response.body)) >= threshold))
            && (h.response.status != 200 ==> MintingUi.MeetsThreshold(true, threshold, false, ActivityOf(h.response.body)))
  {
  }
}
