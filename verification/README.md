# Claim-app core, modelled in Dafny

This project models the core of a white-labelled NFT claim app. The app is an
ERC-721 "prize" contract with one claim per address. Accounts created by the
app's own account factory claim for free; anyone else pays a mint price. The
collection can be soulbound. A React front-end gates the claim button, and a
small proxy counts a wallet's on-chain activity for an optional gate.

What is modelled:

- **`ClaimContract`** (`claim_contract.dfy`). The claim contract is an
  immutable state record. Each entry point is a function returning either a
  receipt (new state and events) or the revert reason:
  - `mint` with its guards in order: paused, already claimed, underpaid.
  - `isFreeForAddress`, `tokenURI`, `ownerOf`.
  - The owner-only `setMintPrice`, `pause`, `unpause` and `withdrawETH`.
  - The three ERC-721 transfer/approval entry points, which a soulbound
    collection refuses outright.
  - `Run`, which applies a sequence of calls; a reverted call keeps the state.

  The contract's Solidity source is not part of this model. Its behaviour is
  taken from the contract's test suite and, for the ERC-721 parts, from
  EIP-721 with OpenZeppelin 5 error names.
- **`ClaimContractProperties`** (`claim_contract_properties.dfy`). These are
  properties that hold for every reachable state:
  - An invariant: token ids are exactly `1..totalSupply`, with one token per
    claimant.
  - The one-claim ledger only grows.
  - Soulbound tokens never move.
  - Every scenario of the test suite, stated as a lemma.
- **`MintingUi`** (`minting_ui.dfy`). This is the stand-alone
  `MintingInterface` component:
  - the activity gate;
  - the price it attaches;
  - the connection state and its 15-second authorization timer;
  - the drawing countdown;
  - `handleMint` with its 8-second cooldown;
  - the cascade that picks the one panel to render.
- **`InlineMinting`** (`inline_minting.dfy`). This is the older copy of that
  component written inline in `App.jsx`; it is the one `App` renders. It is
  stated against the stand-alone component.
- **`AppHelpers`** (`app_helpers.dfy`). These are the `App.jsx` helpers:
  - address validation and the auto-connect URL check;
  - the language list and text direction;
  - the NFT preview: which metadata source to read, which image field to
    show, and whether it plays as a video.
- **`WalletActivity`** (`wallet_activity.dfy`). This is the wallet-activity
  proxy:
  - the serverless handler;
  - the development-server middleware that mirrors it;
  - the status ladder, the six indexer queries and the summed counts.
- **`AppShell`** (`app_shell.dfy`). This is how `App` mounts the inline
  copy: the auto-connect flag is set after the first render, which is too
  late for the inline copy (see Findings).
- **`ClaimFlow`** (`claim_flow.dfy`). This ties the parts together:
  - what the contract does with the value each front-end attaches;
  - how a token's metadata reaches the preview;
  - how the proxy's counts feed the gate.
- **`Common`** (`common.dfy`). Shared helpers:
  - `Option` and `Result`;
  - JavaScript truthiness and `??`;
  - the `^0x[a-fA-F0-9]{40}$` address pattern;
  - ASCII lower-casing and decimal rendering.

Each of these is a parameter of the model rather than something it computes:

- The clock (milliseconds).
- The contract reads the front-end receives.
- Whether the wallet account is present.
- The indexing API's answers (a function from query to reply).
- `JSON.parse`, base64 and JSON encoding.

## Model

| member | source | states |
|---|---|---|
| ClaimContract.Deploy | polyprize_contract/polyprizeunicorn/test/PolyPrizeUnicorn.test.js:31-41 | a fresh deployment is owned by the deployer, unpaused, has no tokens and no claims, holds the configured price and collection, and satisfies the state invariant |
| ClaimContract.RegisterAccount | polyprize_contract/polyprizeunicorn/test/PolyPrizeUnicorn.test.js:69-72 | the factory registering an account makes it a factory account and changes nothing else |
| ClaimContract.OwnerOf | polyprize_contract/polyprizeunicorn/test/PolyPrizeUnicorn.test.js:129-132 | a token's holder is returned exactly for a minted id; any other id reverts as a nonexistent token |
| ClaimContract.TokenName | polyprize_contract/polyprizeunicorn/test/PolyPrizeUnicorn.test.js:219 | a token's name is the collection name, " #", then the id in decimal |
| ClaimContract.TokenUri | polyprize_contract/polyprizeunicorn/test/PolyPrizeUnicorn.test.js:208-224 | metadata exists exactly for minted ids and carries the token's name (collection name, " #", id), the collection's description, image and animation URIs and an (empty) attribute array; other ids revert |
| ClaimContract.Mint | polyprize_contract/polyprizeunicorn/test/PolyPrizeUnicorn.test.js:74-121 | a claim succeeds iff unpaused, first for the caller, and either free for the caller or paid at least the price; each refusal has its own reason in that order; success mints the next id to the caller, keeps the whole payment, and emits Transfer and Minted with paidMint true exactly when the caller was not free |
| ClaimContract.SetMintPrice | polyprize_contract/polyprizeunicorn/test/PolyPrizeUnicorn.test.js:164-176 | only the owner changes the price, emitting the old and new price; anyone else gets OwnableUnauthorizedAccount |
| ClaimContract.Pause | polyprize_contract/polyprizeunicorn/test/PolyPrizeUnicorn.test.js:192-194 | only the owner pauses, and only a running contract; only the paused flag changes |
| ClaimContract.Unpause | polyprize_contract/polyprizeunicorn/test/PolyPrizeUnicorn.test.js:199-200 | only the owner unpauses, and only a paused contract; only the paused flag changes |
| ClaimContract.WithdrawEth | polyprize_contract/polyprizeunicorn/test/PolyPrizeUnicorn.test.js:178-190 | only the owner withdraws; the whole balance goes to the owner, and a refused transfer reverts |
| ClaimContract.TransferFrom | polyprize_contract/polyprizeunicorn/test/PolyPrizeUnicorn.test.js:129-133 | a soulbound collection refuses every transfer; otherwise a transfer succeeds iff the token exists, is held by `from`, the caller is authorised and the receiver is non-zero; it moves the token to the receiver, clears that token's approval, and changes nothing else |
| ClaimContract.Approve | polyprize_contract/polyprizeunicorn/test/PolyPrizeUnicorn.test.js:135-139 | a soulbound collection refuses every approval; otherwise only the holder or its operator may approve an existing token |
| ClaimContract.SetApprovalForAll | polyprize_contract/polyprizeunicorn/test/PolyPrizeUnicorn.test.js:141-145 | a soulbound collection refuses it; otherwise, for a non-zero operator, the caller-operator pair is added when `approved` and removed when not, and nothing else changes |
| ClaimContract.IsFreeForAddress | polyprize_contract/polyprizeunicorn/test/PolyPrizeUnicorn.test.js:148-161 | a claim is free when the collection has no factory, the price is 0, or the factory registered the address; an address that pays faces a factory, a positive price, and is unregistered |
| ClaimContract.Step | polyprize_contract/polyprizeunicorn/test/PolyPrizeUnicorn.test.js:74-204 | a successful call never changes the collection, owner or factory registrations; a non-owner's call never changes the price or the pause flag; only a claim adds a claimant, exactly the caller |
| ClaimContract.Apply | polyprize_contract/polyprizeunicorn/test/PolyPrizeUnicorn.test.js:74-204 | a reverted call leaves the state as it was; the claim ledger and the supply never shrink; the collection, owner and registrations stay fixed |
| ClaimContract.Run | polyprize_contract/polyprizeunicorn/test/PolyPrizeUnicorn.test.js:117-121 | along any sequence of calls the claim ledger and supply only grow, the collection, owner and registrations stay fixed, and calls that never come from the owner leave the price and the pause flag alone |
| ClaimContractProperties.MintPreservesValid | polyprize_contract/polyprizeunicorn/test/PolyPrizeUnicorn.test.js:74-113 | a successful claim keeps token ids contiguous from 1, one per claimant, with non-zero holders |
| ClaimContractProperties.StepPreservesValid | polyprize_contract/polyprizeunicorn/test/PolyPrizeUnicorn.test.js:74-204 | every entry point, successful or reverted, keeps the state invariant |
| ClaimContractProperties.RunPreservesValid | polyprize_contract/polyprizeunicorn/test/PolyPrizeUnicorn.test.js:74-204 | every state reachable by a sequence of calls keeps the invariant |
| ClaimContractProperties.ValidTokenIds | polyprize_contract/polyprizeunicorn/test/PolyPrizeUnicorn.test.js:208-210 | in a valid state, a token URI exists exactly for ids 1 to totalSupply, and the next id is unminted |
| ClaimContractProperties.MintAddsOneToken | polyprize_contract/polyprizeunicorn/test/PolyPrizeUnicorn.test.js:74-77 | a claim raises the caller's balance by one and leaves every other balance alone |
| ClaimContractProperties.FactoryAccountMintsFree | polyprize_contract/polyprizeunicorn/test/PolyPrizeUnicorn.test.js:74-89 | a factory account's first claim with no value succeeds, is recorded as unpaid, and leaves the ether balance alone |
| ClaimContractProperties.DirectAccountPays | polyprize_contract/polyprizeunicorn/test/PolyPrizeUnicorn.test.js:93-113 | a direct account is refused below the price and accepted at or above it, overpayment included, with the whole value kept and paidMint true |
| ClaimContractProperties.SecondMintReverts | polyprize_contract/polyprizeunicorn/test/PolyPrizeUnicorn.test.js:117-121 | after a successful claim, whatever calls follow, the same address's next claim, while the contract is unpaused, reverts with "Already minted"; paused or not, the refused claim changes nothing |
| ClaimContractProperties.ZeroPriceIsFreeForAll | polyprize_contract/polyprizeunicorn/test/PolyPrizeUnicorn.test.js:158-161 | after the owner sets the price to 0, every address is free |
| ClaimContractProperties.FreeViewIsMintGuard | polyprize_contract/polyprizeunicorn/test/PolyPrizeUnicorn.test.js:148-161 | for an address that may claim, `isFreeForAddress` is exactly the guard `mint` applies: a valueless claim succeeds iff the view says free; a paying address succeeds iff it sends at least the price; the Minted event marks as paid exactly the addresses the view does not call free; registration makes a claim free |
| ClaimContractProperties.PriceChangesOnlyByOwner | polyprize_contract/polyprizeunicorn/test/PolyPrizeUnicorn.test.js:173-176 | no call except the owner's setMintPrice changes the price |
| ClaimContractProperties.PauseUnpauseRoundTrip | polyprize_contract/polyprizeunicorn/test/PolyPrizeUnicorn.test.js:192-204 | pausing refuses every claim with "Pausable: paused", and unpausing restores the exact earlier state, so claims behave as before |
| ClaimContractProperties.SoulboundStepKeepsHolders | polyprize_contract/polyprizeunicorn/test/PolyPrizeUnicorn.test.js:129-145 | on a soulbound collection no single call changes an existing token's holder |
| ClaimContractProperties.SoulboundRunKeepsHolders | polyprize_contract/polyprizeunicorn/test/PolyPrizeUnicorn.test.js:129-145 | on a soulbound collection no sequence of calls changes an existing token's holder |
| ClaimContractProperties.TokenNamesDistinct | polyprize_contract/polyprizeunicorn/test/PolyPrizeUnicorn.test.js:219 | two different tokens never share a name |
| ClaimContractProperties.MintedTokenHasMetadata | polyprize_contract/polyprizeunicorn/test/PolyPrizeUnicorn.test.js:208-224 | the token a claim creates has metadata naming its new id and carrying the collection's media |
| ClaimContractProperties.TestDeployment | polyprize_contract/polyprizeunicorn/test/PolyPrizeUnicorn.test.js:45-66 | the test deployment has the test name, symbol, owner, soulbound flag, price and factory |
| ClaimContractProperties.TestFactoryAccountMint | polyprize_contract/polyprizeunicorn/test/PolyPrizeUnicorn.test.js:68-89 | a registered account claims with no value, holds one token and emits Minted(user, 1, false) |
| ClaimContractProperties.TestDirectMint | polyprize_contract/polyprizeunicorn/test/PolyPrizeUnicorn.test.js:92-113 | an unregistered account is refused with no value, and succeeds at or above the price with Minted(user, 1, true) |
| ClaimContractProperties.TestSoulbound | polyprize_contract/polyprizeunicorn/test/PolyPrizeUnicorn.test.js:124-145 | after a claim, transfer, approve and setApprovalForAll revert with the soulbound reasons |
| ClaimContractProperties.TestIsFreeForAddress | polyprize_contract/polyprizeunicorn/test/PolyPrizeUnicorn.test.js:148-161 | free for a registered account, not for an unregistered one, and free for everyone once the price is 0 |
| ClaimContractProperties.TestOwnerFunctions | polyprize_contract/polyprizeunicorn/test/PolyPrizeUnicorn.test.js:164-176 | the owner's price change emits MintPriceUpdated(old, new); another account's reverts with OwnableUnauthorizedAccount |
| ClaimContractProperties.TestPauseUnpause | polyprize_contract/polyprizeunicorn/test/PolyPrizeUnicorn.test.js:192-204 | pause, refused claim, unpause, and successful claim, in that order |
| ClaimContractProperties.TestTokenUri | polyprize_contract/polyprizeunicorn/test/PolyPrizeUnicorn.test.js:207-224 | token 1's metadata has name "Test Collection #1" and the test description, image and animation |
| MintingUi.MeetsThreshold | unicorn-vite/src/components/MintingInterface.jsx:35-46 | the gate is open while the widget is off, the threshold is not positive, activity is loading, or no activity arrived (a failed fetch); otherwise it is open iff the combined count reaches the threshold |
| MintingUi.ShortfallShowsThresholdNotice | unicorn-vite/src/components/MintingInterface.jsx:358-386 | where every other guard lets the claim button show, the threshold notice appears instead iff the widget is on, the threshold positive, loading finished with data, and the count falls short |
| MintingUi.ThresholdMonotone | unicorn-vite/src/components/MintingInterface.jsx:38-46 | more activity never closes an open gate |
| MintingUi.ResolvedMintPrice | unicorn-vite/src/components/MintingInterface.jsx:107 | the price is the first contract read that returned a value, 0 included, falling back to 0 |
| MintingUi.InitialConnection | unicorn-vite/src/components/MintingInterface.jsx:49-53 | the component starts in cached-reconnect iff a cached address exists and auto-connect is on, checking iff only auto-connect is on, and no-autoconnect otherwise |
| MintingUi.AccountChanged | unicorn-vite/src/components/MintingInterface.jsx:112-136 | an account with an address authorizes at once and cancels the timer; otherwise authorization is dropped and a fresh 15-second timer is armed |
| MintingUi.ClockAdvanced | unicorn-vite/src/components/MintingInterface.jsx:126-135 | time passing never changes authorization, and nothing happens before the timer's 15 seconds |
| MintingUi.NoAccountTimesOut | unicorn-vite/src/components/MintingInterface.jsx:124-135 | with no account, the state becomes unauthorized exactly when 15 seconds have passed, and not before |
| MintingUi.AuthorizedIsStable | unicorn-vite/src/components/MintingInterface.jsx:114-122 | once authorized, time passing changes nothing |
| MintingUi.Split | unicorn-vite/src/components/MintingInterface.jsx:152-157 | the days, hours, minutes and seconds shown add back up to the seconds left, each below its unit's range |
| MintingUi.CountdownAt | unicorn-vite/src/components/MintingInterface.jsx:139-164 | the countdown has ended iff the drawing time is not after the current whole second; otherwise it shows exactly the seconds left |
| MintingUi.CountdownRunsDown | unicorn-vite/src/components/MintingInterface.jsx:139-164 | the countdown never goes up, and once ended it stays ended |
| MintingUi.CountdownFor | unicorn-vite/src/components/MintingInterface.jsx:139-142 | no countdown runs while the drawing date is missing or 0 |
| MintingUi.HandleMint | unicorn-vite/src/components/MintingInterface.jsx:166-225 | the guards run in order (cooldown, authorization, account); a transaction goes out iff all pass and preparation succeeds; it carries the resolved price; a submission records the click time as the last attempt, and nothing else moves it |
| MintingUi.SubmissionsSpacedByCooldown | unicorn-vite/src/components/MintingInterface.jsx:167-171 | two consecutive submissions are at least 8 seconds apart |
| MintingUi.ClaimPanel | unicorn-vite/src/components/MintingInterface.jsx:228-386 | the rendered panel's condition holds and no panel of higher priority has its condition hold |
| MintingUi.PanelIsHighestPriorityWanted | unicorn-vite/src/components/MintingInterface.jsx:228-386 | the rendered panel is exactly the highest-priority panel whose condition holds |
| MintingUi.ClaimButtonGuards | unicorn-vite/src/components/MintingInterface.jsx:302-386 | the claim button shows only to an authorized, unclaimed wallet while minting is active and unpaused, below the supply cap and past the gate |
| InlineMinting.InitialConnection | unicorn-vite/src/App.jsx:425 | the inline copy starts in checking iff auto-connect is on, else no-autoconnect |
| InlineMinting.StartsLikeComponent | unicorn-vite/src/App.jsx:425 | it starts like the component does with no cached address |
| InlineMinting.ClaimPanel | unicorn-vite/src/App.jsx:648-780 | the inline copy never shows the cached-reconnect or activity-gate panels, and never the "ended" notice when post-drawing minting is allowed |
| InlineMinting.SameCascadeAsComponent | unicorn-vite/src/App.jsx:711-780 | outside cached reconnect, the inline cascade is the component's with the gate open and "ended" skipped when post-drawing minting is allowed |
| InlineMinting.EndedNoticeAgrees | unicorn-vite/src/App.jsx:734 | with post-drawing minting off, both copies show "ended" on the same inputs |
| InlineMinting.HandleMint | unicorn-vite/src/App.jsx:580-642 | the inline handler's transaction carries no value |
| InlineMinting.HandleMintMatchesComponent | unicorn-vite/src/App.jsx:580-642 | the inline handler behaves on every input as the component's handler with a price of 0 |
| AppHelpers.IsValidAddress | unicorn-vite/src/App.jsx:45-47 | an address is valid iff present, 42 characters, "0x" then forty hex digits of either case |
| AppHelpers.ValidAddressIgnoresDigitCase | unicorn-vite/src/App.jsx:45-47 | lower-casing a valid address keeps it valid |
| Common.MatchAddressPattern | unicorn-vite/api/wallet-activity.js:24 | the character-by-character scan accepts exactly the addresses of the `^0x[a-fA-F0-9]{40}$` pattern |
| AppHelpers.HasAutoConnectParams | unicorn-vite/src/App.jsx:217-220 | `autoConnect=true` always turns auto-connect on; otherwise it needs the in-app wallet and a non-empty cookie |
| AppHelpers.AutoConnectCases | unicorn-vite/src/App.jsx:210-232 | auto-connect is on iff the in-app wallet comes with a non-empty cookie or autoConnect=true; the in-app wallet with a missing or empty cookie does not turn it on |
| AppHelpers.SelectedLanguage | unicorn-vite/src/App.jsx:108-117 | the selector shows a known language as itself and any other code as English |
| AppHelpers.DirectionOf | unicorn-vite/src/App.jsx:101-123 | the document direction is right-to-left exactly for Hebrew and Arabic, both of them selector languages |
| AppHelpers.DirectionRule | unicorn-vite/src/App.jsx:101-124 | the document is right-to-left exactly for Hebrew and Arabic |
| AppHelpers.ResolveIpfs | unicorn-vite/src/App.jsx:337-355 | an ipfs:// locator becomes the same path under the public gateway; anything else is unchanged |
| AppHelpers.ResolveIpfsRoundTrip | unicorn-vite/src/App.jsx:337-355 | the gateway URL gives back the original ipfs:// locator and is never itself an ipfs:// locator |
| AppHelpers.ChoosePreviewSource | unicorn-vite/src/App.jsx:287-335 | a configured image wins; without one, a missing token URI means no metadata; a base64 JSON data URL is decoded from what follows its prefix, then a plain JSON data URL likewise; any other URI is fetched at its gateway-resolved URL |
| AppHelpers.PreviewDispatchByPrefix | unicorn-vite/src/App.jsx:287-335 | a base64 JSON data URL goes to the base64 decoder and a plain JSON data URL to the URL decoder, each with exactly what follows the prefix; an ipfs:// URI is fetched through the gateway |
| AppHelpers.FirstImageField | unicorn-vite/src/App.jsx:337-355 | the first non-empty of image, image_url and animation_url is chosen, if any |
| AppHelpers.ProcessMetadata | unicorn-vite/src/App.jsx:337-355 | a preview exists iff some image field is non-empty, at the gateway-resolved URL of the chosen field |
| AppHelpers.VideoDetection | unicorn-vite/src/App.jsx:337-355 | a preview plays as video iff the metadata has an animation or the lower-cased URL contains one of .mp4, .webm, .mov |
| AppHelpers.UpperCaseExtensionIsVideo | unicorn-vite/src/App.jsx:337-355 | a preview whose URL contains any letter-case spelling of a video extension (`.MOV`, `.Mp4`, ...) plays as video |
| WalletActivity.ParamKeys | unicorn-vite/api/wallet-activity.js:39-44 | a query sends fromAddress or toAddress only when that address is given, always followed by category and withMetadata |
| WalletActivity.Queries | unicorn-vite/api/wallet-activity.js:49-56 | an accepted request issues exactly six queries (their directions and categories are stated by QueryDirections and QueryCategories) |
| WalletActivity.Count | unicorn-vite/api/wallet-activity.js:58-61 | a reply counts only when it resolved with a transfer array; a rejected or malformed reply counts 0 |
| WalletActivity.EndpointUrl | unicorn-vite/api/wallet-activity.js:28-29 | the endpoint is the configured network URL, or the Arbitrum default when none is set, then "/" and the API key |
| WalletActivity.Aggregate | unicorn-vite/api/wallet-activity.js:48-71 | any rejected query fails the whole request; otherwise the three counts are outgoing plus incoming per category group |
| WalletActivity.Handle | unicorn-vite/api/wallet-activity.js:4-72 | every response carries the CORS headers; the status is one of 200, 400, 405, 500 and 502; the queries issued are exactly the six for the endpoint and the given address; a 200 to a POST carries counts |
| WalletActivity.StatusLadder | unicorn-vite/api/wallet-activity.js:10-71 | OPTIONS gives 200 with no body; other methods 405; a missing key 500; a bad address 400; only a request past all four queries the indexer, and it answers 200 or 502 |
| WalletActivity.CorsOnEveryResponse | unicorn-vite/api/wallet-activity.js:5-8 | every serverless response, errors included, carries the three CORS headers |
| WalletActivity.QueryDirections | unicorn-vite/api/wallet-activity.js:49-56 | even queries look outgoing and odd ones incoming, each at the endpoint URL and naming the address only on its own side |
| WalletActivity.QueryCategories | unicorn-vite/api/wallet-activity.js:49-56 | the pairs cover plain transfers, ERC-20, and ERC-721 with ERC-1155, and the six queries are pairwise distinct |
| WalletActivity.CountsAreSums | unicorn-vite/api/wallet-activity.js:58-67 | a 200 answer means all six queries resolved, and each field is the sum of its pair's counts |
| WalletActivity.CountIgnoresMalformedReplies | unicorn-vite/api/wallet-activity.js:58-61 | a reply without a transfer array counts as 0; otherwise its length counts |
| WalletActivity.HandleDev | unicorn-vite/vite.config.js:17-79 | the middleware throws without answering iff a keyed POST's body (empty read as `{}`) does not parse; every answer has one of the five statuses, and every answer except OPTIONS is JSON-typed |
| WalletActivity.DevMatchesServerless | unicorn-vite/vite.config.js:18-78 | for a body that parses, the development middleware answers with the serverless handler's status and body and issues the same queries |
| WalletActivity.EmptyBodyIsInvalidAddress | unicorn-vite/vite.config.js:34-41 | an empty body reads as an empty object and is answered 400 "Invalid address" with no query |
| WalletActivity.DevCorsOnlyOnSuccess | unicorn-vite/vite.config.js:18-78 | in development only the OPTIONS and 200 answers allow cross-origin reads; every error carries the JSON content type alone |
| ClaimFlow.ComponentClaimNeverUnderpays | unicorn-vite/src/components/MintingInterface.jsx:191-196 | the component's transaction carries the contract price, so it is never refused for underpayment; it succeeds iff unpaused, unclaimed and non-zero; the contract keeps the price even from a free caller |
| ClaimFlow.InlineClaimNeedsFreeCaller | unicorn-vite/src/App.jsx:607-611 | the inline copy's valueless claim succeeds exactly for a caller the contract lets claim free; otherwise it reverts for underpayment |
| ClaimFlow.FrontEndsDisagreeOnlyOnPaidClaims | unicorn-vite/src/App.jsx:607-611 | for an eligible caller the price always succeeds, and no value succeeds iff the caller is free |
| ClaimFlow.ParsedMetadata | polyprize_contract/polyprizeunicorn/test/PolyPrizeUnicorn.test.js:217-222 | the parsed document exposes the contract's image and animation_url, and no image_url |
| ClaimFlow.TokenPreviewFollowsCollection | unicorn-vite/src/App.jsx:287-355 | for metadata in single-byte text, a minted token's base64 URI reaches the decoder intact; the preview shows the collection image through the gateway, or the animation if there is no image, and plays as video whenever there is an animation |
| ClaimFlow.ProxyUsesAppValidator | unicorn-vite/api/wallet-activity.js:23-26 | a keyed POST is refused with 400 iff the app's `isValidAddress` rejects the address, and an accepted address is queried as given |
| ClaimFlow.TestCollectionPreview | unicorn-vite/src/App.jsx:337-355 | the test collection's first token previews at https://ipfs.io/ipfs/test-image as a video |
| ClaimFlow.ActivityOf | unicorn-vite/api/wallet-activity.js:63-67 | a counts answer becomes the widget's activity field for field; any error answer leaves no activity |
| ClaimFlow.GateSeesSixCounts | unicorn-vite/src/components/MintingInterface.jsx:35-46 | after a 200 the gate compares the threshold with the sum of the six query counts; after any error it stays open |
| AppShell.MountAsWritten | unicorn-vite/src/App.jsx:192-265 | as `App` mounts the inline component, its flag follows the URL's auto-connect parameters but the inline component starts in no-autoconnect whatever the URL says |
| AppShell.Mount | unicorn-vite/src/App.jsx:425 | with the flag computed before the first render, the inline component starts in checking iff the URL carries auto-connect parameters, and in no-autoconnect otherwise |
| AppShell.CheckingUnreachableAsWritten | unicorn-vite/src/App.jsx:648-673 | as written, the freshly mounted inline component shows the access-required notice and never the looking-for-wallet screen |
| AppShell.InAppLinkShowsAccessRequired | unicorn-vite/src/App.jsx:194-265 | `?walletId=inApp&authCookie=abc` turns auto-connect on, yet the mount as written shows access-required where the intended mount shows looking-for-wallet |
| AppShell.MountFollowsUrl | unicorn-vite/src/App.jsx:425-673 | under the intended mount the first screen is looking-for-wallet iff the URL carries auto-connect parameters, and access-required otherwise; the two mounts agree exactly on URLs without such parameters |

## Findings

| source | as written | input that shows it | evidently intended | confidence | as-written member | corrected member |
|---|---|---|---|---|---|---|
| unicorn-vite/src/App.jsx:425 | `App` starts `shouldAutoConnect` as `false` and sets it from the URL in an effect after the first render (lines 194, 231); the inline component, mounted at line 265, reads the prop only as its `useState` seed, so it always starts in "no_autoconnect" and the "checking" screen (line 648) is unreachable | `?walletId=inApp&authCookie=abc` (or `?autoConnect=true`): `AutoConnect` is rendered, but the visitor sees the access-required notice (line 673) instead of "looking for wallet" | the inline component starts in "checking" exactly when the URL carries auto-connect parameters | not executed | AppShell.MountAsWritten, AppShell.CheckingUnreachableAsWritten, AppShell.InAppLinkShowsAccessRequired | AppShell.Mount, AppShell.MountFollowsUrl |

## Left out

- The supply cap, the drawing window (`isMintingActive`), gas and the contract's Solidity internals are left out. The contract source is not part of this model, and its tests assert none of them. The front-end reads of these values are inputs to the panel cascade.
- ClaimContract.Pause: the pause guard reverts with the string reason "Pausable: paused", as the test suite expects of a claim while paused (`PolyPrizeUnicorn.test.js:197`), not with OpenZeppelin 5's `EnforcedPause()`. The same reason for a redundant pause is a guess; the tests only exercise the successful path.
- ClaimContract.Unpause: the reason "Pausable: not paused" for a redundant unpause is a guess by analogy with "Pausable: paused"; OpenZeppelin 5 would revert with `ExpectedPause()`, and the tests only exercise the successful path.
- ClaimContract.WithdrawEth: whether the owner's account accepts the ether is a parameter. The transfer itself and any zero-balance rule are not modelled.
- ClaimContract.TokenUri: returns the metadata record rather than the base64 JSON string. The encoding is a parameter of `ClaimFlow.TokenPreviewFollowsCollection`.
- ClaimFlow.TokenPreviewFollowsCollection: the decode-after-encode round trip is assumed only for metadata whose text is single-byte. `atob` yields one character per byte, so a collection name or description outside ASCII comes back garbled and the lemma says nothing about it.
- ClaimFlow.ActivityOf: assumes the `useWalletActivity` hook passes the proxy's three counts through field for field. The hook's source is not part of this model.
- `safeTransferFrom`, both overloads, is not modelled. It shares `transferFrom`'s soulbound refusal and ownership move and adds the receiver-contract callback, which calls code outside this model.
- `balanceOf(0)` reverting, and the `uint256` bound on prices and ids, are left out. Integers are unbounded here.
- React rendering, effects, timers and i18n strings are left out. The component's state is made explicit: time in milliseconds, whether the account is present, and the contract reads.
- The countdown and authorization effects in the inline copy are the same code as the component's, except the wallet-cache writes (`MintingInterface.jsx:121` and `:130`), so they are not modelled separately.
- `supplyPercentage` and the progress display are left out. They are presentation only and use floating point.
- `fetch`, `Promise.all`, `atob`, `decodeURIComponent` and `JSON.parse` are parameters or datatype actions, not computations.
- WalletActivity.Handle: the `Content-Type` header that the hosting runtime's `res.json` adds is not listed, only the headers the handler sets itself.
- WalletActivity.Handle: the body's `address` is modelled as an optional string. Non-string values are out of scope: the pattern's `test` stringifies its argument, so a one-element array such as `["0x…"]` would pass the check there.
- Common.ToLower: covers ASCII only. That is all the address and extension checks need.
- The theme configuration is a set of parameters (`walletActivityEnabled`, `transactionThreshold`, `allowPostDrawingMint`). `theme.config.js` as shipped defines no `allowPostDrawingMint`, so the inline copy's flag reads as false there.
- The deploy script, the Hardhat configuration, the i18n setup and the build plumbing are not modelled.
