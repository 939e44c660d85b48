/** The older claim component written inline in `App.jsx` (the one `App`
    renders), stated against the stand-alone component: it has no cached
    reconnect screen and no activity gate, its "ended" notice can be turned
    off by `allowPostDrawingMint`, and its mint call carries no value. */
module InlineMinting {
  import opened Common
  import MintingUi

  /** The inline component's starting state. */
  function InitialConnection(shouldAutoConnect: bool): (c: MintingUi.ConnectionState)
    ensures c == MintingUi.Checking <==> shouldAutoConnect
    ensures c == MintingUi.NoAutoconnect <==> !shouldAutoConnect
  {
    if shouldAutoConnect then MintingUi.Checking else MintingUi.NoAutoconnect
  }

  /** Without a cached address the two components start alike. */
  lemma StartsLikeComponent(shouldAutoConnect: bool)
    ensures InitialConnection(shouldAutoConnect) == MintingUi.InitialConnection(false, shouldAutoConnect)
  {
  }

  /** The inline view: the component's inputs minus the activity gate. */
  datatype View = View(
    connection: MintingUi.ConnectionState,
    checkingMinted: bool,
    authorized: bool,
    isPaused: bool,
    isMintingActive: bool,
    totalSupply: Option<nat>,
    maxSupply: Option<nat>,
    hasMinted: bool,
    allowPostDrawingMint: bool)

  /** The inline claim section's cascade. */
  function ClaimPanel(v: View): (p: MintingUi.Panel)
    ensures p != MintingUi.ThresholdNotMet && p != MintingUi.ReconnectingCached
    ensures v.allowPostDrawingMint ==> p != MintingUi.EndedNotice
  {
    if v.connection == MintingUi.Checking then MintingUi.LookingForWallet
    else if v.connection == MintingUi.NoAutoconnect then MintingUi.AccessRequired
    else if v.checkingMinted then MintingUi.CheckingStatus
    else if !v.authorized then MintingUi.NoWallet
    else if v.isPaused then MintingUi.PausedNotice
    else if !v.isMintingActive && !v.allowPostDrawingMint then MintingUi.EndedNotice
    else if MintingUi.SupplyFull(v.totalSupply, v.maxSupply) then MintingUi.MaxSupplyReached
    else if v.hasMinted then MintingUi.AlreadyClaimed
    else MintingUi.ClaimButton
  }

  /** The component's view of the same inputs, with the gate open and the
      drawing status as the inline copy sees it. */
  function AsComponentView(v: View): MintingUi.View
  {
    MintingUi.View(v.connection, v.checkingMinted, v.authorized, v.isPaused,
                   v.isMintingActive || v.allowPostDrawingMint,
                   v.totalSupply, v.maxSupply, v.hasMinted, true)
  }

  /** Outside the cached-reconnect screen the inline cascade is the
      component's cascade with the activity gate open, the "ended" notice
      skipped when post-drawing minting is allowed. */
  lemma SameCascadeAsComponent(v: View)
    requires v.connection != MintingUi.CachedReconnecting
    ensures ClaimPanel(v) == MintingUi.ClaimPanel(AsComponentView(v))
  {
  }

  /** With post-drawing minting off, the inline copy shows the "ended"
      notice exactly where the component does. */
  lemma EndedNoticeAgrees(v: View, meetsThreshold: bool)
    requires v.connection != MintingUi.CachedReconnecting && !v.allowPostDrawingMint
    ensures ClaimPanel(v) == MintingUi.EndedNotice <==>
              MintingUi.ClaimPanel(MintingUi.View(v.connection, v.checkingMinted, v.authorized, v.isPaused,
                                                  v.isMintingActive, v.totalSupply, v.maxSupply,
                                                  v.hasMinted, meetsThreshold)) == MintingUi.EndedNotice
  {
  }

  /** The inline `handleMint`: the same guards in the same order, and a
      `mint()` call without a value. */
  function HandleMint(now: int, lastMintAttempt: int, authorized: bool, hasAccount: bool,
                      preparationFails: bool): (c: MintingUi.Click)
    ensures c.sent.Some? ==> c.sent.value.value == 0
  {
    if now - lastMintAttempt < MintingUi.MintCooldownMs then MintingUi.Click(MintingUi.WaitBeforeRetry, lastMintAttempt, None)
    else if !authorized then MintingUi.Click(MintingUi.AccessDenied, lastMintAttempt, None)
    else if !hasAccount then MintingUi.Click(MintingUi.EnsureConnected, lastMintAttempt, None)
    else if preparationFails then MintingUi.Click(MintingUi.TransactionFailed, lastMintAttempt, None)
    else MintingUi.Click(MintingUi.ClaimingYourPrize, now, Some(MintingUi.MintTx(0)))
  }

  /** The two handlers agree on every input, the inline one behaving as the
      component would with a price of 0. */
  lemma HandleMintMatchesComponent(now: int, last: int, authorized: bool, hasAccount: bool, fails: bool)
    ensures HandleMint(now, last, authorized, hasAccount, fails)
            == MintingUi.HandleMint(now, last, authorized, hasAccount, fails, 0)
  {
  }
}
