/** How `App` mounts the inline claim component. `App` keeps a
    `shouldAutoConnect` flag that starts out `false` and is set from the URL
    by an effect, which runs after the first render. The inline component
    reads the flag only once, to seed its connection state, so it is seeded
    before the URL has been looked at. */
module AppShell {
  import opened Common
  import MintingUi
  import InlineMinting
  import AppHelpers

  /** What the shell holds once mounted: its own flag, which decides
      whether the `AutoConnect` helper renders, and the connection state
      of the inline component. */
  datatype Mounted = Mounted(shouldAutoConnect: bool, inlineConnection: MintingUi.ConnectionState)

  /** The mount as the shell performs it. The first render seeds the child
      from the flag's initial `false`. The URL effect then updates the
      shell's flag only, and the child keeps its seed. */
  function MountAsWritten(walletId: Option<string>, authCookie: Option<string>,
                          autoConnect: Option<string>): (m: Mounted)
    ensures m.shouldAutoConnect == AppHelpers.HasAutoConnectParams(walletId, authCookie, autoConnect)
    ensures m.inlineConnection == MintingUi.NoAutoconnect
  {
    var firstRender := Mounted(false, InlineMinting.InitialConnection(false));
    firstRender.(shouldAutoConnect := AppHelpers.HasAutoConnectParams(walletId, authCookie, autoConnect))
  }

  /** The mount the inline component is written for. The flag is computed
      from the URL before the first render, so the child is seeded with the
      URL's answer. */
  function Mount(walletId: Option<string>, authCookie: Option<string>,
                 autoConnect: Option<string>): (m: Mounted)
    ensures m.shouldAutoConnect == AppHelpers.HasAutoConnectParams(walletId, authCookie, autoConnect)
    ensures m.inlineConnection == MintingUi.Checking <==> m.shouldAutoConnect
    ensures m.inlineConnection == MintingUi.NoAutoconnect <==> !m.shouldAutoConnect
  {
    var flag := AppHelpers.HasAutoConnectParams(walletId, authCookie, autoConnect);
    Mounted(flag, InlineMinting.InitialConnection(flag))
  }

  /** As written, the inline "looking for wallet" screen never appears on
      mount. Whatever the URL says, the first panel is the access-required
      notice, even while the shell is rendering `AutoConnect`. */
  lemma CheckingUnreachableAsWritten(walletId: Option<string>, authCookie: Option<string>,
                                     autoConnect: Option<string>, v: InlineMinting.View)
    requires v.connection == MountAsWritten(walletId, authCookie, autoConnect).inlineConnection
    ensures InlineMinting.ClaimPanel(v) == MintingUi.AccessRequired
    ensures InlineMinting.ClaimPanel(v) != MintingUi.LookingForWallet
  {
  }

  /** A concrete visit: `?walletId=inApp&authCookie=abc` turns auto-connect
      on. As written, the visitor is shown the access-required notice. The
      intended mount shows the "looking for wallet" screen instead. */
  lemma InAppLinkShowsAccessRequired(v: InlineMinting.View)
    ensures AppHelpers.HasAutoConnectParams(Some("inApp"), Some("abc"), None)
    ensures MountAsWritten(Some("inApp"), Some("abc"), None).shouldAutoConnect
    ensures InlineMinting.ClaimPanel(v.(connection := MountAsWritten(Some("inApp"), Some("abc"), None).inlineConnection))
            == MintingUi.AccessRequired
    ensures InlineMinting.ClaimPanel(v.(connection := Mount(Some("inApp"), Some("abc"), None).inlineConnection))
            == MintingUi.LookingForWallet
  {
  }

  /** The intended mount shows the "looking for wallet" screen exactly when
      the URL carries auto-connect parameters. Without them, it is the
      mount as written. */
  lemma MountFollowsUrl(walletId: Option<string>, authCookie: Option<string>,
                        autoConnect: Option<string>, v: InlineMinting.View)
    requires v.connection == Mount(walletId, authCookie, autoConnect).inlineConnection
    ensures InlineMinting.ClaimPanel(v) == MintingUi.LookingForWallet
            <==> AppHelpers.HasAutoConnectParams(walletId, authCookie, autoConnect)
    ensures InlineMinting.ClaimPanel(v) == MintingUi.AccessRequired
            <==> !AppHelpers.HasAutoConnectParams(walletId, authCookie, autoConnect)
    ensures Mount(walletId, authCookie, autoConnect) == MountAsWritten(walletId, authCookie, autoConnect)
            <==> !AppHelpers.HasAutoConnectParams(walletId, authCookie, autoConnect)
  {
  }
}
