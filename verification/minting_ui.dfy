/** The claim component's decision logic: activity-threshold gating, the
    mint-price fallback, the connection state machine, the drawing
    countdown, the guarded mint handler and the choice of the one panel the
    claim section shows. React state, timers and the clock are explicit
    inputs. */
module MintingUi {
  import opened Common

  // ------------------------------------------------------------- activity

  /** The counts the wallet-activity endpoint returns. */
  datatype Activity = Activity(transactions: nat, erc20: nat, nft: nat)

  /** The combined activity; 0 while no activity has arrived. */
  function TotalActivity(activity: Option<Activity>): nat
  {
    match activity
    case Some(a) => a.transactions + a.erc20 + a.nft
    case None => 0
  }

  /** Whether the activity gate lets the claim button show. It blocks in
      one situation only: the widget is on, the threshold is positive,
      loading has finished with data, and the combined count falls short;
      a failed fetch leaves no data and so never blocks. */
  function MeetsThreshold(widgetEnabled: bool, threshold: int, loading: bool, activity: Option<Activity>): (meets: bool)
    ensures !widgetEnabled || threshold <= 0 || loading || activity.None? ==> meets
    ensures widgetEnabled && threshold > 0 && !loading && activity.Some? ==>
              (meets <==> activity.value.transactions + activity.value.erc20 + activity.value.nft >= threshold)
  {
    if !widgetEnabled || threshold <= 0 then true
    else if loading then true
    else if activity.None? then true
    else TotalActivity(activity) >= threshold
  }

  /** More activity of any kind never closes the gate. */
  lemma ThresholdMonotone(widgetEnabled: bool, threshold: int, loading: bool, a: Activity, b: Activity)
    requires a.transactions <= b.transactions && a.erc20 <= b.erc20 && a.nft <= b.nft
    requires MeetsThreshold(widgetEnabled, threshold, loading, Some(a))
    ensures MeetsThreshold(widgetEnabled, threshold, loading, Some(b))
  {
  }

  // ---------------------------------------------------------------- price

  /** `mintPrice ?? price ?? cost ?? 0n`: the first of the three contract
      reads that returned a value, even a value of 0. */
  function ResolvedMintPrice(mintPrice: Option<nat>, price: Option<nat>, cost: Option<nat>): (r: nat)
    ensures mintPrice.Some? ==> r == mintPrice.value
    ensures mintPrice.None? && price.Some? ==> r == price.value
    ensures mintPrice.None? && price.None? && cost.Some? ==> r == cost.value
    ensures mintPrice.None? && price.None? && cost.None? ==> r == 0
  {
    Coalesce(mintPrice, Coalesce(price, Coalesce(cost, 0)))
  }

  // ----------------------------------------------------------- connection

  datatype ConnectionState = CachedReconnecting | Checking | NoAutoconnect | Authorized | Unauthorized

  /** The state the component starts in. */
  function InitialConnection(hasCachedAddress: bool, shouldAutoConnect: bool): (c: ConnectionState)
    ensures c == CachedReconnecting <==> hasCachedAddress && shouldAutoConnect
    ensures c == Checking <==> !hasCachedAddress && shouldAutoConnect
    ensures c == NoAutoconnect <==> !shouldAutoConnect
  {
    if hasCachedAddress && shouldAutoConnect then CachedReconnecting
    else if shouldAutoConnect then Checking
    else NoAutoconnect
  }

  /** Milliseconds the component waits for a wallet before giving up. */
  const AuthTimeoutMs := 15000

  /** A pending give-up timer: when it was armed and whether an account
      object existed in the render that armed it. */
  datatype Timer = Timer(armedAt: int, capturedAccount: bool)

  datatype Session = Session(connection: ConnectionState, authorized: bool, timer: Option<Timer>)

  function InitialSession(hasCachedAddress: bool, shouldAutoConnect: bool): Session
  {
    Session(InitialConnection(hasCachedAddress, shouldAutoConnect), false, None)
  }

  /** The authorization effect, run whenever the account or its address
      changes at time `now`. Re-running it clears any earlier timer. */
  function AccountChanged(s: Session, hasAccount: bool, hasAddress: bool, now: int): (s': Session)
    ensures hasAccount && hasAddress ==> s'.authorized && s'.connection == Authorized && s'.timer.None?
    ensures !(hasAccount && hasAddress) ==>
              && !s'.authorized && s'.connection == s.connection
              && s'.timer == Some(Timer(now, hasAccount))
  {
    if hasAccount && hasAddress then Session(Authorized, true, None)
    else Session(s.connection, false, Some(Timer(now, hasAccount)))
  }

  /** The clock reaching `now` with no further account change: a timer
      armed at least 15 s earlier fires, and if its render had no account the
      connection becomes `unauthorized`. */
  function ClockAdvanced(s: Session, now: int): (s': Session)
    ensures s'.authorized == s.authorized
    ensures s.timer.None? ==> s' == s
    ensures s.timer.Some? && now < s.timer.value.armedAt + AuthTimeoutMs ==> s' == s
  {
    match s.timer
    case None => s
    case Some(t) =>
      if now < t.armedAt + AuthTimeoutMs then s
      else if t.capturedAccount then s.(timer := None)
      else s.(connection := Unauthorized, timer := None)
  }

  /** Losing the account de-authorizes at once; fifteen seconds later with
      still no account the state is `unauthorized`, and not before. */
  lemma NoAccountTimesOut(s: Session, armedAt: int, later: int)
    ensures var s1 := AccountChanged(s, false, false, armedAt);
            && !s1.authorized
            && (later < armedAt + AuthTimeoutMs ==> ClockAdvanced(s1, later).connection == s.connection)
            && (later >= armedAt + AuthTimeoutMs ==> ClockAdvanced(s1, later).connection == Unauthorized)
  {
  }

  /** Once an account with an address is present, time passing changes
      nothing until the account changes again. */
  lemma AuthorizedIsStable(s: Session, now: int, later: int)
    ensures var s1 := AccountChanged(s, true, true, now);
            ClockAdvanced(s1, later) == s1 && s1.connection == Authorized && s1.authorized
  {
  }

  // ------------------------------------------------------------ countdown

  datatype Countdown = Ended | Remaining(days: nat, hours: nat, minutes: nat, seconds: nat)

  function TotalSeconds(c: Countdown): nat
  {
    match c
    case Ended => 0
    case Remaining(d, h, m, sec) => d * 86400 + h * 3600 + m * 60 + sec
  }

  /** Splits a positive number of seconds into days, hours, minutes and
      seconds, each field below its unit's range. */
  function Split(timeLeft: nat): (c: Countdown)
    requires timeLeft > 0
    ensures c.Remaining?
    ensures TotalSeconds(c) == timeLeft
    ensures c.hours < 24 && c.minutes < 60 && c.seconds < 60
  {
    var days := timeLeft / 86400;
    var hours := (timeLeft % 86400) / 3600;
    var minutes := (timeLeft % 3600) / 60;
    var seconds := timeLeft % 60;
    SplitSum(timeLeft);
    Remaining(days, hours, minutes, seconds)
  }

  lemma SplitSum(t: nat)
    ensures (t / 86400) * 86400 + ((t % 86400) / 3600) * 3600 + ((t % 3600) / 60) * 60 + t % 60 == t
  {
    var d, r1 := t / 86400, t % 86400;
    assert t == d * 86400 + r1;
    var h, r2 := r1 / 3600, r1 % 3600;
    assert r1 == h * 3600 + r2;
    assert t == (d * 24 + h) * 3600 + r2;
    assert t % 3600 == r2;
    var m, sec := r2 / 60, r2 % 60;
    assert r2 == m * 60 + sec;
    assert t == ((d * 24 + h) * 60 + m) * 60 + sec;
    assert t % 60 == sec;
  }

  /** One tick of the countdown at wall-clock `nowMs` (milliseconds since
      the epoch) for a drawing at `drawingDate` (seconds since the epoch). */
  function CountdownAt(drawingDate: nat, nowMs: int): (c: Countdown)
    ensures c.Ended? <==> drawingDate - nowMs / 1000 <= 0
    ensures c.Remaining? ==> && TotalSeconds(c) == drawingDate - nowMs / 1000
                             && c.hours < 24 && c.minutes < 60 && c.seconds < 60
  {
    var timeLeft := drawingDate - nowMs / 1000;
    if timeLeft <= 0 then Ended else Split(timeLeft)
  }

  /** The countdown only ever runs down, and once it has ended it stays so. */
  lemma CountdownRunsDown(drawingDate: nat, nowMs: int, laterMs: int)
    requires nowMs <= laterMs
    ensures TotalSeconds(CountdownAt(drawingDate, laterMs)) <= TotalSeconds(CountdownAt(drawingDate, nowMs))
    ensures CountdownAt(drawingDate, nowMs).Ended? ==> CountdownAt(drawingDate, laterMs).Ended?
  {
    assert nowMs / 1000 <= laterMs / 1000;
  }

  /** No countdown runs while the drawing date is unknown or 0. */
  function CountdownFor(drawingDate: Option<nat>, nowMs: int): (c: Option<Countdown>)
    ensures c.None? <==> drawingDate.None? || drawingDate.value == 0
  {
    match drawingDate
    case Some(d) => if d == 0 then None else Some(CountdownAt(d, nowMs))
    case None => None
  }

  // ---------------------------------------------------------- mint button

  /** Milliseconds between two submissions. */
  const MintCooldownMs := 8000

  datatype MintStatus = WaitBeforeRetry | AccessDenied | EnsureConnected | ClaimingYourPrize | TransactionFailed

  /** The transaction handed to the wallet: `mint()` with `value` wei. */
  datatype MintTx = MintTx(value: nat)

  /** What a click does: the status shown, the recorded time of the last
      submission, and the transaction sent, if any. */
  datatype Click = Click(status: MintStatus, lastMintAttempt: int, sent: Option<MintTx>)

  /** `handleMint` at time `now`: cooldown first, then authorization, then
      the account; `preparationFails` is whether building the call throws. */
  function HandleMint(now: int, lastMintAttempt: int, authorized: bool, hasAccount: bool,
                      preparationFails: bool, price: nat): (c: Click)
    ensures now - lastMintAttempt < MintCooldownMs ==> c == Click(WaitBeforeRetry, lastMintAttempt, None)
    ensures now - lastMintAttempt >= MintCooldownMs && !authorized ==> c.status == AccessDenied
    ensures now - lastMintAttempt >= MintCooldownMs && authorized && !hasAccount ==> c.status == EnsureConnected
    ensures c.sent.Some? <==> now - lastMintAttempt >= MintCooldownMs && authorized && hasAccount && !preparationFails
    ensures c.sent.Some? ==> c.sent.value == MintTx(price) && c.status == ClaimingYourPrize
    ensures c.lastMintAttempt != lastMintAttempt ==> c.sent.Some? && c.lastMintAttempt == now
    ensures c.sent.Some? ==> c.lastMintAttempt == now
    ensures c.sent.None? ==> c.lastMintAttempt == lastMintAttempt
  {
    if now - lastMintAttempt < MintCooldownMs then Click(WaitBeforeRetry, lastMintAttempt, None)
    else if !authorized then Click(AccessDenied, lastMintAttempt, None)
    else if !hasAccount then Click(EnsureConnected, lastMintAttempt, None)
    else if preparationFails then Click(TransactionFailed, lastMintAttempt, None)
    else Click(ClaimingYourPrize, now, Some(MintTx(price)))
  }

  /** Two submissions are always at least eight seconds apart. */
  lemma SubmissionsSpacedByCooldown(t1: int, t2: int, last: int, price: nat,
                                    auth2: bool, acct2: bool, fail2: bool)
    requires HandleMint(t1, last, true, true, false, price).sent.Some?
    requires HandleMint(t2, HandleMint(t1, last, true, true, false, price).lastMintAttempt,
                        auth2, acct2, fail2, price).sent.Some?
    ensures t2 - t1 >= MintCooldownMs
  {
  }

  // ---------------------------------------------------------------- panels

  datatype Panel =
    | ReconnectingCached | LookingForWallet | AccessRequired
    | CheckingStatus | NoWallet | PausedNotice | EndedNotice
    | MaxSupplyReached | AlreadyClaimed | ThresholdNotMet | ClaimButton

  /** The values the claim section renders from. A read that has not
      returned is falsy, and a supply read of 0 is falsy too. */
  datatype View = View(
    connection: ConnectionState,
    checkingMinted: bool,
    authorized: bool,
    isPaused: bool,
    isMintingActive: bool,
    totalSupply: Option<nat>,
    maxSupply: Option<nat>,
    hasMinted: bool,
    meetsThreshold: bool)

  /** `totalSupply && maxSupply && total >= max`. */
  predicate SupplyFull(totalSupply: Option<nat>, maxSupply: Option<nat>)
  {
    && totalSupply.Some? && totalSupply.value != 0
    && maxSupply.Some? && maxSupply.value != 0
    && totalSupply.value >= maxSupply.value
  }

  /** The panel the component renders: the three connection screens, then
      the claim section's cascade. The panel shown wants to be shown, and
      no panel of higher priority does. */
  function ClaimPanel(v: View): (p: Panel)
    ensures Wants(p, v)
    ensures forall q :: Rank(q) < Rank(p) ==> !Wants(q, v)
  {
    if v.connection == CachedReconnecting then ReconnectingCached
    else if v.connection == Checking then LookingForWallet
    else if v.connection == NoAutoconnect then AccessRequired
    else if v.checkingMinted then CheckingStatus
    else if !v.authorized then NoWallet
    else if v.isPaused then PausedNotice
    else if !v.isMintingActive then EndedNotice
    else if SupplyFull(v.totalSupply, v.maxSupply) then MaxSupplyReached
    else if v.hasMinted then AlreadyClaimed
    else if !v.meetsThreshold then ThresholdNotMet
    else ClaimButton
  }

  /** The condition under which each panel asks to be shown. */
  predicate Wants(p: Panel, v: View)
  {
    match p
    case ReconnectingCached => v.connection == CachedReconnecting
    case LookingForWallet => v.connection == Checking
    case AccessRequired => v.connection == NoAutoconnect
    case CheckingStatus => v.checkingMinted
    case NoWallet => !v.authorized
    case PausedNotice => v.isPaused
    case EndedNotice => !v.isMintingActive
    case MaxSupplyReached => SupplyFull(v.totalSupply, v.maxSupply)
    case AlreadyClaimed => v.hasMinted
    case ThresholdNotMet => !v.meetsThreshold
    case ClaimButton => true
  }

  /** The panels' priority, highest first. */
  function Rank(p: Panel): nat
  {
    match p
    case ReconnectingCached => 0
    case LookingForWallet => 1
    case AccessRequired => 2
    case CheckingStatus => 3
    case NoWallet => 4
    case PausedNotice => 5
    case EndedNotice => 6
    case MaxSupplyReached => 7
    case AlreadyClaimed => 8
    case ThresholdNotMet => 9
    case ClaimButton => 10
  }

  /** A panel is shown exactly when it wants to be and no panel of higher
      priority does: the cascade is a strict priority chain. */
  lemma PanelIsHighestPriorityWanted(v: View, p: Panel)
    ensures ClaimPanel(v) == p <==> Wants(p, v) && forall q :: Rank(q) < Rank(p) ==> !Wants(q, v)
  {
  }

  /** Where every other guard lets the claim button show, the activity
      gate alone decides between the button and the threshold notice: the
      notice appears exactly when loading finished with counts below a
      positive threshold on an enabled widget. */
  lemma ShortfallShowsThresholdNotice(v: View, widgetEnabled: bool, threshold: int, loading: bool,
                                      activity: Option<Activity>)
    requires ClaimPanel(v.(meetsThreshold := true)) == ClaimButton
    ensures var p := ClaimPanel(v.(meetsThreshold := MeetsThreshold(widgetEnabled, threshold, loading, activity)));
            && (p == ThresholdNotMet <==>
                  widgetEnabled && threshold > 0 && !loading && activity.Some? && TotalActivity(activity) < threshold)
            && (p != ThresholdNotMet ==> p == ClaimButton)
  {
  }

  /** The claim button shows only to an authorized wallet that has not
      claimed, while minting is active, unpaused, below the supply cap and
      past the activity gate. */
  lemma ClaimButtonGuards(v: View)
    requires ClaimPanel(v) == ClaimButton
    ensures v.authorized && !v.isPaused && v.isMintingActive && !v.hasMinted && v.meetsThreshold
    ensures !SupplyFull(v.totalSupply, v.maxSupply) && !v.checkingMinted
    ensures v.connection == Authorized || v.connection == Unauthorized
  {
  }
}
