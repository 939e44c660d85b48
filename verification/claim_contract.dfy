/** The claim contract: an ERC-721 collection (EIP-721) in which every
    address may mint one token, free of charge for accounts deployed by a
    recognised smart-account factory and at `mintPrice` for everyone else,
    optionally soulbound, pausable by its owner.

    The contract is an immutable state record with one transition function
    per entry point. A transition either commits a new state together with
    the events it emits, or reverts with an error and changes nothing. */
module ClaimContract {
  import opened Common

  /** An account; 0 is the zero address. */
  type Address = nat

  const ZeroAddress: Address := 0

  const PausedReason := "Pausable: paused"
  const NotPausedReason := "Pausable: not paused"
  const AlreadyMintedReason := "Already minted"
  const InsufficientPaymentReason := "Insufficient payment for direct mint"
  const SoulboundTransferReason := "Soulbound: transfers disabled"
  const SoulboundApprovalReason := "Soulbound: approvals disabled"

  /** The constructor arguments that stay fixed for the collection's life. */
  datatype Collection = Collection(
    name: string,
    symbol: string,
    description: string,
    imageUri: string,
    animationUri: string,
    drawingTimestamp: nat,
    isSoulbound: bool,
    accountFactory: Address)

  datatype State = State(
    collection: Collection,
    owner: Address,
    paused: bool,
    mintPrice: nat,
    /** The accounts the factory reports as its own (the factory is a
        separate contract; its registry is carried here). */
    factoryAccounts: set<Address>,
    /** The one-claim-per-address ledger; entries are never removed. */
    hasMinted: set<Address>,
    /** Token id to holder, for the ids minted so far. */
    owners: map<nat, Address>,
    tokenApprovals: map<nat, Address>,
    /** (holder, operator) pairs approved for all of the holder's tokens. */
    operatorApprovals: set<(Address, Address)>,
    totalSupply: nat,
    /** Ether held by the contract. */
    ethBalance: nat)

  datatype Event =
    | Transfer(from: Address, to: Address, tokenId: nat)
    | Approval(holder: Address, approved: Address, tokenId: nat)
    | ApprovalForAll(holder: Address, operator: Address, granted: bool)
    | Minted(to: Address, tokenId: nat, paidMint: bool)
    | MintPriceUpdated(oldPrice: nat, newPrice: nat)
    | Paused(account: Address)
    | Unpaused(account: Address)
    /** The ether `withdrawETH` sends to `to`; the contract declares no
        event for it, so this records the transfer rather than a log. */
    | EthSent(to: Address, amount: nat)

  datatype Error =
    | Reason(message: string)
    | OwnableUnauthorizedAccount(account: Address)
    | ERC721NonexistentToken(tokenId: nat)
    | ERC721IncorrectOwner(sender: Address, tokenId: nat, holder: Address)
    | ERC721InsufficientApproval(operator: Address, tokenId: nat)
    | ERC721InvalidReceiver(receiver: Address)
    | ERC721InvalidApprover(approver: Address)
    | ERC721InvalidOperator(operator: Address)
    | TransferFailed

  /** A committed call: the state after it and the events it emitted. */
  datatype Receipt = Receipt(state: State, events: seq<Event>)

  type Outcome = Result<Receipt, Error>

  /** The metadata document `tokenURI` encodes, before JSON serialisation
      and base64 encoding. */
  datatype Attribute = Attribute(traitType: string, value: string)

  datatype Metadata = Metadata(
    name: string,
    description: string,
    image: string,
    animationUrl: string,
    attributes: seq<Attribute>)

  /** What every reachable state satisfies. */
  ghost predicate Valid(s: State)
  {
    && (forall t: nat :: t in s.owners <==> 1 <= t <= s.totalSupply)
    && |s.hasMinted| == s.totalSupply
    && ZeroAddress !in s.hasMinted
    && (forall t :: t in s.owners ==> s.owners[t] != ZeroAddress)
    && s.tokenApprovals.Keys <= s.owners.Keys
  }

  /** Deployment by `deployer`: nothing minted, not paused. */
  function Deploy(deployer: Address, collection: Collection, mintPrice: nat, factoryAccounts: set<Address>): (s: State)
    ensures Valid(s)
    ensures s.owner == deployer && s.collection == collection && s.mintPrice == mintPrice
    ensures !s.paused && s.totalSupply == 0 && s.hasMinted == {} && s.ethBalance == 0
  {
    State(collection, deployer, false, mintPrice, factoryAccounts, {}, map[], map[], {}, 0, 0)
  }

  /** The factory registering a freshly deployed account. */
  function RegisterAccount(s: State, account: Address): (s': State)
    ensures account in s'.factoryAccounts
    ensures s' == s.(factoryAccounts := s.factoryAccounts + {account})
  {
    s.(factoryAccounts := s.factoryAccounts + {account})
  }

  // ---------------------------------------------------------------- views

  /** The free-versus-paid decision, shared by the view and by `mint`: a
      collection without a factory, a zero price, or an account the factory
      registered claims for free; everyone else pays the price. */
  function IsFreeForAddress(s: State, a: Address): (free: bool)
    ensures s.collection.accountFactory == ZeroAddress ==> free
    ensures s.mintPrice == 0 ==> free
    ensures a in s.factoryAccounts ==> free
    ensures !free ==> s.collection.accountFactory != ZeroAddress && s.mintPrice > 0 && a !in s.factoryAccounts
  {
    s.collection.accountFactory == ZeroAddress || s.mintPrice == 0 || a in s.factoryAccounts
  }

  function TokensOf(s: State, a: Address): set<nat>
  {
    set t | t in s.owners.Keys && s.owners[t] == a
  }

  function BalanceOf(s: State, a: Address): nat
  {
    |TokensOf(s, a)|
  }

  function OwnerOf(s: State, tokenId: nat): (r: Result<Address, Error>)
    ensures r.Ok? <==> tokenId in s.owners
    ensures r.Ok? ==> r.value == s.owners[tokenId]
    ensures r.Err? ==> r.error == ERC721NonexistentToken(tokenId)
  {
    if tokenId in s.owners then Ok(s.owners[tokenId]) else Err(ERC721NonexistentToken(tokenId))
  }

  /** `"<collection name> #<decimal token id>"` */
  function TokenName(c: Collection, tokenId: nat): (r: string)
    ensures StartsWith(r, c.name + " #")
    ensures r[|c.name| + 2..] == NatToString(tokenId)
  {
    c.name + " #" + NatToString(tokenId)
  }

  /** The metadata `tokenURI` serialises; only minted ids have one. */
  function TokenUri(s: State, tokenId: nat): (r: Result<Metadata, Error>)
    ensures r.Ok? <==> tokenId in s.owners
    ensures r.Err? ==> r.error == ERC721NonexistentToken(tokenId)
    ensures r.Ok? ==> && r.value.name == TokenName(s.collection, tokenId)
                      && r.value.description == s.collection.description
                      && r.value.image == s.collection.imageUri
                      && r.value.animationUrl == s.collection.animationUri
                      && r.value.attributes == []
  {
    if tokenId !in s.owners then Err(ERC721NonexistentToken(tokenId))
    else Ok(Metadata(TokenName(s.collection, tokenId), s.collection.description,
                     s.collection.imageUri, s.collection.animationUri, []))
  }

  // ---------------------------------------------------------- transitions

  /** `mint()` sent by `caller` with `value` wei attached. */
  function Mint(s: State, caller: Address, value: nat): (r: Outcome)
    ensures r.Ok? <==> && !s.paused && caller !in s.hasMinted
                       && (IsFreeForAddress(s, caller) || value >= s.mintPrice)
                       && caller != ZeroAddress
    ensures s.paused ==> r == Err(Reason(PausedReason))
    ensures !s.paused && caller in s.hasMinted ==> r == Err(Reason(AlreadyMintedReason))
    ensures !s.paused && caller !in s.hasMinted && !IsFreeForAddress(s, caller) && value < s.mintPrice
            ==> r == Err(Reason(InsufficientPaymentReason))
    ensures r.Ok? ==>
              var s' := r.value.state;
              && s'.hasMinted == s.hasMinted + {caller}
              && s'.totalSupply == s.totalSupply + 1
              && s'.owners == s.owners[s'.totalSupply := caller]
              && s'.ethBalance == s.ethBalance + value
              && s' == s.(hasMinted := s'.hasMinted, owners := s'.owners,
                          totalSupply := s'.totalSupply, ethBalance := s'.ethBalance)
              && r.value.events == [Transfer(ZeroAddress, caller, s'.totalSupply),
                                    Minted(caller, s'.totalSupply, !IsFreeForAddress(s, caller))]
  {
    if s.paused then Err(Reason(PausedReason))
    else if caller in s.hasMinted then Err(Reason(AlreadyMintedReason))
    else if !IsFreeForAddress(s, caller) && value < s.mintPrice then Err(Reason(InsufficientPaymentReason))
    else if caller == ZeroAddress then Err(ERC721InvalidReceiver(ZeroAddress))
    else
      var id := s.totalSupply + 1;
      var s' := s.(hasMinted := s.hasMinted + {caller},
                   owners := s.owners[id := caller],
                   totalSupply := id,
                   ethBalance := s.ethBalance + value);
      Ok(Receipt(s', [Transfer(ZeroAddress, caller, id), Minted(caller, id, !IsFreeForAddress(s, caller))]))
  }

  /** `setMintPrice(newPrice)`, owner only. */
  function SetMintPrice(s: State, caller: Address, newPrice: nat): (r: Outcome)
    ensures caller != s.owner ==> r == Err(OwnableUnauthorizedAccount(caller))
    ensures caller == s.owner ==>
              r == Ok(Receipt(s.(mintPrice := newPrice), [MintPriceUpdated(s.mintPrice, newPrice)]))
  {
    if caller != s.owner then Err(OwnableUnauthorizedAccount(caller))
    else Ok(Receipt(s.(mintPrice := newPrice), [MintPriceUpdated(s.mintPrice, newPrice)]))
  }

  /** `pause()`, owner only, and only from the unpaused state. */
  function Pause(s: State, caller: Address): (r: Outcome)
    ensures r.Ok? <==> caller == s.owner && !s.paused
    ensures r.Ok? ==> r.value.state == s.(paused := true) && r.value.events == [Paused(caller)]
    ensures caller != s.owner ==> r == Err(OwnableUnauthorizedAccount(caller))
  {
    if caller != s.owner then Err(OwnableUnauthorizedAccount(caller))
    else if s.paused then Err(Reason(PausedReason))
    else Ok(Receipt(s.(paused := true), [Paused(caller)]))
  }

  /** `unpause()`, owner only, and only from the paused state. */
  function Unpause(s: State, caller: Address): (r: Outcome)
    ensures r.Ok? <==> caller == s.owner && s.paused
    ensures r.Ok? ==> r.value.state == s.(paused := false) && r.value.events == [Unpaused(caller)]
    ensures caller != s.owner ==> r == Err(OwnableUnauthorizedAccount(caller))
  {
    if caller != s.owner then Err(OwnableUnauthorizedAccount(caller))
    else if !s.paused then Err(Reason(NotPausedReason))
    else Ok(Receipt(s.(paused := false), [Unpaused(caller)]))
  }

  /** `withdrawETH()`, owner only: the whole balance goes to the owner.
      `recipientAccepts` is whether the owner's account takes the ether. */
  function WithdrawEth(s: State, caller: Address, recipientAccepts: bool): (r: Outcome)
    ensures r.Ok? <==> caller == s.owner && recipientAccepts
    ensures caller != s.owner ==> r == Err(OwnableUnauthorizedAccount(caller))
    ensures caller == s.owner && !recipientAccepts ==> r == Err(TransferFailed)
    ensures r.Ok? ==> r.value.state == s.(ethBalance := 0)
                      && r.value.events == [EthSent(s.owner, s.ethBalance)]
  {
    if caller != s.owner then Err(OwnableUnauthorizedAccount(caller))
    else if !recipientAccepts then Err(TransferFailed)
    else Ok(Receipt(s.(ethBalance := 0), [EthSent(s.owner, s.ethBalance)]))
  }

  /** EIP-721 authorisation: the holder, the token's approved address, or an
      operator approved for all of the holder's tokens. */
  predicate IsAuthorized(s: State, holder: Address, spender: Address, tokenId: nat)
  {
    && spender != ZeroAddress
    && (|| holder == spender
        || (holder, spender) in s.operatorApprovals
        || (tokenId in s.tokenApprovals && s.tokenApprovals[tokenId] == spender))
  }

  /** `transferFrom(from, to, tokenId)`; refused outright when soulbound. */
  function TransferFrom(s: State, caller: Address, from: Address, to: Address, tokenId: nat): (r: Outcome)
    ensures s.collection.isSoulbound ==> r == Err(Reason(SoulboundTransferReason))
    ensures r.Ok? <==> && !s.collection.isSoulbound && to != ZeroAddress && tokenId in s.owners
                       && s.owners[tokenId] == from && IsAuthorized(s, from, caller, tokenId)
    ensures r.Ok? ==> && r.value.state == s.(owners := s.owners[tokenId := to],
                                             tokenApprovals := s.tokenApprovals - {tokenId})
                      && tokenId !in r.value.state.tokenApprovals
                      && r.value.events == [Transfer(from, to, tokenId)]
  {
    if s.collection.isSoulbound then Err(Reason(SoulboundTransferReason))
    else if to == ZeroAddress then Err(ERC721InvalidReceiver(ZeroAddress))
    else if tokenId !in s.owners then Err(ERC721NonexistentToken(tokenId))
    else
      var holder := s.owners[tokenId];
      if !IsAuthorized(s, holder, caller, tokenId) then Err(ERC721InsufficientApproval(caller, tokenId))
      else if holder != from then Err(ERC721IncorrectOwner(from, tokenId, holder))
      else Ok(Receipt(s.(owners := s.owners[tokenId := to], tokenApprovals := s.tokenApprovals - {tokenId}),
                      [Transfer(from, to, tokenId)]))
  }

  /** `approve(to, tokenId)`; refused outright when soulbound. */
  function Approve(s: State, caller: Address, to: Address, tokenId: nat): (r: Outcome)
    ensures s.collection.isSoulbound ==> r == Err(Reason(SoulboundApprovalReason))
    ensures r.Ok? <==> && !s.collection.isSoulbound && tokenId in s.owners
                       && (caller == s.owners[tokenId] || (s.owners[tokenId], caller) in s.operatorApprovals)
    ensures r.Ok? ==> && r.value.state == s.(tokenApprovals := s.tokenApprovals[tokenId := to])
                      && r.value.events == [Approval(s.owners[tokenId], to, tokenId)]
  {
    if s.collection.isSoulbound then Err(Reason(SoulboundApprovalReason))
    else if tokenId !in s.owners then Err(ERC721NonexistentToken(tokenId))
    else
      var holder := s.owners[tokenId];
      if caller != holder && (holder, caller) !in s.operatorApprovals then Err(ERC721InvalidApprover(caller))
      else Ok(Receipt(s.(tokenApprovals := s.tokenApprovals[tokenId := to]), [Approval(holder, to, tokenId)]))
  }

  /** `setApprovalForAll(operator, approved)`; refused outright when soulbound. */
  function SetApprovalForAll(s: State, caller: Address, operator: Address, approved: bool): (r: Outcome)
    ensures s.collection.isSoulbound ==> r == Err(Reason(SoulboundApprovalReason))
    ensures r.Ok? <==> !s.collection.isSoulbound && operator != ZeroAddress
    ensures r.Ok? ==> && ((caller, operator) in r.value.state.operatorApprovals <==> approved)
                      && r.value.state == s.(operatorApprovals :=
                                               if approved then s.operatorApprovals + {(caller, operator)}
                                               else s.operatorApprovals - {(caller, operator)})
                      && r.value.events == [ApprovalForAll(caller, operator, approved)]
  {
    if s.collection.isSoulbound then Err(Reason(SoulboundApprovalReason))
    else if operator == ZeroAddress then Err(ERC721InvalidOperator(ZeroAddress))
    else
      var ops := if approved then s.operatorApprovals + {(caller, operator)}
                 else s.operatorApprovals - {(caller, operator)};
      Ok(Receipt(s.(operatorApprovals := ops), [ApprovalForAll(caller, operator, approved)]))
  }

  /** Every state-changing entry point, as a transaction payload. */
  datatype Call =
    | CallMint(value: nat)
    | CallSetMintPrice(newPrice: nat)
    | CallPause
    | CallUnpause
    | CallWithdrawEth(recipientAccepts: bool)
    | CallTransferFrom(from: Address, to: Address, tokenId: nat)
    | CallApprove(to: Address, tokenId: nat)
    | CallSetApprovalForAll(operator: Address, approved: bool)

  /** One transaction from `caller`. Only the owner's calls touch the price
      or the pause flag, only a claim adds a claimant, and no call changes
      the collection, the owner or the factory's registrations. */
  function Step(s: State, caller: Address, call: Call): (r: Outcome)
    ensures r.Ok? ==> && r.value.state.collection == s.collection
                      && r.value.state.owner == s.owner
                      && r.value.state.factoryAccounts == s.factoryAccounts
    ensures r.Ok? && caller != s.owner ==>
              r.value.state.mintPrice == s.mintPrice && r.value.state.paused == s.paused
    ensures r.Ok? && !call.CallMint? ==>
              r.value.state.hasMinted == s.hasMinted && r.value.state.totalSupply == s.totalSupply
    ensures r.Ok? && call.CallMint? ==> r.value.state.hasMinted == s.hasMinted + {caller}
  {
    match call
    case CallMint(value) => Mint(s, caller, value)
    case CallSetMintPrice(p) => SetMintPrice(s, caller, p)
    case CallPause => Pause(s, caller)
    case CallUnpause => Unpause(s, caller)
    case CallWithdrawEth(accepts) => WithdrawEth(s, caller, accepts)
    case CallTransferFrom(from, to, id) => TransferFrom(s, caller, from, to, id)
    case CallApprove(to, id) => Approve(s, caller, to, id)
    case CallSetApprovalForAll(op, approved) => SetApprovalForAll(s, caller, op, approved)
  }

  /** The state after a call: a revert leaves the state as it was. */
  function Apply(s: State, caller: Address, call: Call): (s': State)
    ensures Step(s, caller, call).Err? ==> s' == s
    ensures s'.collection == s.collection && s'.owner == s.owner && s'.factoryAccounts == s.factoryAccounts
    ensures s.hasMinted <= s'.hasMinted && s.totalSupply <= s'.totalSupply
    ensures caller != s.owner ==> s'.mintPrice == s.mintPrice && s'.paused == s.paused
  {
    var r := Step(s, caller, call);
    if r.Ok? then r.value.state else s
  }

  /** A run of calls, each applied to the state the previous one left. */
  function Run(s: State, calls: seq<(Address, Call)>): (s': State)
    ensures s'.collection == s.collection && s'.owner == s.owner && s'.factoryAccounts == s.factoryAccounts
    ensures s.hasMinted <= s'.hasMinted && s.totalSupply <= s'.totalSupply
    ensures (forall i :: 0 <= i < |calls| ==> calls[i].0 != s.owner) ==>
              s'.mintPrice == s.mintPrice && s'.paused == s.paused
    decreases |calls|
  {
    if calls == [] then s else Run(Apply(s, calls[0].0, calls[0].1), calls[1..])
  }
}
