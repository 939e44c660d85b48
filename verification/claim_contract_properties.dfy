/** Properties of the claim contract: the state invariant every call keeps,
    what a successful mint does to balances and to the ledger, the
    soulbound guarantee, the owner-only operations, the metadata, and the
    scenarios the contract's test suite walks through. */
module ClaimContractProperties {
  import opened Common
  import opened ClaimContract

  // ----------------------------------------------------------- invariant

  lemma MintPreservesValid(s: State, caller: Address, value: nat)
    requires Valid(s)
    requires Mint(s, caller, value).Ok?
    ensures Valid(Mint(s, caller, value).value.state)
  {
    var s' := Mint(s, caller, value).value.state;
    var id := s.totalSupply + 1;
    forall t: nat
      ensures t in s'.owners <==> 1 <= t <= s'.totalSupply
    {
      if t != id {
        assert t in s'.owners <==> t in s.owners;
      }
    }
  }

  lemma StepPreservesValid(s: State, caller: Address, call: Call)
    requires Valid(s)
    ensures Valid(Apply(s, caller, call))
  {
    if Step(s, caller, call).Ok? {
      match call
      case CallMint(value) => MintPreservesValid(s, caller, value);
      case CallTransferFrom(from, to, id) =>
        var s' := Apply(s, caller, call);
        assert s'.owners.Keys == s.owners.Keys;
        forall t: nat
          ensures t in s'.owners <==> 1 <= t <= s'.totalSupply
        {
          assert t in s'.owners <==> t in s.owners;
        }
      case _ =>
    }
  }

  /** Every state reachable from deployment satisfies the invariant. */
  lemma {:induction false} RunPreservesValid(s: State, calls: seq<(Address, Call)>)
    requires Valid(s)
    ensures Valid(Run(s, calls))
    decreases |calls|
  {
    if calls != [] {
      StepPreservesValid(s, calls[0].0, calls[0].1);
      RunPreservesValid(Apply(s, calls[0].0, calls[0].1), calls[1..]);
    }
  }

  /** Token ids are handed out 1, 2, 3, ... and each id that exists is
      below the next one to be minted. */
  lemma ValidTokenIds(s: State, tokenId: nat)
    requires Valid(s)
    ensures TokenUri(s, tokenId).Ok? <==> 1 <= tokenId <= s.totalSupply
    ensures s.totalSupply + 1 !in s.owners
  {
  }

  // ---------------------------------------------------------------- mint

  /** A successful mint gives the caller exactly one more token and leaves
      every other account's balance alone. */
  lemma MintAddsOneToken(s: State, caller: Address, value: nat, other: Address)
    requires Valid(s)
    requires Mint(s, caller, value).Ok?
    ensures BalanceOf(Mint(s, caller, value).value.state, caller) == BalanceOf(s, caller) + 1
    ensures other != caller ==>
              BalanceOf(Mint(s, caller, value).value.state, other) == BalanceOf(s, other)
  {
    var s' := Mint(s, caller, value).value.state;
    var id := s'.totalSupply;
    assert id !in s.owners;
    assert TokensOf(s', caller) == TokensOf(s, caller) + {id};
    assert id !in TokensOf(s, caller);
    if other != caller {
      assert TokensOf(s', other) == TokensOf(s, other);
    }
  }

  /** A factory account that has not minted yet mints with no payment; the
      mint is recorded as unpaid. */
  lemma FactoryAccountMintsFree(s: State, caller: Address)
    requires Valid(s) && !s.paused
    requires caller != ZeroAddress && caller !in s.hasMinted && caller in s.factoryAccounts
    ensures Mint(s, caller, 0).Ok?
    ensures var rc := Mint(s, caller, 0).value;
            && BalanceOf(rc.state, caller) == BalanceOf(s, caller) + 1
            && Minted(caller, s.totalSupply + 1, false) in rc.events
            && rc.state.ethBalance == s.ethBalance
  {
    MintAddsOneToken(s, caller, 0, caller);
  }

  /** An account outside the factory pays when the price is non-zero: any
      payment below the price reverts, any payment at or above it succeeds
      and the whole payment, overpayment included, stays in the contract. */
  lemma DirectAccountPays(s: State, caller: Address, value: nat)
    requires Valid(s) && !s.paused
    requires caller != ZeroAddress && caller !in s.hasMinted && caller !in s.factoryAccounts
    requires s.collection.accountFactory != ZeroAddress && s.mintPrice > 0
    ensures value < s.mintPrice ==> Mint(s, caller, value) == Err(Reason(InsufficientPaymentReason))
    ensures value >= s.mintPrice ==>
              && Mint(s, caller, value).Ok?
              && var rc := Mint(s, caller, value).value;
              && Minted(caller, s.totalSupply + 1, true) in rc.events
              && rc.state.ethBalance == s.ethBalance + value
              && BalanceOf(rc.state, caller) == BalanceOf(s, caller) + 1
  {
    if value >= s.mintPrice {
      MintAddsOneToken(s, caller, value, caller);
    }
  }

  /** Once an address has minted, every later mint from it reverts with
      "Already minted" (whatever it pays and however the owner changes the
      price), and the reverted call leaves the state as it was. */
  lemma SecondMintReverts(s: State, caller: Address, value: nat, calls: seq<(Address, Call)>, value': nat)
    requires Mint(s, caller, value).Ok?
    ensures var s1 := Run(Mint(s, caller, value).value.state, calls);
            && (!s1.paused ==> Mint(s1, caller, value') == Err(Reason(AlreadyMintedReason)))
            && Apply(s1, caller, CallMint(value')) == s1
  {
  }

  // ------------------------------------------------------------ pricing

  /** After the owner sets the price to 0, every address mints for free. */
  lemma ZeroPriceIsFreeForAll(s: State, a: Address)
    ensures SetMintPrice(s, s.owner, 0).Ok?
    ensures IsFreeForAddress(SetMintPrice(s, s.owner, 0).value.state, a)
  {
  }

  /** The free-claim view is the guard `mint` applies: for an address that
      may claim, a claim with no payment succeeds exactly when the view
      says free, a paying address succeeds exactly with the full price, and
      the mint records as paid exactly the addresses the view does not call
      free. Registering an address with the factory makes its claim free. */
  lemma FreeViewIsMintGuard(s: State, a: Address, value: nat)
    requires !s.paused && a !in s.hasMinted && a != ZeroAddress
    ensures IsFreeForAddress(s, a) <==> Mint(s, a, 0).Ok?
    ensures !IsFreeForAddress(s, a) ==> (Mint(s, a, value).Ok? <==> value >= s.mintPrice)
    ensures Mint(s, a, value).Ok? ==>
              Mint(s, a, value).value.events[1] == Minted(a, s.totalSupply + 1, !IsFreeForAddress(s, a))
    ensures Mint(RegisterAccount(s, a), a, 0).Ok?
  {
  }

  /** The price only changes through the owner's `setMintPrice`. */
  lemma PriceChangesOnlyByOwner(s: State, caller: Address, call: Call)
    requires Apply(s, caller, call).mintPrice != s.mintPrice
    ensures caller == s.owner && call.CallSetMintPrice?
    ensures Apply(s, caller, call).mintPrice == call.newPrice
  {
  }

  // --------------------------------------------------------------- pause

  /** Pausing blocks every mint; unpausing restores the state exactly, so a
      mint after pause-then-unpause behaves as it would have before. */
  lemma PauseUnpauseRoundTrip(s: State, caller: Address, value: nat)
    requires !s.paused
    ensures Pause(s, s.owner).Ok?
    ensures var p := Pause(s, s.owner).value.state;
            && p.paused
            && Mint(p, caller, value) == Err(Reason(PausedReason))
            && Unpause(p, s.owner).Ok?
            && Unpause(p, s.owner).value.state == s
            && Mint(Unpause(p, s.owner).value.state, caller, value) == Mint(s, caller, value)
  {
  }

  // ----------------------------------------------------------- soulbound

  /** On a soulbound collection no call ever moves an existing token. */
  lemma SoulboundStepKeepsHolders(s: State, caller: Address, call: Call, tokenId: nat)
    requires s.collection.isSoulbound && Valid(s)
    requires tokenId in s.owners
    ensures var s' := Apply(s, caller, call);
            tokenId in s'.owners && s'.owners[tokenId] == s.owners[tokenId]
  {
    if call.CallMint? && Step(s, caller, call).Ok? {
      assert s.totalSupply + 1 != tokenId;
    }
  }

  lemma {:induction false} SoulboundRunKeepsHolders(s: State, calls: seq<(Address, Call)>, tokenId: nat)
    requires s.collection.isSoulbound && Valid(s)
    requires tokenId in s.owners
    ensures tokenId in Run(s, calls).owners && Run(s, calls).owners[tokenId] == s.owners[tokenId]
    decreases |calls|
  {
    if calls != [] {
      var s1 := Apply(s, calls[0].0, calls[0].1);
      SoulboundStepKeepsHolders(s, calls[0].0, calls[0].1, tokenId);
      StepPreservesValid(s, calls[0].0, calls[0].1);
      assert s1.collection.isSoulbound;
      SoulboundRunKeepsHolders(s1, calls[1..], tokenId);
    }
  }

  // ------------------------------------------------------------ metadata

  /** Two different tokens of a collection never share a name. */
  lemma TokenNamesDistinct(c: Collection, a: nat, b: nat)
    requires a != b
    ensures TokenName(c, a) != TokenName(c, b)
  {
    if TokenName(c, a) == TokenName(c, b) {
      assert TokenName(c, a)[|c.name| + 2..] == TokenName(c, b)[|c.name| + 2..];
      NatToStringInjective(a, b);
    }
  }

  /** The token a mint creates has metadata at once: its name carries the
      new id, and its media are the collection's. */
  lemma MintedTokenHasMetadata(s: State, caller: Address, value: nat)
    requires Valid(s)
    requires Mint(s, caller, value).Ok?
    ensures var s' := Mint(s, caller, value).value.state;
            && TokenUri(s', s'.totalSupply).Ok?
            && TokenUri(s', s'.totalSupply).value
               == Metadata(s.collection.name + " #" + NatToString(s.totalSupply + 1),
                           s.collection.description, s.collection.imageUri,
                           s.collection.animationUri, [])
  {
  }

  // ------------------------------------------------- the test suite's run

  const Deployer: Address := 1
  const User1: Address := 2
  const User2: Address := 3
  const Factory: Address := 10
  const OneEther := 1_000_000_000_000_000_000
  const TestMintPrice := OneEther / 100

  const TestCollection := Collection("Test Collection", "TEST", "Test Description",
                                     "ipfs://test-image", "ipfs://test-animation",
                                     2_000_000_000, true, Factory)

  function TestDeploy(): State
  {
    Deploy(Deployer, TestCollection, TestMintPrice, {})
  }

  lemma TestDeployment()
    ensures var s := TestDeploy();
            && s.collection.name == "Test Collection" && s.collection.symbol == "TEST"
            && s.owner == Deployer && s.collection.isSoulbound
            && s.mintPrice == TestMintPrice && s.collection.accountFactory == Factory
  {
  }

  lemma TestFactoryAccountMint()
    ensures var s := RegisterAccount(TestDeploy(), User1);
            && Mint(s, User1, 0).Ok?
            && BalanceOf(Mint(s, User1, 0).value.state, User1) == 1
            && Minted(User1, 1, false) in Mint(s, User1, 0).value.events
  {
    var s := RegisterAccount(TestDeploy(), User1);
    assert TokensOf(s, User1) == {};
    FactoryAccountMintsFree(s, User1);
  }

  lemma TestDirectMint(overpayment: nat)
    requires overpayment > TestMintPrice
    ensures Mint(TestDeploy(), User1, 0) == Err(Reason(InsufficientPaymentReason))
    ensures Minted(User1, 1, true) in Mint(TestDeploy(), User1, TestMintPrice).value.events
    ensures BalanceOf(Mint(TestDeploy(), User1, overpayment).value.state, User1) == 1
  {
    var s := TestDeploy();
    assert TokensOf(s, User1) == {};
    DirectAccountPays(s, User1, 0);
    DirectAccountPays(s, User1, TestMintPrice);
    DirectAccountPays(s, User1, overpayment);
  }

  lemma TestSoulbound()
    ensures var s := Mint(TestDeploy(), User1, TestMintPrice).value.state;
            && TransferFrom(s, User1, User1, User2, 1) == Err(Reason(SoulboundTransferReason))
            && Approve(s, User1, User2, 1) == Err(Reason(SoulboundApprovalReason))
            && SetApprovalForAll(s, User1, User2, true) == Err(Reason(SoulboundApprovalReason))
  {
  }

  lemma TestIsFreeForAddress()
    ensures IsFreeForAddress(RegisterAccount(TestDeploy(), User1), User1)
    ensures !IsFreeForAddress(TestDeploy(), User1)
    ensures IsFreeForAddress(SetMintPrice(TestDeploy(), Deployer, 0).value.state, User1)
  {
    ZeroPriceIsFreeForAll(TestDeploy(), User1);
  }

  lemma TestOwnerFunctions(newPrice: nat)
    ensures SetMintPrice(TestDeploy(), Deployer, newPrice)
            == Ok(Receipt(TestDeploy().(mintPrice := newPrice), [MintPriceUpdated(TestMintPrice, newPrice)]))
    ensures SetMintPrice(TestDeploy(), User1, 0) == Err(OwnableUnauthorizedAccount(User1))
    ensures var s := Mint(TestDeploy(), User1, TestMintPrice).value.state;
            WithdrawEth(s, Deployer, true).value.events == [EthSent(Deployer, TestMintPrice)]
  {
  }

  lemma TestPauseUnpause()
    ensures var p := Pause(TestDeploy(), Deployer).value.state;
            && p.paused
            && Mint(p, User1, TestMintPrice) == Err(Reason(PausedReason))
            && !Unpause(p, Deployer).value.state.paused
            && BalanceOf(Mint(Unpause(p, Deployer).value.state, User1, TestMintPrice).value.state, User1) == 1
  {
    var s := TestDeploy();
    PauseUnpauseRoundTrip(s, User1, TestMintPrice);
    assert TokensOf(s, User1) == {};
    MintAddsOneToken(s, User1, TestMintPrice, User1);
  }

  lemma TestTokenUri()
    ensures var s := Mint(TestDeploy(), User1, TestMintPrice).value.state;
            && TokenUri(s, 1).Ok?
            && TokenUri(s, 1).value.name == "Test Collection #1"
            && TokenUri(s, 1).value.description == "Test Description"
            && TokenUri(s, 1).value.image == "ipfs://test-image"
            && TokenUri(s, 1).value.animationUrl == "ipfs://test-animation"
  {
    assert NatToString(1) == "1";
  }
}
