/** The `StubOwned` contract as an object with mutable fields, and the host chain it
    runs on. Each method's new state is the one the matching function of `OwnedSpec`
    computes from the old state, so everything proved there holds of these objects. */
module Owned {
  import opened Ledgers
  import opened OwnedSpec

  /** The host chain: every token contract's `balanceOf` table, the native-currency
      balances, and the log of events the transactions emitted. */
  class Chain {
    var tokenLedgers: TokenLedgers
    var ether: Ledger
    ghost var log: seq<Event>

    constructor (tokenLedgers: TokenLedgers, ether: Ledger)
      ensures this.tokenLedgers == tokenLedgers && this.ether == ether && log == []
    {
      this.tokenLedgers := tokenLedgers;
      this.ether := ether;
      log := [];
    }

    /** `token.balanceOf(holder)`. */
    function TokenBalanceOf(token: Address, holder: Address): nat
      reads this
    {
      TokenBalance(tokenLedgers, token, holder)
    }

    /** The native balance of `holder`. */
    function EtherBalanceOf(holder: Address): nat
      reads this
    {
      BalanceOf(ether, holder)
    }

    /** `token.transfer(to, value)` sent by `sender`: moves exactly `value` and logs
        one `Transfer`; a transfer beyond the sender's balance is refused. */
    method TokenTransfer(token: Address, sender: Address, to: Address, value: nat) returns (ok: bool)
      modifies this`tokenLedgers, this`log
      ensures ok == (value <= old(TokenBalanceOf(token, sender)))
      ensures ok ==> tokenLedgers == old(tokenLedgers)[token := Move(LedgerOf(old(tokenLedgers), token), sender, to, value)]
      ensures ok ==> log == old(log) + [Transfer(token, sender, to, value)]
      ensures !ok ==> tokenLedgers == old(tokenLedgers) && log == old(log)
    {
      ok := value <= TokenBalanceOf(token, sender);
      if ok {
        tokenLedgers := tokenLedgers[token := Move(LedgerOf(tokenLedgers, token), sender, to, value)];
        log := log + [Transfer(token, sender, to, value)];
      }
    }

    /** A native-currency send of `value` from `sender` to `to`; the host logs no event. */
    method SendEther(sender: Address, to: Address, value: nat) returns (ok: bool)
      modifies this`ether
      ensures ok == (value <= old(EtherBalanceOf(sender)))
      ensures ether == if ok then Move(old(ether), sender, to, value) else old(ether)
    {
      ok := value <= EtherBalanceOf(sender);
      if ok {
        ether := Move(ether, sender, to, value);
      }
    }
  }

  /** The deployed contract: its own address and the guard's two fields. */
  class OwnedContract {
    const address: Address
    var contractOwner: Address
    var pendingContractOwner: Address

    ghost predicate Valid()
      reads this
    {
      contractOwner != Zero
    }

    /** The whole world as the guard sees it, for the functions of `OwnedSpec`. */
    ghost function View(chain: Chain): World
      reads this, chain
    {
      World(Guard(contractOwner, pendingContractOwner), address, chain.tokenLedgers, chain.ether)
    }

    /** Deployment by `deployer` (never the null identity on the host) at `address`. */
    constructor (deployer: Address, address: Address)
      requires deployer != Zero
      ensures Valid()
      ensures this.address == address
      ensures contractOwner == deployer && pendingContractOwner == Zero
    {
      this.address := address;
      contractOwner := deployer;
      pendingContractOwner := Zero;
    }

    method ChangeContractOwnership(chain: Chain, caller: Address, candidate: Address) returns (ok: bool)
      requires Valid()
      modifies this
      ensures Valid()
      ensures var o := OwnedSpec.ChangeContractOwnership(old(View(chain)), caller, candidate);
        ok == o.ok && View(chain) == o.world && chain.log == old(chain.log) + o.events
    {
      if caller != contractOwner || candidate == Zero {
        return false;
      }
      pendingContractOwner := candidate;
      return true;
    }

    method ClaimContractOwnership(chain: Chain, caller: Address) returns (ok: bool)
      requires Valid()
      modifies this, chain`log
      ensures Valid()
      ensures var o := OwnedSpec.ClaimContractOwnership(old(View(chain)), caller);
        ok == o.ok && View(chain) == o.world && chain.log == old(chain.log) + o.events
    {
      if pendingContractOwner == Zero || caller != pendingContractOwner {
        return false;
      }
      chain.log := chain.log + [OwnershipTransferred(contractOwner, pendingContractOwner)];
      contractOwner := pendingContractOwner;
      pendingContractOwner := Zero;
      return true;
    }

    method TransferOwnership(chain: Chain, caller: Address, newOwner: Address) returns (ok: bool)
      requires Valid()
      modifies this, chain`log
      ensures Valid()
      ensures var o := OwnedSpec.TransferOwnership(old(View(chain)), caller, newOwner);
        ok == o.ok && View(chain) == o.world && chain.log == old(chain.log) + o.events
    {
      if caller != contractOwner || newOwner == Zero {
        return false;
      }
      chain.log := chain.log + [OwnershipTransferred(contractOwner, newOwner)];
      contractOwner := newOwner;
      pendingContractOwner := Zero;
      return true;
    }

    method WithdrawTokens(chain: Chain, caller: Address, tokens: seq<Address>) returns (ok: bool)
      requires Valid()
      modifies chain`tokenLedgers, chain`log
      ensures Valid()
      ensures var o := OwnedSpec.WithdrawTokens(old(View(chain)), caller, tokens);
        ok == o.ok && View(chain) == o.world && chain.log == old(chain.log) + o.events
    {
      if caller != contractOwner {
        return false;
      }
      var owner := contractOwner;
      ghost var goal := SweepTokens(chain.tokenLedgers, address, owner, tokens);
      var i := 0;
      while i < |tokens|
        invariant 0 <= i <= |tokens|
        invariant SweepTokens(chain.tokenLedgers, address, owner, tokens[i..]).tokens == goal.tokens
        invariant chain.log + SweepTokens(chain.tokenLedgers, address, owner, tokens[i..]).events
                  == old(chain.log) + goal.events
      {
        ghost var before, logBefore := chain.tokenLedgers, chain.log;
        ghost var step := SweepToken(before, address, owner, tokens[i]);
        var balance := chain.TokenBalanceOf(tokens[i], address);
        if balance != 0 {
          var sent := chain.TokenTransfer(tokens[i], address, owner, balance);
        }
        assert chain.tokenLedgers == step.tokens && chain.log == logBefore + step.events;
        SweepTokensFirst(before, address, owner, tokens[i..]);
        assert tokens[i..][1..] == tokens[i + 1..];
        i := i + 1;
      }
      return true;
    }

    method WithdrawEther(chain: Chain, caller: Address) returns (ok: bool)
      requires Valid()
      modifies chain`ether
      ensures Valid()
      ensures var o := OwnedSpec.WithdrawEther(old(View(chain)), caller);
        ok == o.ok && View(chain) == o.world && chain.log == old(chain.log) + o.events
    {
      if caller != contractOwner {
        return false;
      }
      var balance := chain.EtherBalanceOf(address);
      var sent := chain.SendEther(address, contractOwner, balance);
      return true;
    }
  }

  // ---------------------------------------------------------------------------
  // The test contexts of the suite, replayed against the objects

  /** "by change/claim": refused nominations (by a stranger, of the null identity), a
      nomination, a refused claim by someone else, and the nominee's claim. */
  method ChangeClaimScenario(deployer: Address, self: Address, user1: Address, user2: Address)
    returns (results: seq<bool>, owner: Address, pending: Address, ghost log: seq<Event>)
    requires deployer != Zero && user1 != Zero
    requires user1 != deployer && user2 != user1
    ensures results == [false, false, true, false, true]
    ensures owner == user1 && pending == Zero
    ensures log == [OwnershipTransferred(deployer, user1)]
  {
    var chain := new Chain(map[], map[]);
    var owned := new OwnedContract(deployer, self);
    var r0 := owned.ChangeContractOwnership(chain, user1, user1);
    var r1 := owned.ChangeContractOwnership(chain, deployer, Zero);
    var r2 := owned.ChangeContractOwnership(chain, deployer, user1);
    var r3 := owned.ClaimContractOwnership(chain, user2);
    var r4 := owned.ClaimContractOwnership(chain, user1);
    results := [r0, r1, r2, r3, r4];
    owner, pending, log := owned.contractOwner, owned.pendingContractOwner, chain.log;
  }

  /** "by transferOwnership": refused transfers (by a stranger, to the null identity), a
      nomination, the owner's direct transfer, and the nominee's now refused claim. */
  method TransferScenario(deployer: Address, self: Address, user1: Address, user3: Address)
    returns (results: seq<bool>, owner: Address, pending: Address, ghost log: seq<Event>)
    requires deployer != Zero && user1 != Zero && user3 != Zero
    requires user1 != deployer
    ensures results == [false, false, true, true, false]
    ensures owner == user1 && pending == Zero
    ensures log == [OwnershipTransferred(deployer, user1)]
  {
    var chain := new Chain(map[], map[]);
    var owned := new OwnedContract(deployer, self);
    var r0 := owned.TransferOwnership(chain, user1, user1);
    var r1 := owned.TransferOwnership(chain, deployer, Zero);
    var r2 := owned.ChangeContractOwnership(chain, deployer, user3);
    assert owned.pendingContractOwner == user3;
    var r3 := owned.TransferOwnership(chain, deployer, user1);
    var r4 := owned.ClaimContractOwnership(chain, deployer);
    results := [r0, r1, r2, r3, r4];
    owner, pending, log := owned.contractOwner, owned.pendingContractOwner, chain.log;
  }

  /** "tokens": a sweep with nothing to sweep, a deposit of 1444, a stranger's refused
      sweep, and the owner's sweep of the whole 1444. */
  method TokenScenario(deployer: Address, self: Address, token: Address, user2: Address, supply: nat)
    returns (ownerBalance: nat, ownedBalance: nat, strangerBalance: nat, ghost log: seq<Event>)
    requires deployer != Zero && supply >= 1444
    requires self != deployer && user2 != deployer && user2 != self
    ensures ownerBalance == supply && ownedBalance == 0 && strangerBalance == 0
    ensures log == [Transfer(token, deployer, self, 1444), Transfer(token, self, deployer, 1444)]
  {
    var chain := new Chain(map[token := map[deployer := supply]], map[]);
    var owned := new OwnedContract(deployer, self);
    ghost var t0 := chain.tokenLedgers;
    assert TokenBalance(t0, token, self) == 0;
    assert [token][0] == token && [token][1..] == [];
    assert SweepTokens(t0, self, deployer, [token]) == Sweep(t0, []);
    var swept0 := owned.WithdrawTokens(chain, deployer, [token]);
    assert chain.tokenLedgers == t0 && chain.log == [];
    var deposited := chain.TokenTransfer(token, deployer, self, 1444);
    ghost var t1 := chain.tokenLedgers;
    var swept1 := owned.WithdrawTokens(chain, user2, [token]);
    assert TokenBalance(t1, token, self) == 1444;
    ghost var s := SweepToken(t1, self, deployer, token);
    assert SweepTokens(t1, self, deployer, [token]) == Sweep(s.tokens, s.events + SweepTokens(s.tokens, self, deployer, []).events);
    var swept2 := owned.WithdrawTokens(chain, deployer, [token]);
    ownerBalance := chain.TokenBalanceOf(token, deployer);
    ownedBalance := chain.TokenBalanceOf(token, self);
    strangerBalance := chain.TokenBalanceOf(token, user2);
    log := chain.log;
  }

  /** "ethers": a sweep of an empty balance, a deposit of 10000 gwei, a stranger's
      refused sweep, and the owner's sweep of the whole deposit. */
  method EtherScenario(deployer: Address, self: Address, user2: Address, funds: nat, user2Funds: nat)
    returns (results: seq<bool>, ownerAfterEmpty: nat, ownedAfterStranger: nat, strangerAfterStranger: nat,
             ownerBalance: nat, ownedBalance: nat, strangerBalance: nat)
    requires deployer != Zero && funds >= 10000 * 1_000_000_000
    requires self != deployer && user2 != deployer && user2 != self
    ensures results == [true, false, true]
    ensures ownerAfterEmpty == funds
    ensures ownedAfterStranger == 10000 * 1_000_000_000 && strangerAfterStranger == user2Funds
    ensures ownerBalance == funds && ownedBalance == 0 && strangerBalance == user2Funds
  {
    var chain := new Chain(map[], map[deployer := funds, user2 := user2Funds]);
    var owned := new OwnedContract(deployer, self);
    var r0 := owned.WithdrawEther(chain, deployer);
    ownerAfterEmpty := chain.EtherBalanceOf(deployer);
    var deposited := chain.SendEther(deployer, self, 10000 * 1_000_000_000);
    var r1 := owned.WithdrawEther(chain, user2);
    ownedAfterStranger, strangerAfterStranger := chain.EtherBalanceOf(self), chain.EtherBalanceOf(user2);
    var r2 := owned.WithdrawEther(chain, deployer);
    results := [r0, r1, r2];
    ownerBalance := chain.EtherBalanceOf(deployer);
    ownedBalance := chain.EtherBalanceOf(self);
    strangerBalance := chain.EtherBalanceOf(user2);
  }
}
