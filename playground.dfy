/**
 * The `XcmPlayground` contract: its storage (one boolean), its two
 * constructors, and `send_message`, which builds a fixed reserve-transfer
 * program for a beneficiary account and has the host execute it.
 *
 * The program, from the contract's own chain:
 *   1. withdraw 5_000_000_000_000 units of asset 1 of pallet 50 on
 *      parachain 1000 (the reserve) into holding;
 *   2. initiate a reserve withdrawal of everything in holding at the
 *      reserve, which then
 *        a. buys execution with 1_000_000_000_000 units of that asset
 *           (as the reserve sees it) and no weight limit, and
 *        b. deposits everything at parachain 3000, which then
 *             i. deposits everything to the beneficiary account.
 */
module Playground {
  import opened XcmTypes
  import opened Extension

  /**
   * The reserve-transfer program `send_message` builds for `account`: a
   * withdrawal, then a reserve withdrawal carrying the program for the
   * reserve. `TopLevel`, `Withdrawal`, `AtReserve` and `AtDestination` fix
   * the rest of it.
   */
  function SendMessageProgram(account: AccountId): (x: Xcm)
    ensures |x| == 2 && x[0].WithdrawAsset? && x[1].InitiateReserveWithdraw?
  {
    var para1000 := [Parachain(1000)];
    var para3000 := [Parachain(3000)];
    var accountDest := [AccountId32(None, account)];
    var reservedAsset := [Parachain(1000), PalletInstance(50), GeneralIndex(1)];
    var buyExecutionAsset := [PalletInstance(50), GeneralIndex(1)];

    var reserve := MultiLocation(1, para1000);
    var dest := MultiLocation(1, para3000);
    var beneficiary := MultiLocation(0, accountDest);
    var reservedLocation := MultiLocation(1, reservedAsset);
    var buyAssetLocation := MultiLocation(0, buyExecutionAsset);

    var fees := MultiAsset(Concrete(buyAssetLocation), Fungible(1_000_000_000_000));
    var assets := Wild(All);
    var multiAssets := [MultiAsset(Concrete(reservedLocation), Fungible(5_000_000_000_000))];
    [ WithdrawAsset(multiAssets),
      InitiateReserveWithdraw(
        assets,
        reserve,
        [ BuyExecution(fees, Unlimited),
          DepositReserveAsset(
            assets,
            dest,
            [DepositAsset(Wild(All), beneficiary)])])]
  }

  /**
   * The top level: two instructions, a withdrawal followed by a reserve
   * withdrawal of everything in holding at parachain 1000 (one level up).
   */
  lemma TopLevel(account: AccountId)
    ensures var x := SendMessageProgram(account);
      |x| == 2 &&
      x[0].WithdrawAsset? &&
      x[1].InitiateReserveWithdraw? &&
      x[1].filter == Wild(All) &&
      x[1].reserve == MultiLocation(1, [Parachain(1000)])
  {
  }

  /**
   * The withdrawal takes exactly one fungible asset: 5_000_000_000_000 of
   * asset 1 of pallet 50 on parachain 1000.
   */
  lemma Withdrawal(account: AccountId)
    ensures SendMessageProgram(account)[0].assets ==
      [MultiAsset(Concrete(MultiLocation(1, [Parachain(1000), PalletInstance(50), GeneralIndex(1)])),
                  Fungible(5_000_000_000_000))]
  {
  }

  /**
   * At the reserve: buy execution with 1_000_000_000_000 of the asset as
   * the reserve addresses it, without a weight limit, then deposit
   * everything at parachain 3000.
   */
  lemma AtReserve(account: AccountId)
    ensures var y := SendMessageProgram(account)[1].xcm;
      |y| == 2 &&
      y[0] == BuyExecution(MultiAsset(Concrete(MultiLocation(0, [PalletInstance(50), GeneralIndex(1)])),
                                      Fungible(1_000_000_000_000)),
                           Unlimited) &&
      y[1].DepositReserveAsset? &&
      y[1].filter == Wild(All) &&
      y[1].dest == MultiLocation(1, [Parachain(3000)])
  {
  }

  /**
   * At the destination: one deposit of everything to the account, which
   * is the input byte for byte, on no particular network.
   */
  lemma AtDestination(account: AccountId)
    ensures SendMessageProgram(account)[1].xcm[1].xcm ==
      [DepositAsset(Wild(All), MultiLocation(0, [AccountId32(None, account)]))]
  {
  }

  /** The program's instructions in pre-order: the outer two, then each nested one. */
  lemma {:induction false} Flattened(account: AccountId)
    ensures var x := SendMessageProgram(account);
      Flatten(x) == [x[0], x[1], x[1].xcm[0], x[1].xcm[1], x[1].xcm[1].xcm[0]]
  {
    var x := SendMessageProgram(account);
    var atReserve := x[1].xcm;
    FlattenSingleton(atReserve[1].xcm[0]);
    FlattenAppend([atReserve[0]], [atReserve[1]]);
    FlattenSingleton(atReserve[0]);
    FlattenSingleton(atReserve[1]);
    FlattenAppend([x[0]], [x[1]]);
    FlattenSingleton(x[0]);
    FlattenSingleton(x[1]);
    assert [x[0]] + [x[1]] == x;
    assert [atReserve[0]] + [atReserve[1]] == atReserve;
  }

  /**
   * Walked as a tree, the program has five instructions in the order
   * withdraw, initiate reserve withdrawal, buy execution, deposit reserve
   * asset, deposit asset, nested three deep.
   */
  lemma {:induction false} Shape(account: AccountId)
    ensures var f := Flatten(SendMessageProgram(account));
      |f| == 5 &&
      f[0].WithdrawAsset? && f[1].InitiateReserveWithdraw? && f[2].BuyExecution? &&
      f[3].DepositReserveAsset? && f[4].DepositAsset?
    ensures Depth(SendMessageProgram(account)) == 3
  {
    Flattened(account);
    var x := SendMessageProgram(account);
    var atReserve := x[1].xcm;
    var atDest := atReserve[1].xcm;
    assert atDest[1..] == [] && atReserve[1..] == [atReserve[1]] && atReserve[1..][1..] == [];
    assert x[1..] == [x[1]] && x[1..][1..] == [];
    assert Depth(atDest) == 1;
    assert Depth(atReserve[1..]) == 2;
    assert Depth(atReserve) == 2;
    assert Depth(x[1..]) == 3;
  }

  /**
   * The program names five locations, in this order: the asset withdrawn,
   * the reserve, the fee asset as the reserve sees it, the destination and
   * the beneficiary account.
   */
  lemma {:induction false} ProgramLocations(account: AccountId)
    ensures Locations(SendMessageProgram(account)) ==
      [ MultiLocation(1, [Parachain(1000), PalletInstance(50), GeneralIndex(1)]),
        MultiLocation(1, [Parachain(1000)]),
        MultiLocation(0, [PalletInstance(50), GeneralIndex(1)]),
        MultiLocation(1, [Parachain(3000)]),
        MultiLocation(0, [AccountId32(None, account)]) ]
  {
    var x := SendMessageProgram(account);
    var atReserve := x[1].xcm;
    var atDest := atReserve[1].xcm;
    LocationsSingleton(atDest[0]);
    LocationsAppend([atReserve[0]], [atReserve[1]]);
    LocationsSingleton(atReserve[0]);
    LocationsSingleton(atReserve[1]);
    LocationsAppend([x[0]], [x[1]]);
    LocationsSingleton(x[0]);
    LocationsSingleton(x[1]);
    assert [x[0]] + [x[1]] == x;
    assert [atReserve[0]] + [atReserve[1]] == atReserve;
    assert x[0].assets[1..] == [];
  }

  /**
   * The account comes back out of the program: the only deposit is to a
   * local account, and that account is the input.
   */
  lemma {:induction false} BeneficiaryRoundTrip(account: AccountId)
    ensures Beneficiaries(Flatten(SendMessageProgram(account))) == [MultiLocation(0, [AccountId32(None, account)])]
    ensures LocalAccount(Beneficiaries(Flatten(SendMessageProgram(account)))[0]) == Some(account)
  {
    Flattened(account);
    var f := Flatten(SendMessageProgram(account));
    assert f[4..][1..] == [];
    assert Beneficiaries(f[4..]) == [f[4].beneficiary];
    assert f[3..][1..] == f[4..];
    assert f[2..][1..] == f[3..];
    assert f[1..][1..] == f[2..];
    assert Beneficiaries(f[3..]) == Beneficiaries(f[4..]);
    assert Beneficiaries(f[2..]) == Beneficiaries(f[3..]);
    assert Beneficiaries(f[1..]) == Beneficiaries(f[2..]);
  }

  /**
   * The account is named nowhere else: it is the only account id in any
   * location of the program.
   */
  lemma {:induction false} OnlyAccount(account: AccountId)
    ensures AccountIds(SendMessageProgram(account)) == {account}
  {
    ProgramLocations(account);
    var locs := Locations(SendMessageProgram(account));
    assert locs[4].interior[0] == AccountId32(None, account);
    forall a | a in AccountIdsIn(locs) ensures a == account {
      var l, j :| l in locs && j in l.interior && j.AccountId32? && j.id == a;
    }
  }

  /** Different accounts give different programs. */
  lemma Injective(a1: AccountId, a2: AccountId)
    requires SendMessageProgram(a1) == SendMessageProgram(a2)
    ensures a1 == a2
  {
  }

  /** Every location of the program fits the version 3 format. */
  lemma {:induction false} ProgramWellFormed(account: AccountId)
    ensures WellFormed(SendMessageProgram(account))
  {
    ProgramLocations(account);
  }

  /**
   * The location `rel`, given relative to `base`, as seen from where `base`
   * is seen: `rel` first climbs out of `base`'s junctions, then past its
   * parents. None when the result would not fit a location.
   */
  function Resolve(base: MultiLocation, rel: MultiLocation): (r: Option<MultiLocation>)
    ensures r.Some? && rel.parents == 0 ==> r.value.interior == base.interior + rel.interior
    ensures r.Some? && rel.parents == 0 ==> r.value.parents == base.parents
  {
    var n := |base.interior|;
    if rel.parents <= n then
      var interior := base.interior[..n - rel.parents] + rel.interior;
      if |interior| <= MaxJunctions then Some(MultiLocation(base.parents, interior)) else None
    else
      var parents := base.parents + (rel.parents - n);
      if parents < 0x100 && |rel.interior| <= MaxJunctions then Some(MultiLocation(parents, rel.interior)) else None
  }

  /**
   * The constants fit together: the asset the reserve buys execution with
   * is, seen from the contract's chain, the asset withdrawn, and the fee is
   * less than the amount withdrawn; the destination is a sibling parachain
   * of the reserve.
   */
  lemma {:induction false} FeesFromWithdrawnAsset(account: AccountId)
    ensures var x := SendMessageProgram(account);
      var fees := x[1].xcm[0].fees;
      var withdrawn := x[0].assets[0];
      Resolve(x[1].reserve, fees.id.location) == Some(withdrawn.id.location) &&
      fees.fun.amount < withdrawn.fun.amount
    ensures var x := SendMessageProgram(account);
      Resolve(x[1].reserve, x[1].xcm[1].dest) == Some(MultiLocation(1, [Parachain(3000)]))
  {
    var x := SendMessageProgram(account);
    assert x[1].reserve.interior + x[1].xcm[0].fees.id.location.interior == x[0].assets[0].id.location.interior;
    assert x[1].reserve.interior[..0] + x[1].xcm[1].dest.interior == [Parachain(3000)];
  }

  /** The all-zero account is the beneficiary of its own program. */
  lemma ZeroAccount()
    ensures var zero: AccountId := seq(32, _ => 0);
      |Beneficiaries(Flatten(SendMessageProgram(zero)))| == 1 &&
      LocalAccount(Beneficiaries(Flatten(SendMessageProgram(zero)))[0]) == Some(zero)
  {
    BeneficiaryRoundTrip(seq(32, _ => 0));
  }

  /** The contract's storage and the extension it calls. */
  class XcmPlayground {
    /** The single stored flag; no message reads or writes it. */
    var value: bool
    /** The chain extension of the environment the contract runs in. */
    const extension: XcmExtension

    /** `new`: stores `initValue`. */
    constructor (initValue: bool, extension: XcmExtension)
      ensures value == initValue
      ensures this.extension == extension
    {
      value := initValue;
      this.extension := extension;
    }

    /** `default`: stores the default boolean, `false`. */
    constructor Default(extension: XcmExtension)
      ensures value == false
      ensures this.extension == extension
    {
      value := false;
      this.extension := extension;
    }

    /**
     * Builds the reserve-transfer program for `account`, stages it with
     * `prepare_execute` and runs it with `execute`, in that order; storage
     * is untouched.
     */
    method SendMessage(account: AccountId)
      modifies extension
      ensures value == old(value)
      ensures extension.calls ==
        old(extension.calls) + [PrepareExecute(V3(SendMessageProgram(account))), Execute]
      ensures Executed(extension.calls) == Executed(old(extension.calls)) + [V3(SendMessageProgram(account))]
      ensures Staged(extension.calls) == None
    {
      var xcm := SendMessageProgram(account);
      var versionedXcm := V3(xcm);
      extension.PrepareExecute(versionedXcm);
      extension.Execute();
      PrepareThenExecuteRuns(old(extension.calls), versionedXcm);
    }
  }
}
