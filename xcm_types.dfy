/**
 * The part of the XCM version 3 format that the contract builds: junctions,
 * locations, fungible assets, asset filters, weight limits and the
 * instructions of a program, some of which carry a nested program that runs
 * at the location they address.
 *
 * Besides the types, the module gives inspectors that walk a whole program
 * tree: the instructions in pre-order, the nesting depth, every location
 * mentioned anywhere, and the account ids those locations name.
 */
module XcmTypes {
  import opened Primitives

  /** A 32-byte account identifier. */
  type AccountId = s: seq<bv8> | |s| == 32 witness seq(32, _ => 0)

  /**
   * Some consensus networks a junction may name. The contract builds none of
   * them (it always passes `None`); they exist only to give
   * `AccountId32.network` a type.
   */
  datatype NetworkId = Polkadot | Kusama | Westend | Rococo

  /** One hop of a location. */
  datatype Junction =
    | Parachain(paraId: u32)
    | AccountId32(network: Option<NetworkId>, id: AccountId)
    | PalletInstance(index: u8)
    | GeneralIndex(value: u128)

  datatype Option<T> = None | Some(value: T)

  /** Most junctions an interior may hold: the variants `Here`, `X1` ... `X8`. */
  const MaxJunctions: nat := 8

  /** A location: how many levels up, then an ordered path of junctions. */
  datatype MultiLocation = MultiLocation(parents: u8, interior: seq<Junction>)

  /** What an asset is identified by. */
  datatype AssetId = Concrete(location: MultiLocation)

  /** How much of an asset; only fungible quantities are built here. */
  datatype Fungibility = Fungible(amount: u128)

  datatype MultiAsset = MultiAsset(id: AssetId, fun: Fungibility)

  /** A wildcard over the assets in holding. */
  datatype WildMultiAsset = All

  /** Which assets an instruction works on: a definite list or a wildcard. */
  datatype MultiAssetFilter = Definite(assets: seq<MultiAsset>) | Wild(wild: WildMultiAsset)

  /** Two-dimensional weight: reference time and proof size. */
  datatype WeightLimit = Unlimited | Limited(refTime: u64, proofSize: u64)

  /**
   * The instructions the contract emits. `InitiateReserveWithdraw` and
   * `DepositReserveAsset` carry the program to run at the reserve and at
   * the destination respectively.
   */
  datatype Instruction =
    | WithdrawAsset(assets: seq<MultiAsset>)
    | InitiateReserveWithdraw(filter: MultiAssetFilter, reserve: MultiLocation, xcm: seq<Instruction>)
    | BuyExecution(fees: MultiAsset, weightLimit: WeightLimit)
    | DepositReserveAsset(filter: MultiAssetFilter, dest: MultiLocation, xcm: seq<Instruction>)
    | DepositAsset(filter: MultiAssetFilter, beneficiary: MultiLocation)

  /** A program: instructions run in order. */
  type Xcm = seq<Instruction>

  /** A program tagged with the protocol version it is written in. */
  datatype VersionedXcm = V3(xcm: Xcm)

  /** Every instruction of a program tree, each before the ones it nests. */
  function Flatten(x: Xcm): (r: seq<Instruction>)
    decreases x
    ensures |r| >= |x|
    ensures x != [] ==> r != [] && r[0] == x[0]
    ensures forall k :: 0 <= k < |x| ==> x[k] in r
  {
    if x == [] then []
    else FlattenOne(x[0]) + Flatten(x[1..])
  }

  function FlattenOne(i: Instruction): (r: seq<Instruction>)
    decreases i
    ensures r != [] && r[0] == i
  {
    match i
    case InitiateReserveWithdraw(_, _, xcm) => [i] + Flatten(xcm)
    case DepositReserveAsset(_, _, xcm) => [i] + Flatten(xcm)
    case _ => [i]
  }

  /** Flattening runs programs one after the other as it does their instructions. */
  lemma {:induction false} FlattenAppend(a: Xcm, b: Xcm)
    ensures Flatten(a + b) == Flatten(a) + Flatten(b)
  {
    if a == [] {
      assert a + b == b;
    } else {
      assert (a + b)[1..] == a[1..] + b;
      FlattenAppend(a[1..], b);
    }
  }

  lemma FlattenSingleton(i: Instruction)
    ensures Flatten([i]) == FlattenOne(i)
  {
  }

  /** How deeply programs are nested: 0 for the empty program. */
  function Depth(x: Xcm): (d: nat)
    decreases x
    ensures (x == []) == (d == 0)
  {
    if x == [] then 0
    else
      var first, rest := DepthOne(x[0]), Depth(x[1..]);
      if first < rest then rest else first
  }

  function DepthOne(i: Instruction): (d: nat)
    decreases i
    ensures d >= 1
  {
    match i
    case InitiateReserveWithdraw(_, _, xcm) => 1 + Depth(xcm)
    case DepositReserveAsset(_, _, xcm) => 1 + Depth(xcm)
    case _ => 1
  }

  /** The locations one instruction names directly, not those of its nested program. */
  function OwnLocations(i: Instruction): seq<MultiLocation>
  {
    match i
    case WithdrawAsset(assets) => AssetLocations(assets)
    case InitiateReserveWithdraw(filter, reserve, _) => FilterLocations(filter) + [reserve]
    case BuyExecution(fees, _) => [fees.id.location]
    case DepositReserveAsset(filter, dest, _) => FilterLocations(filter) + [dest]
    case DepositAsset(filter, beneficiary) => FilterLocations(filter) + [beneficiary]
  }

  function AssetLocations(assets: seq<MultiAsset>): seq<MultiLocation>
  {
    if assets == [] then [] else [assets[0].id.location] + AssetLocations(assets[1..])
  }

  function FilterLocations(f: MultiAssetFilter): seq<MultiLocation>
  {
    match f
    case Definite(assets) => AssetLocations(assets)
    case Wild(_) => []
  }

  /** Every location named anywhere in a program tree, in pre-order. */
  function Locations(x: Xcm): seq<MultiLocation>
    decreases x
  {
    if x == [] then []
    else LocationsOne(x[0]) + Locations(x[1..])
  }

  function LocationsOne(i: Instruction): seq<MultiLocation>
    decreases i
  {
    match i
    case InitiateReserveWithdraw(_, _, xcm) => OwnLocations(i) + Locations(xcm)
    case DepositReserveAsset(_, _, xcm) => OwnLocations(i) + Locations(xcm)
    case _ => OwnLocations(i)
  }

  /** The locations of two programs run one after the other are those of each, in order. */
  lemma {:induction false} LocationsAppend(a: Xcm, b: Xcm)
    ensures Locations(a + b) == Locations(a) + Locations(b)
  {
    if a == [] {
      assert a + b == b;
    } else {
      assert (a + b)[1..] == a[1..] + b;
      LocationsAppend(a[1..], b);
    }
  }

  lemma LocationsSingleton(i: Instruction)
    ensures Locations([i]) == LocationsOne(i)
  {
  }

  /**
   * The beneficiaries of the `DepositAsset` instructions of a flat list
   * `instrs`, in order. It does not enter nested programs: apply it to
   * `Flatten(x)` to cover a whole program tree.
   */
  function Beneficiaries(instrs: seq<Instruction>): (r: seq<MultiLocation>)
    ensures |r| <= |instrs|
    ensures forall l :: l in r <==> exists i :: i in instrs && i.DepositAsset? && i.beneficiary == l
  {
    if instrs == [] then []
    else if instrs[0].DepositAsset? then [instrs[0].beneficiary] + Beneficiaries(instrs[1..])
    else Beneficiaries(instrs[1..])
  }

  /**
   * The account a location designates when it is an account directly under
   * the current location, whatever network it names; otherwise none.
   */
  function LocalAccount(l: MultiLocation): (r: Option<AccountId>)
    ensures r.Some? <==> l.parents == 0 && |l.interior| == 1 && l.interior[0].AccountId32?
    ensures r.Some? ==> l.interior == [AccountId32(l.interior[0].network, r.value)]
  {
    if l.parents == 0 && |l.interior| == 1 && l.interior[0].AccountId32? then Some(l.interior[0].id)
    else None
  }

  /** The account ids named by the junctions of a sequence of locations. */
  function AccountIdsIn(locs: seq<MultiLocation>): set<AccountId>
  {
    set l, j | l in locs && j in l.interior && j.AccountId32? :: j.id
  }

  /** The account ids a program names anywhere in its tree. */
  function AccountIds(x: Xcm): set<AccountId>
  {
    AccountIdsIn(Locations(x))
  }

  /** A location has an interior of at most eight junctions. */
  predicate ValidLocation(l: MultiLocation)
  {
    |l.interior| <= MaxJunctions
  }

  /** Every location of a program tree fits the version 3 format. */
  predicate WellFormed(x: Xcm)
  {
    forall l | l in Locations(x) :: ValidLocation(l)
  }
}
