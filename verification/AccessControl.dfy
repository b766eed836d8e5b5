/** On-chain state the deployment scripts work on, and the rules under which a
    call changes it: OpenZeppelin AccessControl plus the two guarded calls the
    scripts make on the issuer and on the collateral vault. */
module AccessControl {

  import opened Wrappers

  datatype Address = Address(id: nat)

  datatype Role =
    | DefaultAdmin
    | Minter
    | Pauser
    | IncentivesManager
    | AmoManager
    | AmoIncrease
    | AmoDecrease
    | RedemptionManager
    | CollateralManager
    | CollateralWithdrawer
    | OtherRole(hash: nat)

  /** `account` holds `role` on `contract`. */
  datatype Membership = Member(contract: Address, role: Role, account: Address)

  datatype Chain = Chain(
    members: set<Membership>,
    roleAdmins: map<(Address, Role), Role>, // only the roles whose admin is not DefaultAdmin
    paused: set<(Address, Address)>,        // (issuer, asset)
    collateral: set<(Address, Address)>,    // (vault, asset)
    priced: set<(Address, Address)>,        // (vault, asset) that the vault's oracle has a live price for
    vaultOf: map<Address, Address>)         // issuer -> its vault
  {
    predicate Has(contract: Address, role: Role, account: Address) {
      Member(contract, role, account) in members
    }

    function RoleAdmin(contract: Address, role: Role): Role {
      if (contract, role) in roleAdmins then roleAdmins[(contract, role)] else DefaultAdmin
    }

    predicate IsPaused(issuer: Address, asset: Address) {
      (issuer, asset) in paused
    }

    predicate Supports(issuer: Address, asset: Address) {
      issuer in vaultOf && (vaultOf[issuer], asset) in collateral
    }
  }

  datatype Call =
    | GrantRole(to: Address, role: Role, account: Address)
    | RevokeRole(to: Address, role: Role, account: Address)
    | RenounceRole(to: Address, role: Role, account: Address)
    | PauseAsset(to: Address, asset: Address)
    | AllowCollateral(to: Address, asset: Address)

  /** The role a caller must hold on `call.to` (renouncing needs none). */
  function RequiredRole(chain: Chain, call: Call): Role {
    match call
    case GrantRole(to, role, _) => chain.RoleAdmin(to, role)
    case RevokeRole(to, role, _) => chain.RoleAdmin(to, role)
    case RenounceRole(_, _, _) => DefaultAdmin
    case PauseAsset(_, _) => Pauser
    case AllowCollateral(_, _) => CollateralManager
  }

  /** What the called contract checks besides the caller's role. */
  predicate Admissible(chain: Chain, call: Call) {
    match call
    case PauseAsset(to, asset) => chain.Supports(to, asset)
    case AllowCollateral(to, asset) => (to, asset) !in chain.collateral && (to, asset) in chain.priced
    case _ => true
  }

  predicate Authorised(chain: Chain, caller: Address, call: Call) {
    if call.RenounceRole? then call.account == caller
    else chain.Has(call.to, RequiredRole(chain, call), caller)
  }

  function Effect(chain: Chain, call: Call): Chain {
    match call
    case GrantRole(to, role, account) => chain.(members := chain.members + {Member(to, role, account)})
    case RevokeRole(to, role, account) => chain.(members := chain.members - {Member(to, role, account)})
    case RenounceRole(to, role, account) => chain.(members := chain.members - {Member(to, role, account)})
    case PauseAsset(to, asset) => chain.(paused := chain.paused + {(to, asset)})
    case AllowCollateral(to, asset) => chain.(collateral := chain.collateral + {(to, asset)})
  }

  /** One transaction: its effect, or None when it reverts. */
  function Execute(chain: Chain, caller: Address, call: Call): Option<Chain> {
    if Authorised(chain, caller, call) && Admissible(chain, call) then Some(Effect(chain, call)) else None
  }

  /** A Safe batch: all calls in order, or None when any of them reverts. */
  function ExecuteBatch(chain: Chain, safe: Address, calls: seq<Call>): Option<Chain>
    decreases |calls|
  {
    if calls == [] then Some(chain)
    else match Execute(chain, safe, calls[0])
      case None => None
      case Some(next) => ExecuteBatch(next, safe, calls[1..])
  }

  /** The requirement a call establishes; scripts read it to decide whether to send the call. */
  predicate Done(chain: Chain, call: Call) {
    match call
    case GrantRole(to, role, account) => chain.Has(to, role, account)
    case RevokeRole(to, role, account) => !chain.Has(to, role, account)
    case RenounceRole(to, role, account) => !chain.Has(to, role, account)
    case PauseAsset(to, asset) => chain.IsPaused(to, asset)
    case AllowCollateral(to, asset) => (to, asset) in chain.collateral
  }

  /** The membership a call can take away. */
  function Removal(call: Call): Option<Membership> {
    match call
    case RevokeRole(to, role, account) => Some(Member(to, role, account))
    case RenounceRole(to, role, account) => Some(Member(to, role, account))
    case _ => None
  }

  /** What every call does to every other requirement: it establishes its own
      and undoes only the one it is the exact opposite of. */
  predicate Opposite(a: Call, b: Call) {
    || (a.GrantRole? && Removal(b) == Some(Member(a.to, a.role, a.account)))
    || (b.GrantRole? && Removal(a) == Some(Member(b.to, b.role, b.account)))
  }

  lemma EffectEstablishes(chain: Chain, call: Call, other: Call)
    ensures Done(Effect(chain, call), call)
    ensures Done(chain, other) && !Opposite(call, other) ==> Done(Effect(chain, call), other)
    ensures Effect(chain, call).roleAdmins == chain.roleAdmins && Effect(chain, call).vaultOf == chain.vaultOf
  {
  }
}
