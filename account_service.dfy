/** The account service: upgrading the calling account to a farmer, and
    deleting an account. */
module AccountService {
  import opened Common
  import Catalog
  import opened Accounts

  /** Every farmer profile belongs to a stored account holding FARMER. */
  ghost predicate FarmersHoldRole(accounts: map<string, Account>, farmers: map<string, Farmer>)
  {
    forall f :: f in farmers ==>
      farmers[f].accountId in accounts && Catalog.FARMER in accounts[farmers[f].accountId].roles
  }

  /** The farmer profiles left once account `id` is deleted: the account's
      own profile goes with it (`Account.farmer` cascades every operation,
      removal included), and every other profile stays as it was. */
  function WithoutProfileOf(farmers: map<string, Farmer>, id: string): (r: map<string, Farmer>)
    ensures forall f :: f in r <==> f in farmers && farmers[f].accountId != id
    ensures forall f :: f in r ==> r[f] == farmers[f]
  {
    map f | f in farmers && farmers[f].accountId != id :: farmers[f]
  }

  /** Deleting an account keeps the invariants, leaves the deleted id with
      no farmer lookup, and leaves every other caller's farmer lookup as it
      was. */
  lemma {:induction false} DeleteCascades(accounts: map<string, Account>, farmers: map<string, Farmer>, id: string, caller: string)
    requires FarmersHoldRole(accounts, farmers) && OneFarmerPerAccount(farmers)
    ensures FarmersHoldRole(accounts - {id}, WithoutProfileOf(farmers, id))
    ensures OneFarmerPerAccount(WithoutProfileOf(farmers, id))
    ensures GetFarmer(accounts - {id}, WithoutProfileOf(farmers, id), Some(id)) == Err("auth-e-01")
    ensures caller != id ==>
      GetFarmer(accounts - {id}, WithoutProfileOf(farmers, id), Some(caller)) == GetFarmer(accounts, farmers, Some(caller))
  {
    var accounts', farmers' := accounts - {id}, WithoutProfileOf(farmers, id);
    if caller != id && caller in accounts && Catalog.FARMER in accounts[caller].roles {
      if f :| f in farmers && farmers[f].accountId == caller {
        GetFarmerIs(accounts, farmers, Some(caller), f);
        GetFarmerIs(accounts', farmers', Some(caller), f);
      } else {
        assert forall g :: g in farmers' ==> farmers'[g].accountId != caller;
      }
    }
  }

  /** The service over the account and farmer repositories. */
  class AccountService {
    var accounts: map<string, Account>
    var farmers: map<string, Farmer>

    ghost predicate Valid()
      reads this
    {
      FarmersHoldRole(accounts, farmers) && OneFarmerPerAccount(farmers)
    }

    constructor(accounts: map<string, Account>, farmers: map<string, Farmer>)
      requires FarmersHoldRole(accounts, farmers) && OneFarmerPerAccount(farmers)
      ensures Valid() && this.accounts == accounts && this.farmers == farmers
    {
      this.accounts := accounts;
      this.farmers := farmers;
    }

    /** `upgradeToFarmer`: the caller's account gains FARMER and a new
        profile named `name`, stored under `newFarmerId`, is linked to it;
        an account that already holds FARMER is refused with user-e-01. */
    method UpgradeToFarmer(caller: Option<string>, newFarmerId: string, name: string) returns (r: Result<Farmer>)
      requires Valid() && newFarmerId !in farmers
      modifies this
      ensures Valid()
      ensures GetAccount(old(accounts), caller).Err? ==>
        r == Err(GetAccount(old(accounts), caller).code) && accounts == old(accounts) && farmers == old(farmers)
      ensures GetAccount(old(accounts), caller).Ok? && Catalog.FARMER in old(accounts)[caller.value].roles ==>
        r == Err("user-e-01") && accounts == old(accounts) && farmers == old(farmers)
      ensures GetAccount(old(accounts), caller).Ok? && Catalog.FARMER !in old(accounts)[caller.value].roles ==>
        && var id := caller.value;
           && r == Ok(NewFarmer(name, id))
           && accounts == old(accounts)[id := old(accounts)[id].(roles := old(accounts)[id].roles + {Catalog.FARMER})]
           && farmers == old(farmers)[newFarmerId := NewFarmer(name, id)]
           && GetFarmer(accounts, farmers, caller) == Ok(newFarmerId)
    {
      var found := GetAccount(accounts, caller);
      if found.Err? {
        return Err(found.code);
      }
      var accountId := found.value;
      var account := accounts[accountId];
      if Catalog.FARMER in account.roles {
        return Err("user-e-01");
      }
      account := account.(roles := account.roles + {Catalog.FARMER});
      accounts := accounts[accountId := account];
      var farmer := NewFarmer(name, accountId);
      farmers := farmers[newFarmerId := farmer];
      GetFarmerIs(accounts, farmers, caller, newFarmerId);
      r := Ok(farmer);
    }

    /** `delete`: the account with the id goes, and its farmer profile
        with it; a missing id changes nothing. */
    method Delete(id: string)
      requires Valid()
      modifies this
      ensures Valid()
      ensures accounts == old(accounts) - {id} && farmers == WithoutProfileOf(old(farmers), id)
    {
      DeleteCascades(accounts, farmers, id, id);
      accounts := accounts - {id};
      farmers := WithoutProfileOf(farmers, id);
    }
  }
}
