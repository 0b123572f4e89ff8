/** The account side of the entities: accounts with their roles, farmer
    profiles and their single address. References to other entities are
    held as ids. */
module Accounts {
  import opened Common
  import Catalog

  /** An account: its unique email, the password hash and its roles. */
  datatype Account = Account(email: string, password: string, roles: set<Catalog.Role>)

  /** A farmer's status; `OtherStatus` stands for any value outside the
      three the status change accepts. */
  datatype FarmerStatus = ACTIVE | SELF_BLOCK | ADMIN_BLOCK | OtherStatus

  /** A farmer profile, linked to its account and at most one address. */
  datatype Farmer = Farmer(
    name: string,
    avatar: Option<string>,
    coverImage: Option<string>,
    description: Option<string>,
    status: FarmerStatus,
    accountId: string,
    addressId: Option<string>)

  /** An address; the fields are nullable references. */
  datatype Address = Address(
    province: Option<string>,
    ward: Option<string>,
    detail: Option<string>,
    receiverName: Option<string>,
    receiverPhone: Option<string>,
    isDefault: bool,
    accountId: string)

  /** A farmer as `onCreate` persists it: ACTIVE, without address or the
      optional profile fields. */
  function NewFarmer(name: string, accountId: string): (f: Farmer)
    ensures f.status == ACTIVE && f.addressId == None
    ensures f.name == name && f.accountId == accountId
  {
    Farmer(name, None, None, None, ACTIVE, accountId, None)
  }

  /** At most one farmer profile per account, which `findByAccount`
      relies on when it returns one farmer. */
  ghost predicate OneFarmerPerAccount(farmers: map<string, Farmer>)
  {
    forall i, j :: i in farmers && j in farmers && i != j ==> farmers[i].accountId != farmers[j].accountId
  }

  /** `getAccount` of the security context: `caller` is the authenticated
      name, or None without an authenticated principal. */
  function GetAccount(accounts: map<string, Account>, caller: Option<string>): (r: Result<string>)
    ensures caller.None? ==> r == Err("auth-e-00")
    ensures caller.Some? && caller.value !in accounts ==> r == Err("auth-e-01")
    ensures r.Ok? <==> caller.Some? && caller.value in accounts
    ensures r.Ok? ==> r.value == caller.value
  {
    if caller.None? then Err("auth-e-00")
    else if caller.value !in accounts then Err("auth-e-01")
    else Ok(caller.value)
  }

  /** `getFarmer` of the security context: the caller's account must hold
      FARMER and own a farmer profile; on success, the profile's id. */
  ghost function GetFarmer(accounts: map<string, Account>, farmers: map<string, Farmer>, caller: Option<string>)
    : (r: Result<string>)
    ensures r.Ok? ==> r.value in farmers && caller.Some? && farmers[r.value].accountId == caller.value
    ensures r.Ok? ==> caller.value in accounts && Catalog.FARMER in accounts[caller.value].roles
  {
    match GetAccount(accounts, caller)
    case Err(e) => Err(e)
    case Ok(accountId) =>
      if Catalog.FARMER !in accounts[accountId].roles then Err("auth-e-08")
      else if !exists f :: f in farmers && farmers[f].accountId == accountId then Err("farmer-e-01")
      else
        var f :| f in farmers && farmers[f].accountId == accountId;
        Ok(f)
  }

  /** With one farmer per account, the caller's profile is the one found. */
  lemma GetFarmerIs(accounts: map<string, Account>, farmers: map<string, Farmer>, caller: Option<string>, f: string)
    requires OneFarmerPerAccount(farmers) && f in farmers && caller == Some(farmers[f].accountId)
    requires farmers[f].accountId in accounts && Catalog.FARMER in accounts[farmers[f].accountId].roles
    ensures GetFarmer(accounts, farmers, caller) == Ok(f)
  {
    var accountId := farmers[f].accountId;
    assert exists g :: g in farmers && farmers[g].accountId == accountId;
  }

  /** `getFarmer` as the service calls it: `findByAccount` looks the
      profile up among the farmers. */
  method FindFarmer(accounts: map<string, Account>, farmers: map<string, Farmer>, caller: Option<string>)
    returns (r: Result<string>)
    requires OneFarmerPerAccount(farmers)
    ensures r == GetFarmer(accounts, farmers, caller)
  {
    var account := GetAccount(accounts, caller);
    if account.Err? {
      return Err(account.code);
    }
    var accountId := account.value;
    if Catalog.FARMER !in accounts[accountId].roles {
      return Err("auth-e-08");
    }
    if !exists f :: f in farmers && farmers[f].accountId == accountId {
      return Err("farmer-e-01");
    }
    var f :| f in farmers && farmers[f].accountId == accountId;
    GetFarmerIs(accounts, farmers, caller, f);
    r := Ok(f);
  }
}
