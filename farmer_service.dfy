/** The farmer service: the calling farmer's single address, the patch of
    the farmer's profile, and the admin's change of a farmer's status. */
module FarmerService {
  import opened Common
  import Catalog
  import opened Accounts

  /** The address fields a request carries; each may be null. */
  datatype AddressRequest = AddressRequest(
    province: Option<string>,
    ward: Option<string>,
    detail: Option<string>,
    receiverName: Option<string>,
    receiverPhone: Option<string>)

  /** The profile fields a patch carries; each may be null. */
  datatype FarmerPatch = FarmerPatch(
    name: Option<string>,
    avatar: Option<string>,
    coverImage: Option<string>,
    description: Option<string>)

  /** A nullable field after a null-ignoring copy: the given value when
      there is one, the current value otherwise. */
  function Keep<T>(current: Option<T>, given: Option<T>): (r: Option<T>)
    ensures given.Some? ==> r == given
    ensures given.None? ==> r == current
  {
    if given.Some? then given else current
  }

  /** `toAddress`, with the default flag and owner `createAddress` sets. */
  function NewAddress(request: AddressRequest, accountId: string): Address
  {
    Address(request.province, request.ward, request.detail, request.receiverName, request.receiverPhone,
            true, accountId)
  }

  /** `updateAddress` of the mapper, which ignores null request fields, then
      the default flag `updateAddress` sets. */
  function UpdatedAddress(a: Address, request: AddressRequest): Address
  {
    a.(province := Keep(a.province, request.province),
       ward := Keep(a.ward, request.ward),
       detail := Keep(a.detail, request.detail),
       receiverName := Keep(a.receiverName, request.receiverName),
       receiverPhone := Keep(a.receiverPhone, request.receiverPhone),
       isDefault := true)
  }

  /** `updateFarmerInfoPatch` on a profile. */
  function Patched(f: Farmer, patch: FarmerPatch): Farmer
  {
    f.(name := if patch.name.Some? then patch.name.value else f.name,
       avatar := Keep(f.avatar, patch.avatar),
       coverImage := Keep(f.coverImage, patch.coverImage),
       description := Keep(f.description, patch.description))
  }

  /** A patch replaces exactly its non-null fields: applying it twice is
      applying it once, the all-null patch changes nothing, applying two
      patches in turn is applying the second over the first, and the
      status, account and address never change. */
  lemma PatchLaws(f: Farmer, p: FarmerPatch, q: FarmerPatch)
    ensures Patched(Patched(f, p), p) == Patched(f, p)
    ensures Patched(f, FarmerPatch(None, None, None, None)) == f
    ensures Patched(Patched(f, p), q) ==
      Patched(f, FarmerPatch(Keep(p.name, q.name), Keep(p.avatar, q.avatar),
                             Keep(p.coverImage, q.coverImage), Keep(p.description, q.description)))
    ensures var g := Patched(f, p);
      g.status == f.status && g.accountId == f.accountId && g.addressId == f.addressId
    ensures var g := Patched(f, p);
      && (p.name.Some? ==> g.name == p.name.value) && (p.name.None? ==> g.name == f.name)
      && (p.avatar.Some? ==> g.avatar == p.avatar) && (p.avatar.None? ==> g.avatar == f.avatar)
      && (p.coverImage.Some? ==> g.coverImage == p.coverImage) && (p.coverImage.None? ==> g.coverImage == f.coverImage)
      && (p.description.Some? ==> g.description == p.description) && (p.description.None? ==> g.description == f.description)
  {
  }

  /** An address update keeps the address the farmer's default, changes
      only the non-null fields and the owner never, and repeating it changes
      nothing more; an all-null update only sets the default flag. */
  lemma UpdateAddressLaws(a: Address, request: AddressRequest)
    ensures var b := UpdatedAddress(a, request);
      && b.isDefault && b.accountId == a.accountId
      && UpdatedAddress(b, request) == b
      && (request.province.None? ==> b.province == a.province)
      && (request.province.Some? ==> b.province == request.province)
      && (request.ward.None? ==> b.ward == a.ward)
      && (request.ward.Some? ==> b.ward == request.ward)
      && (request.detail.None? ==> b.detail == a.detail)
      && (request.detail.Some? ==> b.detail == request.detail)
      && (request.receiverName.None? ==> b.receiverName == a.receiverName)
      && (request.receiverName.Some? ==> b.receiverName == request.receiverName)
      && (request.receiverPhone.None? ==> b.receiverPhone == a.receiverPhone)
      && (request.receiverPhone.Some? ==> b.receiverPhone == request.receiverPhone)
    ensures UpdatedAddress(a, AddressRequest(None, None, None, None, None)) == a.(isDefault := true)
  {
  }

  /** The statuses `changeFarmerStatus` accepts. */
  predicate Allowed(status: FarmerStatus)
  {
    status in {ACTIVE, SELF_BLOCK, ADMIN_BLOCK}
  }

  /** The single-address invariant: a farmer's address exists, is its
      default address, and is no other farmer's address. */
  ghost predicate AddressesLinked(farmers: map<string, Farmer>, addresses: map<string, Address>)
  {
    && (forall f :: f in farmers && farmers[f].addressId.Some? ==>
          farmers[f].addressId.value in addresses && addresses[farmers[f].addressId.value].isDefault)
    && (forall f, g :: f in farmers && g in farmers && f != g && farmers[f].addressId.Some? ==>
          farmers[f].addressId != farmers[g].addressId)
  }

  /** The service over the account, farmer and address repositories. */
  class FarmerService {
    var accounts: map<string, Account>
    var farmers: map<string, Farmer>
    var addresses: map<string, Address>

    ghost predicate Valid()
      reads this
    {
      OneFarmerPerAccount(farmers) && AddressesLinked(farmers, addresses)
    }

    constructor(accounts: map<string, Account>, farmers: map<string, Farmer>, addresses: map<string, Address>)
      requires OneFarmerPerAccount(farmers) && AddressesLinked(farmers, addresses)
      ensures Valid() && this.accounts == accounts && this.farmers == farmers && this.addresses == addresses
    {
      this.accounts := accounts;
      this.farmers := farmers;
      this.addresses := addresses;
    }

    /** `createAddress`: refused with farmer-e-07 when the farmer already
        has an address; otherwise a new default address under `newAddressId`
        becomes the farmer's address. */
    method CreateAddress(caller: Option<string>, newAddressId: string, request: AddressRequest)
      returns (r: Result<Farmer>)
      requires Valid() && newAddressId !in addresses
      modifies this
      ensures Valid() && accounts == old(accounts)
      ensures GetFarmer(old(accounts), old(farmers), caller).Err? ==>
        r == Err(GetFarmer(old(accounts), old(farmers), caller).code) && unchanged(this)
      ensures GetFarmer(old(accounts), old(farmers), caller).Ok? ==>
        var f := GetFarmer(old(accounts), old(farmers), caller).value;
        && (old(farmers)[f].addressId.Some? ==> r == Err("farmer-e-07") && unchanged(this))
        && (old(farmers)[f].addressId.None? ==>
              && addresses == old(addresses)[newAddressId := NewAddress(request, old(farmers)[f].accountId)]
              && farmers == old(farmers)[f := old(farmers)[f].(addressId := Some(newAddressId))]
              && r == Ok(farmers[f]))
    {
      var found := FindFarmer(accounts, farmers, caller);
      if found.Err? {
        return Err(found.code);
      }
      var farmerId := found.value;
      var farmer := farmers[farmerId];
      if farmer.addressId.Some? {
        return Err("farmer-e-07");
      }
      var address := NewAddress(request, farmer.accountId);
      addresses := addresses[newAddressId := address];
      farmer := farmer.(addressId := Some(newAddressId));
      farmers := farmers[farmerId := farmer];
      r := Ok(farmer);
    }

    /** `updateAddress`: only the farmer's own address may be updated,
        otherwise farmer-e-08. */
    method UpdateAddress(caller: Option<string>, addressId: string, request: AddressRequest)
      returns (r: Result<Address>)
      requires Valid()
      modifies this
      ensures Valid() && accounts == old(accounts) && farmers == old(farmers)
      ensures GetFarmer(old(accounts), old(farmers), caller).Err? ==>
        r == Err(GetFarmer(old(accounts), old(farmers), caller).code) && addresses == old(addresses)
      ensures GetFarmer(old(accounts), old(farmers), caller).Ok? ==>
        var f := GetFarmer(old(accounts), old(farmers), caller).value;
        && (old(farmers)[f].addressId != Some(addressId) ==> r == Err("farmer-e-08") && addresses == old(addresses))
        && (old(farmers)[f].addressId == Some(addressId) ==>
              && addresses == old(addresses)[addressId := UpdatedAddress(old(addresses)[addressId], request)]
              && r == Ok(addresses[addressId]))
    {
      var found := FindFarmer(accounts, farmers, caller);
      if found.Err? {
        return Err(found.code);
      }
      var farmer := farmers[found.value];
      if farmer.addressId != Some(addressId) {
        return Err("farmer-e-08");
      }
      var address := UpdatedAddress(addresses[addressId], request);
      addresses := addresses[addressId := address];
      r := Ok(address);
    }

    /** `deleteAddress`: only the farmer's own address may be deleted,
        otherwise farmer-e-09; afterwards the farmer has no address. */
    method DeleteAddress(caller: Option<string>, addressId: string) returns (r: Outcome)
      requires Valid()
      modifies this
      ensures Valid() && accounts == old(accounts)
      ensures GetFarmer(old(accounts), old(farmers), caller).Err? ==>
        r == Fail(GetFarmer(old(accounts), old(farmers), caller).code) && unchanged(this)
      ensures GetFarmer(old(accounts), old(farmers), caller).Ok? ==>
        var f := GetFarmer(old(accounts), old(farmers), caller).value;
        && (old(farmers)[f].addressId != Some(addressId) ==> r == Fail("farmer-e-09") && unchanged(this))
        && (old(farmers)[f].addressId == Some(addressId) ==>
              && r == Done
              && farmers == old(farmers)[f := old(farmers)[f].(addressId := None)]
              && addresses == old(addresses) - {addressId})
    {
      var found := FindFarmer(accounts, farmers, caller);
      if found.Err? {
        return Fail(found.code);
      }
      var farmerId := found.value;
      var farmer := farmers[farmerId];
      if farmer.addressId != Some(addressId) {
        return Fail("farmer-e-09");
      }
      LinkedAfterDelete(farmers, addresses, farmerId, addressId);
      farmer := farmer.(addressId := None);
      farmers := farmers[farmerId := farmer];
      addresses := addresses - {addressId};
      r := Done;
    }

    /** `updateFarmerInfoPatch` on the calling farmer's profile. */
    method UpdateFarmerInfoPatch(caller: Option<string>, patch: FarmerPatch) returns (r: Result<Farmer>)
      requires Valid()
      modifies this
      ensures Valid() && accounts == old(accounts) && addresses == old(addresses)
      ensures GetFarmer(old(accounts), old(farmers), caller).Err? ==>
        r == Err(GetFarmer(old(accounts), old(farmers), caller).code) && farmers == old(farmers)
      ensures GetFarmer(old(accounts), old(farmers), caller).Ok? ==>
        var f := GetFarmer(old(accounts), old(farmers), caller).value;
        && farmers == old(farmers)[f := Patched(old(farmers)[f], patch)]
        && r == Ok(farmers[f])
    {
      var found := FindFarmer(accounts, farmers, caller);
      if found.Err? {
        return Err(found.code);
      }
      ghost var before := farmers[found.value];
      var farmer := farmers[found.value];
      if patch.name.Some? {
        farmer := farmer.(name := patch.name.value);
      }
      if patch.avatar.Some? {
        farmer := farmer.(avatar := patch.avatar);
      }
      if patch.coverImage.Some? {
        farmer := farmer.(coverImage := patch.coverImage);
      }
      if patch.description.Some? {
        farmer := farmer.(description := patch.description);
      }
      assert farmer == Patched(before, patch);
      KeepsLinks(farmers, addresses, found.value, farmer);
      farmers := farmers[found.value := farmer];
      r := Ok(farmer);
    }

    /** `changeFarmerStatus`: farmer-e-01 for an unknown farmer, farmer-e-02
        for a status outside ACTIVE, SELF_BLOCK and ADMIN_BLOCK. */
    method ChangeFarmerStatus(farmerId: string, status: FarmerStatus) returns (r: Result<Farmer>)
      requires Valid()
      modifies this
      ensures Valid() && accounts == old(accounts) && addresses == old(addresses)
      ensures farmerId !in old(farmers) ==> r == Err("farmer-e-01") && farmers == old(farmers)
      ensures farmerId in old(farmers) && !Allowed(status) ==> r == Err("farmer-e-02") && farmers == old(farmers)
      ensures farmerId in old(farmers) && Allowed(status) ==>
        && farmers == old(farmers)[farmerId := old(farmers)[farmerId].(status := status)]
        && r == Ok(farmers[farmerId])
    {
      if farmerId !in farmers {
        return Err("farmer-e-01");
      }
      var farmer := farmers[farmerId];
      if !(status in {ACTIVE, SELF_BLOCK, ADMIN_BLOCK}) {
        return Err("farmer-e-02");
      }
      farmer := farmer.(status := status);
      KeepsLinks(farmers, addresses, farmerId, farmer);
      farmers := farmers[farmerId := farmer];
      r := Ok(farmer);
    }
  }

  /** Unlinking a farmer's address and removing it keeps the invariant,
      since no other farmer holds that address. */
  lemma LinkedAfterDelete(farmers: map<string, Farmer>, addresses: map<string, Address>, f: string, a: string)
    requires AddressesLinked(farmers, addresses) && f in farmers && farmers[f].addressId == Some(a)
    ensures AddressesLinked(farmers[f := farmers[f].(addressId := None)], addresses - {a})
  {
  }

  /** Replacing a farmer's profile by one with the same account and address
      keeps both invariants. */
  lemma KeepsLinks(farmers: map<string, Farmer>, addresses: map<string, Address>, f: string, g: Farmer)
    requires OneFarmerPerAccount(farmers) && AddressesLinked(farmers, addresses) && f in farmers
    requires g.accountId == farmers[f].accountId && g.addressId == farmers[f].addressId
    ensures OneFarmerPerAccount(farmers[f := g]) && AddressesLinked(farmers[f := g], addresses)
  {
  }
}
