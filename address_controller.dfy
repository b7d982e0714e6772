/** The shop's address book handlers over the address collection. */
module AddressController {

  import opened Wrappers
  import opened Store
  import opened Http

  /** The body of an edit request: each present field is written as given,
      even when it is empty, and `userId` can be among them. */
  datatype AddressPatch = AddressPatch(
    userId: Option<Id>,
    address: Option<string>,
    city: Option<string>,
    pincode: Option<string>,
    phone: Option<string>,
    notes: Option<string>)

  /** The document `findByIdAndUpdate(addressId, body, { new: true })` returns. */
  function Patched(a: Address, patch: AddressPatch): (u: Address)
    ensures patch == AddressPatch(None, None, None, None, None, None) ==> u == a
    ensures patch.userId.Some? ==> u.userId == patch.userId.value
    ensures patch.userId.None? ==> u.userId == a.userId
    ensures patch.address.Some? ==> u.address == patch.address.value
    ensures patch.address.None? ==> u.address == a.address
    ensures patch.city.Some? ==> u.city == patch.city.value
    ensures patch.city.None? ==> u.city == a.city
    ensures patch.pincode.Some? ==> u.pincode == patch.pincode.value
    ensures patch.pincode.None? ==> u.pincode == a.pincode
    ensures patch.phone.Some? ==> u.phone == patch.phone.value
    ensures patch.phone.None? ==> u.phone == a.phone
    ensures patch.notes.Some? ==> u.notes == patch.notes.value
    ensures patch.notes.None? ==> u.notes == a.notes
  {
    Address(
      patch.userId.GetOr(a.userId), patch.address.GetOr(a.address), patch.city.GetOr(a.city),
      patch.pincode.GetOr(a.pincode), patch.phone.GetOr(a.phone), patch.notes.GetOr(a.notes))
  }

  /** Every field of `addAddress`'s body is required and non-empty. */
  predicate Complete(a: Address) {
    a.userId != "" && a.address != "" && a.city != "" && a.pincode != "" && a.phone != "" && a.notes != ""
  }

  /** `addAddress`: saves the new address and answers 201. */
  method AddAddress(addresses: AddressTable, newId: Id, a: Address) returns (r: Reply<Address>)
    requires newId !in addresses.addresses
    modifies addresses
    ensures !Complete(a) ==>
      r == Failure(BadRequest, "All fields are required") && addresses.addresses == old(addresses.addresses)
    ensures Complete(a) ==>
      r == Success(201, "Address added successfully", a) && addresses.addresses == old(addresses.addresses)[newId := a]
  {
    if a.userId == "" || a.address == "" || a.city == "" || a.pincode == "" || a.phone == "" || a.notes == "" {
      return Failure(BadRequest, "All fields are required");
    }
    addresses.addresses := addresses.addresses[newId := a];
    r := Success(201, "Address added successfully", a);
  }

  /** `fetchAllAddress`: the user's addresses, answered with status 201. */
  method FetchAllAddress(addresses: AddressTable, userId: Id) returns (r: Reply<map<Id, Address>>)
    ensures userId == "" ==> r == Failure(BadRequest, "User ID is required")
    ensures userId != "" ==> r.Success? && r.status == 201
    ensures r.Success? ==> forall id :: id in r.data <==> id in addresses.addresses && addresses.addresses[id].userId == userId
    ensures r.Success? ==> forall id :: id in r.data ==> r.data[id] == addresses.addresses[id]
  {
    if userId == "" {
      return Failure(BadRequest, "User ID is required");
    }
    var mine := map id | id in addresses.addresses && addresses.addresses[id].userId == userId :: addresses.addresses[id];
    r := Success(201, "All addresses fetched successfully", mine);
  }

  /** `editAddress`: both ids must be given, but the update is found by
      `addressId` alone, so any user id reaches any address. */
  method EditAddress(addresses: AddressTable, userId: Id, addressId: Id, patch: AddressPatch) returns (r: Reply<Address>)
    modifies addresses
    ensures userId == "" || addressId == "" ==>
      r == Failure(BadRequest, "User ID and Address ID are required") && addresses.addresses == old(addresses.addresses)
    ensures userId != "" && addressId != "" && addressId !in old(addresses.addresses) ==>
      r == Failure(NotFound, "Address not found") && addresses.addresses == old(addresses.addresses)
    ensures userId != "" && addressId != "" && addressId in old(addresses.addresses) ==>
      && addresses.addresses == old(addresses.addresses)[addressId := Patched(old(addresses.addresses)[addressId], patch)]
      && r == Success(201, "Address updated successfully", Patched(old(addresses.addresses)[addressId], patch))
  {
    if userId == "" || addressId == "" {
      return Failure(BadRequest, "User ID and Address ID are required");
    }
    if addressId !in addresses.addresses {
      return Failure(NotFound, "Address not found");
    }
    var updated := Patched(addresses.addresses[addressId], patch);
    addresses.addresses := addresses.addresses[addressId := updated];
    r := Success(201, "Address updated successfully", updated);
  }

  /** `deleteAddress`: removes the address only when it belongs to `userId`. */
  method DeleteAddress(addresses: AddressTable, userId: Id, addressId: Id) returns (r: Reply<()>)
    modifies addresses
    ensures userId == "" || addressId == "" ==>
      r == Failure(BadRequest, "User ID and Address ID are required") && addresses.addresses == old(addresses.addresses)
    ensures userId != "" && addressId != "" ==>
      if addressId in old(addresses.addresses) && old(addresses.addresses)[addressId].userId == userId then
        r == Success(201, "Address deleted successfully", ()) && addresses.addresses == old(addresses.addresses) - {addressId}
      else
        r == Failure(NotFound, "Address not found") && addresses.addresses == old(addresses.addresses)
  {
    if userId == "" || addressId == "" {
      return Failure(BadRequest, "User ID and Address ID are required");
    }
    if addressId !in addresses.addresses || addresses.addresses[addressId].userId != userId {
      return Failure(NotFound, "Address not found");
    }
    addresses.addresses := addresses.addresses - {addressId};
    r := Success(201, "Address deleted successfully", ());
  }
}
