/**
 * The address shapes the controller handles: a selectable search result, an
 * address-book entry, the lookup service's response, and the two pure helpers
 * of src/App.tsx over them (`addresses.find` and `details.map(transformAddress)`).
 */
module Addresses {

  import opened Wrappers

  /** A normalised search result, identified by `id`. */
  datatype Address = Address(id: string, street: string, houseNumber: string, postcode: string, city: string)

  /** `{ ...foundAddress, firstName, lastName }`: an address extended with a person's names. */
  datatype Entry = Entry(address: Address, firstName: string, lastName: string)

  /**
   * What a lookup can end in: the service's explicit error payload, a body
   * whose raw `details` records are to be transformed, or a failure thrown by
   * the transport, the JSON parse or the `.map` on a body without `details`.
   */
  datatype Response<Raw> = ServiceError(errorMessage: string) | Details(details: seq<Raw>) | Thrown

  /** `addresses.find((address) => address.id === id)`: the first address with that id, if any. */
  function FindById(addresses: seq<Address>, id: string): (r: Option<Address>)
    ensures r.None? <==> forall i :: 0 <= i < |addresses| ==> addresses[i].id != id
    ensures r.Some? ==> exists i :: 0 <= i < |addresses| && addresses[i] == r.value && r.value.id == id
                                    && forall j :: 0 <= j < i ==> addresses[j].id != id
    decreases |addresses|
  {
    if addresses == [] then None
    else if addresses[0].id == id then Some(addresses[0])
    else
      var r := FindById(addresses[1..], id);
      assert forall i :: 1 <= i < |addresses| ==> addresses[i] == addresses[1..][i - 1];
      r
  }

  /** `details.map((address) => transformAddress(address))`: each raw record transformed, in order. */
  function TransformAll<Raw>(details: seq<Raw>, transform: Raw -> Address): (r: seq<Address>)
    ensures |r| == |details|
    ensures forall i :: 0 <= i < |details| ==> r[i] == transform(details[i])
    decreases |details|
  {
    if details == [] then [] else [transform(details[0])] + TransformAll(details[1..], transform)
  }
}
