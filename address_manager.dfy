/**
 * The editor of a customer's addresses. It holds no state of its own: each
 * handler returns the new list handed to `onChange`. The id of a new
 * address comes from `Math.random()` and is a parameter.
 */
module AddressManager {
  import opened Wrappers
  import opened Seqs
  import opened PrimaryLists

  datatype AddressType = Billing | Shipping

  datatype Address = Address(id: string, kind: AddressType, line1: string, line2: Option<string>,
                             city: Option<string>, state: Option<string>, country: Option<string>,
                             postalCode: Option<string>, gstStateCode: Option<string>, isPrimary: Option<bool>)

  /** An inline edit: the fields it sets; the others are kept. */
  datatype AddressPatch = AddressPatch(kind: Option<AddressType>, line1: Option<string>, line2: Option<string>,
                                       city: Option<string>, state: Option<string>, country: Option<string>,
                                       postalCode: Option<string>, gstStateCode: Option<string>, isPrimary: Option<bool>)

  function Id(a: Address): string { a.id }

  predicate IsPrimary(a: Address) { a.isPrimary == Some(true) }

  function WithPrimary(a: Address, b: bool): Address { a.(isPrimary := Some(b)) }

  function Pick<T>(patched: Option<T>, kept: T): T { if patched.Some? then patched.value else kept }

  function PickOpt<T>(patched: Option<T>, kept: Option<T>): Option<T> { if patched.Some? then patched else kept }

  /** `{ ...a, ...patch }`. */
  function Merge(a: Address, p: AddressPatch): (r: Address)
    ensures r.id == a.id
    ensures r.kind == (if p.kind.Some? then p.kind.value else a.kind)
    ensures r.line1 == (if p.line1.Some? then p.line1.value else a.line1)
    ensures r.line2 == (if p.line2.Some? then p.line2 else a.line2)
    ensures r.city == (if p.city.Some? then p.city else a.city)
    ensures r.state == (if p.state.Some? then p.state else a.state)
    ensures r.country == (if p.country.Some? then p.country else a.country)
    ensures r.postalCode == (if p.postalCode.Some? then p.postalCode else a.postalCode)
    ensures r.gstStateCode == (if p.gstStateCode.Some? then p.gstStateCode else a.gstStateCode)
    ensures r.isPrimary == (if p.isPrimary.Some? then p.isPrimary else a.isPrimary)
    ensures p.isPrimary.None? ==> r.isPrimary == a.isPrimary
    ensures p == AddressPatch(None, None, None, None, None, None, None, None, None) ==> r == a
  {
    Address(a.id, Pick(p.kind, a.kind), Pick(p.line1, a.line1), PickOpt(p.line2, a.line2),
            PickOpt(p.city, a.city), PickOpt(p.state, a.state), PickOpt(p.country, a.country),
            PickOpt(p.postalCode, a.postalCode), PickOpt(p.gstStateCode, a.gstStateCode),
            PickOpt(p.isPrimary, a.isPrimary))
  }

  /** `addAddress`: one blank billing address in India, primary exactly when it is the first. */
  function Add(value: seq<Address>, newId: string): (r: seq<Address>)
    ensures |r| == |value| + 1 && r[..|value|] == value
    ensures r[|value|] == Address(newId, Billing, "", None, Some(""), None, Some("India"), None, None, Some(|value| == 0))
  {
    value + [Address(newId, Billing, "", None, Some(""), None, Some("India"), None, None, Some(|value| == 0))]
  }

  /** `update`: the patch lands on every address with this id and on no other. */
  function Update(value: seq<Address>, id: string, patch: AddressPatch): (r: seq<Address>)
    ensures |r| == |value|
    ensures forall i :: 0 <= i < |value| && value[i].id != id ==> r[i] == value[i]
    ensures forall i :: 0 <= i < |value| && value[i].id == id ==> r[i] == Merge(value[i], patch)
  {
    UpdateWhere(value, Id, id, (a: Address) => Merge(a, patch))
  }

  /** `remove`: exactly the addresses with this id go. */
  function Remove(value: seq<Address>, id: string): (r: seq<Address>)
    ensures forall a :: a in r ==> a in value && a.id != id
    ensures forall a :: a in value && a.id != id ==> a in r
  {
    RemoveWhere(value, Id, id)
  }

  /** `setPrimary`: every address is marked, primary exactly when it has this id. */
  function SetPrimary(value: seq<Address>, id: string): (r: seq<Address>)
    ensures |r| == |value|
    ensures forall i :: 0 <= i < |value| ==> r[i] == value[i].(isPrimary := Some(value[i].id == id))
  {
    MarkPrimary(value, Id, id, WithPrimary)
  }

  /** The first address added is the only primary one; later ones are not primary. */
  lemma AddPrimaryOnlyFirst(value: seq<Address>, newId: string)
    ensures IsPrimary(Add(value, newId)[|value|]) <==> value == []
  {
  }

  /** With distinct ids, choosing a listed address leaves it the one and only primary address. */
  lemma SetPrimaryLeavesOne(value: seq<Address>, id: string, k: nat)
    requires DistinctBy(value, Id) && k < |value| && value[k].id == id
    ensures |Primaries(SetPrimary(value, id), IsPrimary)| == 1
    ensures Primaries(SetPrimary(value, id), IsPrimary)[0].id == id
  {
    ExactlyOnePrimary(value, Id, IsPrimary, WithPrimary, id, k);
  }

  /** Removing the primary address does not make another one primary. */
  lemma RemovePrimaryLeavesNone(value: seq<Address>, id: string)
    requires forall a :: a in value && IsPrimary(a) ==> a.id == id
    ensures Primaries(Remove(value, id), IsPrimary) == []
  {
    RemoveLeavesPrimaries(value, Id, IsPrimary, id);
    NoMembersEmpty(Primaries(Remove(value, id), IsPrimary));
  }

  /** An edit that does not touch `isPrimary` leaves the primary flags as they were. */
  lemma UpdateKeepsPrimary(value: seq<Address>, id: string, patch: AddressPatch)
    requires patch.isPrimary.None?
    ensures forall i :: 0 <= i < |value| ==> (IsPrimary(Update(value, id, patch)[i]) <==> IsPrimary(value[i]))
  {
  }
}
