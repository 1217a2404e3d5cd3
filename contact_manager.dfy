/**
 * The editor of a customer's contacts: the same stateless handlers as the
 * address editor, over contact entries. The id of a new contact comes from
 * `Math.random()` and is a parameter.
 */
module ContactManager {
  import opened Wrappers
  import opened Seqs
  import opened PrimaryLists

  datatype Contact = Contact(id: string, name: string, email: Option<string>, phone: Option<string>,
                             mobile: Option<string>, designation: Option<string>, isPrimary: Option<bool>)

  /** An inline edit: the fields it sets; the others are kept. */
  datatype ContactPatch = ContactPatch(name: Option<string>, email: Option<string>, phone: Option<string>,
                                       mobile: Option<string>, designation: Option<string>, isPrimary: Option<bool>)

  function Id(c: Contact): string { c.id }

  predicate IsPrimary(c: Contact) { c.isPrimary == Some(true) }

  function WithPrimary(c: Contact, b: bool): Contact { c.(isPrimary := Some(b)) }

  /** `{ ...c, ...patch }`. */
  function Merge(c: Contact, p: ContactPatch): (r: Contact)
    ensures r.id == c.id
    ensures r.name == (if p.name.Some? then p.name.value else c.name)
    ensures r.email == (if p.email.Some? then p.email else c.email)
    ensures r.phone == (if p.phone.Some? then p.phone else c.phone)
    ensures r.mobile == (if p.mobile.Some? then p.mobile else c.mobile)
    ensures r.designation == (if p.designation.Some? then p.designation else c.designation)
    ensures r.isPrimary == (if p.isPrimary.Some? then p.isPrimary else c.isPrimary)
    ensures p.isPrimary.None? ==> r.isPrimary == c.isPrimary
    ensures p == ContactPatch(None, None, None, None, None, None) ==> r == c
  {
    Contact(c.id, if p.name.Some? then p.name.value else c.name,
            if p.email.Some? then p.email else c.email,
            if p.phone.Some? then p.phone else c.phone,
            if p.mobile.Some? then p.mobile else c.mobile,
            if p.designation.Some? then p.designation else c.designation,
            if p.isPrimary.Some? then p.isPrimary else c.isPrimary)
  }

  /** `addContact`: one contact with an empty name, primary exactly when it is the first. */
  function Add(value: seq<Contact>, newId: string): (r: seq<Contact>)
    ensures |r| == |value| + 1 && r[..|value|] == value
    ensures r[|value|] == Contact(newId, "", None, None, None, None, Some(|value| == 0))
  {
    value + [Contact(newId, "", None, None, None, None, Some(|value| == 0))]
  }

  /** `update`: the patch lands on every contact with this id and on no other. */
  function Update(value: seq<Contact>, id: string, patch: ContactPatch): (r: seq<Contact>)
    ensures |r| == |value|
    ensures forall i :: 0 <= i < |value| && value[i].id != id ==> r[i] == value[i]
    ensures forall i :: 0 <= i < |value| && value[i].id == id ==> r[i] == Merge(value[i], patch)
  {
    UpdateWhere(value, Id, id, (c: Contact) => Merge(c, patch))
  }

  /** `remove`: exactly the contacts with this id go. */
  function Remove(value: seq<Contact>, id: string): (r: seq<Contact>)
    ensures forall c :: c in r ==> c in value && c.id != id
    ensures forall c :: c in value && c.id != id ==> c in r
  {
    RemoveWhere(value, Id, id)
  }

  /** `setPrimary`: every contact is marked, primary exactly when it has this id. */
  function SetPrimary(value: seq<Contact>, id: string): (r: seq<Contact>)
    ensures |r| == |value|
    ensures forall i :: 0 <= i < |value| ==> r[i] == value[i].(isPrimary := Some(value[i].id == id))
  {
    MarkPrimary(value, Id, id, WithPrimary)
  }

  /** The first contact added is the only primary one; later ones are not primary. */
  lemma AddPrimaryOnlyFirst(value: seq<Contact>, newId: string)
    ensures IsPrimary(Add(value, newId)[|value|]) <==> value == []
  {
  }

  /** With distinct ids, choosing a listed contact leaves it the one and only primary contact. */
  lemma SetPrimaryLeavesOne(value: seq<Contact>, id: string, k: nat)
    requires DistinctBy(value, Id) && k < |value| && value[k].id == id
    ensures |Primaries(SetPrimary(value, id), IsPrimary)| == 1
    ensures Primaries(SetPrimary(value, id), IsPrimary)[0].id == id
  {
    ExactlyOnePrimary(value, Id, IsPrimary, WithPrimary, id, k);
  }

  /** Choosing the same primary contact twice is choosing it once. */
  lemma SetPrimaryTwice(value: seq<Contact>, id: string)
    ensures SetPrimary(SetPrimary(value, id), id) == SetPrimary(value, id)
  {
  }
}
