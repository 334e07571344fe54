/**
 * The address-book collection that the controller feeds: an ordered sequence
 * of entries with the two operations the controller uses, `addAddress` and
 * `removeAllAddress`.
 */
module AddressBookStore {

  import opened Addresses

  class AddressBook {
    var entries: seq<Entry>

    /** An empty address book. */
    constructor ()
      ensures entries == []
    {
      entries := [];
    }

    /** `addAddress(entry)`: appends exactly one entry at the end. */
    method AddAddress(entry: Entry)
      modifies this
      ensures entries == old(entries) + [entry]
    {
      entries := entries + [entry];
    }

    /** `removeAllAddress()`: empties the book. */
    method RemoveAllAddress()
      modifies this
      ensures entries == []
    {
      entries := [];
    }
  }
}
