/**
 * The submission-workflow controller of src/App.tsx: the state cells
 * `loading`, `error` and `addresses`, the form-field store and the address
 * book, changed by the address search, the person submission and "clear all".
 */
module AppController {

  import opened Wrappers
  import opened FormFields
  import opened Addresses
  import opened AddressBookStore

  const NoAddressSelected := "No address selected, try to select an address or find one if you haven't"
  const NamesMandatory := "First name and last name fields mandatory!"
  const AddressNotFound := "Selected address not found"

  /** True when some search result carries the id `id`. */
  predicate HasId(addresses: seq<Address>, id: string)
  {
    exists i :: 0 <= i < |addresses| && addresses[i].id == id
  }

  /**
   * The decision of the person submission: the three checks in order, the
   * first failing one giving its error message, otherwise the entry to append.
   * Only the empty string counts as a missing value (a blank " " passes).
   */
  function CheckPerson(selectedAddress: string, firstName: string, lastName: string,
                       addresses: seq<Address>): (r: Result<Entry, string>)
    ensures selectedAddress == "" || addresses == [] ==> r == Failure(NoAddressSelected)
    ensures selectedAddress != "" && addresses != [] && (firstName == "" || lastName == "")
            ==> r == Failure(NamesMandatory)
    ensures selectedAddress != "" && addresses != [] && firstName != "" && lastName != ""
            ==> (r == Failure(AddressNotFound) <==> !HasId(addresses, selectedAddress))
    ensures r.Success? <==> selectedAddress != "" && addresses != [] && firstName != "" && lastName != ""
                            && HasId(addresses, selectedAddress)
    ensures r.Success? ==> exists i :: 0 <= i < |addresses| && addresses[i].id == selectedAddress
                                       && (forall j :: 0 <= j < i ==> addresses[j].id != selectedAddress)
                                       && r.value == Entry(addresses[i], firstName, lastName)
  {
    if selectedAddress == "" || |addresses| == 0 then Failure(NoAddressSelected)
    else if firstName == "" || lastName == "" then Failure(NamesMandatory)
    else match FindById(addresses, selectedAddress)
      case None => Failure(AddressNotFound)
      case Some(found) => Success(Entry(found, firstName, lastName))
  }

  class App {
    const form: FieldStore
    const book: AddressBook
    var loading: bool
    var error: Option<string>
    var addresses: seq<Address>

    /** The form store keeps its five fields. */
    ghost predicate Valid()
      reads this, form
    {
      form.Valid()
    }

    /** The first render: empty fields, no results, no error, not loading. */
    constructor (book: AddressBook)
      ensures Valid() && fresh(form) && this.book == book
      ensures form.fields == InitialFieldValues()
      ensures !loading && error == None && addresses == []
    {
      form := new FieldStore();
      this.book := book;
      loading := false;
      error := None;
      addresses := [];
    }

    /** `resetFormStatus()`: clears the error and the search results. */
    method ResetFormStatus()
      modifies this
      ensures old(Valid()) ==> Valid()
      ensures error == None && addresses == []
      ensures loading == old(loading)
    {
      error := None;
      addresses := [];
    }

    /**
     * The synchronous start of `handleAddressSubmit`: reset the status, then
     * show the loading state. No form field (not even the selection) and no
     * address-book entry is touched.
     */
    method StartSearch()
      requires Valid()
      modifies this
      ensures Valid()
      ensures error == None && addresses == [] && loading
      ensures form.fields == old(form.fields) && book.entries == old(book.entries)
    {
      ResetFormStatus();
      loading := true;
    }

    /**
     * The body of `fetchData` once the lookup has answered: a service error
     * becomes the visible error, a body with details replaces the results by
     * the transformed records, a thrown failure changes neither; in every
     * branch the loading state ends.
     */
    method FinishSearch<Raw>(response: Response<Raw>, transform: Raw -> Address)
      requires Valid()
      modifies this
      ensures Valid()
      ensures !loading
      ensures response.ServiceError? ==> error == Some(response.errorMessage) && addresses == old(addresses)
      ensures response.Details? ==> addresses == TransformAll(response.details, transform) && error == old(error)
      ensures response.Thrown? ==> error == old(error) && addresses == old(addresses)
      ensures form.fields == old(form.fields) && book.entries == old(book.entries)
    {
      match response {
        case ServiceError(message) =>
          error := Some(message);
        case Details(details) =>
          addresses := TransformAll(details, transform);
        case Thrown =>
      }
      loading := false;
    }

    /**
     * `handleAddressSubmit` with the lookup answered before any other event:
     * the outcome seen from the state before the search.
     */
    method HandleAddressSubmit<Raw>(response: Response<Raw>, transform: Raw -> Address)
      requires Valid()
      modifies this
      ensures Valid()
      ensures !loading
      ensures response.ServiceError? ==> error == Some(response.errorMessage) && addresses == []
      ensures response.Details? ==> error == None
      ensures response.Details? ==> |addresses| == |response.details|
                                    && forall i :: 0 <= i < |addresses| ==> addresses[i] == transform(response.details[i])
      ensures response.Thrown? ==> error == None && addresses == []
      ensures form.fields == old(form.fields) && book.entries == old(book.entries)
    {
      StartSearch();
      FinishSearch(response, transform);
    }

    /** `clearAllFields()`: from any state, no error, no results, empty fields and an empty book. */
    method ClearAllFields()
      modifies this, form, book
      ensures Valid()
      ensures error == None && addresses == []
      ensures form.fields == InitialFieldValues() && book.entries == []
      ensures loading == old(loading)
    {
      ResetFormStatus();
      form.OnFieldsClear();
      book.RemoveAllAddress();
    }

    /**
     * `handlePersonSubmit`: on a failed check the error is its message and
     * the book is unchanged; otherwise the error is cleared and exactly the
     * checked entry is appended. Fields, results and loading stay as they are.
     */
    method HandlePersonSubmit()
      requires Valid()
      modifies this, book
      ensures Valid()
      ensures var r := CheckPerson(form.fields[SelectedAddress], form.fields[FirstName],
                                   form.fields[LastName], old(addresses));
              match r
              case Failure(message) => error == Some(message) && book.entries == old(book.entries)
              case Success(entry) => error == None && book.entries == old(book.entries) + [entry]
      ensures form.fields == old(form.fields)
      ensures addresses == old(addresses) && loading == old(loading)
    {
      var selectedAddress := form.Get(SelectedAddress);
      var firstName := form.Get(FirstName);
      var lastName := form.Get(LastName);

      if selectedAddress == "" || |addresses| == 0 {
        error := Some(NoAddressSelected);
        return;
      }

      if firstName == "" || lastName == "" {
        error := Some(NamesMandatory);
        return;
      }

      var foundAddress := FindById(addresses, selectedAddress);

      if foundAddress.None? {
        error := Some(AddressNotFound);
        return;
      }

      error := None;
      book.AddAddress(Entry(foundAddress.value, firstName, lastName));
    }
  }
}
