/**
 * Client runs of the controller, proved from the method contracts alone: a
 * search followed by a submission, a selection left stale by a new search, a
 * thrown lookup after a service error, and names made only of blanks.
 */
module AppScenarios {

  import opened Wrappers
  import opened FormFields
  import opened Addresses
  import opened AddressBookStore
  import opened AppController

  /**
   * A stand-in for `transformAddress`: any total function on raw records will
   * do. Its constant fields are unrelated to what the scenarios type into the
   * search form; nothing from the form flows into the results.
   */
  function SampleTransform(raw: string): Address
  {
    Address(raw, raw, "7", "9999", "Utrecht")
  }

  /**
   * Search postcode "1345", house number "350"; the service returns two
   * records; select the first and submit "Ada" / "Lovelace": the book holds
   * exactly that address with those names, and the error is cleared.
   */
  method SearchThenSubmit() returns (results: seq<Address>, entries: seq<Entry>, error: Option<string>)
    ensures |results| == 2
    ensures results == [SampleTransform("Main St"), SampleTransform("High St")]
    ensures entries == [Entry(results[0], "Ada", "Lovelace")]
    ensures error == None
  {
    var book := new AddressBook();
    var app := new App(book);
    app.form.OnFieldChange(PostCode, "1345");
    app.form.OnFieldChange(HouseNumber, "350");
    app.HandleAddressSubmit(Details(["Main St", "High St"]), SampleTransform);
    assert app.addresses == [SampleTransform("Main St"), SampleTransform("High St")];
    app.form.OnFieldChange(SelectedAddress, app.addresses[0].id);
    app.form.OnFieldChange(FirstName, "Ada");
    app.form.OnFieldChange(LastName, "Lovelace");
    assert app.form.fields[SelectedAddress] == "Main St";
    assert app.form.fields[FirstName] == "Ada" && app.form.fields[LastName] == "Lovelace";
    assert CheckPerson("Main St", "Ada", "Lovelace", app.addresses)
        == Success(Entry(SampleTransform("Main St"), "Ada", "Lovelace"));
    app.HandlePersonSubmit();
    results, entries, error := app.addresses, book.entries, app.error;
  }

  /**
   * A new search keeps the old selection: when the new results no longer hold
   * the selected id, the submission fails with "Selected address not found"
   * and the book stays empty.
   */
  method StaleSelection() returns (selected: string, entries: seq<Entry>, error: Option<string>)
    ensures selected == SampleTransform("Main St").id
    ensures error == Some(AddressNotFound)
    ensures entries == []
  {
    var book := new AddressBook();
    var app := new App(book);
    app.HandleAddressSubmit(Details(["Main St"]), SampleTransform);
    app.form.OnFieldChange(SelectedAddress, app.addresses[0].id);
    app.form.OnFieldChange(FirstName, "Ada");
    app.form.OnFieldChange(LastName, "Lovelace");
    app.HandleAddressSubmit(Details(["High St"]), SampleTransform);
    assert app.addresses == [SampleTransform("High St")];
    assert app.form.fields[SelectedAddress] == "Main St";
    assert app.form.fields[FirstName] == "Ada" && app.form.fields[LastName] == "Lovelace";
    assert !HasId(app.addresses, "Main St");
    app.HandlePersonSubmit();
    selected, entries, error := app.form.Get(SelectedAddress), book.entries, app.error;
  }

  /**
   * A service error is shown; the next search throws: the loading state ends,
   * and no error is visible at all.
   */
  method ThrownAfterServiceError() returns (afterServiceError: Option<string>, afterThrown: Option<string>,
                                            loading: bool, results: seq<Address>)
    ensures afterServiceError == Some("postcode not found")
    ensures afterThrown == None && !loading && results == []
  {
    var book := new AddressBook();
    var app := new App(book);
    var serviceError: Response<string> := ServiceError("postcode not found");
    app.HandleAddressSubmit(serviceError, SampleTransform);
    afterServiceError := app.error;
    var thrown: Response<string> := Thrown;
    app.HandleAddressSubmit(thrown, SampleTransform);
    afterThrown, loading, results := app.error, app.loading, app.addresses;
  }

  /** Names made only of a blank are accepted: only the empty string is missing. */
  method BlankNames() returns (entries: seq<Entry>)
    ensures |entries| == 1 && entries[0].firstName == " " && entries[0].lastName == " "
  {
    var book := new AddressBook();
    var app := new App(book);
    app.HandleAddressSubmit(Details(["Main St"]), SampleTransform);
    app.form.OnFieldChange(SelectedAddress, app.addresses[0].id);
    app.form.OnFieldChange(FirstName, " ");
    app.form.OnFieldChange(LastName, " ");
    app.HandlePersonSubmit();
    entries := book.entries;
  }

  /**
   * Clear all after a successful submission: empty fields, no results, no
   * error and an empty book.
   */
  method SubmitThenClearAll() returns (fields: map<string, string>, results: seq<Address>,
                                       entries: seq<Entry>, error: Option<string>)
    ensures fields == InitialFieldValues() && results == [] && entries == [] && error == None
  {
    var book := new AddressBook();
    var app := new App(book);
    app.HandleAddressSubmit(Details(["Main St"]), SampleTransform);
    app.form.OnFieldChange(SelectedAddress, app.addresses[0].id);
    app.form.OnFieldChange(FirstName, "Ada");
    app.form.OnFieldChange(LastName, "Lovelace");
    app.HandlePersonSubmit();
    app.ClearAllFields();
    fields, results, entries, error := app.form.fields, app.addresses, book.entries, app.error;
  }
}
