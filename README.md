# Address-book form controller, modelled in Dafny

This project models the form-state and submission-workflow controller of a
small browser application. The user looks up addresses by postcode and house
number, picks one result, adds a first and last name, and collects the entries
in an address book. Two parts are modelled:

- the form-field store (`useFormFields`): one record mapping field names to
  strings, with a write and a reset (`FormFields.FieldStore`);
- the controller in `App`: the state cells `loading`, `error` and `addresses`,
  the address search, the person submission and "clear all"
  (`AppController.App`). It uses the address book through `addAddress` and
  `removeAllAddress` (`AddressBookStore.AddressBook`).

The pure helpers `addresses.find` and `details.map(transformAddress)` are
functions in `Addresses`. `transformAddress`, imported from the module
`./core/models/address` at src/App.tsx:15, is not part of this model. Each
operation that uses it takes it as a parameter `transform: Raw -> Address`.
Nothing is assumed about its results, but as a Dafny function it is total and
deterministic (see "## Left out"). The lookup service is not called either. Its
answer is a `Response` value given to the step that ends the search:
`ServiceError(message)`, `Details(records)`, or `Thrown`. `Thrown` covers a
transport failure, a JSON parse failure, a body without `details`, and a
`transformAddress` that throws on some record. In each of these the exception
reaches the `catch` at src/App.tsx:76-77 before `setAddresses` runs. The
search is split into two synchronous steps, `StartSearch` and `FinishSearch`.
`HandleAddressSubmit` runs them one after the other.

The model follows the code where the application's design document differs:

- Names: only the empty string counts as missing. A name made of blanks is
  accepted (`!firstName`).
- `transformAddress` gets the raw record only. No house number is passed to it.
- A thrown or parse failure sets no visible error. The error stays as the
  search start left it: undefined.
- A new search does not clear `selectedAddress`. So "Selected address not
  found" can happen: the selection can go stale (`AppScenarios.StaleSelection`).
- Nothing in `App.tsx` or `useFormFields.ts` makes ids unique or puts the house
  number into a result. The model claims neither.

## Model

| member | source | states |
|---|---|---|
| `FormFields.InitialFieldValues` | src/ui/hooks/useFormFields.ts:3-9 | the initial record has exactly the five keys postCode, houseNumber, firstName, lastName, selectedAddress, each holding "" |
| `FormFields.WithField` | src/ui/hooks/useFormFields.ts:21 | the record copy `{ ...prev, [name]: value }`: the named field holds the new value, every other field keeps its value, and the key set gains the name (a new key when the name is unknown) |
| `FormFields.ApplyWritesAppend` | src/ui/hooks/useFormFields.ts:21 | applying one sequence of writes and then another equals applying their concatenation |
| `FormFields.KeysPreserved` | src/ui/hooks/useFormFields.ts:14-22 | after any sequence of writes the five keys are still present; when every write names a known field, the key set is still exactly the five names |
| `FormFields.ReadAfterWrites` | src/ui/hooks/useFormFields.ts:21 | after a sequence of writes, a field reads as the value of the last write to it, or as its starting value when no write names it |
| `FormFields.LastWriteWins` | src/ui/hooks/useFormFields.ts:21 | two consecutive writes to the same field, anywhere in a sequence of writes, have the same effect as the second write alone |
| `FormFields.FieldStore.constructor` | src/ui/hooks/useFormFields.ts:12 | the store starts with the initial record, so all five fields are "" |
| `FormFields.FieldStore.OnFieldChange` | src/ui/hooks/useFormFields.ts:14-22 | the named field takes the value and every other field is unchanged; the invariant "all five keys present" is kept |
| `FormFields.FieldStore.OnFieldsClear` | src/ui/hooks/useFormFields.ts:24-26 | from any state the record becomes the initial one, so clearing twice is the same as clearing once |
| `Addresses.FindById` | src/App.tsx:115-117 | the result is None exactly when no address has the id; otherwise it is the address at the first index whose id matches |
| `Addresses.TransformAll` | src/App.tsx:70-72 | the results have the raw records' length and order: element i is the transform of raw record i |
| `AddressBookStore.AddressBook.constructor` | src/App.tsx:43 | the address book starts empty |
| `AddressBookStore.AddressBook.AddAddress` | src/App.tsx:125 | exactly one entry is appended at the end; earlier entries are unchanged |
| `AddressBookStore.AddressBook.RemoveAllAddress` | src/App.tsx:94 | the book becomes empty |
| `AppController.CheckPerson` | src/App.tsx:103-125 | the three checks in order, first failure wins: an empty selection or no results gives "No address selected, try to select an address or find one if you haven't"; otherwise an empty first or last name gives "First name and last name fields mandatory!"; otherwise "Selected address not found" exactly when no result has the selected id; success exactly when all three pass, and then the entry is the first matching address with the two names |
| `AppController.App.constructor` | src/App.tsx:29-39 | first state: the initial fields, loading false, error undefined, no results |
| `AppController.App.ResetFormStatus` | src/App.tsx:86-89 | error becomes undefined and the results become empty; loading, the fields and the book are unchanged |
| `AppController.App.StartSearch` | src/App.tsx:54-58 | error undefined, results empty, loading true; no form field (selectedAddress included) and no book entry changes |
| `AppController.App.FinishSearch` | src/App.tsx:65-80 | a service error sets the error to the service's message and keeps the results; Details sets the results to the transformed records and keeps the error; Thrown changes neither; every branch ends with loading false; fields and book unchanged |
| `AppController.App.HandleAddressSubmit` | src/App.tsx:54-84 | a full search: loading ends false in every branch; a service error leaves that message and empty results; Details leaves no error and results of the same length and order as the records; Thrown leaves no error and empty results |
| `AppController.App.ClearAllFields` | src/App.tsx:91-95 | from any state: error undefined, results empty, all five fields "", and the book empty |
| `AppController.App.HandlePersonSubmit` | src/App.tsx:100-126 | on a failed check the error is that check's message and the book is unchanged; on success the error is undefined and the book grows by exactly the checked entry; fields, results and loading are unchanged in every case |
| `AppScenarios.SearchThenSubmit` | src/App.tsx:54-126 | search, select the first of two results, submit "Ada"/"Lovelace": the results are the two transformed records in order, the book is that one entry, and there is no error |
| `AppScenarios.StaleSelection` | src/App.tsx:115-122 | a second search keeps the old selection; when the new results lack that id, the submission fails with "Selected address not found" and the book stays empty |
| `AppScenarios.ThrownAfterServiceError` | src/App.tsx:67-80 | a service error shows its message; a following thrown lookup ends with loading false, no visible error and no results |
| `AppScenarios.BlankNames` | src/App.tsx:110-113 | first and last names " " pass the name check, and one entry is appended |
| `AppScenarios.SubmitThenClearAll` | src/App.tsx:91-95 | after a successful submission, clear all leaves the initial fields, no results, an empty book and no error |

## Left out

- Network and URL plumbing: building the URL from `BASE_URL`, `fetch`, `response.json()` and the console logging are I/O. The service's answer is the `Response` input.
- The async boundary: start and outcome are two synchronous steps. Overlapping searches with no cancellation (the last answer wins) are concurrency, and are not modelled.
- `transformAddress` and `RawAddressModel` (module `./core/models/address`, imported at src/App.tsx:15) are outside the model. Transforming is a parameter with no properties. Nothing is claimed about ids or house numbers.
- `AppController.App.FinishSearch`: the `transform` parameter is a total, deterministic Dafny function, so a `Details` outcome never fails partway. A `transformAddress` that throws on a malformed record is modelled only by the `Thrown` response. That gives the same end state as the source: results empty, error undefined, loading false.
- The `useAddressBook` store (src/App.tsx:9, 43) is outside the model. It is modelled only as a sequence with append and clear, and only as the controller uses it.
- Address fields other than `id`: the `Address` type (module `./types`, imported at src/App.tsx:12) is outside the model. The fields street, houseNumber, postcode and city follow the application's design document. Only `id` is read by the controller.
- JavaScript typing slop: `errormessage` is taken to be a string, and a missing one is not modelled. A response whose `details` is missing or not an array is treated as `Thrown`, which is what its `.map` throwing amounts to.
- All rendering, including when the person form is shown, and the presentational components.
