# Listing and login forms: a Dafny model

This project models the two form components of a small React client that lets an
operator log in and then submit a vehicle listing with pictures to a remote
service.

- **Listing form** (`src/components/CarForm.js`): the field rule table (model,
  price, phone, city, maxPictures), the file-selection policy (a selection larger
  than the bound is rejected and the old set kept; otherwise it replaces the set
  and clears the error), the submit gate (the picture count must equal the
  *current* `maxPictures`), the multipart payload (five scalar parts, then one
  `images` part per picture in selection order), the stored token sent in the
  `x-auth-token` header, and the success (dialog, reset) and failure
  ("Submission failed") transitions.
- **Login form** (`src/components/LoginForm.js`): the email/password rule table,
  the `submitting` flag that disables the button, the click that validates and
  sends the values, and the handling of the answer to the body sent: on a
  token, write it under "token", show the dialog, and move to `/car` only once the
  dialog is acknowledged; on a refusal, set "Invalid credentials". Either way the
  flag is cleared.

Modules:

| module | file | what it holds |
|---|---|---|
| `Optional` | Optional.dfy | `Option`, and `Find` for dictionary lookup |
| `Numerals` | Numerals.dfy | decimal text of an integer (as JavaScript prints integral numbers below 10^21) and its read-back |
| `Validation` | Validation.dfy | the rule table datatypes and the one evaluator both forms use: per field, the message of the first rule that rejects the value |
| `Session` | Session.dfy | the browser's persistent key-value store, as a class |
| `Presenter` | Presenter.dfy | recorded effects on the outside world: a success dialog shown, a page visited |
| `CarForm` | CarForm.dfy | the listing form: schema, payload, and the class `ListingForm` holding `values`, `pictures`, `error` |
| `LoginForm` | LoginForm.dfy | the login form: schema and the class `Login` holding `values`, `error`, `submitting` and the body in flight |

The remote service is a function parameter of each submission method (a listing
request to accepted or not; credentials to a token or a refusal), so each method
states its result for every answer the service may give. Dialogs and page moves
are appended to an `effects` log and each dispatched request to a `requests`
log. The login form logs the body at the click that sends it and holds it as
`inFlight` until the answer arrives; its invariant states that a body is in
flight exactly while the form is submitting and that every body in its log
passed validation. The email syntax is a predicate `isEmail`, fixed when a
login form is created.

In these places the model follows the code rather than what a reader might expect:
- The code sends the listing whether or not a token is stored (the header then
  carries nothing); nothing checks it locally.
- The code never revokes the picture preview URLs, so the model states no
  revocation rule.
- The listing's submit button checks only the picture count; field validation
  happens when the button is clicked (`ListingForm.Submit`), as the form library
  runs the schema before calling the submit handler.
- A successful listing submission does not clear `error`: a message left by an
  earlier failure or rejected selection stays on screen after the reset.

## Model

| member | source | states |
|---|---|---|
| Validation.FirstFailure | src/components/CarForm.js:31-42 | no message exactly when every rule of the field accepts the value; otherwise the message of a rejecting rule that every earlier rule in the table accepts (the first failing message wins) |
| Validation.Validate | src/components/CarForm.js:31-42 | every declared field's entry is that field's first failing message, absent when the field breaks no rule; no undeclared name has an entry |
| Validation.ValidIffAllRulesPass | src/components/LoginForm.js:18-23 | the validation result is empty exactly when every rule of every field accepts its value |
| Validation.FieldErrorIsLocal | src/components/CarForm.js:31-42 | a field's entry depends only on that field's value, whatever the other fields hold |
| Numerals.ParseIntToString | src/components/CarForm.js:57 | the decimal text an integer field is sent as reads back as the same integer |
| Numerals.IntToStringInjective | src/components/CarForm.js:47 | different integers print as different texts |
| Session.Storage.GetItem | src/components/CarForm.js:66 | the value stored under the key is returned when the key was set, and nothing (null) otherwise |
| Session.Storage.SetItem | src/components/LoginForm.js:28 | the key now holds the value written and reads it back; every other key reads as before |
| CarForm.ModelRule | src/components/CarForm.js:32 | an empty model yields "Car model is required"; any other model has no entry |
| CarForm.PriceRule | src/components/CarForm.js:33-35 | a missing price yields "Price is required", a price of 0 or less "Price must be positive", a positive price no entry |
| CarForm.PhoneRule | src/components/CarForm.js:36 | an empty phone yields "Phone number is required"; any other has no entry |
| CarForm.CityRule | src/components/CarForm.js:37 | an empty city yields "City is required"; any other has no entry |
| CarForm.MaxPicturesRule | src/components/CarForm.js:38-41 | a missing bound is required, a bound below 1 yields "At least 1 picture", above 10 "No more than 10 pictures", 1 to 10 no entry |
| CarForm.ListingValidIff | src/components/CarForm.js:31-42 | the listing has no field error exactly when model, phone and city are non-empty, price is positive and maxPictures lies in 1..10 |
| CarForm.TooManyMessageNamesBound | src/components/CarForm.js:47 | two different bounds give two different rejection messages, so the message names its bound |
| CarForm.ListingForm.HandleFileChange | src/components/CarForm.js:44-52 | more files than the bound (a cleared bound counting as 0): pictures unchanged and the error is "You can only upload up to N pictures."; otherwise pictures become exactly the selection, in order, and the error is ""; the values are untouched |
| CarForm.ListingForm.SelectFiles | src/components/CarForm.js:172-178 | the file input applies the selection policy against the current `maxPictures` |
| CarForm.ListingForm.SetValues | src/components/CarForm.js:161-171 | editing fields, `maxPictures` included, never changes the pictures or the error; the gate is re-evaluated against the new bound |
| CarForm.SubmitGate | src/components/CarForm.js:186 | a cleared bound never enables the button (the strict comparison with the current bound is stated by `ListingForm.SetValues` and used by `GatedPayload`) |
| CarForm.GatedPayload | src/components/CarForm.js:186 | with valid values and an enabled button the set holds 1 to 10 pictures and the payload carries exactly `maxPictures` images |
| CarForm.BuildFormData | src/components/CarForm.js:55-63 | the appends, the picture loop included, produce exactly the payload of the values and pictures |
| CarForm.PayloadLayout | src/components/CarForm.js:55-63 | the payload holds 5 + |pictures| parts: model, price, phone, city, maxPictures with their values as text, then an `images` part for picture i at position 5 + i |
| CarForm.PayloadImageCount | src/components/CarForm.js:61-63 | the number of `images` parts equals the number of pictures |
| CarForm.ListingForm.HandleSubmit | src/components/CarForm.js:54-86 | one request is sent, built from the current values and pictures, with the stored token (present or not) in `x-auth-token`; if accepted: one success dialog, values back to the initial ones (maxPictures 1), no pictures, error unchanged; if not: error "Submission failed", values, pictures and effects unchanged |
| CarForm.ListingForm.Submit | src/components/CarForm.js:110-114 | a request is sent exactly when the button is enabled and the values pass validation; otherwise nothing changes; a sent request carries exactly `maxPictures` images, between 1 and 10, and the form then ends as `HandleSubmit` leaves it for the service's answer (accepted: dialog, reset, no pictures; refused: "Submission failed", values and pictures kept) |
| CarForm.ListingForm.constructor | src/components/CarForm.js:20-29 | the form starts with the initial values, no pictures, no error, no effects and no requests |
| LoginForm.EmailRule | src/components/LoginForm.js:19-21 | an empty email yields "Email is required", a non-empty malformed one "Invalid email format", a well-formed one no entry |
| LoginForm.PasswordRule | src/components/LoginForm.js:22 | an empty password yields "Password is required"; any other has no entry |
| LoginForm.LoginValidIff | src/components/LoginForm.js:18-23 | the credentials have no field error exactly when the email is non-empty and well formed and the password is non-empty |
| LoginForm.Login.StartSubmit | src/components/LoginForm.js:67-100 | a click while submitting changes nothing; otherwise the current values are sent exactly when they pass validation: they are appended to the request log and become the body in flight, and the form stays marked submitting exactly when they are sent; values, error and effects are untouched |
| LoginForm.Login.HandleSubmit | src/components/LoginForm.js:25-43 | the outcome is the service's answer to the body sent at the click, whatever the fields hold now; a token is written under "token", the success dialog is shown and the move to "/car" waits for its acknowledgement; a refusal sets "Invalid credentials" and writes no token, shows nothing and schedules no move; afterwards nothing is in flight and `submitting` is false in both cases, and the values and request log are unchanged |
| LoginForm.Login.Accept | src/components/LoginForm.js:28-36 | a token answer stores the token under "token", logs one success dialog, schedules the move to "/car", and ends the submission; the error is untouched |
| LoginForm.Login.Refuse | src/components/LoginForm.js:37-41 | a refusal sets "Invalid credentials" and ends the submission; nothing is logged and no move is scheduled |
| LoginForm.AcceptKeepsConsistent | src/components/LoginForm.js:28-41 | after a token answer the form's invariant still holds: the dialog precedes the waiting move, nothing is in flight, every logged body passed validation |
| LoginForm.Login.AcknowledgeNotice | src/components/LoginForm.js:34-36 | closing the dialog performs the waiting move to "/car" and nothing else; with no waiting move it does nothing |
| LoginForm.NavigatesAfterNoticeAppend | src/components/LoginForm.js:29-36 | the effect log keeps its order: a page move is appended only once the success dialog has been shown |
| LoginForm.Login.SetValues | src/components/LoginForm.js:67-71 | editing the fields, also while a request is in flight, changes only the values; the body in flight stays as sent |
| LoginForm.Login.constructor | src/components/LoginForm.js:11-16 | the form starts with empty email and password, no error, not submitting, and nothing shown, sent or waiting; the store is left as it is |

## Left out

- JSX markup, layout, styling and the phone-number input widget: presentation only.
- `src/pages/Home.js` and `src/App.js` are not part of this model: they hold routing and navigation buttons only.
- The HTTP transport (axios, the service URLs, the unused base URL): each submission takes the service's answer as a function of the request; transport errors and error statuses are one refusal.
- Dialog rendering: only "a success dialog with this title and text was shown" is recorded, and for login the acknowledgement that releases the page move.
- Picture previews (`URL.createObjectURL`): browser resources created during rendering and never revoked; not modelled.
- The email syntax the schema library checks: a predicate parameter.
- NumberText and TooManyMessage: print every decimal digit; JavaScript prints a number of magnitude 10^21 or more in exponent notation ("1e+21") and cannot hold integers beyond 2^53 exactly, so for such prices and bounds the model's text differs.
- Number parsing and non-integer numbers: `price` and `maxPictures` are optional integers, a cleared number input being absent.
- Validation.Passes: a number rule applied to text rejects it with the rule's own message, where the schema library would report a type error; the forms never pair a number rule with a text field.
- Asynchronous scheduling: each step runs to completion; the login form's click and the service's answer are two steps, between which the user may edit the fields. The listing form sends and handles the answer in one step, and its own submitting flag, which nothing in it reads, is not modelled.
- The login service answering without a token (the code would then store the text "undefined"): a token reply always carries a string.
- How the HTTP client treats a header whose value is null: the request records the header with no value.
- Diagnostic logging to the console.
- Formik's `touched` state and the timing of validation while typing: the field errors are a function of the current values.
