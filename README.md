# Portfolio site: logo lookup, content loading and the contact form

This project models, in Dafny, the parts of a small Flask portfolio site that
carry logic of their own:

- `wrappers.dfy` (module `Wrappers`): the `Option` type used for "absent".
- `tech_logos.dfy` (module `TechLogos`): the `TECH_LOGOS` table and
  `get_tech_logo`, which app.py registers as a template global (the templates
  themselves are not part of this model). The lookup has three tiers: an exact key, then the first key in table
  order that matches ignoring case, then a fixed generic icon. The dictionary
  is modelled as the ordered sequence of its entries. The proofs show which
  tier answers, that the result is always a table URL or the default icon, and
  that case variants of a key resolve to the key's own URL. That last fact
  holds for the real table because no two of its 33 keys differ only in case.
- `content_loader.dfy` (module `ContentLoader`): `load_json_files`. It keeps
  the records of the directory entries whose names end in `.json`. It then
  sorts them with Python's stable `sorted(..., reverse=True)` on
  `x.get('date', '')`. The proofs show that the result holds exactly the
  `.json` records and is a permutation of them. It is ordered newest first
  under Python's string order, so undated records come last. Records with
  equal dates keep their listing order. A missing directory gives `[]`.
- `message_endpoint.dfy` (module `MessageEndpoint`): the `/send-message` route.
  For any body that `request.get_json()` parses, it replies `success: True`
  with a fixed text.
- `contact_form.dfy` (module `ContactForm`): the submit handler of
  `static/js/contact.js` and its `showMessage` helper. The class `ContactPage`
  holds the state the handler changes in place:
  - the button's `disabled` flag and label;
  - the three field values;
  - the feedback messages appended to the form.

  Each method is proved against a pure function on a `FormState` value. The
  awaited `fetch` and `response.json()` become an `Outcome` parameter: either
  `Replied(success)` or `Threw`. `Threw` covers any exception in the `try`
  block, including reading `success` of a `null` reply. The proofs show:
  - the browser's own submission is cancelled;
  - the request carries the raw field values;
  - the button is disabled and reads `Sending...` while the request is out;
  - the button is re-enabled with its original label on every path;
  - the form is reset only when `success` is truthy;
  - each outcome shows exactly one message with its own text and kind;
  - at most one message is ever on the page, whatever sequence of
    submissions and removal timers happens.

The handler sends the three field values as typed: it neither trims nor
checks them.

## Model

| member | source | states |
|---|---|---|
| `TechLogos.Lower` | app.py:57 | `tech_name.lower()` on ASCII: same length, each upper-case ASCII letter replaced by its lower-case partner, every other character kept |
| `TechLogos.LowerChar` | app.py:57 | one character lower-cased: `A`–`Z` move up by 32, all other characters are unchanged |
| `TechLogos.ExactIndex` | app.py:53-54 | `tech_name in TECH_LOGOS`: `None` exactly when no key equals the name; otherwise the position of the first key equal to it |
| `TechLogos.CaseInsensitiveIndex` | app.py:57-60 | the loop over `TECH_LOGOS.items()`: `None` exactly when no key's lower-case form matches; otherwise the first matching position in table order |
| `TechLogos.TechLogo` | app.py:50-63 | the result is always the default icon or one of the table's URLs |
| `TechLogos.GetTechLogo` | app.py:50-63 | the lookup as written (membership test, loop with early return, default) returns what the three-tier specification `TechLogo` says |
| `TechLogos.ExactKeyWins` | app.py:53-54 | a name that is exactly a key gets that key's URL |
| `TechLogos.FirstCaseInsensitiveKeyWins` | app.py:56-60 | with no exact key, the first key in table order whose lower-case form equals the name's decides the URL |
| `TechLogos.NoMatchGivesDefault` | app.py:62-63 | a name matching no key, even ignoring case, gets `.../simple-icons@v9/icons/code.svg` |
| `TechLogos.MatchAvoidsDefault` | app.py:56-63 | a name that matches some key ignoring case gets a URL from the table |
| `TechLogos.CaseVariantsAgree` | app.py:53-60 | if no two keys differ only in case, every case variant of a key gets the key's own URL |
| `TechLogos.TechLogoTableUrlsNonEmpty` | app.py:14-48 | `TECH_LOGOS` has 33 entries and no empty URL |
| `TechLogos.TechLogoTableLowerKeysDistinct` | app.py:14-48 | no two keys of `TECH_LOGOS` differ only in case |
| `TechLogos.TechLogoCaseVariants` | app.py:14-60 | for the real table, `'python'`, `'PYTHON'` and every other case variant of a key get that key's URL |
| `TechLogos.GetTechLogoNeverEmpty` | app.py:14-63 | for the real table, the lookup never returns an empty string |
| `ContentLoader.DateKey` | app.py:76 | the sort key is the record's date, or `''` when the record has none |
| `ContentLoader.LexLe` | app.py:76 | Python's `a <= b` on `str`: a prefix comes at or before the longer string, and when the first characters differ the smaller code point decides |
| `ContentLoader.LexLeMeaning` | app.py:76 | which order `LexLe` is: `a <= b` exactly when `a` is a prefix of `b` or, at the first position where they differ, `a` has the smaller code point |
| `ContentLoader.LexLeReflexive` | app.py:76 | Python's string `<=` is reflexive |
| `ContentLoader.LexLeTotal` | app.py:76 | any two strings are comparable |
| `ContentLoader.LexLeAntisymmetric` | app.py:76 | two strings each `<=` the other are equal |
| `ContentLoader.LexLeTransitive` | app.py:76 | the order is transitive |
| `ContentLoader.EmptyIsLeast` | app.py:76 | `''` is below every string and only `''` is at or below `''` |
| `ContentLoader.EndsWith` | app.py:73 | `str.endswith`: a string ends with a suffix exactly when it is some stem followed by that suffix |
| `ContentLoader.IsJsonEntry` | app.py:73 | an entry is kept exactly when its file name is some stem followed by `.json` |
| `ContentLoader.JsonRecords` | app.py:70-75 | the `.json` filter and `append`: never longer than the listing, and as long exactly when every entry is a `.json` file; `JsonRecordsExactly` states which records it holds |
| `ContentLoader.JsonPositions` | app.py:72-73 | the positions of the entries whose name ends in `.json`: strictly increasing, in range, and containing a position exactly when its entry's name ends in `.json` |
| `ContentLoader.JsonRecordsAppend` | app.py:72-75 | filtering a listing in two parts gives the two filtered parts one after the other |
| `ContentLoader.JsonRecordsExactly` | app.py:72-75 | the collected records are, one for one and in order, the records of the `.json` entries, and of no other entry |
| `ContentLoader.InsertByDateDesc` | app.py:76 | one insertion step of the stable sort: the result is one longer and holds the new record and every old one; `InsertPermutation`, `InsertSorted` and `InsertStable` state the rest |
| `ContentLoader.SortByDateDesc` | app.py:76 | `sorted(items, key=..., reverse=True)`: same length, every input record present; `SortPermutation`, `SortSorted` and `SortStable` pin the order down |
| `ContentLoader.SortPermutation` | app.py:76 | sorting is a permutation of the collected records |
| `ContentLoader.SortSorted` | app.py:76 | the sorted list is non-increasing in the date key |
| `ContentLoader.SortStable` | app.py:76 | for every date key, the records carrying it keep their listing order (`sorted` is stable, also with `reverse=True`) |
| `ContentLoader.UndatedLast` | app.py:76 | in a sorted list, every record after an undated one is undated too |
| `ContentLoader.Listing` | app.py:71-72 | a missing directory (`os.path.exists` false) lists nothing; an existing one lists its entries |
| `ContentLoader.LoadJsonFiles` | app.py:68-76 | the result is the stable newest-first sort of the `.json` records: sorted, a permutation of them, equal dates in listing order, and `[]` for a missing directory |
| `MessageEndpoint.SendMessage` | app.py:126-132 | for a body that `get_json` parses, the reply has `success` true and the fixed confirmation text |
| `MessageEndpoint.ReplyIgnoresBody` | app.py:129-132 | two different request bodies get the same reply |
| `ContactForm.ClassName` | static/js/contact.js:61 | the class is `form-message`, a space, then the kind |
| `ContactForm.StyleFor` | static/js/contact.js:71-79 | the success colours are used exactly when the kind is `'success'` |
| `ContactForm.NewMessage` | static/js/contact.js:60-79 | the created element carries the text, the class `form-message <type>`, and the success colours exactly when the type is `'success'` |
| `ContactForm.Shown` | static/js/contact.js:52-82 | the new message ends the list; if at most one was shown before, only the new one is shown after; button and fields are untouched |
| `ContactForm.WithoutId` | static/js/contact.js:88 | removing an element keeps exactly the other messages |
| `ContactForm.Expired` | static/js/contact.js:84-89 | the removal timer removes only its own message and nothing else on the page |
| `ContactForm.RequestFor` | static/js/contact.js:13-30 | the request is a JSON `POST` to `/send-message` whose body holds the three field values as typed |
| `ContactForm.Sending` | static/js/contact.js:20-21 | while the request is out the button is disabled and reads `Sending...`; fields and messages are unchanged |
| `ContactForm.Feedback` | static/js/contact.js:34-44 | the success text and kind exactly on a truthy `success`, the failure text exactly on a falsy one, the error text exactly on an exception; every kind other than success is `error` |
| `ContactForm.Finished` | static/js/contact.js:34-48 | after the reply or the exception: the button enabled with the remembered label, fields cleared only on a truthy `success`, the outcome's message last, and only it if at most one was shown |
| `ContactForm.Submitted` | static/js/contact.js:6-48 | after a submission, the button is enabled with its original label; the fields are cleared on a truthy `success` and unchanged otherwise; the last message has the outcome's text and kind |
| `ContactForm.ResetOnlyOnSuccess` | static/js/contact.js:34-43 | filled-in fields end up cleared exactly when the reply's `success` is truthy |
| `ContactForm.OneMessagePerOutcome` | static/js/contact.js:34-43 | each of the three outcomes leaves exactly one message: success, failed reply or exception, each with its own text |
| `ContactForm.StepKeepsInvariant` | static/js/contact.js:6-90 | a submission or an expiry keeps at most one message on the page |
| `ContactForm.RunKeepsInvariant` | static/js/contact.js:6-90 | after any sequence of submissions and expiries, at most one message is shown and the button is enabled with its original label |
| `ContactForm.StaleExpiryKeepsCurrentMessage` | static/js/contact.js:84-89 | the timer of a replaced message does not remove the message that replaced it |
| `ContactForm.EndpointReplyMeansSuccess` | static/js/contact.js:24-37 | when `/send-message` answers and the reply arrives, the form is cleared and only the success message is shown |
| `ContactForm.SubmitEvent.PreventDefault` | static/js/contact.js:7 | the browser's default submission is cancelled |
| `ContactForm.ContactPage.constructor` | static/js/contact.js:3-5 | the page starts with an enabled button, the given fields and no message |
| `ContactForm.ContactPage.ShowMessage` | static/js/contact.js:52-82 | the page changes as `Shown` says and keeps at most one message |
| `ContactForm.ContactPage.ExpireMessage` | static/js/contact.js:84-89 | the page changes as `Expired` says |
| `ContactForm.ContactPage.Reset` | static/js/contact.js:37 | the three fields are cleared and nothing else changes |
| `ContactForm.ContactPage.BeginSubmit` | static/js/contact.js:7-21 | default prevented; original label remembered; the request carries the raw field values; button disabled and labelled `Sending...` |
| `ContactForm.ContactPage.FinishSubmit` | static/js/contact.js:23-48 | one message for the outcome; reset on success only; button re-enabled with the remembered label on every path |
| `ContactForm.ContactPage.Submit` | static/js/contact.js:6-49 | the whole listener: default prevented, request built from the raw values, new state as `Submitted` says |

## Left out

- Python's full Unicode `str.lower()`: `Lower` folds only the ASCII letters
  `A`–`Z`. A name that reaches a key only through a non-ASCII case mapping
  (for example the Kelvin sign in `KERAS`) gets the default icon in the model.
- File-system access in `load_json_files`: `os.path.exists`, `os.listdir`,
  `open` and `json.load`. The directory is an input: `None` when it is missing,
  otherwise its (file name, parsed record) pairs in listing order. A file that
  fails to parse raises in the source; the model has no such file.
- JSON files whose top-level value is not an object: the sort key calls
  `x.get`, which raises `AttributeError` for a list, string or number, even
  when there is only one record. Every record of the model is an object.
- Dates that are not strings: a record's `date` is either a string or absent,
  and the rest of the JSON object is an opaque `content` string. In Python,
  records whose dates are all numbers would be ordered numerically, a single
  record is never compared, and `sorted` raises only when keys of types that
  cannot be compared meet (a string or the `''` default against a number,
  `None` against anything). The model covers none of these cases.
- `load_profile` and its hard-coded default profile: a constant with no logic.
- Flask plumbing: routing, `render_template`, `jsonify`, `request.get_json`, the
  Jinja global registration, `os.makedirs` and `app.run`. `SendMessage`
  models the route for a body that `request.get_json()` parses. A malformed
  JSON body, or one not sent as JSON, makes `get_json` at app.py:129 end the
  request with an error status; the model does not cover that path.
- `static/js/main.js`: navigation toggle, smooth scrolling, scroll highlighting,
  intersection and parallax animation, ripples and debug logging. All of it is
  browser layout, timers and floating point.
- The network: `fetch` and `response.json()` are folded into `Outcome`.
  Truthiness of a non-boolean `success` value is folded into the boolean of
  `Replied`.
- `console.error` in the `catch` block: logging only.
- The inline CSS of `showMessage`: each message records only which of the two
  colour schemes it gets.
- The 5000 ms and 500 ms fade-and-remove timers. They are the abstract
  `Expire` event, which may fire at any time.
- `contactForm.reset()` restores the fields' default values. The contact page's
  template is not part of this model; the model assumes its fields have no
  default values and clears them to empty strings.
- `document.querySelector('.form-message')` searches the whole document. The
  model sees only the messages of the contact form.
- Overlapping submissions: the only guard is the disabled button, which is a
  concurrency matter. The model runs one submission at a time. It exposes the
  two halves around the `await` as `BeginSubmit` and `FinishSubmit`.
