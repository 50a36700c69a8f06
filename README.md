# Mecatrone admin editors — a Dafny model

This project models the state logic of the Mecatrone admin panel's entity
editors: the Clients, Work, Projects, Banners, Subscribers, Reviews and
Enquiries pages, the single-enquiry view and the dashboard. Each page keeps
its own state: a cached list, a loading flag, a form buffer, an edit id, an
image slot or a selection. Its handlers change that state in response to
backend replies and the user's answers to confirmation dialogs.

How the pages are modelled:

- Each page is a Dafny class whose fields are the page's React state.
- Each handler is a method, taken as one atomic step.
- The handler receives the outcome of every API helper it awaits as a
  parameter. The type is `Api.Reply`: `Success(data)`, `Failure(message)`,
  or `Thrown` for a rejected promise. A `Failure("")` stands for a reply
  without a message.
- The handler also receives the answer to `window.confirm` as a boolean.
- A refetch that a handler starts without awaiting it gets its own reply
  parameter. The handler runs the page's `Fetch` method on that reply.

Every page except the dashboard keeps two ghost logs (the dashboard shows
no notification, so it keeps only `calls`):

- `calls` records every outgoing request: remote calls, image uploads and
  releases, and confirmation dialogs.
- `notices` records every success and error notification.

These logs are what the contracts use to say things like "no API call is
issued", "the image is released only after the record delete succeeds",
and "the confirmation is asked before the delete".

The modules:

- `Api` — replies, calls and notices; `res?.message || fallback`; the
  `if (editingId)` create-or-edit choice.
- `JsArrays` — the JavaScript array and string operations the pages use:
  - `filter`;
  - the index-dropping filter of the remove buttons;
  - `String.prototype.trim`, over the ECMAScript white space and line
    terminator characters.
- `Clients` — the repeatable-field buffer (companies, e-mails, phones), the
  payload builder and the page.
- `Work` — info blocks are objects (`Work.InfoBlock`), and the handlers
  mutate them in place. `handleEdit` puts the cached record's own block
  array into the buffer, so an edit changes the cached list's blocks too.
  `Work.CancelledEditStaysInCache` proves that an edit made and then
  cancelled with the form reset is still visible in the cached list.
- `Projects` — the six-field form and the required-field check, the
  flattening of populated references on edit, and the image release after a
  record delete.
- `Banners` — the checkbox-or-value form, the image slot, and the
  edit-mode-and-selection choice of update versus create.
- `Subscribers` — list normalisation, the selection, select-all, the
  all-selected indicator and the bulk delete.
- `Dash` — the summary fetch, the nine cards, the overview bar, the monthly
  rows with their synthetic "Last Month" values, and plural suffixes.
- `Reviews`, `Enquiries`, `SingleEnquiry` — list pages with deletes, the
  verify toggle, the view route and the mark-opened-once fetch.

Behaviours of the code worth noting, all modelled as written:

- A removal of a repeatable field has no lower bound in the handler; only
  the rendered remove buttons are gated on more than one entry.
- Deleting a Work or Banner record never releases its images; only Projects
  does.
- The all-selected indicator compares lengths only. It is shown to mean
  "every listed id is selected" under the page's invariants: ids are
  distinct and the selection lies within the list.
- A successful delete refetches the list rather than removing the entry
  from the cache.
- On the dashboard, a failed fetch still ends `loading`, and the card list
  is then empty.
- Handlers without `try/catch` stop at a thrown helper call. These are
  Clients, Work fetch/submit/delete, Projects fetch/submit/delete and
  Subscribers. In that case `loading` stays true.

## Model

| member | source | states |
|---|---|---|
| Api.MessageOr | src/pages/clients/Clients.jsx:31 | a non-empty message is shown as is; an empty or absent one falls back |
| Api.EditTarget | src/pages/clients/Clients.jsx:74 | the record to edit exists iff the edit id is a non-empty string, and it is that id |
| Api.Save | src/pages/clients/Clients.jsx:74-75 | the save request is an update of the edited id iff the edit id is truthy, otherwise a create of the same payload |
| JsArrays.FilterMembers | src/pages/clients/Clients.jsx:68-69 | `filter` keeps exactly the elements satisfying the predicate |
| JsArrays.FilterMultiset | src/pages/clients/Clients.jsx:68-69 | `filter` keeps every kept element with its multiplicity and drops the others entirely |
| JsArrays.FilterAppend | src/pages/clients/Clients.jsx:68-69 | `filter` distributes over concatenation, so relative order is kept |
| JsArrays.FilterKeepsAllIff | src/pages/clients/Clients.jsx:68-69 | `filter` returns its input unchanged iff every element satisfies the predicate |
| JsArrays.FilterIdempotent | src/pages/clients/Clients.jsx:68-69 | filtering twice equals filtering once |
| JsArrays.FilterNoDup | src/pages/subscribers/Subscribers.jsx:39 | filtering a duplicate-free list leaves it duplicate-free |
| JsArrays.WithoutIsSplice | src/pages/clients/Clients.jsx:57-60 | dropping index i is the splice `s[..i] + s[i+1..]` for an index in range and the identity otherwise |
| JsArrays.WithoutShape | src/pages/work/Work.jsx:106-109 | dropping an index in range shortens by one, keeps the prefix and shifts the suffix down by one |
| JsArrays.TrimStart | src/pages/clients/Clients.jsx:68 | the result is the suffix left after dropping an all-white-space prefix, and it does not start with white space |
| JsArrays.TrimEnd | src/pages/clients/Clients.jsx:68 | the result is the prefix left after dropping an all-white-space suffix, and it does not end with white space |
| JsArrays.Trim | src/pages/clients/Clients.jsx:68 | the result is a slice of the input between an all-white-space prefix and suffix, and neither starts nor ends with white space |
| JsArrays.TrimEmptyIffBlank | src/pages/clients/Clients.jsx:68 | `trim()` is empty iff the string is all white space |
| Clients.EmptyForm | src/pages/clients/Clients.jsx:19-24 | a fresh buffer has an empty name and exactly one empty entry in each group |
| Clients.WrapAt | src/pages/clients/Clients.jsx:67 | companies are wrapped one-for-one and in order, blanks included |
| Clients.WrapNames | src/pages/clients/Clients.jsx:105 | re-wrapping the flattened names gives the record's companies back |
| Clients.NamesWrap | src/pages/clients/Clients.jsx:67 | flattening the wrapped names gives the edited names back |
| Clients.NonBlankIff | src/pages/clients/Clients.jsx:68-69 | the filter test `trim() !== ""` holds iff the entry has a non-white character |
| Clients.KeepNonBlank | src/pages/clients/Clients.jsx:68-69 | the e-mail and phone filter keeps exactly the non-blank entries, each with its multiplicity, in order |
| Clients.BuildPayload | src/pages/clients/Clients.jsx:65-70 | the payload keeps the name and wraps every company, in order |
| Clients.PayloadDropsBlanks | src/pages/clients/Clients.jsx:65-70 | the payload's e-mails and phones are the buffer's with exactly the blank entries dropped, multiplicities kept |
| Clients.PayloadFiltersSettle | src/pages/clients/Clients.jsx:68-69 | the sent e-mail and phone lists hold no blank entry |
| Clients.OneCompanyOneEmail | src/pages/clients/Clients.jsx:65-70 | a buffer with one company, a blank and a real e-mail and a blank phone is sent with the company wrapped, the real e-mail only and no phone |
| Clients.NamesAt | src/pages/clients/Clients.jsx:105 | flattening is one-for-one and in order: entry i is company i's name |
| Clients.FormOf | src/pages/clients/Clients.jsx:103-107 | the edit buffer copies name, e-mails and phones, and entry i of its companies is company i's name |
| Clients.EditRoundTrip | src/pages/clients/Clients.jsx:102-108 | saving an unedited record sends its name and companies back unchanged, and its e-mails and phones too when none is blank |
| Clients.ClientsPage.constructor | src/pages/clients/Clients.jsx:13-24 | empty list, closed modal, no edit id, the empty buffer |
| Clients.ClientsPage.Fetch | src/pages/clients/Clients.jsx:27-33 | success replaces the list; failure keeps it and notifies; a throw leaves loading on |
| Clients.ClientsPage.HandleChange | src/pages/clients/Clients.jsx:40-42 | only the client name changes |
| Clients.ClientsPage.HandleArrayChange | src/pages/clients/Clients.jsx:45-49 | only entry i of the group changes; the group's length, the other groups and the name are unchanged |
| Clients.ClientsPage.AddField | src/pages/clients/Clients.jsx:52-54 | exactly one empty entry is appended to the group; nothing else changes |
| Clients.ClientsPage.RemoveField | src/pages/clients/Clients.jsx:57-60 | entry i is dropped with the rest in order; when the remove button is offered the group keeps at least one entry |
| Clients.ClientsPage.Submit | src/pages/clients/Clients.jsx:63-87 | sends the built payload to edit iff the edit id is set; success resets and closes, then refetches; failure keeps the buffer and the edit id |
| Clients.ClientsPage.Delete | src/pages/clients/Clients.jsx:90-99 | the confirmation comes first; when it is declined nothing else is sent; a successful delete refetches; a failed one keeps the list |
| Clients.ClientsPage.HandleEdit | src/pages/clients/Clients.jsx:102-111 | the buffer is the record with companies flattened, the edit id is the record's and the modal opens |
| Clients.ClientsPage.HandleAddNew | src/pages/clients/Clients.jsx:114-123 | an empty create form in an open modal |
| Clients.ClientsPage.CloseModal | src/pages/clients/Clients.jsx:125-134 | the modal closes and the buffer and the edit id are discarded |
| Work.InfoBlock.Empty | src/pages/work/Work.jsx:22-25 | a new block has empty heading, details and image |
| Work.Values | src/pages/work/Work.jsx:124 | the payload's blocks are the buffer's blocks' current contents, in order, unfiltered |
| Work.WorkPage.constructor | src/pages/work/Work.jsx:15-25 | the buffer is an empty title and exactly one new empty block; no edit id |
| Work.WorkPage.Fetch | src/pages/work/Work.jsx:28-34 | success replaces the list with the data, or with the empty list when absent; failure keeps it |
| Work.WorkPage.HandleTitleChange | src/pages/work/Work.jsx:46-48 | only the title changes |
| Work.WorkPage.HandleBlockChange | src/pages/work/Work.jsx:41-46 | only the named field of block i changes, in place |
| Work.WorkPage.Upload | src/pages/work/Work.jsx:52-76 | offered only while block i's slot is empty; a successful upload sets only block i's image to the first url; no file, failure or no url changes nothing; a filled slot afterwards holds this upload's url |
| Work.WorkPage.ImageDelete | src/pages/work/Work.jsx:79-95 | an empty slot sends nothing; the image is cleared only when the release succeeds |
| Work.WorkPage.AddInfoBlock | src/pages/work/Work.jsx:98-103 | one new empty block is appended; the others are kept |
| Work.WorkPage.RemoveInfoBlock | src/pages/work/Work.jsx:106-109 | block i is dropped with the rest in order; when offered at least one block remains |
| Work.WorkPage.ResetForm | src/pages/work/Work.jsx:112-116 | an empty title, one new empty block, no edit id, closed modal |
| Work.WorkPage.OpenModal | src/pages/work/Work.jsx:164 | only the modal opens |
| Work.WorkPage.Submit | src/pages/work/Work.jsx:119-137 | sends title and block contents unvalidated to edit iff the edit id is set; success resets and refetches; failure keeps the buffer |
| Work.WorkPage.Delete | src/pages/work/Work.jsx:140-149 | the confirmation comes first; only the record delete is sent, never an image release; success refetches |
| Work.WorkPage.HandleEdit | src/pages/work/Work.jsx:152-156 | the buffer holds the record's own block objects (aliased), the edit id is the record's |
| Work.CancelledEditStaysInCache | src/pages/work/Work.jsx:43-44 | an edit of a loaded block followed by a reset is still visible in the cached list |
| Projects.SetField | src/pages/projects/Projects.jsx:61-64 | only the named field changes; the image slot is not an input |
| Projects.Flatten | src/pages/projects/Projects.jsx:149-150 | a populated reference gives its id when that id is non-empty and the record object itself otherwise; a raw id is kept; a missing one stays missing; the result is falsy iff the reference is missing or an empty raw id |
| Projects.FormOf | src/pages/projects/Projects.jsx:144-152 | the edit buffer copies the text fields, flattens the references and maps a missing image to "" |
| Projects.EditedRecordNeedsImage | src/pages/projects/Projects.jsx:112-121 | a record loaded for edit passes the required check iff its text fields and image are non-empty and neither reference is missing or an empty raw id; a populated reference with an empty `_id` passes |
| Projects.ProjectsPage.constructor | src/pages/projects/Projects.jsx:17-33 | empty list, closed modal, no edit id, all-empty buffer |
| Projects.ProjectsPage.Fetch | src/pages/projects/Projects.jsx:42-48 | success replaces the list; failure keeps it |
| Projects.ProjectsPage.HandleChange | src/pages/projects/Projects.jsx:61-64 | the buffer changes by exactly the named field |
| Projects.ProjectsPage.Upload | src/pages/projects/Projects.jsx:67-91 | offered only while the slot is empty; a successful upload with a url sets only the image to the first url; otherwise the buffer is unchanged; a filled slot afterwards holds this upload's url |
| Projects.ProjectsPage.ImageDelete | src/pages/projects/Projects.jsx:94-106 | an empty slot sends nothing; the slot is cleared only on success |
| Projects.ProjectsPage.Submit | src/pages/projects/Projects.jsx:109-141 | a missing required field is reported with no call; otherwise the buffer is sent as is to edit iff the edit id is set; success resets and refetches; failure keeps the buffer |
| Projects.ProjectsPage.HandleEdit | src/pages/projects/Projects.jsx:144-155 | the buffer is the flattened record, the edit id is the record's, the modal opens |
| Projects.ProjectsPage.Delete | src/pages/projects/Projects.jsx:158-169 | the confirmation comes first; the image is released only after the record delete succeeds and only when its url is non-empty |
| Projects.ProjectsPage.ResetForm | src/pages/projects/Projects.jsx:172-183 | all-empty buffer, no edit id, closed modal |
| Projects.ProjectsPage.OpenModal | src/pages/projects/Projects.jsx:191 | only the modal opens |
| Banners.Changed | src/pages/banners/Banners.jsx:52-55 | a checkbox stores its checked state, any other input its value; other fields are unchanged |
| Banners.FormOf | src/pages/banners/Banners.jsx:146-151 | the edit buffer copies name, description, position and the active flag |
| Banners.SaveCall | src/pages/banners/Banners.jsx:108-112 | an update of the selected banner iff in edit mode with a selection, otherwise a create |
| Banners.BannersPage.constructor | src/pages/banners/Banners.jsx:17-31 | empty list, not editing, empty slot, the default buffer |
| Banners.BannersPage.Fetch | src/pages/banners/Banners.jsx:34-45 | success replaces the list; failure keeps it; loading ends false in every case |
| Banners.BannersPage.HandleChange | src/pages/banners/Banners.jsx:52-55 | the buffer changes by exactly the named field |
| Banners.BannersPage.Upload | src/pages/banners/Banners.jsx:58-82 | offered only while the slot is empty; a successful upload fills the slot with the first url; otherwise the slot is unchanged; a filled slot afterwards holds this upload's url |
| Banners.BannersPage.ImageDelete | src/pages/banners/Banners.jsx:85-97 | an empty slot sends nothing; the slot is cleared only on success |
| Banners.BannersPage.Submit | src/pages/banners/Banners.jsx:100-124 | an empty slot is reported with no call; otherwise the buffer plus image goes to update or create; success resets buffer and slot and refetches; failure keeps both |
| Banners.BannersPage.Delete | src/pages/banners/Banners.jsx:127-138 | the confirmation comes first; only the record delete is sent, never an image release |
| Banners.BannersPage.OpenModal | src/pages/banners/Banners.jsx:141-159 | with a banner: its fields, its image and edit mode; without: the defaults, an empty slot and create mode |
| Banners.BannersPage.CloseModal | src/pages/banners/Banners.jsx:347 | only the modal closes |
| Subscribers.Normalize | src/pages/subscribers/Subscribers.jsx:22-28 | the data when it is a list, else its `subscribers` list, else the empty list |
| Subscribers.Ids | src/pages/subscribers/Subscribers.jsx:99 | the list's ids, in list order |
| Subscribers.ToggleMembership | src/pages/subscribers/Subscribers.jsx:37-41 | toggling flips membership of the id and of no other id |
| Subscribers.ToggleNoDup | src/pages/subscribers/Subscribers.jsx:37-41 | toggling never creates duplicates |
| Subscribers.ToggleTwiceAbsent | src/pages/subscribers/Subscribers.jsx:37-41 | toggling an unselected id twice restores the selection exactly |
| Subscribers.ToggleTwicePresent | src/pages/subscribers/Subscribers.jsx:37-41 | toggling a selected id twice restores the selection's members and moves the id to the end |
| Subscribers.SelectAll | src/pages/subscribers/Subscribers.jsx:97-100 | checking selects every id in list order; unchecking empties the selection |
| Subscribers.AllSelectedMeansEveryId | src/pages/subscribers/Subscribers.jsx:102-105 | with distinct ids and a selection within the list, the length test holds iff the list is non-empty and every listed id is selected |
| Subscribers.SubscribersPage.constructor | src/pages/subscribers/Subscribers.jsx:12-14 | empty list and selection |
| Subscribers.SubscribersPage.Fetch | src/pages/subscribers/Subscribers.jsx:17-34 | success replaces the list by the normalised data; failure keeps it; ids stay distinct |
| Subscribers.SubscribersPage.ToggleSelect | src/pages/subscribers/Subscribers.jsx:37-41 | exactly the toggled id changes membership; the selection stays duplicate-free and within the list |
| Subscribers.SubscribersPage.HandleSelectAll | src/pages/subscribers/Subscribers.jsx:97-100 | the selection is all ids or none, and the indicator is on iff checked with a non-empty list |
| Subscribers.SubscribersPage.Delete | src/pages/subscribers/Subscribers.jsx:44-63 | an empty selection is reported with neither confirmation nor call; success clears the selection and refetches; failure keeps it; after a confirmed delete of a non-empty selection the delete button is disabled iff the delete did not fail |
| Dash.ChartsAgree | src/pages/dash/Dash.jsx:41-49 | the overview bar's counts are the monthly rows' "This Month" values and the values of the matching cards |
| Dash.CardCaptions | src/pages/dash/Dash.jsx:62-128 | the nine captions in order, pairwise distinct, and the route each card navigates to |
| Dash.CardsShape | src/pages/dash/Dash.jsx:62-128 | nine cards in a fixed order of distinct captions, each showing its own domain's count (the nested totals for enquiries, reviews and admins) when stats are present, none otherwise |
| Dash.LastMonth | src/pages/dash/Dash.jsx:217 | `max(0, n - k)`: never above the current count, zero iff the count is at most the offset |
| Dash.MonthRowsBounded | src/pages/dash/Dash.jsx:214-233 | four rows named Subscribers, Clients, Projects, Reviews; "This Month" is the count or 0; "Last Month" is `max(0, thisMonth - k)` with k = 5, 2, 1, 3 and never exceeds it; all zero without stats |
| Dash.PluralS | src/pages/dash/Dash.jsx:315 | the suffix is empty iff the count is exactly 1, otherwise "s" |
| Dash.PluralY | src/pages/dash/Dash.jsx:372 | "y" iff the count is exactly 1, otherwise "ies" |
| Dash.DashPage.constructor | src/pages/dash/Dash.jsx:28-30 | no stats, loading on, no chart data |
| Dash.DashPage.HandleFetch | src/pages/dash/Dash.jsx:33-56 | success stores the stats and the overview row; otherwise both are kept; loading ends false in every case |
| Reviews.ReviewsPage.constructor | src/pages/reviews/Reviews.jsx:13-14 | empty list, loading off |
| Reviews.ReviewsPage.Fetch | src/pages/reviews/Reviews.jsx:17-32 | success replaces the list; failure or a throw keeps it; loading ends false |
| Reviews.ReviewsPage.Delete | src/pages/reviews/Reviews.jsx:35-51 | the confirmation comes first; success refetches; failure keeps the list; loading ends false |
| Reviews.ReviewsPage.VerifyToggle | src/pages/reviews/Reviews.jsx:54-73 | sends the negated flag for that review; the message follows the previous flag; success refetches; loading ends false |
| Enquiries.ViewPath | src/pages/enquiries/Enquiries.jsx:54-56 | the view path is the enquiries prefix followed by the id |
| Enquiries.RouteId | src/pages/enquiries/Singleenquirie.jsx:13 | a route id read from a path is one whose view path is that path |
| Enquiries.RouteOfView | src/pages/enquiries/Enquiries.jsx:54-56 | the route of the view path of an id is that id |
| Enquiries.FormatDateTime | src/pages/enquiries/Enquiries.jsx:59-66 | an empty or missing date shows "-" |
| Enquiries.EnquiriesPage.constructor | src/pages/enquiries/Enquiries.jsx:13-14 | empty list, loading off |
| Enquiries.EnquiriesPage.Fetch | src/pages/enquiries/Enquiries.jsx:18-30 | success replaces the list; failure or a throw keeps it; loading ends false |
| Enquiries.EnquiriesPage.Delete | src/pages/enquiries/Enquiries.jsx:37-51 | the confirmation comes first; success refetches; failure keeps the list |
| SingleEnquiry.CompanyText | src/pages/enquiries/Singleenquirie.jsx:58 | a non-empty company name is shown as is; "-" exactly when it is absent or empty (or literally "-") |
| SingleEnquiry.EnquiryView.constructor | src/pages/enquiries/Singleenquirie.jsx:13-15 | the route id and no enquiry, so the loading view shows (`ShowsLoading`) |
| SingleEnquiry.EnquiryView.FetchEnquiry | src/pages/enquiries/Singleenquirie.jsx:18-35 | stores exactly the fetched record; the mark-opened edit is sent iff it was not opened; the stored record is not changed by it, so the loading view is gone and the "Opened At" line shows iff the fetched record has an opening time; failure stores nothing and leaves the loading view as it was |

## Left out

- Markup, styling, animation, chart rendering and icons. The model keeps
  only the conditions that decide which controls exist:
  - `UploadOffered`: the upload control appears only while the slot is empty;
    it is the precondition of each page's `Upload`.
  - `RemoveOffered`: remove buttons appear only while there are two or more
    entries.
  - `DeleteDisabled`: the Subscribers delete button is disabled when the
    selection is empty or the page is loading; `Delete` states when it is
    disabled afterwards.
  - `ShowsLoading`: the single-enquiry view shows its loading state while
    no enquiry is stored; the constructor and `FetchEnquiry` state it.
  - `OpenedAtShown`: the "Opened At" line appears only when the enquiry has
    an opening time; `FetchEnquiry` states that it follows the fetched record.
- The API helpers and the notification helper are not part of this model,
  because their source is not shown. Replies are parameters and
  notifications are logged events.
- A helper that throws is one `Thrown` outcome. The exception's own message
  is not modelled.
- `window.confirm` is a boolean parameter. Navigation is the emitted path
  (`Enquiries.ViewPath`). The router's parameter reading is `Enquiries.RouteId`.
- The file picker, `FormData` and event objects are reduced to "file present
  or absent" and a field name with its value.
- Locale formatting and the clock are not modelled:
  - `formatDateTime` keeps only its "-" guard; the rendered date is a
    parameter.
  - `opened_at` is an opaque timestamp parameter.
- Concurrency is not modelled: interleaved or cancelled requests,
  `Promise.all`, and the stale state a React closure may read. Each handler
  is one step that reads the current state.
- The `uploading` flags are left out. Every handler is atomic, so they are
  false after each step.
- Projects' client and work dropdown lists (`fetchClients`/`fetchWorks`,
  src/pages/projects/Projects.jsx:50-58) are left out. They are presentation
  data and take no part in the form logic.
- The mount effects (`useEffect`) are left out. A page's first fetch is an
  explicit `Fetch` call after construction.
- Console logging is left out.
- Projects.Flatten: a populated reference's record object is held as the
  value `WholeRecord`. Its fields are not modelled, so the payload records
  only that the object itself is sent.
- Banners.FormOf: `position` is held as text, as the input field holds it.
  The backend's numeric type is not modelled.
- Dash.CardsShape: the nested `reviews`, `enquiries` and `admins` groups of
  the summary are assumed present. If one is absent, the source's render
  fails, and the model does not represent that.
- Clients.ClientsPage.HandleArrayChange and the per-block Work handlers
  require an index within the list, as the rendered rows only ever pass.
  For an index past the end, the Clients handler's `updated[index] = value`
  would extend the array. The Work handlers reach through the element
  (`updatedInfo[index][field]`, `updatedInfo[index].img`,
  `form.info[index].img`), so they would throw a TypeError on `undefined`;
  that throw is not modelled.
- Banners.BannersPage.Upload, Projects.ProjectsPage.Upload and
  Work.WorkPage.Upload require an empty image slot. The upload control is
  rendered only while its slot is empty (src/pages/banners/Banners.jsx:279,
  src/pages/projects/Projects.jsx:354, src/pages/work/Work.jsx:265), so no
  other call is possible from the page. The handlers themselves would
  overwrite a stored URL without releasing it.
- Subscribers.SubscribersPage.Fetch requires the backend's subscriber ids
  to be distinct. Subscribers.SubscribersPage.ToggleSelect requires the id
  to be a listed one, as only rendered rows can be toggled.
