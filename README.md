# Nirvana Interiors site: a Dafny model of its logic

The site is a marketing brochure for an interior-design studio, with a
booking form that posts to a serverless endpoint, which relays the inquiry
as an email. Almost all of it is animated markup. This project models the
five pieces that hold sequential logic, and proves what each promises.

- `consultation.dfy`: the endpoint `handler`. `Consultation.Handle` is the
  whole guard chain as one function: OPTIONS, the method check, the body
  destructuring inside `try`, the required fields, the API key, and the send.
  Its contract states path by path what each request yields.
  `Consultation.Serve` runs the same chain step by step against a mutable
  `Response` object (headers map, status, body). It is proved to leave that
  object exactly as `Handle` describes. The email provider is an outcome
  parameter: `SendResolved(id)` for whatever the `send` call resolves to, whose
  `id` the handler passes on unchecked, or `SendThrew(thrown)`. `Serve` returns the
  email it would have handed to the provider, if it got that far.
- `booking.dfy`: the booking page. The `BookingPage` class holds
  `formState`, `isSubmitted`, `isSubmitting` and `error`. `Edit` is a field's
  `onChange`. `HandleSubmit` is `BeginSubmit` (the synchronous start)
  followed by `FinishSubmit` (try/catch/finally once the outcome is known).
  The outcome is a value: development mode, a response with its parsed
  JSON, or a rejection. `Settle` states what each outcome comes to.
- `navigation.dfy`: the app's page selector. It covers the five-value
  `PageType` as `Page`, the string keys pages are stored under, and
  `String.prototype.replace` as `ReplaceFirst`. It has the key-to-view
  dispatch `Render`, and the `App` class whose three handlers record a
  scroll-to-top and then set the page. It also models the on-screen
  controls and the handler each one calls.
- `portfolio.dfy`: the six-project gallery, the category filter and the
  aspect-ratio rule.
- `service_data.dfy`: the three service kinds and the constant
  `servicesData` catalogue.
- `inquiry_flow.dfy`: the page and the endpoint together. It covers what
  the page posts, what the endpoint answers, and what the page then shows.
- `js_values.dfy`, `wrappers.dfy`: JavaScript truthiness, template-literal
  text, the `||` default and thrown values; an `Option` type.

Two behaviours of the booking page worth knowing:
- Only name and email carry `required` (components/BookingPage.tsx:130,
  141). The message textarea (185-191) does not, so an empty message is
  posted and answered 400 (`InquiryFlow.EmptyMessageRejectedByServer`).
- A rejected fetch shows the thrown `Error`'s own message
  (components/BookingPage.tsx:50). Only a non-`Error` value shows the
  generic text.

## Model

| member | source | states |
|---|---|---|
| `Consultation.Handle` | api/send-consultation.js:5-115 | Every path carries the same four CORS headers and a status in {200, 400, 405, 500}. OPTIONS gives 200 with an empty body and no send. Any method other than OPTIONS and POST gives 405 'Method not allowed'. A POST whose body is absent or null throws while destructuring and gives 500 'Failed to send email', not 400. A falsy name, email or message (`MissingRequired`) gives 400 'Missing required fields', and this is checked before the key. With complete fields and no key the result is 500 'Email service not configured' with no send. The send is attempted exactly for a complete POST with a key, using the composed email. A POST gets 200 with the success body, carrying the reply's `id` unchecked, exactly when the send resolves, whatever it resolves to. A thrown send gives 500 with `details`. |
| `Consultation.Serve` | api/send-consultation.js:5-115 | Run step by step on a response object: the headers become the old headers overlaid with the four CORS headers. Status, body and the attempted email are those of `Handle`. |
| `Consultation.CorsHeadersWritten` | api/send-consultation.js:7-10 | The four `setHeader` calls, in order, overlay exactly the CORS header map on whatever headers were there. |
| `Consultation.ComposeEmail` | api/send-consultation.js:40-44 | The email has the fixed sender and recipient. `replyTo` is the submitter's email. The subject is exactly "New " + type + " Project Inquiry from " + name. The budget line is 'Not specified' for a falsy budget, otherwise the budget. |
| `Consultation.Details` | api/send-consultation.js:112 | The `details` of a 500 is an Error's message, and `String(error)` of any other thrown value. |
| `Consultation.DestructureError` | api/send-consultation.js:24 | An absent or null body makes the destructuring throw an `Error` value, a TypeError. |
| `JsValues.Text` | api/send-consultation.js:44 | Template interpolation: a string gives itself (the empty string included), `undefined` gives "undefined", `null` gives "null". |
| `JsValues.OrElse` | api/send-consultation.js:81 | `v \|\| fallback` gives v's text when v is truthy, and the fallback otherwise. |
| `Consultation.Response.SetHeader` | api/send-consultation.js:7 | `setHeader` updates one header and changes nothing else. |
| `Consultation.Response.Status` | api/send-consultation.js:14 | `res.status(code)` sets the status code and changes nothing else. |
| `Consultation.Response.Json` | api/send-consultation.js:20 | `res.json(body)` writes a JSON body and changes nothing else. |
| `Consultation.Response.End` | api/send-consultation.js:14 | `res.end()` ends the response with no body and changes nothing else. |
| `Booking.BookingPage.constructor` | components/BookingPage.tsx:10-19 | Initially `type` is 'Residential', the select's first option, and the other fields are empty. The page is not submitted, not submitting, and has an empty error. |
| `Booking.Form.With` | components/BookingPage.tsx:135 | A field edit replaces exactly that field and keeps the other four. |
| `Booking.BookingPage.Edit` | components/BookingPage.tsx:135-190 | Each `onChange` replaces one field of `formState` and leaves the submission state alone. |
| `Booking.BookingPage.BeginSubmit` | components/BookingPage.tsx:21-24 | Callable only while the submit button is enabled (not submitted, not submitting; lines 124, 208). Starting a submit sets `isSubmitting` and clears `error` before any outcome is handled. The submit button is then disabled. The form is unchanged. |
| `Booking.Settle` | components/BookingPage.tsx:26-51 | Through `TryBlock` (the `try` body) and `CaughtMessage` (the `catch` clause): the submission succeeds exactly in development mode or on an ok response. A non-ok response always fails with a non-empty message: the server's truthy `error` string, else 'Failed to send consultation request'. A rejection shows the Error's message, or the generic 'Something went wrong…' text for a non-Error value. |
| `Booking.BookingPage.FinishSubmit` | components/BookingPage.tsx:26-54 | After every outcome, including the development-mode early return, `isSubmitting` is false. `isSubmitted` becomes true exactly on success. `error` is set exactly on failure. `formState` is untouched. |
| `Booking.BookingPage.HandleSubmit` | components/BookingPage.tsx:21-55 | Callable only while the form is on screen with its submit button enabled (lines 124, 208). The whole handler posts the current form, or nothing in development mode. It leaves `isSubmitting` false and the form unchanged. Afterwards `isSubmitted` and `error` are as `Settle` says, with the error cleared on success. |
| `InquiryFlow.Posted` | components/BookingPage.tsx:36-40 | The posted JSON carries the five form fields as strings. |
| `InquiryFlow.Observed` | components/BookingPage.tsx:36-42 | A reply with a JSON body resolves with `response.ok` true exactly for a 2xx status. Its `error` is the body's `error` string, or missing for the success body. A reply ended with no body makes `response.json()` reject with an `Error`. The page is taken to receive exactly the endpoint's reply. |
| `InquiryFlow.EmptyMessageRejectedByServer` | components/BookingPage.tsx:185-191 | A form with name and email filled but an empty message passes the browser's `required` check. The endpoint answers 400, and the page shows 'Missing required fields'. |
| `InquiryFlow.SubmissionOutcome` | components/BookingPage.tsx:36-51 | For any form the browser lets through, the page ends submitted exactly when the message is filled, the key is configured and the provider's send resolves. Otherwise it shows the endpoint's error string. |
| `InquiryFlow.PostedFormEmail` | api/send-consultation.js:40-44 | For a posted form, the email replies to the form's email and its subject names the form's type and name. An empty budget shows as 'Not specified'. |
| `Navigation.App.constructor` | App.tsx:31 | The initial page is 'home', and no effect has happened yet. |
| `Navigation.App.NavigateToBooking` | App.tsx:48-51 | Scrolls to the top, then sets the page to 'booking', whatever it was. |
| `Navigation.App.NavigateToHome` | App.tsx:53-56 | Scrolls to the top, then sets the page to 'home'. |
| `Navigation.App.NavigateToService` | App.tsx:58-61 | Scrolls to the top, then sets the page key to 'service-' followed by the service kind. |
| `Navigation.App.Navigate` | App.tsx:48-61 | Each handler makes the page its target, regardless of the prior page. The effects appended are a scroll-to-top and then the page change. |
| `Navigation.LastWriteWins` | App.tsx:48-61 | After any non-empty sequence of navigation calls, the page is the target of the last call. There is no guard and no history. |
| `Navigation.PageKeyInjective` | App.tsx:28 | The five pages are stored under five distinct keys. |
| `Navigation.ReplaceFirstOfPrefixed` | App.tsx:124 | `ReplaceFirst` models `String.prototype.replace` with a string pattern. Removing the first 'service-' from 'service-' + k gives back exactly k. |
| `Navigation.ReplaceFirstWithout` | App.tsx:124 | `ReplaceFirst` (`replace`) leaves a string without an occurrence of the pattern unchanged. |
| `Navigation.RenderDispatch` | App.tsx:66-129 | `Render` models the conditional rendering of lines 75-129. Dispatch is exhaustive: 'home' renders the home tree and 'booking' the booking page. A service page renders the service layout with the key minus 'service-', which reads back as the service's own kind. The progress bar shows exactly on 'home'. |
| `Navigation.App.CurrentView` | App.tsx:75-129 | The view on screen is the one intended for the stored page. |
| `Navigation.Handler` | App.tsx:81-126 | The card buttons open their service page. Back on the booking and service pages goes home. Every booking button, including the service page's, opens the booking page. |
| `Navigation.Controls` | App.tsx:75-129 | Which controls each view renders: the home page's booking buttons (components/Navbar.tsx:89, 127; components/Hero.tsx:92; components/Contact.tsx:20) and service cards (components/Services.tsx:47), the booking page's back button (components/BookingPage.tsx:73, 229), the service page's back and booking buttons (components/services/ServicePageLayout.tsx:42, 50, 262, 280). Every view has a control, and no view but home has a service card. |
| `Navigation.ServiceCardsOnHome` | components/Services.tsx:47 | Each service's card is on screen exactly on the home view. |
| `Navigation.HandlerAsWritten` | App.tsx:88 | As wired, the service cards call nothing (components/Services.tsx:47, 55). Every other control calls the same handler as in `Handler`. |
| `Navigation.ServicePagesUnreachableAsWritten` | App.tsx:88 | Over `Click` (one click on a control on screen, per `Controls`) and `Clicks` (a sequence of them): as written, no sequence of clicks from a non-service page ever reaches a service page. |
| `Navigation.ServicePageReachable` | App.tsx:88 | With the service cards wired, one click from home opens each service page. |
| `Portfolio.FilterKeepsCategory` | components/Portfolio.tsx:61 | About `Filter`, the `filter` call: it keeps exactly the projects of the category, each as many times as it occurs in the input, in original order as a subsequence, and never more than it was given. |
| `Portfolio.FilteredProjects` | components/Portfolio.tsx:59-61 | 'All' shows every project in original order. Any other filter shows exactly the projects of that category, in order, as a subsequence of at most six. |
| `Portfolio.InitialFilterShowsAll` | components/Portfolio.tsx:57 | The initial filter is 'All', and it shows the whole list. |
| `Portfolio.ResidentialTab` | components/Portfolio.tsx:88-93 | The 'Residential' tab shows ids 1, 3, 4, 6. |
| `Portfolio.CommercialTab` | components/Portfolio.tsx:94-99 | The 'Commercial' tab shows ids 2, 5. |
| `Portfolio.FilterSplits` | components/Portfolio.tsx:61 | When every category is a or b, filtering by a and by b together yields each project exactly as often as the list does. |
| `Portfolio.CategoryTabsSplitAll` | components/Portfolio.tsx:82-99 | The second and third filter tabs, the two categories, together split what the first tab, 'All', shows. |
| `Portfolio.IdsUnique` | components/Portfolio.tsx:4-54 | Project ids are pairwise distinct, as their use as render keys requires. |
| `Portfolio.AspectRatioClass` | components/Portfolio.tsx:127 | The class is 'aspect-[3/4]' exactly for size 'tall', and 'aspect-[4/3]' for every other size. |
| `Portfolio.PortraitTiles` | components/Portfolio.tsx:127 | Projects 1, 4 and 5 are the portrait tiles. |
| `ServiceData.ParseServiceType` | components/services/serviceData.ts:1 | A string reads as a service kind only when it is that kind's key, and each kind's key reads as that kind. |
| `ServiceData.KeyRoundTrip` | components/services/serviceData.ts:1 | Each service kind's key reads back as that kind. |
| `ServiceData.ServicesDataTotal` | components/services/serviceData.ts:23-162 | The record has an entry for every service kind, and each entry's id equals its key. |
| `ServiceData.Lookup` | components/services/ServicePageLayout.tsx:17 | The service page's lookup is total. Every entry has three paragraphs, seven capabilities, and four process steps numbered '01' to '04' in order. |

## Left out

- Animation, scroll-linked transforms, spring parameters, the smooth-scroll
  style effect and the lazy loading with its fallback: these are
  presentation and floating-point scroll math.
- The navbar's scroll threshold and mobile menu: UI chrome.
- The HTML markup of the email: it is content. Only the sender, recipient,
  reply-to, subject and budget text are modelled.
- The email SDK call, `fetch`, `response.json()` and the development-mode
  delay: these are foreign or asynchronous I/O, taken as outcome values.
  Development-only `console` logging is left out as well. One of those
  lines is not only logging: in development, api/send-consultation.js:98
  reads `emailResponse.id` without `?.`, so a nullish send result would
  throw there and turn the 200 into a 500. `SendOutcome` cannot express a
  nullish send result, and `Consultation.Handle` does not model this.
- The class-name helper in lib/utils.ts: it wraps libraries that are not
  part of this model.
- Search metadata, build configuration, styling configuration and root
  mounting: declarative configuration and DOM I/O.
- The rendering of the services section, contact section, sculpture
  gallery and service-page layout: static markup. Only the controls that
  call a navigation handler are modelled. The `alert` calls are browser
  I/O.
- The browser's enforcement of `required` and of the email input's
  format: only which inputs carry `required` is modelled.
- A page resolving after the user has navigated away: React's handling of
  updates to an unmounted component is not modelled.
- JSON values other than a missing property, `null` or a string in the
  request or response fields (numbers, booleans, nested objects), as
  `JsValue` admits only those three.
- `Consultation.Handle`, `InquiryFlow.SubmissionOutcome`: the email client
  is constructed at module load (api/send-consultation.js:3), before any
  request, and that construction is not modelled. `keyPresent` stands only
  for the test at line 32. The SDK is not part of this model. If its
  constructor rejects a missing key, the handler never runs without a key:
  lines 32-37 are then unreachable, and the platform's own error replaces
  every reply, without the CORS headers. The 'Email service not
  configured' outcome these members state holds only if construction
  succeeds.
- `Consultation.DestructureError`: the message text is the V8 engine's
  wording, and other engines word it differently.
- `Booking.Settle`: the message for reading `error` of a null JSON value
  is the V8 engine's wording.
- `InquiryFlow.Observed`: the message for parsing an empty response body
  as JSON is the V8 engine's wording.

## Findings

| source | as written | input that shows it | evidently intended | confidence | as-written member | corrected member |
|---|---|---|---|---|---|---|
| App.tsx:88 | `Services` is given `onExploreService`, but the component takes no props (components/Services.tsx:55), and its "Explore Service" buttons have no click handler (components/Services.tsx:47). `handleNavigateToService` is never reachable from the screen. | From 'home', click any service card's "Explore Service" button: the page stays 'home'. | Each card's button calls `handleNavigateToService` with its kind and opens that service page. | not executed | `Navigation.ServicePagesUnreachableAsWritten` | `Navigation.ServicePageReachable` |
