# Upliftr Media site: chat assistant, gateway, navigation and service pages

This project models the parts of the Upliftr Media agency site that hold real
logic. It proves properties of those models in Dafny.

- **Chat assistant** (`chatbot.dfy`). One press of "send" in the chat widget is
  one transition of the widget's state:
  - `messages`: the visible bubbles
  - `history`: the turns sent to the language model
  - `input`
  - `isLoading`
  - `showSuccess`
  - `enquiryBooked`
  - `leads`: the `upliftr_enquiries` log

  `Send` specifies the transition on values. `ChatWidget.HandleSend` performs it
  step by step on the widget's fields, including the `for` loop over the model's
  function calls (`CollectBookings`), and is proved equal to `Send`. `Run` replays
  any sequence of typing and sending events. Lemmas state what holds over a whole
  session:
  - After a booking, the session stays quiet.
  - The log grows exactly when the session becomes booked.
  - The widget is never left loading.
- **Gateway** (`gemini.dfy`). Builds the request: the caller's history plus one
  user turn, the fixed system instruction, and the single `bookEnquiry` tool
  whose four required fields are fixed. It hands back the model's response, or
  rethrows the model call's error.
- **Navigation bar** (`navbar.dfy`):
  - the hash-link click handler: split on `#`, default an empty route to `/`,
    intercept only on the same page
  - the `links` table and the active-link test
  - the menu and scroll state of the bar
- **Service pages** (`catalogue.dfy`, `service_detail.dfy`):
  - the `SERVICES` catalogue
  - the lookup by route id and the not-found page
  - the features list
  - the "More Services" cards: `filter` then `slice(0, 4)`, with their links
- **Shared** (`text.dfy`, `wrappers.dfy`). The JavaScript string operations the
  code relies on: `trim`, `split` on one character, and template literals. Also
  `Option` and `Result`.

The language-model call, the clock and the page's element ids are parameters:
- The gateway's answer to a send comes in as a `Result<Response, string>`
  (`Send`), or as the function `generate` (`GetGeminiResponse`).
- The ISO timestamp comes in as `now`.
- The scroll target is checked against a set of element ids.

How the conversation sent to the model grows:
- A failed gateway call leaves the history untouched. The user turn is pushed
  only after the call returns (components/Chatbot.tsx:54-57).
- A successful exchange does not always add exactly two entries:
  - A reply with function calls adds the user turn plus one model turn per
    `bookEnquiry` call.
  - If none of the calls is named `bookEnquiry`, it adds only the user turn
    (`SendBooked`, `SendOnlyOtherCalls`).
  - Several `bookEnquiry` calls in one reply book several leads.

## Model

| member | source | states |
|---|---|---|
| Text.Trim | components/Chatbot.tsx:33 | `input.trim()`: the result is the piece of the input with only ECMAScript whitespace before and after it; it starts and ends with a non-whitespace character, and it is empty exactly when every character is whitespace |
| Text.TrimmedAtUnique | components/Chatbot.tsx:33 | only one piece of a string is what is left once trimmed, so `Trim`'s contract fixes its result |
| Text.Split | components/Navbar.tsx:24 | `path.split('#')`: at least one piece; two or more exactly when the separator occurs; no piece contains the separator |
| Text.JoinSplit | components/Navbar.tsx:24 | joining the pieces of a split with the separator gives back the original string |
| Text.SplitJoin | components/Navbar.tsx:24 | splitting a join of separator-free pieces gives back exactly those pieces |
| Text.SplitFirst | components/Navbar.tsx:24 | the first piece of a split is the text before the first separator |
| Text.SplitSecond | components/Navbar.tsx:24 | the second piece of a split is the text between the first separator and the next one, or the end |
| Text.InterpolatedValue | components/Chatbot.tsx:82 | every value interpolated into a template literal occurs in the resulting text |
| Gemini.BookEnquiryDeclaration | services/gemini.ts:4-29 | the declaration is named `bookEnquiry`, takes an object, lists exactly the properties `fullName`, `email`, `projectType`, `details` in that order, requires exactly those four, and types each as a string |
| Gemini.Tools | services/gemini.ts:56 | exactly one tool is declared, holding exactly the `bookEnquiry` declaration, so the only declared function name is `bookEnquiry` |
| Gemini.Contents | services/gemini.ts:31-37 | `contents` is the caller's history, unchanged and in order, followed by exactly one user turn with the message; with no history it is that single turn |
| Gemini.GatewayConfig | services/gemini.ts:38-58 | the configuration declares only `bookEnquiry` and uses temperature 0.7 |
| Gemini.BuildRequest | services/gemini.ts:35-59 | the request carries the model id `gemini-3-flash-preview`, the contents above and the fixed configuration |
| Gemini.GetGeminiResponse | services/gemini.ts:61-66 | the result is a failure exactly when the model call throws, and it carries that error; otherwise it is the model's response, untouched |
| Chatbot.IsBlank | components/Chatbot.tsx:33 | `!input.trim()` holds exactly when every character of the input is ECMAScript whitespace (the empty input included) |
| Chatbot.Field | components/Chatbot.tsx:82 | `${leadData.key}`: a present key prints its value, a missing one prints `undefined` |
| Chatbot.Confirmation | components/Chatbot.tsx:82 | the confirmation opens with the fixed "Perfect! I've booked your enquiry for " text; what it mentions is stated by `ConfirmationMentionsBooking` |
| Chatbot.BookingArgs | components/Chatbot.tsx:60-63 | the argument objects of the reply's `bookEnquiry` calls, in order: never more than there are calls; `OtherCallIgnored`, `BookingCallCounted` and `BookingArgsFromCalls` pin down which |
| Chatbot.BuildersElementwise | components/Chatbot.tsx:60-85 | the i-th confirmation, bubble, model turn and log entry built for a reply all come from its i-th booking |
| Chatbot.ConfirmationMentionsBooking | components/Chatbot.tsx:82 | the confirmation text contains the booked `fullName`, `projectType` and `email`; a missing field reads as `undefined` |
| Chatbot.BotText | components/Chatbot.tsx:88 | `response.text \|\| fallback`: the shown text is never empty; it is the reply text when that is present and non-empty, and otherwise the fixed fallback |
| Chatbot.Stamp | components/Chatbot.tsx:65 | `{ ...leadData, timestamp }`: the entry has the call's keys plus `timestamp`, the timestamp is `now`, and every other argument keeps its value |
| Chatbot.BookingArgsFromCalls | components/Chatbot.tsx:60-63 | every booked argument object comes from a call of the reply named `bookEnquiry` |
| Chatbot.OtherCallIgnored | components/Chatbot.tsx:61 | a call under any other name has no effect, wherever it appears among the calls |
| Chatbot.BookingCallCounted | components/Chatbot.tsx:60-85 | a `bookEnquiry` call contributes exactly its own arguments, at its own position |
| Chatbot.NoBookingCalls | components/Chatbot.tsx:61 | calls none of which is named `bookEnquiry` book nothing |
| Chatbot.Initial | components/Chatbot.tsx:13-21 | on mount there is one welcome bubble, empty input and history, no loading, no toast, nothing booked, and the stored log |
| Chatbot.Send | components/Chatbot.tsx:32-98 | one press of "send" as a transition: it leaves the loading flag as it found it; each branch is stated by the `Send...` lemmas below |
| Chatbot.SendIgnored | components/Chatbot.tsx:33 | an empty or whitespace-only input, or a send while loading, changes no state cell and calls nothing |
| Chatbot.SendAfterBooking | components/Chatbot.tsx:36-46 | once booked, a send appends exactly one fixed courtesy bubble (not the user's text), clears the input, calls no gateway, and leaves history and leads as they were |
| Chatbot.SendAccepted | components/Chatbot.tsx:48-54 | an accepted send asks the gateway with the history plus the typed text as one user turn (the contents `BuildRequest` builds), shows that text as the next bubble, clears the input, and ends with loading false |
| Chatbot.SendFailed | components/Chatbot.tsx:92-97 | a failed gateway call adds the user bubble and exactly one fixed apology; history, leads and flags are unchanged and nothing is posted |
| Chatbot.SendAnswered | components/Chatbot.tsx:87-90 | a reply without calls adds exactly one bot bubble with the reply text or the fallback, and the history grows by the user turn and a model turn with that same text |
| Chatbot.SendBooked | components/Chatbot.tsx:57-86 | a reply with calls: each `bookEnquiry` call in order appends one stamped lead, is posted to the mirror, and appends its confirmation as a bubble and as a model turn after the user turn; the booked flag is set exactly when at least one call was `bookEnquiry`, and the success toast is then raised too |
| Chatbot.SendOnlyOtherCalls | components/Chatbot.tsx:59-86 | a reply whose calls all have other names adds only the user bubble and the user turn: no bot text, no lead, no booking |
| Chatbot.SendAppendsOnly | components/Chatbot.tsx:32-98 | bubbles, history and leads are only appended to |
| Chatbot.SendKeepsBooking | components/Chatbot.tsx:36-46 | the booked flag is never reset; once it is set, a send leaves leads and history alone; a send that calls no gateway never touches either |
| Chatbot.SendLogsLeads | components/Chatbot.tsx:64-80 | the log grows exactly when the send takes the session from not booked to booked |
| Chatbot.Step | components/Chatbot.tsx:166-172 | one event: typing only replaces the input (no gateway call, nothing posted, bubbles, history and leads unchanged); no event leaves the widget loading |
| Chatbot.Run | components/Chatbot.tsx:32-98 | a session driven by events: over the whole run, no more requests reach the model than there are events |
| Chatbot.BookedSessionStaysQuiet | components/Chatbot.tsx:36-46 | after a booking, whatever events follow, the flag stays set, no further request reaches the model, and leads and history never change |
| Chatbot.RunAppendsOnly | components/Chatbot.tsx:32-98 | over any run of events, bubbles, history and leads are only appended to |
| Chatbot.RunKeepsLoading | components/Chatbot.tsx:51-97 | a run leaves the loading flag as it found it |
| Chatbot.RunLogsLeads | components/Chatbot.tsx:64-80 | over any run, the log grows exactly when the run takes the session from not booked to booked |
| Chatbot.SessionFromMount | components/Chatbot.tsx:13-21 | from mount, the widget is never left loading, the welcome bubble stays first, the stored log is kept as a prefix, and the enquiry counts as booked exactly when the session has added a lead |
| Chatbot.CollectBookings | components/Chatbot.tsx:60-86 | the `for` loop over the calls: posts the `bookEnquiry` arguments in order and builds their confirmation bubbles, model turns and stamped leads |
| Chatbot.ChatWidget.constructor | components/Chatbot.tsx:13-21 | the widget's cells start in the mount state |
| Chatbot.ChatWidget.SetInput | components/Chatbot.tsx:166 | typing replaces the input and nothing else |
| Chatbot.ChatWidget.HandleSend | components/Chatbot.tsx:32-98 | the step-by-step send leaves the cells exactly as `Send` specifies, and returns the contents it sent and the bodies it posted |
| Chatbot.ChatWidget.Receive | components/Chatbot.tsx:53-94 | the `try`/`catch` after the user bubble: the apology on failure; otherwise the user turn, then either the processed calls or the reply bubble and model turn |
| Chatbot.ChatWidget.ProcessCalls | components/Chatbot.tsx:59-86 | the calls loop applied to the cells: confirmations appended to bubbles and history, stamped leads appended, flags raised exactly when something was booked |
| Navbar.SplitHashLink | components/Navbar.tsx:23-24 | no split without `#`; otherwise the route is the text before the first `#` and the hash is the text between it and the next `#` (or the end); neither contains `#` |
| Navbar.SecondHashDropped | components/Navbar.tsx:24 | text after a second `#` is dropped: `/x#a#b` targets `/x` and scrolls to `a` |
| Navbar.SplitHashLinkRoundTrip | components/Navbar.tsx:24 | a path made of a route, one `#` and a hash splits back into exactly that route and hash |
| Navbar.TargetRoute | components/Navbar.tsx:25 | `route \|\| '/'`: never empty; the route itself unless it is empty, then `/` |
| Navbar.Intercept | components/Navbar.tsx:23-29 | the click is intercepted exactly when the path holds `#` and the current pathname equals the target route of the text before it; the scroll target is then the hash piece, which holds no `#` |
| Navbar.PlainPathNotIntercepted | components/Navbar.tsx:23 | a path without `#` is never intercepted |
| Navbar.ContactLinkFromHome | components/Navbar.tsx:23-29 | `/#contact` scrolls to `contact` on the home page and navigates from every other page |
| Navbar.BareHashTargetsHome | components/Navbar.tsx:24-26 | a link `#hash` with an empty route targets `/` |
| Navbar.ScrolledElement | components/Navbar.tsx:33-39 | the element scrolled to is the one whose id is the hash, and only when such an element exists; an empty hash finds none |
| Navbar.ClickScrollsToHash | components/Navbar.tsx:23-39 | after a click, an element is scrolled to exactly when the click is intercepted and the hash piece of the path is a non-empty id of the page; it is the element with that id |
| Navbar.ActiveLinks | components/Navbar.tsx:96-100 | a link is drawn as active exactly when the pathname equals its path |
| Navbar.AtMostOneActive | components/Navbar.tsx:96 | with distinct paths, at most one link is active |
| Navbar.LinksHighlighting | components/Navbar.tsx:63-69 | in the site's table at most one link is active, and the contact link is active only for a pathname containing `#` |
| Navbar.ClickEvent.PreventDefault | components/Navbar.tsx:29 | `preventDefault` marks the event's default as prevented |
| Navbar.NavBar.constructor | components/Navbar.tsx:7-8 | the bar starts not scrolled, with the menu closed |
| Navbar.NavBar.HandleScroll | components/Navbar.tsx:12 | the bar is compact exactly when the page is scrolled past 50 pixels; the menu is untouched |
| Navbar.NavBar.ToggleMenu | components/Navbar.tsx:114 | the toggle flips the menu and nothing else |
| Navbar.NavBar.HandleLinkClick | components/Navbar.tsx:17-43 | every click closes the menu; default navigation is prevented and a scroll to the hash is scheduled exactly when the click is intercepted |
| Catalogue.ServicesShape | constants.tsx:11-52 | the catalogue has five entries with the ids `social-media`, `content-creation`, `production`, `performance-marketing`, `creative-ideas`, all distinct |
| Catalogue.ServiceIdsAreSegments | constants.tsx:11-52 | every id of the catalogue is a non-empty text without `/`, `#`, `?` or `%`, so it is one path segment the router reads back unchanged |
| ServiceDetail.FindIndex | pages/ServiceDetail.tsx:9 | the position found is the first entry whose id equals the route id; there is none exactly when no entry has it (never for a missing id) |
| ServiceDetail.Find | pages/ServiceDetail.tsx:9 | `SERVICES.find(...)`: an entry of the catalogue with the route id, and nothing exactly when no entry has it |
| ServiceDetail.FindFirst | pages/ServiceDetail.tsx:9 | `find` returns the first entry with the route id, and nothing exactly when no entry has it |
| ServiceDetail.FindOwnId | pages/ServiceDetail.tsx:9 | with distinct ids, each entry is found under its own id |
| ServiceDetail.Others | pages/ServiceDetail.tsx:67 | `filter(s => s.id !== id)` keeps exactly the entries with another id |
| ServiceDetail.OthersInOrder | pages/ServiceDetail.tsx:67 | the filtered entries keep catalogue order |
| ServiceDetail.OthersOfPresentId | pages/ServiceDetail.tsx:67 | with distinct ids, filtering out a present id drops exactly one entry |
| ServiceDetail.OthersOfAbsentId | pages/ServiceDetail.tsx:67 | filtering out an id no entry has keeps the whole catalogue |
| ServiceDetail.Take | pages/ServiceDetail.tsx:67 | `slice(0, n)` is the prefix of length n, or everything when there are fewer |
| ServiceDetail.MoreServices | pages/ServiceDetail.tsx:67 | `filter(...).slice(0, 4)`: at most four entries, all from the catalogue, none with the current id |
| ServiceDetail.MoreServicesShape | pages/ServiceDetail.tsx:67 | "More Services" never contains the current id, has at most four entries, and keeps catalogue order |
| ServiceDetail.MoreServicesCount | pages/ServiceDetail.tsx:67 | when the service is found and ids are distinct, "More Services" has four entries, or one fewer than the catalogue when that is smaller |
| ServiceDetail.CatalogueMoreServices | pages/ServiceDetail.tsx:9-67 | on the site's catalogue, every service id is found and its page lists exactly four other services |
| ServiceDetail.FeatureItems | pages/ServiceDetail.tsx:47-52 | the features list has one item per feature, in order, keyed by position |
| ServiceDetail.Cards | pages/ServiceDetail.tsx:67-76 | one card per "More Services" entry, in order, keyed by id and linking to `/services/<id>` |
| ServiceDetail.RouteId | App.tsx:48 | the route `/services/:id` in its canonical form, the one the cards link to: an id is read exactly from `/services/` followed by one non-empty segment holding nothing the router cuts at or decodes (no `/`, `#`, `?` or `%`), and it is that segment |
| ServiceDetail.RouteIdOfLink | pages/ServiceDetail.tsx:70 | the link `/services/${id}` of a segment id (non-empty, no `/`, `#`, `?` or `%`) is routed back to that id |
| ServiceDetail.Render | pages/ServiceDetail.tsx:9-76 | the not-found page exactly when `find` finds nothing; otherwise the page of the entry found, with at most four cards, none keyed by the current id |
| ServiceDetail.RenderShows | pages/ServiceDetail.tsx:9-67 | the not-found page appears exactly when no entry has the route id; otherwise the page shows the entry found, all of its features in order, and one card per "More Services" entry |
| ServiceDetail.CardsLinkBack | pages/ServiceDetail.tsx:67-70 | with distinct segment ids (non-empty, no `/`, `#`, `?` or `%`), every card's link is routed to that card's id and leads to a page showing the card's own service, never the current one |

## Left out

- The language-model network call, the API key read from the environment and the
  `GoogleGenAI` client are left out. The call is the parameter `generate`, or the
  `Result` handed to `Send`.
- `localStorage` is modelled as the `leads` sequence, without JSON serialisation.
  A read or write that throws is not modelled. In the source, such a throw after
  the history push would reach the `catch` and show the apology after the user
  turn was already recorded.
- The `fetch("/api/save-enquiry")` mirror is modelled only as the `posted`
  output. Its failure is swallowed and changes no state. The receiving handler
  in api/save-enquiry.js is not part of this model. It reads
  `phone`/`budget`/`message`, while the chat posts
  `fullName`/`email`/`projectType`/`details`.
- Stamp: one `now` is used for every lead of a send. The source takes a fresh
  `new Date().toISOString()` for each `bookEnquiry` call.
- A `bookEnquiry` call that arrives without `args` is not modelled: every call
  carries an argument map. In the source, reading `leadData.fullName` for such a
  call throws a TypeError (components/Chatbot.tsx:82). By then the lead holding
  only `timestamp` is stored (:64-66), the request is posted (:69-75) and
  `enquiryBooked` is set (:80). The `catch` then shows the apology (:92-94) and
  the remaining calls of the reply are skipped.
- Function-call arguments are taken as string-valued. Other JSON values and how
  they print in the template literal are not modelled.
- Chatbot.ChatWidget.HandleSend: the `isLoading` guard is modelled, but a send is
  atomic here. A second press while the first request is pending cannot be
  expressed, so `isLoading` is false between sends.
- Chatbot.ChatWidget.ProcessCalls: the loop builds the bubbles, turns and leads
  first and applies them to the cells once it ends. The source queues one
  `setMessages` per call, and React applies queued updates together anyway.
- The 4-second `setTimeout` that hides the success toast is not modelled. So are
  the chat's open/close toggle, the auto-scroll to the newest bubble, and the
  rendering.
- Navbar.NavBar.HandleLinkClick: the scheduled scroll is returned as its target
  hash. The 350 ms delay, the smooth-scroll options and the DOM lookup are
  represented by `ScrolledElement` over a given set of element ids.
- Navbar.NavBar.HandleScroll: `window.scrollY` is taken as an integer number of
  pixels.
- ServiceDetail.RouteId: only the canonical path form the cards produce is
  modelled. The site's router also sends a path with a trailing slash, any
  letter case of `/services/`, and a percent-encoded id (decoded) to this page;
  it also cuts a path at `#` or `?`. `RouteId` gives no id for a path with a
  trailing slash, another letter case, or a `/`, `#`, `?` or `%` in the id.
- The `console.error` logging (components/Chatbot.tsx:75 and :93,
  services/gemini.ts:64) is not modelled: it changes no state the model holds.
- Characters are Unicode code points. Unpaired UTF-16 surrogates, which
  JavaScript strings can hold, are not modelled.
- Catalogue: the `image` field of the `Service` type is absent from every
  catalogue entry and is not modelled. The view markup, icons, animations and
  styling are not modelled.
- components/ContactForm.tsx, pages/CaseStudyDetail.tsx, api/save-enquiry.js,
  App.tsx and the layout-only pages and components are not part of this model.
