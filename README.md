# Portfolio site: chat widget, contact form and contact endpoint

This project models the three pieces of logic in a personal-portfolio web
site and proves properties about them:

- **The chat widget** (`app/components/Chatbot.tsx`) is modelled as the
  class `Chatbot.Widget`. Its fields are the component's state: the message
  log with its transient "•••" typing indicator, the open/loading flags, the
  sticky `showContactForm` gate, the one-time greeting guard, and the lead
  form's fields and feedback. Each asynchronous handler is split in two: the
  synchronous part up to the request (`BeginChatSubmit`, `BeginLeadSubmit`),
  and the completion, which takes the request's result as an `Outcome`
  parameter (`CompleteChatSubmit`, `CompleteLeadSubmit`). The object
  invariant `Widget.Valid` keeps the typing indicator present, once and in
  last place, exactly while a reply is awaited.
- **The page** (`app/page.tsx`) is the module `PortfolioPage`. It holds the
  portfolio filter and the category list as functions, the email test
  `/\S+@\S+\.\S+/` as an existence predicate over indices together with an
  executable equivalent, and the contact form as the class
  `PortfolioPage.Portfolio`. That class covers `validateForm` and the two
  halves of `handleSubmit`.
- **The mail relay's `POST /api/contact` handler** (`index.js`) is the pure
  function `ContactApi.HandleContact`. It maps the body's fields and the
  email send's outcome to the response and to the send request made, if any.

`JsText` models the JavaScript string behaviour these rely on: `trim`,
`includes`, and the whitespace set that `trim` strips and `\s` matches.

Environment lookups become inputs. For the worker URL and the backend URL,
that input is the `workerConfigured`/`backendConfigured` flag of
`InferenceOutcome`/`LeadOutcome`. Every network or email call becomes an
outcome parameter.

Three behaviours of the code are easy to misread:

- The lead handler itself does not reject empty fields. Only the inputs'
  `required` attributes block them, so non-empty fields are a precondition
  of `BeginLeadSubmit`.
- The relay's check is a falsiness test, not a non-blank test: whitespace-only
  fields are accepted (`ContactApi.WhitespaceAccepted`).
- On a failed lead request the client reads the error body's `message`
  field, not `error`.

## Model

| member | source | states |
|---|---|---|
| `JsText.TrimStart` | app/components/Chatbot.tsx:87 | the result is a suffix of the input, starts with non-whitespace or is empty, and everything cut away is whitespace |
| `JsText.TrimEnd` | app/components/Chatbot.tsx:87 | the result is a prefix of the input, ends with non-whitespace or is empty, and everything cut away is whitespace |
| `JsText.Trim` | app/components/Chatbot.tsx:87 | `trim()` is the slice of its input that starts at the first non-whitespace character; it has no whitespace at either end, and everything cut away before and after it is whitespace |
| `JsText.TrimEmptyIff` | app/page.tsx:206-218 | `!s.trim()` holds exactly when every character of `s` is whitespace, which is the blank test the widget and the form use |
| `JsText.Contains` | app/components/Chatbot.tsx:126 | `includes` is true exactly when the phrase occurs at some index, case-sensitively |
| `Chatbot.OrElse` | app/components/Chatbot.tsx:138 | `x \|\| fallback` is `x` when `x` is non-empty and the fallback when `x` is empty, so it is non-empty whenever the fallback is |
| `Chatbot.WithoutPlaceholders` | app/components/Chatbot.tsx:117-119 | the filter keeps no typing indicator, keeps every other message, and shrinks the log by exactly the number of indicators |
| `Chatbot.WithoutPlaceholdersAppend` | app/components/Chatbot.tsx:133-135 | the filter keeps the surviving messages in order (it distributes over concatenation) |
| `Chatbot.DropTrailingPlaceholder` | app/components/Chatbot.tsx:117-124 | when the log ends in its only indicator, the filter yields exactly the earlier messages |
| `Chatbot.AwaitingAfterSubmit` | app/components/Chatbot.tsx:92-96 | appending the user message and the indicator to an indicator-free log leaves exactly one indicator |
| `Chatbot.IndicatorIffLoading` | app/components/Chatbot.tsx:93-96 | under the widget's invariant an indicator exists iff a reply is awaited, and never two |
| `Chatbot.LastContent` | app/components/Chatbot.tsx:152-153 | the result is the content of the last user message (or last non-typing assistant message), and `''` when there is none |
| `Chatbot.LastContentIgnoresPlaceholders` | app/components/Chatbot.tsx:153 | what the lead form reads from the log does not change when typing indicators are removed |
| `Chatbot.InferenceOutcome` | app/components/Chatbot.tsx:99-115 | a missing worker URL fails with "Cloudflare Worker URL is not configured."; only an `ok` response succeeds, with its `response` text; a non-ok response fails with the body's `error` field, or with "Failed to get response from bot." when that is empty; a thrown error fails with its own message |
| `Chatbot.LeadOutcome` | app/components/Chatbot.tsx:156-177 | a missing backend URL fails with its fixed message; only an `ok` response succeeds; a non-ok response fails with the body's `message` field, or with "Failed to send your information." when that is empty; a thrown error fails with its own message |
| `Chatbot.ErrorFieldIgnoredByLead` | app/components/Chatbot.tsx:174-185 | a failing backend whose body carries only an `error` field yields "Failed to send details: Failed to send your information.", whatever that field says |
| `Chatbot.FailureReply` | app/components/Chatbot.tsx:138 | the failure bubble is "Oops! I couldn't get a response. Error: " followed by the message, or by "Please try again." when it is empty |
| `Chatbot.LeadFailureText` | app/components/Chatbot.tsx:185 | the lead error is "Failed to send details: " followed by the message, or by "Please try again." when it is empty |
| `Chatbot.TriggerAnywhere` | app/components/Chatbot.tsx:14 | a successful reply with the trigger phrase anywhere inside it opens the lead form |
| `Chatbot.Widget.constructor` | app/components/Chatbot.tsx:26-41 | every flag starts false, the log, the input and the lead fields start empty, and there is no feedback |
| `Chatbot.Widget.Open` | app/components/Chatbot.tsx:55-62 | opening sets `isChatOpen`; the first opening replaces the log by the single greeting and sets `hasChatOpenedBefore`, later openings keep the log; nothing else changes |
| `Chatbot.Widget.Close` | app/components/Chatbot.tsx:243 | the close button clears `isChatOpen` and changes nothing else |
| `Chatbot.Widget.PointerDown` | app/components/Chatbot.tsx:65-82 | a press outside the open widget closes it; any other press leaves it as it was; nothing else changes |
| `Chatbot.Widget.EditMessage` | app/components/Chatbot.tsx:351 | the chat input holds the typed text; the widget's invariant is kept |
| `Chatbot.Widget.EditLead` | app/components/Chatbot.tsx:288-313 | exactly the edited lead field takes the new value |
| `Chatbot.Widget.BeginChatSubmit` | app/components/Chatbot.tsx:84-96 | a blank input or an awaited reply changes nothing and sends nothing; otherwise the untrimmed input is sent, the input is cleared, the log gains exactly the user message then the indicator, and loading starts; the lead gate and greeting guard are kept |
| `Chatbot.Widget.CompleteChatSubmit` | app/components/Chatbot.tsx:117-142 | every indicator is removed and exactly one assistant message (the reply, or the failure text) follows the earlier messages in order; loading ends on both outcomes; a successful reply containing the trigger phrase sets `showContactForm` and clears both feedback fields, otherwise all three are kept |
| `Chatbot.Widget.BeginLeadSubmit` | app/components/Chatbot.tsx:146-171 | sending starts with both feedback fields cleared; the request carries the three fields, the last user message and the last non-typing assistant message |
| `Chatbot.Widget.CompleteLeadSubmit` | app/components/Chatbot.tsx:174-188 | success sets the confirmation and empties the three fields; failure sets "Failed to send details: ..." and keeps them; sending ends on both |
| `PortfolioPage.OfCategory` | app/page.tsx:198 | the filter keeps exactly the projects of the category |
| `PortfolioPage.OfCategoryAppend` | app/page.tsx:198 | the filter keeps the projects' original order |
| `PortfolioPage.OfCategoryMultiset` | app/page.tsx:198 | each matching project is kept as many times as it occurs, and no other is kept |
| `PortfolioPage.FilteredProjects` | app/page.tsx:196-198 | `'All'` shows the whole list; any other category shows the filtered list |
| `PortfolioPage.Distinct` | app/page.tsx:200 | `Array.from(new Set(s))` has the same elements as `s`, each once |
| `PortfolioPage.DistinctPrefix` | app/page.tsx:200 | elements come in first-occurrence order: the result for any prefix of the input is a prefix of the result |
| `PortfolioPage.Categories` | app/page.tsx:200 | the list starts with `'All'`, holds every project's category, holds only project categories after that, and none of them twice |
| `PortfolioPage.LooksLikeEmail` | app/page.tsx:212 | the executable test is true exactly when the unanchored pattern `\S+@\S+\.\S+` matches somewhere in the untrimmed email |
| `PortfolioPage.EmailPatternShortest` | app/page.tsx:212 | a match exists exactly when one exists whose first and last runs are one character long |
| `PortfolioPage.ErrorsDetermined` | app/page.tsx:203-222 | the error description fixes the whole errors map: two maps that both fit it are equal |
| `PortfolioPage.NoErrorsIff` | app/page.tsx:221 | the errors map is empty exactly when no field is blank and the email matches the pattern |
| `PortfolioPage.CollectErrors` | app/page.tsx:204-218 | the keys are among name, email and message; "Name is required" and "Message is required" are present exactly for blank fields; a blank email gets "Email is required", and a non-blank email gets "Email is invalid" exactly when the pattern does not match |
| `PortfolioPage.Portfolio.constructor` | app/page.tsx:174-184 | the filter starts at `'All'`, the form empty, no errors, not loading |
| `PortfolioPage.Portfolio.SelectCategory` | app/page.tsx:539 | the chosen category becomes the filter |
| `PortfolioPage.Portfolio.EditForm` | app/page.tsx:657 | the form holds the edited data |
| `PortfolioPage.Portfolio.ValidateForm` | app/page.tsx:203-222 | the stored errors fit the description of the current form, and the result is true iff they are empty |
| `PortfolioPage.Portfolio.BeginSubmit` | app/page.tsx:245-258 | an invalid form sends nothing and keeps `isLoading` and the form data; a valid one sends the form data and starts loading |
| `PortfolioPage.Portfolio.CompleteSubmit` | app/page.tsx:261-276 | a delivered message resets the form to empty strings and clears the errors; a failed one keeps both; loading ends either way |
| `PortfolioPage.SampleCategories` | app/page.tsx:62-130 | on the page's sample projects the buttons are All, Full-Stack, Data Analysis, UI/UX |
| `PortfolioPage.SampleFilter` | app/page.tsx:62-130 | on the sample projects, "UI/UX" shows only the third project and "All" shows all |
| `ContactApi.HandleContact` | index.js:42-135 | a falsy field gives 400 with the fixed error and no send; otherwise exactly one send with the fixed from/to, the subject "New Contact Form Submission from: " plus the name, and `reply_to` set to the email; delivered gives 200 with the confirmation, a reported error gives 500 with "Failed to send email." and its message as details, a thrown error gives 500 with the generic error |
| `ContactApi.StatusClassifies` | index.js:47-134 | 400 exactly when nothing was sent; 200 exactly when the send was made and delivered; 500 exactly when it was made and failed |
| `ContactApi.SubjectRoundTrip` | index.js:58-116 | stripping the fixed prefix from the subject gives back the name; `reply_to` is the email |
| `ContactApi.WhitespaceAccepted` | index.js:47 | any three non-empty fields made only of whitespace pass the check, are sent, and are not answered with 400 |
| `ContactApi.MissingFieldRejected` | index.js:47-50 | with a falsy field the response is 400 whatever the send would have done |

## Left out

- Rendering is not modelled. That covers JSX, styling, auto-scroll (Chatbot.tsx lines 48-52), the navbar scroll listener, the mobile menu, the project modal and the `alert()` calls.
- Which form is shown (chat input or lead form) is not modelled: it is a rendering choice. Only the gates the handlers need are kept: `BeginChatSubmit` requires the widget to be open, and `BeginLeadSubmit` requires the lead form to be shown.
- `fetch`, JSON parsing and the email client are foreign I/O. Each becomes an outcome parameter: `FetchResult`/`Outcome` for the widget, `delivered` for the page form and `SendOutcome` for the relay.
- Environment variables are reduced to a "configured" flag.
- The widget's lead request goes to an `/api/chatbot-email` handler. That handler is not part of this model; only the client side of that request is.
- Concurrency is not modelled. Each handler is a begin step and a complete step. A reply that arrives after `Close` still applies, because `CompleteChatSubmit` does not require the widget to be open. Nothing is cancelled.
- JSON field values other than strings are not modelled. Numbers, booleans and `null` in the relay's body, and a missing `response` field in a successful chat reply, are out of scope. A missing string field is modelled as absent, or as the empty string where only its falsiness matters.
- The relay's HTML email body, its `new Date().getFullYear()`, the health-check route, Express/CORS setup, `app.listen` and logging are not modelled.
- Strings are sequences of Unicode scalar values, not UTF-16 code units. This changes neither `trim`, nor `includes`, nor the existence of a `\S+@\S+\.\S+` match, since no whitespace character lies outside the Basic Multilingual Plane.
- The page's unused chat state, its commented-out handlers and `app/layout.tsx` have no logic to model.
- The inputs and buttons disabled while a reply is awaited or the lead is being sent (Chatbot.tsx lines 291, 304, 317 and 355) are a rendering matter. `EditMessage` and `EditLead` therefore accept edits in any state.
- The chat input's `maxLength` of 500 (Chatbot.tsx line 356) is enforced by the browser and not modelled: `EditMessage` accepts text of any length.
- The page's email input has `type="email"` (page.tsx line 672). The browser's own checking and value cleaning that this implies happen before `handleSubmit` and are not modelled; `LooksLikeEmail` is the only email test.
