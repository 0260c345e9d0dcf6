# Al-Othmany studio site: the order funnel, the local store and the two views over it

This Dafny project models the logic of a single-page studio website.

- A chat assistant (`components/ChatAgent.tsx`) talks a visitor into an order:
  - it watches the replies for a price;
  - it saves the order to a local store;
  - after payment it asks a generator for the site's markup and attaches the markup to the order.
- The store (`dbService.ts`) keeps two lists in browser storage:
  - portfolio projects;
  - customer orders.

  Every change replaces a whole list and broadcasts one event.
- The administrator's dashboard (`components/AdminDashboard.tsx`):
  - counts the unfinished orders;
  - approves generated sites;
  - previews markup;
  - adds projects through a form with a de-duplicated tag list.
- The public portfolio (`components/Portfolio.tsx`) filters the projects by category, palette and tag. Each filter has an "all" wildcard (`الكل`). It also derives the tag buttons from the projects.

## Files and modules

| file | module | models |
|---|---|---|
| `optional.dfy` | `Optional` | `Option`, for optional fields and absent storage keys |
| `strings.dfy` | `Strings` | the JavaScript string operations the code uses: `trim`, `includes`, `join`, the decimal rendering of a number, and the first match of `/\$\d+/` |
| `seqs.dfy` | `Seqs` | the array operations the code uses: `filter`, `map` at matching positions, `flatMap`, and `Array.from(new Set(...))` |
| `types.dfy` | `Types` | the records and enumerations of `types.ts`, with the Arabic literals the code compares against |
| `store.dfy` | `Store` | `DatabaseService`: two optional list fields stand for the two storage keys, and a ghost log records the events |
| `chat.dfy` | `Chat` | `ChatSession`: the component state, the three handlers, the `find` of the first message holding a `$`, and the funnel of `AppStep` values |
| `admin.dfy` | `Admin` | `AdminView`: the loaded lists, the preview, and the project form; the badge and approve-gate expressions |
| `portfolio.dfy` | `Portfolio` | `PortfolioView`: the three filters and the grid; the tag list, palette classes and tag truncation |

## How the model works

- Outside inputs are parameters:
  - the random project id;
  - the clock reading and the formatted date;
  - the assistant's reply, or a rejected promise (`ChatOutcome`);
  - the generator's markup, or its failure (`GenerationOutcome`).
- A ghost log on `ChatSession` records what was sent to the assistant backend.
- A second ghost log records every `AppStep` entered. The funnel lemmas are stated over it.
- `handleSend` awaits the assistant. It is therefore split at the await:
  - `BeginSend` is the guard and the user's turn;
  - `FinishSend` is the reply and the step check;
  - `HandleSend` runs the two back to back.
- The confirm and pay handlers are reachable only from panels that are drawn in one step each. The panels are at `components/ChatAgent.tsx:190-214`. The handlers therefore require that step.
- Event listeners are not modelled as callbacks. A listener reload is an explicit `LoadData` or `LoadProjects` call, as in the scenarios.

### Where the code does not do what a reader might expect

The model follows the code in each case below and exposes the behaviour in a lemma.

- **Order status is not monotone.**
  - `updateOrderContent` sets "generated" over "complete".
  - `updateOrderStatus` sets any status.
  - See `Store.StatusCanRegress`.
- **Order ids are `ORD-` plus the clock reading.** Two orders saved in the same millisecond share an id. See `Store.OrderIdInjective` and `Store.SaveTwice`.
- **The two requirement strings differ.**
  - The saved order joins the user's turns with `" | "`.
  - The generator receives them joined with `" "`.
  - See `Chat.RequirementsDifferBySeparators`.
- **The price comes from the first message of either role that contains a `$`.** It does not come from the latest reply.
  - When that message has no `$` followed by a digit, the price is "to be determined". This holds even if a later message quotes an amount. See `Chat.PriceFixedByFirstDollarMessage`.
  - A reply that only says "dollar" (`دولار`) still moves the funnel to agreement. See `Chat.FailedGeneration`.
- **A project tag spelled like the wildcard produces a second wildcard button.** See `Portfolio.WildcardTagRepeats`.
- **An unknown palette's dot looks like green's.**
  - Both views draw the same palette dot. Gold, blue and purple get their own colour. Every other value is emerald, green included.
  - The portfolio card's border and the detail view's palette badge tell the two apart. They are emerald for green and slate for an unknown value.
  - See `Portfolio.UnknownPaletteDotLooksGreen` and `Admin.DotToneAgreesWithPortfolio`.

## Model

| member | source | states |
|---|---|---|
| Strings.TrimEmptyIffBlank | components/ChatAgent.tsx:29 | `trim()` gives the empty string exactly when every character is ECMAScript whitespace, which is the `!text.trim()` guard |
| Strings.Trim | components/ChatAgent.tsx:29 | `trim()` leaves neither leading nor trailing whitespace |
| Strings.Decimal | dbService.ts:39 | the rendering of a number is a non-empty run of ASCII digits |
| Strings.IncludesIff | components/ChatAgent.tsx:45 | `includes` holds exactly when the needle occurs at some index |
| Strings.Includes | components/ChatAgent.tsx:45 | `includes`, as a scan for a prefix match at each position |
| Strings.JoinLength | components/ChatAgent.tsx:57 | a join has every character of the parts, plus one separator between each pair of neighbours |
| Strings.Join | components/ChatAgent.tsx:57 | `join`: the parts with the separator between each pair of neighbours |
| Strings.FirstDollarToken | components/ChatAgent.tsx:61 | the pattern `\$\d+` can start at the index found, and at no earlier index; none means it can start nowhere |
| Strings.MatchDollarAmount | components/ChatAgent.tsx:61 | there is no match exactly when the pattern can start nowhere; a match is a `$` followed by at least one digit and only digits |
| Strings.MatchDollarAmountOccurs | components/ChatAgent.tsx:61 | the matched amount occurs in the text at the first match position, and the greedy digit run ends at a non-digit or at the end |
| Strings.ParseDecimalInverts | dbService.ts:39 | reading back the decimal rendering of a number gives the number |
| Strings.DecimalInjective | dbService.ts:39 | two numbers have the same decimal rendering exactly when they are equal |
| Seqs.Filter | dbService.ts:25 | a filter keeps exactly the elements satisfying the predicate, and is no longer than its input |
| Seqs.FilterIsSubseq | dbService.ts:25 | a filter is an order-preserving subsequence |
| Seqs.FilterAppend | dbService.ts:25 | filtering a concatenation is concatenating the filtered parts |
| Seqs.MapWhere | dbService.ts:51 | a conditional map keeps the length and rewrites exactly the positions where the predicate holds |
| Seqs.Dedup | components/Portfolio.tsx:39 | `Array.from(new Set(xs))` has no duplicates, holds every element of `xs`, and holds nothing else |
| Seqs.DedupFirstOccurrenceOrder | components/Portfolio.tsx:39 | the deduplicated list is in the order of first occurrence |
| Seqs.FlatMap | components/Portfolio.tsx:39 | `flatMap` holds every element of every part, and nothing else |
| Types.StatusLabelInjective | types.ts:16 | the three stored status literals are pairwise different |
| Store.InitialProjects | dbService.ts:79-91 | the built-in list has ten projects |
| Store.InitialProjectIdsDistinct | dbService.ts:81-90 | the built-in projects have pairwise distinct ids |
| Store.EventNameInjective | dbService.ts:19 | the two event names differ, so a listener for one never hears the other |
| Store.RemoveId | dbService.ts:25 | the survivors of a delete are entries of the list without that id, every entry without it survives, and the list never grows |
| Store.WithContent | dbService.ts:51 | the content update keeps the length, and keeps every order's id, customer, requirements and price |
| Store.WithStatus | dbService.ts:58 | the status update keeps the length, and keeps every order's id, customer, requirements, price and markup |
| Store.OrderId | dbService.ts:39 | an order id is `ORD-` followed by a non-empty run of digits |
| Store.FreshStoreReadsSeed | dbService.ts:9-12 | over empty storage, the store lists the ten built-in projects and no orders |
| Store.DatabaseService.constructor | dbService.ts:9-12 | a service over storage that already holds the given lists, or lacks a key, with no events yet |
| Store.DatabaseService.GetProjects | dbService.ts:9-12 | the stored projects, or the built-in list while the key is absent |
| Store.DatabaseService.GetOrders | dbService.ts:30-33 | the stored orders, or none while the key is absent |
| Store.DatabaseService.NotifyUpdate | dbService.ts:75-77 | exactly the named event is appended to the event log |
| Store.DatabaseService.AddProject | dbService.ts:14-21 | returns the draft with the given id; the projects become that project followed by the previous list; orders are untouched; one `projectsUpdated` event |
| Store.DatabaseService.DeleteProject | dbService.ts:23-28 | the projects become the previous list without that id; one `projectsUpdated` event |
| Store.DatabaseService.SaveOrder | dbService.ts:35-47 | returns a pending order with id `ORD-` plus the clock reading, the given date and the draft's fields; the orders become that order followed by the previous list; one `ordersUpdated` event |
| Store.DatabaseService.UpdateOrderContent | dbService.ts:49-54 | the orders become the previous list with every matching order rewritten; one `ordersUpdated` event |
| Store.DatabaseService.UpdateOrderStatus | dbService.ts:56-61 | the orders become the previous list with the status of every matching order replaced; one `ordersUpdated` event |
| Store.DatabaseService.DeleteOrder | dbService.ts:63-68 | the orders become the previous list without that id; one `ordersUpdated` event |
| Store.RemoveIdKeepsRestInOrder | dbService.ts:25 | a delete removes every entry with the id, keeps every other entry, and keeps the survivors in order |
| Store.RemoveAbsentIdIsNoop | dbService.ts:65 | deleting an id that no entry has changes nothing |
| Store.WithContentPointwise | dbService.ts:51 | the content update sets the markup and the generated status on exactly the matching orders, keeps every other order, and keeps the length |
| Store.WithStatusPointwise | dbService.ts:58 | the status update changes only the status, and only of matching orders |
| Store.WithStatusIdempotent | dbService.ts:58 | setting a status twice is the same as setting it once |
| Store.WithContentIdempotent | dbService.ts:51 | attaching the same markup twice is the same as attaching it once |
| Store.UpdateAbsentIdIsNoop | dbService.ts:49-61 | either update, for an id that no order has, leaves the orders unchanged |
| Store.StatusCanRegress | dbService.ts:51 | attaching markup makes even a completed order "generated" again, which is a lower rank; any status can be set over any other |
| Store.OrderIdInjective | dbService.ts:39 | two order ids are equal exactly when the clock readings are |
| Store.SaveTwice | dbService.ts:35-47 | two saves with a clock that never runs backwards give distinct ids exactly when the clock advanced; both orders are kept, the later one first |
| Chat.SendTranscript | components/ChatAgent.tsx:32-49 | an accepted send keeps the earlier messages, then adds the user's text, then the reply or the fixed error text, and nothing else |
| Chat.StepAfterReply | components/ChatAgent.tsx:45-47 | the step changes only from idle, only to agreement, and exactly when the reply contains `$` or "dollar" |
| Chat.SignalsPriceIff | components/ChatAgent.tsx:45 | the price signal is a `$` character or an occurrence of the word "dollar" |
| Chat.UserContentsAppend | components/ChatAgent.tsx:57 | the user's turns of a concatenation are the turns of each part, in order |
| Chat.SendAddsOneRequirement | components/ChatAgent.tsx:32 | a send adds exactly the user's text to the requirements, at the end |
| Chat.AssistantAddsNoRequirement | components/ChatAgent.tsx:57 | assistant messages, such as the confirmation, never become requirements |
| Chat.RequirementsDifferBySeparators | components/ChatAgent.tsx:57-74 | the saved requirements are two characters longer per separator than the generator's; the two are equal after a single user turn |
| Chat.UserText | components/ChatAgent.tsx:28 | the text sent is the typed input unless a non-empty prompt is given, which then wins |
| Chat.UserContents | components/ChatAgent.tsx:57 | the user's turns are no more than the messages |
| Chat.UserContentsMembers | components/ChatAgent.tsx:57 | every user message's content is among the turns, and every turn is the content of some user message |
| Chat.OrderRequirements | components/ChatAgent.tsx:57 | the saved requirements are empty without a user turn, and are that turn when there is just one |
| Chat.GenerationRequirements | components/ChatAgent.tsx:74 | the generator's requirements are empty without a user turn, and are that turn when there is just one |
| Chat.BotOrderDraft | components/ChatAgent.tsx:58-62 | the order carries the bot's customer name, the `" \| "` requirements, always a price, which is "to be determined" exactly when no amount can be read off the first `$` message, and no markup |
| Chat.FirstDollarMessage | components/ChatAgent.tsx:61 | the index found holds a `$`, and no earlier message does; none means no message does |
| Chat.Price | components/ChatAgent.tsx:61 | the saved price is "to be determined" exactly when no message holds a `$`, or when the first that does holds no amount; otherwise it is a `$` followed by one or more digits |
| Chat.FirstDollarMessageAt | components/ChatAgent.tsx:61 | the first message holding a `$` is the one found |
| Chat.FirstDollarMessageStable | components/ChatAgent.tsx:61 | once some message holds a `$`, later messages do not change which message is found |
| Chat.PriceFixedByFirstDollarMessage | components/ChatAgent.tsx:61 | once some message holds a `$`, later messages do not change the price |
| Chat.PriceOccursInMessage | components/ChatAgent.tsx:61 | a price other than "to be determined" is the first amount in the first message that holds a `$` |
| Chat.GreetingHasNoDollar | components/ChatAgent.tsx:11 | the greeting holds no `$`, so it never supplies the price |
| Chat.NeverGathering | types.ts:31 | no run of the funnel enters the information-gathering step |
| Chat.CompleteOnlyAfterPayment | components/ChatAgent.tsx:45-87 | a run reaches completion only through agreement, notifying the admin, payment and generation, in that order |
| Chat.SendAccepted | components/ChatAgent.tsx:29 | a send goes ahead exactly when the text is not all whitespace and no reply is awaited |
| Chat.ConfirmOffered | components/ChatAgent.tsx:190 | the confirm panel is drawn only in the agreement step, never together with the payment panel and never before a price is signalled or after completion |
| Chat.PaymentOffered | components/ChatAgent.tsx:203 | the pay panel is drawn only in the payment step, which is neither the opening step nor the completed one |
| Chat.ChatSession.constructor | components/ChatAgent.tsx:10-17 | the initial state: the greeting only, empty input, not loading, idle, no order, no markup |
| Chat.ChatSession.SetInput | components/ChatAgent.tsx:258 | the input box's value |
| Chat.ChatSession.MoveTo | components/ChatAgent.tsx:56-65 | `setStep` along a handler move: the step is the new one and the run of visited steps grows by it and stays a funnel run |
| Chat.ChatSession.BeginSend | components/ChatAgent.tsx:27-37 | accepted exactly when the text is not blank and nothing is loading; if accepted, the user's turn is appended, the input is cleared, loading is on, and the call is sent with the earlier conversation; otherwise nothing changes |
| Chat.ChatSession.FinishSend | components/ChatAgent.tsx:39-52 | the reply or the error text is appended, the step follows `StepAfterReply`, and loading ends |
| Chat.ChatSession.HandleSend | components/ChatAgent.tsx:27-53 | a blank text, or a send while loading, changes nothing; otherwise the messages become `SendTranscript`, the step follows the reply, the input is cleared and loading ends |
| Chat.ChatSession.ConfirmAgreementAndSaveToDB | components/ChatAgent.tsx:55-70 | from agreement: saves one pending order with the bot's customer name, the `" \| "` requirements and the extracted price; remembers its id; moves through notifying-admin to payment; appends the confirmation |
| Chat.ChatSession.HandlePaymentAndGenerate | components/ChatAgent.tsx:72-87 | from payment: asks for the site with the `" "` requirements; on success keeps the markup, attaches it to the current order and completes; on failure returns to idle and leaves the store unchanged |
| Chat.QuotedFirstTurn | components/ChatAgent.tsx:45-61 | a first turn without `$`, answered with an amount, moves idle to agreement, and the order gets that turn as requirements and that amount as price |
| Chat.HappyPath | components/ChatAgent.tsx:27-87 | end to end on a fresh store: one order, with the bot's name, the turn, the quoted amount and the markup, in the generated status; the funnel ends complete |
| Chat.ScenarioRequest | components/ChatAgent.tsx:29 | a concrete first turn is not blank and holds no `$` |
| Chat.ScenarioQuote | components/ChatAgent.tsx:61 | in a concrete reply, the amount extracted from "$500 فقط" is "$500" |
| Chat.FailedGeneration | components/ChatAgent.tsx:45-86 | a reply with "dollar" but no `$` still reaches agreement; the order gets "to be determined" as price; a failed generation returns to idle and leaves the order pending without markup |
| Admin.PendingCount | components/AdminDashboard.tsx:84 | the badge count is at most the number of orders, and positive exactly when some order is not complete |
| Admin.PendingPlusCompleted | components/AdminDashboard.tsx:84 | every order counts either on the badge or as complete |
| Admin.ApprovalLowersPending | components/AdminDashboard.tsx:38-41 | approving makes the order complete and never raises the badge count; it lowers the count when the order was offered for approval |
| Admin.ApproveShown | components/AdminDashboard.tsx:159 | approval is offered only for an order that is not complete |
| Admin.ApproveClearsBadge | components/AdminDashboard.tsx:159-166 | with one generated order the badge shows one; after approval and reload it shows none |
| Admin.DotTone | components/AdminDashboard.tsx:195 | the palette dot is drawn exactly when the palette is present and non-empty |
| Admin.PreviewOpen | components/AdminDashboard.tsx:207 | the preview modal is drawn only while the stored markup is present and non-empty |
| Admin.DotToneAgreesWithPortfolio | components/AdminDashboard.tsx:195 | the dashboard dot equals the portfolio card's dot for every palette; on the four palettes its tone is the portfolio's border and badge tone, and any other value gives an emerald dot where border and badge are slate |
| Admin.AddedTagKeepsClean | components/AdminDashboard.tsx:61-66 | adding a tag keeps the list duplicate-free, non-empty and trimmed |
| Admin.CanSave | components/AdminDashboard.tsx:52 | a project that passes the save guard has a title and an image |
| Admin.TagsAfterAdd | components/AdminDashboard.tsx:61-66 | adding keeps the list as a prefix and adds at most one tag, which is the trimmed entry, non-empty and new |
| Admin.TagsAfterRemove | components/AdminDashboard.tsx:68-70 | removing never grows the list, leaves the tag absent, and keeps only tags that were there |
| Admin.AddTagIdempotent | components/AdminDashboard.tsx:63 | adding the same entry twice is the same as adding it once |
| Admin.AddedTagPresent | components/AdminDashboard.tsx:64 | a non-blank entry is on the list afterwards, and a new one is appended at the end |
| Admin.RemoveTagExact | components/AdminDashboard.tsx:68-70 | removing a tag drops every copy of it and keeps every other tag, in order |
| Admin.RemovedTagKeepsClean | components/AdminDashboard.tsx:68-70 | removing a tag keeps the list clean |
| Admin.RemoveUndoesAdd | components/AdminDashboard.tsx:61-70 | removing a tag that was just added gives back the previous list |
| Admin.SavedProjectFilterable | components/AdminDashboard.tsx:253-265 | a project saved with a category and palette from the form's controls is matched by that category's button, that palette's button and each of its tags' buttons in the portfolio |
| Admin.SavedProjectShowsFirst | components/AdminDashboard.tsx:51-59 | a project saved from the blank form is in the companies category, with the blue palette and no tags, and it heads the companies grid |
| Admin.AdminView.constructor | components/AdminDashboard.tsx:7-16 | the first render: empty lists, loading, no modal, the blank form, an empty tag box |
| Admin.AdminView.LoadData | components/AdminDashboard.tsx:18-25 | both lists are read from the store, and loading ends |
| Admin.AdminView.HandleApproveOrder | components/AdminDashboard.tsx:38-41 | the order is marked complete in the store, with one `ordersUpdated` event |
| Admin.AdminView.OpenPreview | components/AdminDashboard.tsx:43-49 | missing or empty markup leaves the preview as it was; otherwise the preview shows that markup |
| Admin.AdminView.ClosePreview | components/AdminDashboard.tsx:215 | the preview is closed |
| Admin.AdminView.OpenAddForm | components/AdminDashboard.tsx:118 | the add-project modal is open |
| Admin.AdminView.CloseAddForm | components/AdminDashboard.tsx:243 | the add-project modal is closed |
| Admin.AdminView.EditForm | components/AdminDashboard.tsx:249-303 | one field of the form takes the value, and the tags are kept |
| Admin.AdminView.SetTagInput | components/AdminDashboard.tsx:282 | the tag box's value |
| Admin.AdminView.AddTag | components/AdminDashboard.tsx:61-66 | a blank entry or a duplicate changes nothing, and leaves the box uncleared; otherwise the trimmed entry is appended and the box is cleared; the tags stay clean |
| Admin.AdminView.RemoveTag | components/AdminDashboard.tsx:68-70 | the tags become the filtered list, the tag is gone, and the tags stay clean |
| Admin.AdminView.HandleSaveProject | components/AdminDashboard.tsx:51-59 | without a title or an image nothing happens; otherwise the form is saved as one new project at the front, the modal closes, and the form and tag box reset |
| Portfolio.FilteredProjects | components/Portfolio.tsx:41-46 | a project is kept exactly when it meets all three filters, and every kept project is one of the inputs |
| Portfolio.Matches | components/Portfolio.tsx:42-44 | each of the three conditions is switched off by the wildcard; otherwise the category, palette or tag must be the project's |
| Portfolio.ResetShown | components/Portfolio.tsx:164 | the reset button is drawn while any filter is off the wildcard |
| Portfolio.FilteredKeepsOrder | components/Portfolio.tsx:41-46 | the grid is an order-preserving subsequence of the projects |
| Portfolio.NoFilterShowsAll | components/Portfolio.tsx:9-11 | with all three filters at the wildcard, the grid is the whole list |
| Portfolio.NarrowingNeverGrows | components/Portfolio.tsx:42-44 | setting any filter that was at the wildcard never adds cards |
| Portfolio.MatchingHeadLeads | components/Portfolio.tsx:41-46 | a matching project at the head of the list heads the grid |
| Portfolio.AllTags | components/Portfolio.tsx:39 | the wildcard comes first; then every tag of every project, without duplicates, and nothing that is not some project's tag |
| Portfolio.AllTagsInFirstOccurrenceOrder | components/Portfolio.tsx:39 | the tag buttons after the wildcard are in the order the tags first appear |
| Portfolio.TagButtonsNeverEmpty | components/Portfolio.tsx:150 | every tag button, with the other filters at the wildcard, shows at least one card |
| Portfolio.WildcardTagRepeats | components/Portfolio.tsx:39 | a tag spelled like the wildcard yields a second wildcard button, and choosing it filters nothing |
| Portfolio.PaletteTone | components/Portfolio.tsx:48-66 | the tone is the slate default exactly when the palette is missing or not one of the four |
| Portfolio.PaletteTonesDistinct | components/Portfolio.tsx:48-66 | the four palettes get four distinct tones, and every other value, including a missing palette, gets the default |
| Portfolio.CardDotTone | components/Portfolio.tsx:218-224 | the palette dot is drawn exactly when the palette is present and non-empty, and never in the slate tone |
| Portfolio.CardDotAgreesWithTone | components/Portfolio.tsx:218-224 | on the four palettes the dot has the border and badge tone |
| Portfolio.UnknownPaletteDotLooksGreen | components/Portfolio.tsx:218-224 | a palette outside the four gets green's emerald dot, while its border and badge tone is slate |
| Portfolio.ColorClass | components/Portfolio.tsx:48-56 | `getColorClass` gives a `border-` class that names the palette's colour family |
| Portfolio.ThemeColor | components/Portfolio.tsx:58-66 | `getThemeColor` gives a `text-` class that names the palette's colour family |
| Portfolio.BorderClassNamesTone | components/Portfolio.tsx:48-56 | each border class names its colour right after its prefix |
| Portfolio.ThemeClassNamesTone | components/Portfolio.tsx:58-66 | each badge class names its colour right after its prefix |
| Portfolio.ToneClassesDistinct | components/Portfolio.tsx:48-66 | different tones get different border classes and different badge classes |
| Portfolio.PaletteClassesDistinct | components/Portfolio.tsx:48-66 | each of the four palettes gets classes that differ from those of every other value |
| Portfolio.ShownTags | components/Portfolio.tsx:232 | a card shows a prefix of its tags, of length at most the limit |
| Portfolio.Overflow | components/Portfolio.tsx:235 | the `+n` marker is drawn exactly when a card has more than three tags; it is positive, and with the shown tags it accounts for them all |
| Portfolio.PortfolioView.constructor | components/Portfolio.tsx:9-14 | the first render: every filter at the wildcard, nothing loaded, loading |
| Portfolio.PortfolioView.LoadProjects | components/Portfolio.tsx:16-21 | the projects are read from the store, and loading ends |
| Portfolio.PortfolioView.SelectCategory | components/Portfolio.tsx:105 | the category filter takes the button's value |
| Portfolio.PortfolioView.SelectColor | components/Portfolio.tsx:129 | the colour filter takes the button's value |
| Portfolio.PortfolioView.SelectTag | components/Portfolio.tsx:150 | the tag filter takes the button's value |
| Portfolio.PortfolioView.ResetFilters | components/Portfolio.tsx:68-72 | every filter returns to the wildcard, the grid shows every project, and the reset button is hidden |

## Left out

- The assistant backend (`geminiService.ts`) is not part of this model. Its answers are parameters:
  - `ChatOutcome` is a reply with its sources, or a rejected promise;
  - `GenerationOutcome` is the markup, or a failure.
- The backend's vision, image and speech features are left out, along with its audio decoding. They are floating point and browser APIs.
- The backend catches its own errors and then replies with an apology text (`geminiService.ts:57-60`). A backend failure is therefore `Replied(apology, [])`.
- `Rejected` models a rejected promise, which the backend as written never produces. It stands for the component's catch branch (`components/ChatAgent.tsx:48-49`).
- In the source, that catch branch is reached only when the reply's text is undefined. The reply with undefined content has then already been appended, and the error text follows it: three messages in all. The model does not capture this path. `SendTranscript` always appends two messages.
- `Hero.tsx`, `Contact.tsx`, `Navbar.tsx` and `App.tsx` are left out: static markup, animation, scroll tracking and a fixed login comparison.
- Browser storage and JSON are left out. Each storage key is an optional list field, and serialisation is the identity.
- `window.dispatchEvent` is a ghost event log.
- `Math.random`, `Date.now` and `toLocaleString` are parameters of the store methods.
- `Store.DatabaseService.constructor` takes the fallback project list as a parameter. In the application that list is `InitialProjects()`, as `Store.FreshStoreReadsSeed` shows. Scenarios that touch only orders pass an empty list.
- Store.InitialProjects: the ten descriptions are left empty. They are display text that no operation reads. Titles, categories, images, palettes and tags are kept.
- `getSettings` is a fixed default record that no core operation reads, and is left out.
- The chat's extras are left out:
  - the one-second delay before payment is offered;
  - opening the generated site in a new window;
  - auto-scroll;
  - the unused image upload.
- The dashboard's iframe preview, alerts and tab switching are left out. The portfolio's project detail modal is left out too, except for its palette badge class (`Portfolio.ThemeColor`).
- The order-status badge colours and the colour swatches are left out. They are presentational and read nothing but the status or palette.
- React's asynchronous updates are not modelled. Each handler, or each half of `handleSend`, is one sequential step.
- Chat.ChatSession.FinishSend: reads the current step where the component reads the step captured when the send began. The two differ only if a panel handler runs during the await.
- Admin.AdminView.LoadData: and Portfolio.PortfolioView.LoadProjects: loading is on while the store is read. Because both reads are modelled as immediate, the intermediate `isLoading` state is not observable.
- The message `type` field and the sources' web wrapper are left out. No core operation reads them.
- The "market trends" button is `HandleSend` with its fixed prompt as `customPrompt`. The prompt's text is not modelled.
- Portfolio.PortfolioView.SelectCategory: and its colour and tag siblings accept any string. The view offers only the values of its buttons.
