# Good Way Travels site scripts, modelled in Dafny

Good Way Travels is a static web site for a travel and document-services
agency in India. Its behaviour lives in browser scripts plus one Node script.
This project models the decision logic and state changes of those scripts and
proves what they guarantee. There is one Dafny module per script:

- `ServiceWorker` (sw.js). Covers the install, activate and fetch handlers of
  the service worker over an ordered list of named cache buckets:
  - pre-caching the critical resources;
  - deleting every bucket of another version;
  - the cache-first fetch with its offline fallbacks;
  - the notification click and the `CACHE_STATIC_RESOURCES` message.
- `LoadQueue` (js/performance-optimizer.js). The client resource loader.
  - Its class `Loader` holds a priority queue that is re-sorted on every
    push, a processing flag, and the metrics record. The metrics record
    holds the settlements, the set of loaded URLs and the error list.
  - `processLoadQueue` is an `async` loop that suspends at each awaited
    load and each 50 ms pause. The model splits it into those events: the
    start, a load settling, and a pause ending. `loadResource` calls made
    between events only extend the queue. `Drain` runs the events to the end.
  - Component scripts are loaded at high priority.
- `Core` (js/core.js). The page core:
  - the memoising `getElement` cache;
  - the dark-mode toggle;
  - the anchor scroll target;
  - the cookie banner.
- `MainOptimized` (js/main-optimized.js). The shared page script:
  - the e-mail and phone recognisers;
  - per-field validation and the submit handler;
  - the theme manager;
  - cookie consent.
- `Inquiry` (js/inquiry.js). The inquiry page:
  - the Indian mobile-number recogniser;
  - the validators;
  - the WhatsApp message and link;
  - service pre-selection from the URL;
  - message templates and their buttons;
  - the character counter.
- `Contact` (js/contact.js). The contact page: the FAQ accordion, form
  collection, the notice shown after submitting, and the theme toggle.
- `Services` (js/services.js). The services page: the category filter, the
  search box, and the "book" link that builds a contact URL.
- `PerformanceMonitor` (js/performance-monitor.js). Covers:
  - the metrics it reports;
  - the stored log, which keeps the 100 latest entries;
  - the resource-timing warnings;
  - time-to-interactive;
  - the first-interaction tracker.
- `NavScript` (assests/js/script.js). The landing page:
  - the sticky navbar;
  - the mobile menu;
  - highlighting the section in view;
  - anchor scrolling.
- `SizeReport` (performance-optimizer.js at the repository root). The Node
  script that totals file sizes and lists large files and images.
- `TextUtil`. The JavaScript string operations the scripts rely on:
  - `trim` over the whitespace set of `\s`;
  - ASCII `toLowerCase`;
  - `includes`, `indexOf`, and the replacement of a first occurrence;
  - decimal rendering of a count;
  - `localStorage.getItem` over a map.

Browser objects become class fields:

- cache storage is a sequence of buckets, each a map;
- `localStorage` is a `map<string, string>`;
- DOM classes and attributes are booleans, strings or sequences.

Everything the scripts obtain from outside is a parameter:

- network answers;
- `fetch` failures;
- `encodeURIComponent`;
- `new URL`;
- clocks;
- `matchMedia`.

## Model

| member | source | states |
|---|---|---|
| ServiceWorker.Open | sw.js:46 | opening a bucket adds it, empty, at the end when no bucket has that name, and otherwise leaves the list as it is; names stay distinct |
| ServiceWorker.PutIn | sw.js:124-127 | a put changes only the named bucket's entry for the key; every other bucket and every name is unchanged |
| ServiceWorker.Match | sw.js:103-108 | no answer iff no bucket holds the key; otherwise the answer is what the first bucket holding the key stores under it |
| ServiceWorker.PutAll | sw.js:45-50 | storing a batch of URLs keeps the bucket names |
| ServiceWorker.PutAllStores | sw.js:45-50 | after an accepted `addAll`, the bucket holds each URL with its response and keeps its other entries. Its keys are the old keys plus the URLs, and every other bucket is untouched |
| ServiceWorker.Prune | sw.js:66-76 | activation never adds buckets |
| ServiceWorker.PruneMembers | sw.js:68-75 | a bucket survives activation iff it was present and carries a current-version name |
| ServiceWorker.PruneDistinct | sw.js:68-75 | activation keeps bucket names distinct |
| ServiceWorker.Delete | sw.js:72 | deleting never adds buckets |
| ServiceWorker.DeleteMembers | sw.js:72 | `caches.delete(name)` removes exactly the buckets with that name |
| ServiceWorker.ActivateKeepsOnlyCurrent | sw.js:66-76 | after activation only the static and dynamic buckets of the current version remain, and the old `CACHE_NAME` bucket is gone. Current buckets are kept |
| ServiceWorker.ActivateStep | sw.js:69-73 | one iteration of the deletion loop moves the pruned prefix forward by one bucket |
| ServiceWorker.NonGetNotIntercepted | sw.js:90-92 | a request that is not GET is never answered by the worker |
| ServiceWorker.InterceptIff | sw.js:95-100 | a GET is answered iff its origin contains the worker's origin, or its URL contains one of the three CDN hosts |
| ServiceWorker.CacheFirst | sw.js:103-108 | a cached request is answered from the cache whatever the network would do |
| ServiceWorker.MissStoresOnlyBasicOk | sw.js:113-129 | on a miss the network response is returned, and it is stored iff its status is 200 and its type is basic |
| ServiceWorker.Resolve | sw.js:49 | a listed or looked-up URL is keyed by its resolved form: an absolute URL as it is, a root-relative path after the worker's origin |
| ServiceWorker.ResolveAll | sw.js:49 | `addAll` keys each listed URL by its resolved form, in list order |
| ServiceWorker.ResolveInjective | sw.js:11-39 | two root-relative paths under one origin share a key only when they are the same path |
| ServiceWorker.NetworkFailureFallback | sw.js:131-144 | when the network fails on a miss, a document gets whatever is cached under the worker's own resolved "/offline.html" URL; anything else gets a 503 plain-text "Offline" response |
| ServiceWorker.StoredOfflinePageIsServed | sw.js:113-135 | once the offline page has itself been fetched with a basic 200, a later document miss with the network down is answered with it |
| ServiceWorker.MatchAfterFreshPut | sw.js:124-127 | a key stored into an existing bucket, and held by no bucket before, is matched to the stored response |
| ServiceWorker.StoredResponseIsMatched | sw.js:113-129 | a cacheable response fetched on a miss is what the next lookup of that URL returns |
| ServiceWorker.NotificationClick | sw.js:191-201 | a click always closes the notification, and opens the services page iff the action is `explore` |
| ServiceWorker.InstallCachesCritical | sw.js:42-59 | when the network accepts every critical resource, install succeeds; the static bucket stores each resource's network response under its resolved URL, and that URL is then matched |
| ServiceWorker.InstalledServedOffline | sw.js:102-108 | after a successful install, a handled request for a critical resource's resolved URL is a cache hit, so it is served with the network down |
| ServiceWorker.IndexServedOfflineAfterInstall | sw.js:42-108 | after installing into empty storage, a same-origin GET of the index page is answered from the cache while offline |
| ServiceWorker.Worker.Install | sw.js:42-59 | install opens the static bucket and fills it with the critical resources, keyed by their resolved URLs. It calls skipWaiting only when the whole `addAll` succeeds, and otherwise leaves the bucket just opened |
| ServiceWorker.Worker.Precache | sw.js:45-58 | the open-then-`addAll` step, all or nothing |
| ServiceWorker.Worker.Activate | sw.js:62-82 | the loop over the cache names leaves exactly the pruned list, and the clients are claimed |
| ServiceWorker.Worker.HandleFetch | sw.js:85-148 | the fetch handler answers with the cache-first outcome (looking up the request's full URL, the keys install stores) and stores what that outcome stores |
| ServiceWorker.Worker.OnMessage | sw.js:246-261 | only `CACHE_STATIC_RESOURCES` changes the caches, by an all-or-nothing `addAll` of the static resources keyed by their resolved URLs |
| LoadQueue.Rank | js/performance-optimizer.js:41 | the priority weights are high 3, normal 2 and low 1 |
| LoadQueue.Filter | js/performance-optimizer.js:40-43 | the resources of one priority, in order |
| LoadQueue.FilterPartition | js/performance-optimizer.js:40-43 | the three priority groups together are the queue as a multiset |
| LoadQueue.SortIsPermutation | js/performance-optimizer.js:40-43 | sorting the queue neither adds nor loses a resource |
| LoadQueue.SortIsSorted | js/performance-optimizer.js:40-43 | after sorting, weights never increase along the queue |
| LoadQueue.SortIsStable | js/performance-optimizer.js:40-43 | sorting keeps the order within each priority, as the stable `Array.prototype.sort` does |
| LoadQueue.SortedIsGrouped | js/performance-optimizer.js:40-43 | sorting a sorted queue changes nothing |
| LoadQueue.StableSortUnique | js/performance-optimizer.js:40-43 | a sorted sequence with the same priority groups as the queue is the sort of the queue |
| LoadQueue.EnqueueEffect | js/performance-optimizer.js:39-43 | push-then-sort gives a sorted permutation of the queue plus the new resource, which lands last in its own group; the other groups are unchanged |
| LoadQueue.EnqueueKeepsOrder | js/performance-optimizer.js:39-43 | resources of equal priority stay in the order they were requested |
| LoadQueue.GroupsInCallOrder | js/performance-optimizer.js:39-43 | call order within each priority survives one more push |
| LoadQueue.Settle | js/performance-optimizer.js:57-79 | the drain settles each queued resource, in queue order |
| LoadQueue.LoadedUrlsIff | js/performance-optimizer.js:61-70 | a URL is recorded as loaded iff some drained resource with that URL resolved |
| LoadQueue.NoLoaderResolves | js/performance-optimizer.js:61-69 | a resource whose kind has no loader resolves without loading, and its URL is recorded |
| LoadQueue.ErrorsAreRejections | js/performance-optimizer.js:72-78 | one error entry per rejected resource, each naming a URL of a rejected resource |
| LoadQueue.ErrorsInRejectionOrder | js/performance-optimizer.js:72-78 | the errors follow the order of the rejections: the k-th error names a rejected resource with exactly k errors recorded before it |
| LoadQueue.Drained | js/performance-optimizer.js:57-85 | draining only appends settlements and errors and only adds loaded URLs |
| LoadQueue.DrainedSnoc | js/performance-optimizer.js:57-85 | settling one more entry after a drained prefix gives the drain of the longer prefix |
| LoadQueue.ComponentScript | js/performance-optimizer.js:178-190 | a component has a script iff it is one of the three known ones, and the script is `js/<name>.js` |
| LoadQueue.Loader.Enqueue | js/performance-optimizer.js:30-43 | a new resource gets the next id and the queue becomes the sort of the old queue plus it |
| LoadQueue.Loader.ProcessLoadQueue | js/performance-optimizer.js:52-58 | a drain already running, or an empty queue, changes nothing. Otherwise the flag is set and the loop runs its first pass up to its first suspension |
| LoadQueue.Loader.Resume | js/performance-optimizer.js:57-85 | one loop pass: the front entry is shifted; a script, stylesheet or image then awaits its loader; any other type is resolved, then the loop pauses if entries remain and ends with the flag cleared otherwise |
| LoadQueue.Loader.AfterSettle | js/performance-optimizer.js:82-88 | after settling, the loop pauses iff entries remain; otherwise the flag is cleared |
| LoadQueue.Loader.LoadSettles | js/performance-optimizer.js:61-85 | the awaited load resolves or rejects the entry being loaded, then the drain pauses or ends |
| LoadQueue.Loader.TimerFires | js/performance-optimizer.js:82-84 | the end of the 50 ms pause runs the next loop pass |
| LoadQueue.Loader.Step | js/performance-optimizer.js:57-85 | each event of a running drain settles at most the next pending entry, keeps the pending order, and brings the drain closer to its end |
| LoadQueue.Loader.Drain | js/performance-optimizer.js:52-88 | when no further entry arrives, the drain settles every pending entry in order and clears the flag; the metrics are those of the pending entries drained |
| LoadQueue.BurstOrder | js/performance-optimizer.js:28-88 | three calls in one turn, normal `a`, low `b`, high `c`, settle in the order a, c, b |
| LoadQueue.Loader.SettleEntry | js/performance-optimizer.js:69-78 | a loaded resource is resolved and its URL recorded; a failed one is rejected and its URL pushed as an error |
| LoadQueue.Loader.LoadResource | js/performance-optimizer.js:28-49 | the resource gets the next id. During a drain it is only queued, in sorted position. Otherwise a drain starts with it: a script, stylesheet or image starts loading, and any other type is resolved at once |
| LoadQueue.Loader.LoadComponent | js/performance-optimizer.js:176-194 | an unknown component changes nothing; a known one loads its script at high priority, queued during a drain and loading at once otherwise |
| Core.ReplayKeepsEntries | js/core.js:15-24 | a cached element is never removed or replaced by later lookups |
| Core.ReplayHoldsFound | js/core.js:19-22 | every selector a query found is cached |
| Core.LookupStep | js/core.js:19-22 | one uncached lookup keeps the cache equal to the first answers found, and a found selector is never queried again |
| Core.InitialDark | js/core.js:63-66 | dark when the saved theme is `dark`; without a saved theme it follows the system; any other saved theme is light |
| Core.Replace | js/core.js:68 | `classList.replace(a, b)` with `a` present gives the classes without `a`, plus `b`; without `a` it changes nothing; no other class is touched |
| Core.ScrollTarget | js/core.js:126-135 | no scroll for a bare `#` or a missing target; otherwise the target's top less the header height and 20 |
| Core.Page.GetElement | js/core.js:15-24 | a cached selector is answered without a query; otherwise one query is made and a found element is cached |
| Core.Page.InitTheme | js/core.js:55-86 | the toggle is looked up through the cache, which grows and logs as one `getElement` call does. Without the toggle or its icon the view is unchanged; otherwise the initial theme is applied and the toggle is listened to |
| Core.Page.ToggleTheme | js/core.js:72-84 | dark mode flips, the icon swaps, and the new theme is stored |
| Core.Page.AnchorClick | js/core.js:125-141 | a bare `#` or a missing target scrolls nowhere and touches no cache. Otherwise the header is looked up through the cache, as one `getElement` call, and the scroll target uses it |
| Core.Page.InitCookieConsent | js/core.js:146-165 | the three elements are looked up through the cache in order, as three `getElement` calls. The buttons are listened to and the banner's showing is scheduled iff the banner exists and no answer is stored |
| Core.Page.BannerTimerFires | js/core.js:161-164 | the scheduled timer gives the banner `show`; nothing else changes |
| Core.Page.HandleConsent | js/core.js:153-156 | the answer is stored and the banner is hidden |
| MainOptimized.EmailIffPattern | js/main-optimized.js:501-504 | the hand-written recogniser accepts exactly the strings of the e-mail regex |
| MainOptimized.EmailHasOneAt | js/main-optimized.js:501-504 | a valid address has exactly one `@` |
| MainOptimized.PhoneIgnoresWhitespace | js/main-optimized.js:506-509 | whitespace anywhere in a phone number does not change its validity |
| MainOptimized.RemoveWsAppend | js/main-optimized.js:508 | removing whitespace from a concatenation removes it from each part and keeps the parts in order, so the kept characters keep their order |
| MainOptimized.MobileNumbersAsPhones | js/main-optimized.js:506-509 | ten-digit mobiles, with or without `+91`, are valid phones; the `0`-prefixed form the inquiry page accepts is not |
| MainOptimized.FieldError | js/main-optimized.js:460-498 | each error message appears exactly when its rule fails on the trimmed value, and the required-field check comes first |
| MainOptimized.FieldPasses | js/main-optimized.js:469-498 | an empty optional field, and a filled field of a kind without a rule, pass |
| MainOptimized.FieldIgnoresPadding | js/main-optimized.js:461 | surrounding whitespace never changes a field's verdict |
| MainOptimized.ErrorsOf | js/main-optimized.js:545-566 | the verdict of each field, in form order |
| MainOptimized.Form.ValidateField | js/main-optimized.js:460-498 | the field's shown error becomes its verdict; no other field's error changes |
| MainOptimized.Form.HandleSubmit | js/main-optimized.js:545-566 | every field is validated, and submission proceeds iff none shows an error |
| MainOptimized.SystemTheme | js/main-optimized.js:76-78 | `dark` iff the system prefers dark, otherwise `light` |
| MainOptimized.InitialTheme | js/main-optimized.js:109-113 | a non-empty saved theme wins; otherwise the system theme |
| MainOptimized.IconFor | js/main-optimized.js:118 | the sun icon iff the theme is dark, otherwise the moon |
| MainOptimized.ThemeManager.SetTheme | js/main-optimized.js:81-97 | the attribute and the body class follow the theme, and the theme is stored |
| MainOptimized.ThemeManager.ShowIcon | js/main-optimized.js:117-119 | the icon matches the theme when there is an icon |
| MainOptimized.ThemeManager.Init | js/main-optimized.js:102-135 | nothing without the toggle; otherwise the initial theme is applied and stored, the icon is set, and the click and system-change listeners are attached |
| MainOptimized.ThemeManager.Toggle | js/main-optimized.js:138-154 | the theme flips, is stored, and the icon follows |
| MainOptimized.ThemeManager.OnSystemChange | js/main-optimized.js:125-133 | only while the listener `init` attached is live: a system switch is followed, with the icon, only while no theme is stored |
| MainOptimized.ThemeManager.ApplyTheme | js/main-optimized.js:81-97 | corrected behaviour: the theme is shown without being stored |
| MainOptimized.ThemeManager.InitFollowingSystem | js/main-optimized.js:102-135 | corrected behaviour: start-up applies the initial theme, with its icon, without storing it, and attaches the listeners only when the toggle exists |
| MainOptimized.ThemeManager.FollowSystem | js/main-optimized.js:125-133 | corrected behaviour: the page and the icon follow the system while the visitor has made no choice |
| MainOptimized.SystemSwitchIgnored | js/main-optimized.js:113-133 | as written, a first visit in light mode stays light after the system turns dark |
| MainOptimized.SystemSwitchFollowed | js/main-optimized.js:113-133 | corrected, the same visit turns dark and then light again as the system switches |
| MainOptimized.CookieConsent.Init | js/main-optimized.js:400-418 | nothing when an answer is stored or there is no banner; otherwise the banner's showing is scheduled and the buttons are listened to |
| MainOptimized.CookieConsent.ShowTimerFires | js/main-optimized.js:410-413 | two seconds later the banner is shown, whatever was answered meanwhile |
| MainOptimized.CookieConsent.Answer | js/main-optimized.js:420-436 | the answer is stored and the banner is hidden |
| Inquiry.IndianMobileIffPattern | js/inquiry.js:88-89 | the recogniser accepts exactly the strings of the Indian mobile regex |
| Inquiry.PatternImpliesRecogniser | js/inquiry.js:88-89 | every split the regex allows is accepted |
| Inquiry.RecogniserSplit | js/inquiry.js:88-89 | every accepted number has a split the regex allows |
| Inquiry.ValidMobileEnds | js/inquiry.js:141-145 | a valid mobile neither starts nor ends with whitespace |
| Inquiry.PaddingAndValidation | js/inquiry.js:127-184 | name and message checks ignore padding; a padded phone fails the regex, yet its trimmed value is valid |
| Inquiry.MappedService | js/inquiry.js:35-60 | a URL parameter maps to a service iff it is a key of the service map, and then to its non-empty name |
| Inquiry.FirstIndex | js/inquiry.js:62-67 | the first option equal to the value, or -1 iff none is |
| Inquiry.FirstIncluding | js/inquiry.js:633-640 | the first option whose lower-cased text includes the lower-cased keyword, or -1 iff none does |
| Inquiry.CustomerMessageFields | js/inquiry.js:93-99 | the WhatsApp message holds name, phone, service and message at fixed offsets, so each field reads back |
| Inquiry.SubmitToWhatsApp | js/inquiry.js:74-125 | missing fields are reported first, then an invalid phone; otherwise the wa.me link carries the encoded message of the trimmed fields |
| Inquiry.HandlerMessageIsBody | js/inquiry.js:213-221 | the submit handler's message is the header, the fields and the footer |
| Inquiry.HandlerUrl | js/inquiry.js:212-224 | the submit handler's link goes to the 9994120140 chat with the encoded header, fields and footer |
| Inquiry.TemplatesFor | js/inquiry.js:368-518 | Income Certificate and Other have one template; every other service has two |
| Inquiry.DefaultMessageShape | js/inquiry.js:579-583 | the fallback message is the default template with `[Service]` replaced by the service |
| Inquiry.ButtonsFor | js/inquiry.js:550-575 | one button per template, in order, plus a blank one iff there is more than one template |
| Inquiry.OtherBranchUnreachable | js/inquiry.js:576-580 | `Other` has templates, so the default-message branch for it is never taken |
| Inquiry.BlankOfferedIff | js/inquiry.js:565-574 | the blank button is offered iff the service is neither Income Certificate nor Other |
| Inquiry.CharCountLabelReadsBack | js/inquiry.js:614 | the counter label starts with `(`, then the decimal length, which reads back as the length, then `/` |
| Inquiry.AsWrittenNeverError | js/inquiry.js:616-622 | as written the error colour is never chosen; 491 characters get the warning colour |
| Inquiry.CharCountColourAsWritten | js/inquiry.js:616-622 | as written: the warning colour iff over 450 characters, grey otherwise, and never the error colour |
| Inquiry.CharCountColour | js/inquiry.js:616-622 | corrected: error iff over 490, warning iff 451 to 490, grey otherwise |
| Inquiry.ColourChainsAgreeUpTo490 | js/inquiry.js:616-622 | the written and corrected colour choices agree exactly up to 490 characters |
| Inquiry.InquiryPage.GetServiceFromUrl | js/inquiry.js:28-70 | a mapped service among the options becomes the first option with that value; otherwise the selection stays |
| Inquiry.InquiryPage.SelectByKeyword | js/inquiry.js:629-641 | a non-empty keyword selects the first option including it and shows its templates; no match changes nothing; a service with templates keeps the typed message and counter |
| Inquiry.InquiryPage.UpdateMessageTemplate | js/inquiry.js:529-585 | after a service change the templates of the selected service are shown |
| Inquiry.InquiryPage.ClickButton | js/inquiry.js:554-573 | a template button fills the message with its text, the blank one clears it, and the counter is refreshed with the colour chain as written |
| Inquiry.InquiryPage.UpdateCharCount | js/inquiry.js:609-623 | the label reads the message length, and the colour is the warning colour iff the length is over 450, as written |
| Inquiry.InquiryPage.UpdateCharCountIntended | js/inquiry.js:609-623 | corrected: the error colour is shown iff the message is over 490 characters |
| Inquiry.InquiryPage.OnLoad | js/inquiry.js:626-645 | a keyword that matches selects its option and shows its templates, keeping the typed message when the service has templates. Without one, the selection made by the slug listener registered earlier (`GetServiceFromUrl`) stands: the slug's mapped service when offered, otherwise the selection stays, and the message and buttons are untouched. The counter matches the message with the colour chain as written |
| Inquiry.InquiryPage.ValidateName | js/inquiry.js:127-139 | the result is the name rule, and the error mark is its negation |
| Inquiry.InquiryPage.ValidatePhone | js/inquiry.js:141-154 | the result is the mobile regex on the value, and the error mark is its negation |
| Inquiry.InquiryPage.ValidateService | js/inquiry.js:156-168 | the result is whether a service is selected, and the error mark is its negation |
| Inquiry.InquiryPage.ValidateMessage | js/inquiry.js:172-184 | the result is the message rule, and the error mark is its negation |
| Inquiry.InquiryPage.Submit | js/inquiry.js:193-206 | all four validators run and mark their fields; the send is scheduled, with the button disabled, iff all pass; the fields are left as they are |
| Inquiry.InquiryPage.SendTimerFires | js/inquiry.js:206-231 | the link is built from the fields as they are when the timer fires; the form is reset to empty fields and the first option; the success notice is shown and the button enabled again |
| Inquiry.InquiryPage.SuccessTimerFires | js/inquiry.js:232-234 | five seconds later the success notice is hidden and nothing else changes |
| Contact.InitialDark | js/contact.js:6-14 | dark iff the saved theme is `dark` |
| Contact.ClickLeavesOneOpen | js/contact.js:53-68 | a question click toggles that item and closes every other, so at most one is open |
| Contact.ClickTwiceCloses | js/contact.js:53-68 | clicking a closed item twice leaves all items closed |
| Contact.Faq.Click | js/contact.js:53-68 | the open and `aria-expanded` states both become the accordion step |
| Contact.Collect | js/contact.js:91-105 | the form is complete iff no field is blank |
| Contact.CollectIgnoresPadding | js/contact.js:92-96 | padding the inputs with whitespace collects the same form |
| Contact.ReplyNotice | js/contact.js:126-152 | success iff the response is OK and its trimmed body is `success`; a server's other answer is shown after `Error: `; a failed request gets the network message |
| Contact.SubmitNotice | js/contact.js:99-152 | a missing field is reported first, then a bad e-mail; only a sendable form shows the reply's notice |
| Contact.SuccessOnlyWhenSent | js/contact.js:105-147 | success is never shown for a form that was not sent |
| Contact.ContactPage.constructor | js/contact.js:6-14 | the page starts dark iff `dark` is stored |
| Contact.ContactPage.ToggleTheme | js/contact.js:17-28 | the theme flips, the icon follows, and the theme is stored |
| Contact.ContactPage.ShowNotice | js/contact.js:164-178 | the notice is shown, and its hiding is scheduled only for a success |
| Contact.ContactPage.HideTimerFires | js/contact.js:174-176 | five seconds later the message element is hidden, whatever notice it shows by then |
| Contact.ContactPage.Settle | js/contact.js:137-155 | the notice is shown, and the form is cleared only on success |
| Contact.ContactPage.Submit | js/contact.js:77-161 | a form is posted iff it is sendable; the notice matches the reply; the form is cleared only on success; the button is re-enabled |
| Services.LowerOrEmpty | js/services.js:73-75 | a missing element reads as the empty string, a present one lower-cased |
| Services.EmptySearchShowsAll | js/services.js:69-82 | an empty search shows every card |
| Services.SearchNarrows | js/services.js:77 | extending the search text never shows a card it hid |
| Services.ToLowerContains | js/services.js:70-77 | lower-casing keeps every substring |
| Services.TitleMatchShown | js/services.js:70-77 | a card whose title contains the typed text is shown, whatever its case |
| Services.ActionLabel | js/services.js:95-102 | `Book Now` iff the type mentions travel; `Get Certificate` for certificates that are not documents; `Apply Now` otherwise |
| Services.ContactUrlInjective | js/services.js:107 | with an injective encoding that never yields `&`, the contact URL determines the service and its type |
| Services.ServicesPage.Init | js/services.js:34-69 | filtering is wired iff there are buttons and cards, searching iff there is a box and cards |
| Services.ServicesPage.FilterClick | js/services.js:41-57 | exactly the clicked button is active, and a card is shown iff it matches the button's category |
| Services.ServicesPage.SearchInput | js/services.js:69-83 | a card is shown iff its lower-cased title, description or service name includes the lower-cased query |
| Services.ServicesPage.LinkClick | js/services.js:89-110 | the question asked uses the card's action label, and the page moves to the contact URL only when confirmed |
| PerformanceMonitor.Appended | js/performance-monitor.js:246-257 | the stored log after one report is the last 100 entries of the log plus the new one |
| PerformanceMonitor.AppendedShape | js/performance-monitor.js:247-257 | the new entry is last, at most 100 are kept, nothing is dropped below 100, and the kept entries are the newest of the old log |
| PerformanceMonitor.ReportAllKeepsLatest | js/performance-monitor.js:245-262 | any run of reports leaves the 100 latest entries |
| PerformanceMonitor.Tti | js/performance-monitor.js:91-95 | time-to-interactive is computed iff an input delay was measured, and equals LCP plus that delay |
| PerformanceMonitor.ResourceWarnings | js/performance-monitor.js:111-127 | each warning is given iff its threshold is passed: over 1000 ms for any resource, over 2000 for images, over 1000 for scripts, over 500 for stylesheets |
| PerformanceMonitor.TypedWarningsAndGeneral | js/performance-monitor.js:115-127 | a slow image or script warning always comes with the general one; a stylesheet between 500 and 1000 ms gets only its own |
| PerformanceMonitor.Stored | js/performance-monitor.js:245-262 | an unreadable slot or a failed write leaves the slot as it was; otherwise it holds the old entries plus the new one, cut to the latest 100 |
| PerformanceMonitor.StoredRunKeepsLatest | js/performance-monitor.js:245-262 | from a readable slot within the bound, any run of successful reports leaves the latest 100 of the old and new entries |
| PerformanceMonitor.LoadStoresBoth | js/performance-monitor.js:83-96 | the load handler's two successful stores keep the latest 100 entries ending with the load time and then the TTI |
| PerformanceMonitor.Monitor.ReportMetric | js/performance-monitor.js:216-263 | the metric is reported, and the slot becomes `Stored` of the old slot and the entry stamped with the `Date.now()` clock |
| PerformanceMonitor.Monitor.OnLcp | js/performance-monitor.js:26-34 | LCP is recorded and reported, and the slot stores it with the wall-clock stamp |
| PerformanceMonitor.Monitor.OnFirstInput | js/performance-monitor.js:37-46 | the first input delay is the processing start less the start; it is reported and stored |
| PerformanceMonitor.Monitor.OnLoad | js/performance-monitor.js:83-96 | the load time (`performance.now()`) is reported, then time-to-interactive exactly when an input delay was measured. Each is stored in turn with its own `Date.now()` stamp and write |
| PerformanceMonitor.Monitor.TrackInteractions | js/performance-monitor.js:135-149 | the four interaction listeners (click, keydown, scroll, touchstart) are attached |
| PerformanceMonitor.Monitor.OnInteraction | js/performance-monitor.js:141-148 | the first interaction is reported once, with its `performance.now()` value, and stored with a `Date.now()` stamp; the listener removes itself |
| NavScript.CurrentIndex | assests/js/script.js:61-68 | the last reached section, with every later one not reached, or -1 |
| NavScript.CurrentIndexMonotone | assests/js/script.js:61-68 | scrolling further down never moves the highlight to an earlier section |
| NavScript.NothingAtTop | assests/js/script.js:61-68 | at the top of a page whose sections all start below 200 pixels nothing is highlighted |
| NavScript.AnchorTop | assests/js/script.js:82-91 | an anchor scrolls 80 pixels above its target, and nowhere without one |
| NavScript.Highlighted | assests/js/script.js:70-75 | a link is active iff it points at the current section |
| NavScript.AtMostOneHighlighted | assests/js/script.js:70-75 | with distinct links at most one is active |
| NavScript.NavPage.StickyScroll | assests/js/script.js:3-10 | the navbar is marked scrolled iff the page is more than 50 pixels down |
| NavScript.NavPage.CloseMenu | assests/js/script.js:29-33 | menu, overlay and body lock are all released |
| NavScript.NavPage.TogglerClick | assests/js/script.js:18-34 | a collapsed menu schedules its opening; an expanded one closes at once |
| NavScript.NavPage.OpenTimerFires | assests/js/script.js:23-27 | the scheduled opening shows menu and overlay and locks the body |
| NavScript.NavPage.OverlayClick | assests/js/script.js:37-42 | the menu closes and the toggler is collapsed |
| NavScript.NavPage.NavLinkClick | assests/js/script.js:45-54 | a link click closes the menu only below 992 pixels of width |
| NavScript.NavPage.HighlightScroll | assests/js/script.js:57-76 | the loop finds the current section, and exactly the links pointing at it become active |
| SizeReport.CountExisting | performance-optimizer.js:40-60 | no more files are counted than are listed |
| SizeReport.LargeFilesShape | performance-optimizer.js:49-57 | each large-file entry names an existing listed file with its size, which is over 50 KB |
| SizeReport.LargeFilesComplete | performance-optimizer.js:49-57 | every existing listed file over 50 KB gets a large-file entry with its size |
| SizeReport.LargeFilesAppend | performance-optimizer.js:49-57 | the entries of a list are those of its parts, in list order |
| SizeReport.MissingFileIgnored | performance-optimizer.js:58-60 | a missing file changes neither the total, nor the count, nor the large files |
| SizeReport.ImagePath | performance-optimizer.js:85 | an image's path is the image directory, a slash, and its name |
| SizeReport.Images | performance-optimizer.js:77-79 | only image files of the listing are kept |
| SizeReport.ImagesComplete | performance-optimizer.js:77-79 | every image file of the listing is kept |
| SizeReport.LargeImages | performance-optimizer.js:92-98 | each large-image entry is over 100 KB |
| SizeReport.LargeImagesFromListing | performance-optimizer.js:77-113 | each large-image entry comes from an image of the listing, with its path and size |
| SizeReport.LargeImagesComplete | performance-optimizer.js:92-98 | every image over 100 KB gets a large-image entry with its path and size |
| SizeReport.LargeImagesAppend | performance-optimizer.js:92-98 | the entries of a run of images are those of its parts, in order |
| SizeReport.LargeImagesCompleteFromListing | performance-optimizer.js:77-98 | every image file of the directory over 100 KB gets a large-image entry with its path and size |
| SizeReport.Optimizer.AnalyzeFileSizes | performance-optimizer.js:21-65 | the total, the count and the entries grow by those of the existing listed files |
| SizeReport.Optimizer.AnalyzeImages | performance-optimizer.js:68-116 | a missing image directory adds nothing; otherwise the large images of its listing are added |
| SizeReport.Optimizer.PushAll | performance-optimizer.js:103-114 | the entries are appended in order |
| SizeReport.Optimizer.GenerateReport | performance-optimizer.js:175-181 | the report runs the file analysis, then the image analysis |
| SizeReport.ImageList | performance-optimizer.js:77-79 | the filter loop computes the image list |
| SizeReport.ScanImages | performance-optimizer.js:81-99 | the loop computes the total image bytes and the large images |
| SizeReport.FilesFlaggedFirst | performance-optimizer.js:179-180 | in the report every large-file entry comes before every large-image entry |
| TextUtil.GetItem | js/core.js:63 | `getItem` answers iff the key is stored, with the stored value |
| TextUtil.TrimShape | js/contact.js:92-96 | `trim` removes a whitespace prefix and suffix and leaves a result with no whitespace at either end |
| TextUtil.TrimEmptyIffAllWs | js/contact.js:105 | a trimmed value is empty iff the input is all whitespace |
| TextUtil.TrimIgnoresPadding | js/main-optimized.js:461 | extra whitespace padding does not change the trimmed value |
| TextUtil.ToLower | js/services.js:70 | lower-casing keeps the length and maps each character on its own |
| TextUtil.ContainsIffOccurs | js/services.js:77 | `includes` holds iff the pattern occurs at some position |
| TextUtil.IndexOf | js/inquiry.js:581 | the first position of the pattern, or -1 iff it does not occur |
| TextUtil.ReplaceAt | js/inquiry.js:581 | `replace` with a string pattern replaces its first occurrence |
| TextUtil.NatToStringRoundTrip | js/inquiry.js:614 | the decimal rendering of a count reads back as that count |
| TextUtil.RemoveWs | js/main-optimized.js:508 | removing whitespace leaves none and never lengthens the string |
| TextUtil.RemoveWsMembers | js/main-optimized.js:508 | a character survives iff it occurs in the input and is not whitespace |
| TextUtil.RemoveWsIdentity | js/main-optimized.js:508 | removing whitespace from a string without any changes nothing |
| TextUtil.IndexOfChar | js/main-optimized.js:502 | the first position of the character, or -1 iff it is absent |

## Left out

- Timers that a decision depends on are separate events the caller fires: the load queue's 50 ms pause, the inquiry page's send and success timers, the cookie banners' show delay in core.js and main-optimized.js, and the landing page's menu opening. How long each delay lasts, and which event comes first, is up to the caller. `debounce`/`throttle` and memory polling are not modelled.
- The second fetch listener in sw.js only logs timing, so it is not modelled.
- Background sync, with its stub storage, and the push-notification display in sw.js are stubs, so they are not modelled.
- LoadQueue.Loader.Drain: it runs the drain to its end with no `loadResource` call in between. Calls made during a drain are modelled by calling `LoadResource` between single `LoadSettles` and `TimerFires` events, as `BurstOrder` does.
- LoadQueue.Drained: its contract only states that draining appends and grows. The exact value appears in `Drain`'s postcondition, which ties the metrics to `Drained` one settled entry at a time.
- Inquiry.ValidName, Inquiry.ValidMessage, Inquiry.CharCountLabel: a length is the number of Dafny characters. JavaScript's `.length` counts UTF-16 code units, so a character outside the Basic Multilingual Plane counts twice there and once here.
- Services.SearchShows, Inquiry.FirstIncluding, TextUtil.ToLower: lower-casing maps only `A`-`Z`. JavaScript's `toLowerCase` also lowers other scripts' capitals, which the model leaves as they are.
- ServiceWorker.StoredResponseIsMatched, ServiceWorker.Worker.HandleFetch: the `cache.put` is taken to have finished, and to have succeeded, before the next lookup. In sw.js the put is neither awaited nor checked, so a lookup made right after may still miss.
- ServiceWorker.Resolve: it resolves only the forms the worker uses, an absolute http(s) URL or a root-relative path. Other relative forms (`../x`, `//host/x`) and URL normalisation are not modelled, and a request's `href` is taken as already resolved by the browser.
- TextUtil.ReplaceAt, Inquiry.DefaultMessage: the replacement string is inserted as it is. JavaScript's `replace` would expand `$&`, `$1` and `$$` in it; the service names put there contain no `$`.
- MainOptimized.ThemeManager.Toggle: the theme is applied at once. main-optimized.js applies it inside `requestAnimationFrame`, so the change shows on the next frame.
- Contact.ContactPage.Submit: the `fetch` and its reply are one step. The interval in which the request is in flight and the button is disabled is not modelled.
- MainOptimized.Form.ValidateField: each field has its own error slot. `removeError` actually removes the first `.field-error` in the field's parent, so two fields sharing a parent can clear each other's message; that is not modelled.
- Contact.ContactPage.Submit: a failure of `response.text()` after an OK status is passed in as `NetworkFailure`. contact.js sends it to the same `catch` as a failed request, so the notice is the same; the two causes are not told apart.
- Priorities are a three-valued type. A priority string outside high, normal and low makes the JavaScript comparator yield NaN; that case is not modelled.
- Loading a script, stylesheet or image is a parameter `fails` that says which loads fail. The `performance.now` durations of loads are not modelled.
- The following are treated as opaque parameters:
  - `fetch`;
  - `encodeURIComponent`;
  - `new URL`, except the service worker's resolution of its own URLs, and `isValidUrl`;
  - `matchMedia`;
  - `confirm`;
  - `window.open`.
- `gtag` and the analytics POST are not modelled.
- Floating-point values are integers in the model: timings, scroll positions, offsets and sizes. `Math.round`, CLS sums and `toFixed` formatting are not modelled.
- The following parts of js/performance-monitor.js are not modelled:
  - the memory, network and error trackers;
  - the CLS, FP/FCP and DOMContentLoaded observers.
- Console output and the recommendations text of the size report are not modelled. A file is treated as missing when `fs.statSync` would throw. The image listing carries its sizes.
- The inquiry templates' long texts are named values rather than strings. `ClickButton` takes the function that gives each text, and the template counts per service are kept exactly.
- The WhatsApp numbers are modelled as written. `submitToWhatsApp` uses 919994120140 and the submit handler uses 9994120140, and the model keeps both.
- sw.js is cache-first for every intercepted request, and the model follows it.
- Mobile menus duplicated in core.js, contact.js, services.js, inquiry.js and main-optimized.js (js/main-optimized.js:158-252) are not modelled, except the landing page's menu in assests/js/script.js.
- The `performanceMonitor` object in js/main-optimized.js:570-633 only writes to the console, so it is not modelled; js/performance-monitor.js is modelled instead.
- Core.Page.InitCookieConsent, MainOptimized.CookieConsent.Init: `consentListening` and `listening` mean that the handlers are attached to whichever of the accept and decline buttons exist (`?.addEventListener`). A page that lacks one of the two buttons is not told apart.
- Focusing the first invalid field is not modelled, and neither is Bootstrap's flipping of `aria-expanded`.
- Particles, animations, lazy-loading observers, and the right-click and shortcut blockers are not modelled. js/main.js, js/about.js and js/shared-utils.js are not part of this model; their decisions duplicate those of core.js and main-optimized.js.
- JSON parsing of the stored metrics log is reduced to a slot. The slot is absent, readable, or `Unreadable`, and an unreadable slot is left as it is.

## Findings

| source | as written | input that shows it | evidently intended | confidence | as-written member | corrected member |
|---|---|---|---|---|---|---|
| js/inquiry.js:616-622 | `> 450` is tested before `> 490`, so the error colour can never be chosen | a 491-character message gets the warning colour | over 490 characters shows the error colour | not executed | Inquiry.AsWrittenNeverError | Inquiry.CharCountColour |
| js/main-optimized.js:113-133 | start-up stores the system theme through `setTheme`, so the change listener's "no stored theme" guard never holds afterwards | a first visit with a light system theme, then the system switches to dark: the page stays light | follow the system while the visitor has made no choice | not executed | MainOptimized.SystemSwitchIgnored | MainOptimized.SystemSwitchFollowed |
