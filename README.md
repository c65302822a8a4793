# Feather storefront components, modelled in Dafny

This project models the client-side core of the Feather Shopify theme:

- the **hydrator store** (`$store.hydrator`), which refreshes parts of a page
  through Shopify's Section Rendering API. `fetch(url, sectionId, slots)`
  requests `url` with a `section_id` parameter. It copies each listed slot from
  the returned document into the live page and re-initialises Alpine inside it.
  It pushes the URL without `section_id` onto the browser history and broadcasts
  `section:loading-start`, `-success` or `-error`, and `-end`. `fetchForm`
  submits a GET form through `fetch`, and `isLoading` reports the
  `isHydrating` flag;
- the **slider** component: a cyclic slide index with previous, next and
  go-to navigation, arrow-key navigation and an autoplay interval;
- the **desktop dropdown menu**: which top-level link's dropdown is open, and
  the one hover timeout that opens or closes it after a delay;
- the **scroll-snap carousel**: how far one press of next or prev scrolls, and
  the `atStart`/`atEnd` flags.

Each component is a Dafny `class` whose fields are the component's own state.
The hydrator's and the carousel's methods are proved against pure specification
functions, and lemmas state the component's promises about those functions. The
slider's and the dropdown menu's methods state their new state directly, and
their contracts and lemmas state the component's promises. The browser's side of each
interaction is made explicit:

- the server's answer to a section request is a method parameter
  (`ServerAnswer`). A document is modelled as a map from element id to inner
  HTML;
- the broadcast events, the requested URLs, the history entries, the
  re-initialised slots and the console warnings are logs kept in the store;
- the slider's registered intervals are a set of handles, and the interval
  firing is the step `Tick`;
- the dropdown's pending timeout is an `Option` of the action it will run, and
  its firing is the step `Fire`;
- the carousel's container geometry is an input.

The URL handling that the hydrator relies on is modelled in `Urls`. That module
holds URLSearchParams `set()` and `delete()` from section 6.2 of the WHATWG URL
Standard. It also holds the application/x-www-form-urlencoded parser and
serializer from sections 5.1 and 5.2 of the same standard, without
percent-encoding. It proves the round trip between them.

Two details of `fetch` shape the model:

- the request URL is built before the `try` block, so a URL that cannot be
  parsed rejects the call after `loading-start` and leaves `isHydrating` true.
  No `loading-error` or `loading-end` is broadcast in that case;
- `searchParams.set` keeps an existing `section_id` in its place and otherwise
  appends it after the other parameters.

## Model

| member | source | states |
|---|---|---|
| Urls.SetParam | src/js/hydrator.js:42 | `set` leaves exactly one pair of the name, and the list loses the pairs of that name and gains one |
| Urls.DeleteParam | src/js/hydrator.js:75 | `delete("section_id")` leaves no pair of that name, keeps every pair of another name and nothing else, and shortens the list by the number removed |
| Urls.DeleteParamAppend | src/js/hydrator.js:75 | `delete` works pair by pair in order: deleting from a concatenation is the concatenation of the deletions |
| Urls.DeleteParamKeepsOthers | src/js/hydrator.js:75 | a run of pairs without the name survives `delete` whole and in its place between what is left of the pairs around it |
| Urls.DeleteParamUnchanged | src/js/hydrator.js:75 | deleting a name changes the list exactly when a pair of that name is present |
| Urls.SetParamNamed | src/js/hydrator.js:42 | after `set("section_id", id)` exactly one pair carries that name, and it carries `id` |
| Urls.SetParamOthers | src/js/hydrator.js:42 | `set` keeps every other pair in its order, and with no pair of that name it appends the new pair at the end |
| Urls.SetParamInPlace | src/js/hydrator.js:42 | when the name is present, `set` rewrites its first occurrence in place and keeps everything before it |
| Urls.DeleteAfterSet | src/js/hydrator.js:42-75 | deleting is idempotent, and deleting after a `set` of the same name is the same as deleting alone |
| Urls.Serialise | src/js/hydrator.js:118-119 | the serialisation is empty exactly when there are no pairs, and it starts with the first pair's `name=value` |
| Urls.ParseQuery | src/js/hydrator.js:41-42 | the parsed query has no `&` or `=` in a name and no `&` in a value, and has at most one pair per character of the text |
| Urls.Parse | src/js/hydrator.js:41-42 | an accepted URL's head is a prefix of the text with no `?` or `#` and a non-empty host, its query is well formed, and it has a fragment exactly when the text has `#`; a rejected URL has an http or https head with an empty host |
| Urls.ToString | src/js/hydrator.js:77-79 | the serialisation starts with the head, puts `?` right after it when there is a query, and is the head alone with neither query nor fragment |
| Urls.ToStringQuery | src/js/hydrator.js:77-79 | a URL with a non-empty query and no fragment serialises as the head, `?` and the serialised query |
| Urls.ParseSerialise | src/js/hydrator.js:118-119 | parsing the form-urlencoded serialisation of a name-value list gives the same list back |
| Urls.ParseToString | src/js/hydrator.js:74-79 | parsing the serialisation of a well-formed URL gives the same URL back |
| Urls.ParseFormUrl | src/js/hydrator.js:117-119 | for an action without `?` or `#`, `${form.action}?${params}` parses back to the action as the head and the fields as the query |
| Hydrator.MatchedMissing | src/js/hydrator.js:55-71 | every requested slot is either swapped (found in both documents) or warned about (missing from one), never both |
| Hydrator.Attempt | src/js/hydrator.js:44-96 | the request's outcome adds one event and leaves the flag and the requests alone; a failure leaves page, history and logs untouched, and a success pushes one history entry |
| Hydrator.FetchSpec | src/js/hydrator.js:30-105 | a call resolves exactly when the URL parses, and is left hydrating exactly when it does not; it adds three events and one request when it parses, and one event and no request otherwise |
| Hydrator.Store.constructor | src/js/hydrator.js:19-20 | the store starts not hydrating, on the given page, with empty logs |
| Hydrator.Store.IsLoading | src/js/hydrator.js:128-130 | returns the `isHydrating` flag and changes nothing |
| Hydrator.Store.SwapSlot | src/js/hydrator.js:55-70 | one slot is copied and re-initialised when found in both documents, and otherwise left alone with one warning |
| Hydrator.Store.SwapSlots | src/js/hydrator.js:55-71 | after the loop the page is the requested slots swapped in, and the re-initialised and warned slots are exactly the matched and missing ones, in request order |
| Hydrator.Store.Fetch | src/js/hydrator.js:30-105 | the new store state and the call's completion are those the fetch specification gives for the old state |
| Hydrator.Store.FetchForm | src/js/hydrator.js:116-122 | behaves as `fetch` on the form's action followed by `?` and its serialised fields |
| Hydrator.FetchEvents | src/js/hydrator.js:30-104 | a call with a valid URL resolves and broadcasts start, then success exactly when the answer is 2xx (error otherwise), then end, all with the call's detail; `isLoading()` is true until end and false afterwards |
| Hydrator.FetchInvalidUrl | src/js/hydrator.js:31-44 | an unparsable URL rejects the call after `loading-start` only, with `isHydrating` left true and nothing else changed |
| Hydrator.FetchRequest | src/js/hydrator.js:41-45 | exactly one request is made, to the URL with a single `section_id` pair carrying the section id and every other pair kept |
| Hydrator.FetchHistory | src/js/hydrator.js:73-80 | only a successful call pushes a history entry, which is the URL without any `section_id` pair |
| Hydrator.FetchErrorPath | src/js/hydrator.js:47-96 | on a failed request or a non-2xx status the page, history and logs are untouched, and the error event carries the failure or the status |
| Hydrator.FetchSlots | src/js/hydrator.js:51-71 | after success each found slot holds the fetched content and is re-initialised, each missing one keeps its content and is warned about, and no element is added, removed or otherwise changed |
| Hydrator.FetchFormRequest | src/js/hydrator.js:116-121 | a form submission requests the action with the fields and `section_id` set among them |
| Hydrator.FetchFormAppends | src/js/hydrator.js:116-121 | for an action without `?` or `#`, a form none of whose fields is `section_id` requests its action with the fields in order followed by `section_id` |
| Hydrator.SearchFormExample | src/js/hydrator.js:116-121 | submitting a search form for `q=shoes&page=2` requests `/search?q=shoes&page=2&section_id=<id>` |
| Hydrator.CollectionPageExample | src/js/hydrator.js:10 | refreshing `ProductGridContainer` from `/collections/all?page=2` swaps the grid, broadcasts start, success, end and pushes `/collections/all?page=2` |
| Hydrator.FetchSent | src/js/hydrator.js:41-45 | a call with a valid URL issues exactly one request, to the URL with `section_id` set |
| Hydrator.FetchSuccess | src/js/hydrator.js:30-104 | a successful call broadcasts start, success and end with no error, and pushes the URL without `section_id` |
| Hydrator.FetchSwapped | src/js/hydrator.js:55-71 | after a successful call the live page is the old page with the requested slots swapped in |
| Hydrator.FetchPage | src/js/hydrator.js:30-104 | a successful one-slot refresh of a URL without `section_id` replaces that slot, broadcasts start, success, end and pushes that URL unchanged |
| Hydrator.SwappedOne | src/js/hydrator.js:55-65 | swapping in a single slot present in the live page replaces exactly that slot's content |
| Slider.NumberOr | src/js/slider.js:17-19 | a config value is taken when it is truthy and the default otherwise, so the result is 0 only when the default is |
| Slider.NextIndex | src/js/slider.js:35 | the next slide is a slide, and wraps from the last to the first |
| Slider.PrevIndex | src/js/slider.js:40 | the previous slide is a slide, and wraps from the first to the last |
| Slider.PrevNextInverse | src/js/slider.js:34-41 | `prev` undoes `next` and `next` undoes `prev` |
| Slider.NextIterWithin | src/js/slider.js:35 | within the range, `k` presses of next advance the index by `k` |
| Slider.NextIterAdd | src/js/slider.js:35 | `a + b` presses of next are `a` presses followed by `b` presses |
| Slider.NextCycle | src/js/slider.js:34-37 | `total` presses of next, or `total` autoplay ticks, return to the starting slide |
| Slider.Slider.constructor | src/js/slider.js:14-20 | `total`, `autoplay` and `speed` take their defaults 0, false and 5000 when falsy; the slider starts on slide 0 with no interval |
| Slider.Slider.Init | src/js/slider.js:22-26 | autoplay starts exactly when it is on and there is more than one slide |
| Slider.Slider.KeyDown | src/js/slider.js:28-31 | ArrowLeft goes to the previous slide and ArrowRight to the next, each with the autoplay reset of `prev`/`next`; any other key changes nothing |
| Slider.Slider.Next | src/js/slider.js:34-37 | moves to the next slide, and with autoplay on restarts the only registered interval |
| Slider.Slider.Prev | src/js/slider.js:39-42 | moves to the previous slide, and with autoplay on restarts the only registered interval |
| Slider.Slider.Goto | src/js/slider.js:44-49 | an index of a slide is taken (with the autoplay reset); any other index changes nothing |
| Slider.Slider.SetInterval | src/js/slider.js:53 | registers and returns a fresh interval handle |
| Slider.Slider.ClearInterval | src/js/slider.js:52 | unregisters the given interval handle |
| Slider.Slider.StartAutoplay | src/js/slider.js:51-54 | afterwards exactly one interval is registered, a fresh one, and it is the one the slider holds |
| Slider.Slider.StopAutoplay | src/js/slider.js:56-61 | afterwards no interval is registered or held, whatever the state before |
| Slider.Slider.ResetAutoplay | src/js/slider.js:63-68 | with autoplay on, a fresh interval replaces the old one; with it off, nothing changes |
| Slider.Slider.Tick | src/js/slider.js:53 | the interval firing advances to the next slide and keeps exactly one interval registered, a fresh one when autoplay is on |
| Slider.Slider.Destroy | src/js/slider.js:70-72 | leaves no interval registered |
| DropdownMenu.Apply | src/js/header/dropdown-menu.js:29-41 | a fired timeout leaves a dropdown open exactly when it was scheduled by `openMenu`, and then it is that link's |
| DropdownMenu.Menu.constructor | src/js/header/dropdown-menu.js:7-8 | no dropdown is open and no timeout is pending |
| DropdownMenu.Menu.OpenMenu | src/js/header/dropdown-menu.js:27-32 | replaces any pending timeout by one that opens `linkId`; the open dropdown does not change yet |
| DropdownMenu.Menu.CloseMenu | src/js/header/dropdown-menu.js:37-42 | replaces any pending timeout by one that closes; the open dropdown does not change yet |
| DropdownMenu.Menu.KeepOpen | src/js/header/dropdown-menu.js:47-49 | cancels the pending timeout and keeps the open dropdown |
| DropdownMenu.Menu.IsOpen | src/js/header/dropdown-menu.js:54-56 | true exactly when `linkId`'s dropdown is the open one |
| DropdownMenu.Menu.HandleEscape | src/js/header/dropdown-menu.js:61-64 | closes the dropdown at once and cancels the pending timeout |
| DropdownMenu.Menu.Fire | src/js/header/dropdown-menu.js:29-41 | the pending timeout's callback opens its link or closes; with none pending nothing changes |
| DropdownMenu.EscapeThenFire | src/js/header/dropdown-menu.js:61-64 | after Escape, a hover timeout that was scheduled cannot reopen the dropdown |
| DropdownMenu.HoverTwice | src/js/header/dropdown-menu.js:27-32 | hovering one link and then another opens only the second |
| Carousel.ItemsPerView | src/js/common/carousel.js:60 | the number of whole cards with their gaps that fit in the visible width, and no more |
| Carousel.ScrollTarget | src/js/common/carousel.js:42-76 | a target exists exactly when there is a container with an element child; with no step or a non-negative one, next never scrolls back and prev never scrolls forward |
| Carousel.ScrollTargetNone | src/js/common/carousel.js:43-49 | no scroll is issued exactly when there is no container or it has no element child |
| Carousel.DefaultStepFits | src/js/common/carousel.js:55-64 | without a step, one press scrolls by a whole number of cards with their gaps, at most the visible width and less than one card and gap short of it |
| Carousel.ConfiguredStep | src/js/common/carousel.js:56-64 | with a step, one press scrolls by exactly `step` cards and gaps |
| Carousel.ScrollSymmetric | src/js/common/carousel.js:66-70 | the next and prev targets lie the same distance on either side of the current position |
| Carousel.Carousel.constructor | src/js/common/carousel.js:7-11 | keeps the step; the flags start as at the start and not at the end, and nothing has been scrolled |
| Carousel.Carousel.Scroll | src/js/common/carousel.js:42-76 | asks `scrollTo` for exactly the scroll target of the step, direction and container, and issues no scroll when that is none |
| Carousel.Carousel.Next | src/js/common/carousel.js:36-38 | issues the scroll towards the end that `scroll("next")` issues |
| Carousel.Carousel.Prev | src/js/common/carousel.js:39-41 | issues the scroll towards the start that `scroll("prev")` issues |
| Carousel.Carousel.Update | src/js/common/carousel.js:77-87 | each flag holds exactly when its 1px-threshold condition holds, and both are kept when there is no container |
| Carousel.Carousel.Init | src/js/common/carousel.js:12-15 | computes the flags once, as `update` does |

## Left out

- Network, HTML parsing and timers: the server's answer, the element ids of the returned document and the firing of intervals and timeouts are inputs or explicit steps. Delays (100 ms, 200 ms, `speed`) are not modelled.
- Concurrency: overlapping `fetch` calls are not interleaved. Each call runs to completion, so the shared `isHydrating` flag of two overlapping calls is not modelled.
- URL resolution against `window.location.origin` is not modelled. The head is kept as written, and the only parse failure represented is an http or https URL with an empty host.
- Percent-encoding and decoding, `+` for spaces, and the serialiser's normalisation of the query are not modelled. The round trips need names free of `&`, `=` and `#` and values free of `&` and `#`.
- `FormData` collection from form controls is not modelled: the form is its action and its list of fields.
- Nested slots: a document is a flat map from id to inner HTML, so copying one slot does not change elements inside it.
- `history.pushState` failures, a failing `response.text()` and `console.error` output are not modelled. Console warnings are kept as a log of slot ids.
- `Alpine.store` registration, the `alpine:init` listener and what `Alpine.initTree` does are not modelled; the re-initialised slots are logged.
- Event delivery: broadcast events are logged, and their listeners are not modelled.
- Slider.Slider.Next: requires at least one slide. With `total` 0 the source computes NaN, which is not modelled. The same holds for Prev, Tick and KeyDown.
- Slider.Slider.constructor: `total`, `autoplay` and `speed` are fixed after construction, and only numeric or boolean config values are modelled.
- Urls.ParseFormUrl: proved only for an action without `?` or `#`; an action that already carries a query or fragment is not covered.
- Hydrator.FetchFormAppends: proved only for an action without `?` or `#`; for other actions only the weaker statement of FetchFormRequest is proved.
- Listener registration (the slider's keydown listener, the carousel's scroll and resize listeners) is not modelled; the handlers are the methods `KeyDown` and `Update`.
- `hasMegaMenu` and the dropdown's `init` are left out: they query the DOM or only log.
- Hydrator.FetchFormRequest: holds only for an action without `?` or `#`. The source appends `?` and the fields to the action as written, so an action that already has a query merges the first field into that query's last value, and a `#` in the action moves the fields into the fragment. Store.FetchForm reproduces this, but no lemma describes the request it gives.
- Carousel.Carousel.Scroll: smooth scrolling, clamping to the scroll range and fractional pixel values are not modelled.
