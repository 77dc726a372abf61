# interloper-ex browser controllers, modelled in Dafny

A model of the behaviour in the interloper web front end that can be stated
without a DOM:

- `utils/datetime.js`: `dateFormat` and its nested `trimpad`, which render a
  Date as `Sun, 05 Jan 2020 09:03:07` from the integer fields the Date getters
  return (module `DateTime`, with JavaScript's integer-to-string conversion in
  `Numbers`).
- `controllers/select_controller.js`: the key filter of `handleKey`, the
  two-stage key resolution (`keymap` by `e.key`, then `codemap` by `keyCode`)
  and the cyclic up/down movement of focus through the `.selector` elements
  (module `Select`; focus is "the i-th selector, some other element, or
  none").
- `controllers/page_controller.js`: link interception, `ensureState`,
  the push-then-load sequence of `navigate`, `replacePage`, and the staleness
  gate in `loadPage` (module `Page`). Browser history is a `Browser` object:
  a stack of entries with a current index and push, replace, traverse and
  read. Each
  state object carries a stamp that stands for its identity, because the
  source compares states with `!==`. The asynchronous `loadPage` is split into
  `LoadStart`, which captures the history state; `LoadHeaders`, where the
  state is compared with the captured one; and `LoadBody`, which parses and
  replaces without comparing again. A Back or Forward of the user is
  `Traverse`.
- `controllers/status_controller.js` and `controllers/datetime_controller.js`:
  the `HH:MM` padding both compute (module `Clock`), `currentTime` change
  detection, and the `clockTimer` lifecycle across connect and disconnect
  (modules `Status` and `DatetimeController`).

Foreign inputs are parameters. `new Date()` becomes the integer fields it
would report. `setInterval` becomes the handle it returns, and `clearInterval`
the handle `Disconnect` returns. `fetch` and `DOMParser` become a `Response`
value that carries the parsed document. A Stimulus target is a boolean, either
present or not. `requestAnimationFrame` becomes a pending flag per target,
which `AnimationFrame` consumes.

## Model

| member | source | states |
|---|---|---|
| `Numbers.Decimal` | apps/interloper_web/assets/js/utils/datetime.js:14 | `n + ''` is a non-empty numeral |
| `Numbers.ValueOfNatDigits` | apps/interloper_web/assets/js/utils/datetime.js:14 | reading the digits of a natural number back gives the number |
| `Numbers.DecimalValue` | apps/interloper_web/assets/js/utils/datetime.js:14 | a non-negative numeral is all digits and denotes n; a negative one is '-' followed by the digits of -n |
| `Numbers.DecimalInjective` | apps/interloper_web/assets/js/utils/datetime.js:14 | distinct integers give distinct strings |
| `Numbers.DecimalLength` | apps/interloper_web/assets/js/utils/datetime.js:25 | numerals of 0..9, 10..99 and 1000..9999 have 1, 2 and 4 characters |
| `DateTime.NameTables` | apps/interloper_web/assets/js/utils/datetime.js:4-5 | 7 day names and 12 month names, each 3 characters |
| `DateTime.DayNamesDistinct` | apps/interloper_web/assets/js/utils/datetime.js:4 | no two days share a name |
| `DateTime.MonthNamesDistinct` | apps/interloper_web/assets/js/utils/datetime.js:5 | no two months share a name |
| `DateTime.Trimpad` | apps/interloper_web/assets/js/utils/datetime.js:13-22 | any non-empty input gives a 2-character result |
| `DateTime.TrimpadWindow` | apps/interloper_web/assets/js/utils/datetime.js:15-21 | with 2 or more characters, exactly the last two are kept (so a 2-character string is unchanged); with fewer, one '0' is prepended |
| `DateTime.TrimpadIdempotent` | apps/interloper_web/assets/js/utils/datetime.js:13-22 | trimpad applied to its own non-empty result changes nothing |
| `DateTime.TrimpadOfNat` | apps/interloper_web/assets/js/utils/datetime.js:13-22 | for any n >= 0, trimpad gives n mod 100 as two zero-padded digits |
| `DateTime.TrimpadTwoDigits` | apps/interloper_web/assets/js/utils/datetime.js:13-22 | for 0..99, trimpad gives the two-digit zero-padded decimal |
| `DateTime.DateFormat` | apps/interloper_web/assets/js/utils/datetime.js:13-26 | for every Date (day 0..6, month 0..11) the text has 21 characters plus the year's numeral: each of the four trimpad fields gives exactly two |
| `DateTime.DateFormatLayout` | apps/interloper_web/assets/js/utils/datetime.js:24-26 | the text is day name, ", ", date, " ", month name, " ", then the year neither padded nor trimmed, then " HH:MM:SS" |
| `DateTime.DateFormatLength` | apps/interloper_web/assets/js/utils/datetime.js:24-26 | with a four-digit year and in-range fields, the text has exactly 25 characters |
| `DateTime.DateFormatInjective` | apps/interloper_web/assets/js/utils/datetime.js:24-26 | distinct in-range field sets give distinct texts: the format loses nothing |
| `Clock.Pad` | apps/interloper_web/assets/js/controllers/status_controller.js:47 | only a one-character string gets a '0' in front; the input is always a suffix of the result |
| `Clock.PadAgreesWithTrimpad` | apps/interloper_web/assets/js/controllers/datetime_controller.js:27-31 | on 0..99 the clock padding equals trimpad and the two-digit decimal |
| `Clock.PadKeepsLongNumerals` | apps/interloper_web/assets/js/controllers/datetime_controller.js:27-31 | numerals of two or more characters are left as they are (unlike trimpad, nothing is cut) |
| `Clock.ClockText` | apps/interloper_web/assets/js/controllers/status_controller.js:46-50 | the `${h}:${m}` both controllers build (also datetime_controller.js:27-35): for hours and minutes in 0..99 it is the two zero-padded fields around ':', exactly 5 characters |
| `Clock.ClockTextFields` | apps/interloper_web/assets/js/controllers/status_controller.js:46-50 | in an in-range clock text the first two characters are the hours and the last two the minutes, each as two digits |
| `Clock.ClockTextInjective` | apps/interloper_web/assets/js/controllers/datetime_controller.js:27-35 | distinct in-range times give distinct clock texts |
| `Select.Handles` | apps/interloper_web/assets/js/controllers/select_controller.js:30-65 | with the controller's tables, handleKey acts exactly on an event not already prevented, outside INPUT/TEXTAREA/SELECT/contentEditable, without modifiers, whose key is Escape, ArrowUp or ArrowDown or whose keyCode is 27, 38 or 40 |
| `Select.Resolve` | apps/interloper_web/assets/js/controllers/select_controller.js:49-57 | a key found in keymap wins over keyCode; whatever resolves is a keymap handler |
| `Select.ResolveDefault` | apps/interloper_web/assets/js/controllers/select_controller.js:11-22 | with the controller's tables an event resolves exactly when its key is Escape, ArrowUp or ArrowDown, or its keyCode is 27, 38 or 40 |
| `Select.ResolveLegacyCodes` | apps/interloper_web/assets/js/controllers/select_controller.js:52-57 | when the key is undefined or unmapped, codes 27, 38 and 40 resolve to Escape, ArrowUp and ArrowDown |
| `Select.IndexOf` | apps/interloper_web/assets/js/controllers/select_controller.js:78 | -1 exactly when the active element is not one of the n selectors, else its index |
| `Select.UpTarget` | apps/interloper_web/assets/js/controllers/select_controller.js:75-83 | none for an empty list; last entry when nothing listed (or the first) is focused; otherwise the previous index, i.e. (i - 1) mod n |
| `Select.DownTarget` | apps/interloper_web/assets/js/controllers/select_controller.js:85-93 | none for an empty list; first entry when nothing listed (or the last) is focused; otherwise the next index, i.e. (i + 1) mod n |
| `Select.UpDownInverse` | apps/interloper_web/assets/js/controllers/select_controller.js:75-93 | ArrowUp then ArrowDown, or the reverse, returns to the starting selector |
| `Select.After` | apps/interloper_web/assets/js/controllers/select_controller.js:75-113 | every action ends in deselect for an empty list; up and down always land on a selector otherwise; Escape always blurs |
| `Select.SelectController.constructor` | apps/interloper_web/assets/js/controllers/select_controller.js:9-23 | `initialize` installs the keymap and codemap tables |
| `Select.SelectController.Deselect` | apps/interloper_web/assets/js/controllers/select_controller.js:108-113 | the active element is cleared |
| `Select.SelectController.Select` | apps/interloper_web/assets/js/controllers/select_controller.js:95-106 | a defined selector becomes active, and `focus` is called only if it was not already active (changing nothing); an undefined one deselects |
| `Select.SelectController.SelectUp` | apps/interloper_web/assets/js/controllers/select_controller.js:75-83 | focus moves to UpTarget, or is cleared when there is none |
| `Select.SelectController.SelectDown` | apps/interloper_web/assets/js/controllers/select_controller.js:85-93 | focus moves to DownTarget, or is cleared when there is none |
| `Select.SelectController.HandleKey` | apps/interloper_web/assets/js/controllers/select_controller.js:29-69 | `preventDefault` is called iff the event is not already prevented, not in INPUT/TEXTAREA/SELECT/contentEditable, has no modifier, and resolves; then the action runs, otherwise focus is unchanged |
| `Page.Browser.State` | apps/interloper_web/assets/js/controllers/page_controller.js:81 | the current state was written before every future write |
| `Page.Browser.constructor` | apps/interloper_web/assets/js/controllers/page_controller.js:38 | a loaded document has one entry whose state is null |
| `Page.Browser.PushState` | apps/interloper_web/assets/js/controllers/page_controller.js:29 | forward entries are dropped, one fresh state is appended and made current; document.title is untouched |
| `Page.Browser.Traverse` | apps/interloper_web/assets/js/controllers/page_controller.js:93 | Back or Forward makes another entry current and restores its state as a new object, with no other entry and no title changed; so a token captured before it is stale |
| `Page.Browser.ReplaceState` | apps/interloper_web/assets/js/controllers/page_controller.js:41 | only the current entry changes, to a fresh state; the length stays |
| `Page.WriteMakesTokensStale` | apps/interloper_web/assets/js/controllers/page_controller.js:93 | a state captured before a write never equals the state that write made |
| `Page.Intercepts` | apps/interloper_web/assets/js/controllers/page_controller.js:20-24 | an intercepted link has a truthy href, so the loading text navigate shows always names it and "Loading..." is never reached from a click |
| `Page.LoadingText` | apps/interloper_web/assets/js/controllers/page_controller.js:47 | "Loading " + path for a non-empty path, from which the path can be read back; "Loading..." otherwise |
| `Page.ParsePage` | apps/interloper_web/assets/js/controllers/page_controller.js:51-66 | fails exactly when there is no `#output`; otherwise returns that output and the head title's text, or '' without one |
| `Page.AtHeaders` | apps/interloper_web/assets/js/controllers/page_controller.js:87-99 | a network error or a non-ok response rejects (non-ok with "Couldn't retrieve " + path); an ok one hands on its body when the state is still the captured one, and the null document otherwise |
| `Page.AtBody` | apps/interloper_web/assets/js/controllers/page_controller.js:100-101 | replacement happens iff what was handed on has `#output`, under its head title; a rejection passes through |
| `Page.Complete` | apps/interloper_web/assets/js/controllers/page_controller.js:86-101 | with no history change between headers and body: replacement happens iff the response is ok, the state at response time is the captured one, and the page has `#output`; a non-ok response rejects with "Couldn't retrieve " + path; a stale one reaches parsePage as null and fails |
| `Page.EnsureState` | apps/interloper_web/assets/js/controllers/page_controller.js:37-43 | a null state is replaced by {pathname, document.title}; an existing state is left alone; the history length never changes |
| `Page.Connect` | apps/interloper_web/assets/js/controllers/page_controller.js:11-14 | after connect the current entry has a state |
| `Page.ReplacePage` | apps/interloper_web/assets/js/controllers/page_controller.js:68-71 | document.title becomes title and the current entry becomes {path, title}; no entry is added |
| `Page.LoadStart` | apps/interloper_web/assets/js/controllers/page_controller.js:80-83 | captures the current history state as the token, and computes the loading text |
| `Page.LoadHeaders` | apps/interloper_web/assets/js/controllers/page_controller.js:87-99 | follows AtHeaders against the history state when the headers arrive; changes nothing |
| `Page.LoadBody` | apps/interloper_web/assets/js/controllers/page_controller.js:100-101 | follows AtBody; a replacement rewrites whatever entry is current then, with no second staleness test; a rejection leaves title and history untouched |
| `Page.LoadComplete` | apps/interloper_web/assets/js/controllers/page_controller.js:86-101 | headers and body with nothing in between: follows Complete; a rejected completion (network error, not ok, stale, no `#output`) leaves title and history untouched |
| `Page.Navigate` | apps/interloper_web/assets/js/controllers/page_controller.js:18-35 | calls preventDefault iff no modifier is held and href starts with '/'; for a same-origin href it then pushes exactly {href, "Loading " + href}, keeps document.title, and starts loading href with the pushed state as token; for a cross-origin one (`//host/...`) pushState throws and nothing is pushed or loaded; without interception nothing changes |
| `Page.SupersededNavigation` | apps/interloper_web/assets/js/controllers/page_controller.js:80-101 | when the second navigation comes before the first response's headers, the first load's response is always discarded; the second applies iff its response is ok and has `#output` |
| `Page.NavigationDuringBody` | apps/interloper_web/assets/js/controllers/page_controller.js:93-101 | when the second navigation comes after the first response's headers but before its body, the first load still replaces, rewriting the entry the second click pushed with the first path; the second load is discarded, and the history holds the first path twice |
| `Page.BackDuringLoad` | apps/interloper_web/assets/js/controllers/page_controller.js:81-96 | Back while a load is pending discards that load, keeps the title, and leaves the pushed entry reachable by Forward |
| `Status.StatusController.constructor` | apps/interloper_web/assets/js/controllers/status_controller.js:9-13 | currentPath is the pathname; currentTime and clockTimer are null |
| `Status.StatusController.UpdatePath` | apps/interloper_web/assets/js/controllers/status_controller.js:32-39 | with a path target, a frame write of currentPath is scheduled |
| `Status.StatusController.UpdateClock` | apps/interloper_web/assets/js/controllers/status_controller.js:41-59 | with a time target, currentTime becomes the latest HH:MM; it changes, and a display write is scheduled, only when the text differs |
| `Status.StatusController.AnimationFrame` | apps/interloper_web/assets/js/controllers/status_controller.js:35-37 | scheduled writes copy currentPath unchanged and currentTime into the targets |
| `Status.StatusController.Connect` | apps/interloper_web/assets/js/controllers/status_controller.js:15-23 | the path is shown if there is a path target; the clock is drawn and the interval stored only if there is a time target |
| `Clock.Truthy` | apps/interloper_web/assets/js/controllers/status_controller.js:26 | the test both disconnects apply (also datetime_controller.js:18): null is falsy, and every handle setInterval can return (an integer above zero) is truthy |
| `Status.StatusController.Disconnect` | apps/interloper_web/assets/js/controllers/status_controller.js:25-30 | a truthy handle is cleared and nulled; afterwards no truthy handle remains, so a second disconnect does nothing |
| `Status.SameMinuteTwice` | apps/interloper_web/assets/js/controllers/status_controller.js:52-57 | a second tick in the same minute changes nothing; the frame shows the time |
| `Status.DisconnectTwice` | apps/interloper_web/assets/js/controllers/status_controller.js:25-30 | the first disconnect clears the interval, the second clears nothing |
| `DatetimeController.DatetimeController.constructor` | apps/interloper_web/assets/js/controllers/datetime_controller.js:8-10 | clockTimer starts null |
| `DatetimeController.DatetimeController.UpdateClock` | apps/interloper_web/assets/js/controllers/datetime_controller.js:24-37 | with a clock target, HH:MM is written on every call, with no change detection |
| `DatetimeController.DatetimeController.Connect` | apps/interloper_web/assets/js/controllers/datetime_controller.js:12-15 | draws the clock and always stores the timer handle |
| `DatetimeController.DatetimeController.Disconnect` | apps/interloper_web/assets/js/controllers/datetime_controller.js:17-22 | a truthy handle is cleared and nulled; a second disconnect does nothing |
| `DatetimeController.Lifecycle` | apps/interloper_web/assets/js/controllers/datetime_controller.js:12-37 | an identical tick is still rewritten; two disconnects clear the handle once |

## Left out

- `dateFormat`'s `new Date(dt)` for string and number arguments, and the Date getters: foreign calls. The model takes the fields they return. An Invalid Date, which makes every getter return NaN, is not modelled.
- Numbers.Decimal: for integers only. JavaScript switches to exponent notation at 1e21, which no Date field reaches.
- DateTime.DateFormat: requires getDay in 0..6 and getMonth in 0..11, which a valid Date always returns. Outside those ranges the JavaScript table lookups would print "undefined".
- Select.Resolve: JavaScript object lookup also finds inherited properties such as "constructor". No KeyboardEvent `key` has such a name, so the model uses plain maps.
- Select.SelectController.Select: assumes `el.focus()` always makes the selector active. The selectors are taken to be focusable.
- `getSelectors` (a live `querySelectorAll`): the selector count is a parameter of each operation. Element identity is reduced to an index into that list.
- Page.Browser.PushState: stores the URL as given. `location.pathname` is taken to be that URL, so query strings and fragments are not split off.
- `showLoading`: only the text is modelled. The markup goes to the misspelt `innerHtml` property, so it has no visible effect.
- `replacePage`'s DOM node swap inside `requestAnimationFrame`, and `cloneNode`: the parsed output is carried as an opaque string and is never rendered.
- Page.LoadComplete: it stands for a load whose headers and body arrive with nothing in between. The staleness test runs only when the headers arrive (page_controller.js:93), so LoadHeaders and LoadBody model the two steps separately, and NavigationDuringBody shows a write between them going undetected. The promise scheduling itself, and any number of loads interleaved at once, are not modelled.
- Page.Browser: traversal is Traverse, a Back or Forward to another entry of the same document. Reload (`history.go(0)`), traversal to another document, `popstate` (the controller registers no handler), the session-history length limit and the entry's scroll state are not modelled.
- Page.Navigate: whether an href resolves to the document's origin is the `sameOrigin` parameter, because URL parsing is not modelled. Its requires only demands that an href which is not protocol-relative counts as same-origin, which always holds for a path.
- `console.log`/`console.error`: output only.
- page_controller.js as modelled has no popstate handler, no cached fragments, no error template and no loadPath/newPath events (TODOs at lines 77 and 102). Revisions of this controller that have them are not part of this model, and the model follows this code.
- Stimulus target getters: the code treats a missing target as falsy, and the model follows it. Stimulus builds whose getter throws for a missing target would abort `connect` instead. The Stimulus library is not part of this model.
- Status.StatusController.AnimationFrame: several writes scheduled before one frame are merged into one. Each write copies the field's value at frame time, so the displayed result is the same.
- controllers/github_commit_controller.js, output_controller.js, replace_controller.js, app.js and webpack.config.js: network rendering, DOM loops that only call `dateFormat`, and configuration.
