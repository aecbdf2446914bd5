# Beauty studio landing page — interactive core in Dafny

The site is a single-page marketing page for a cosmetology and permanent-makeup
studio. Almost all of it is static content. Its behaviour comes down to four pieces of UI
state, all in `src/App.jsx`. This project models those four pieces and proves what they
promise:

- **Price list filter** (module `Services`, file `services.dfy`). The eight service ids
  are listed in declaration order. `String.prototype.includes` is modelled as
  `Includes`. The filter keeps both of its clauses, exactly as written: the
  substring clause and the per-category id lists. The module also holds the
  catalog's id-to-icon mapping.
- **Gallery lightbox** (module `Lightbox`, file `lightbox.dfy`; class `App.Page`, file
  `app.dfy`). The cursor is either `Closed` or `Open(index)` over the four gallery
  images. "Next" and "previous" use JavaScript's truncating `%`. The 1-based counter is
  also modelled. The page class owns the cursor and the active filter key, and its
  methods are the click handlers.
- **Form submission status** (module `FormHandler`, file `form.dfy`). The
  `useFormHandler` hook has four flags. `handleSubmit` is split at its `await` into
  `Begin` and `Complete(outcome)`. The network request is replaced by an `Outcome`:
  `Accepted`, `Rejected(message)` or `TransportFailure`. The transitions exist twice:
  - as pure functions, used in a trace model where the page's guards decide which
    events can happen;
  - as the methods of class `Form`, each proved equal to its pure function.
- **Accordion** (module `Accordion`, file `accordion.dfy`). Each section has one flag.
  It starts at `defaultOpen`, and every header click flips it.

It is tempting to read the filter as "a key other than the three button keys lists
nothing". The code does not behave that way: the substring clause still applies to such a
key, so `"eyes"` keeps the three eye services (`Services.SubstringKeySelectsEyeServices`).
For the three keys the buttons actually set, the substring clause never selects anything
(`Services.CategoryKeysAreNotSubstrings`). The id lists alone decide.

## Model

| member | source | states |
|---|---|---|
| `Services.Includes` | src/App.jsx:315 | `String.prototype.includes`: the empty key is always included, a key longer than the string never is |
| `Services.Keep` | src/App.jsx:315-317 | the filter callback: an id that contains the key is always kept; for a key other than `pmu` or `cosmetology`, the substring test alone decides |
| `Services.ButtonKeysFollowIdLists` | src/App.jsx:185-317 | for the eight services, the `pmu` key keeps exactly the PMU id list and the `cosmetology` key exactly the cosmetology id list |
| `Services.FilterBy` | src/App.jsx:315-317 | the filtered list holds every id the predicate keeps, with its multiplicity, and nothing else (membership iff kept) |
| `Services.PriceList` | src/App.jsx:313-317 | key `all` gives the services list unchanged; any other key gives exactly the kept ids with their multiplicities |
| `Services.PriceListIsOrderedSublist` | src/App.jsx:313-317 | for every key the price list is an order-preserving subsequence of the services list |
| `Services.CategoryKeysAreNotSubstrings` | src/App.jsx:185-317 | neither `pmu` nor `cosmetology` occurs inside any of the eight ids, so the substring clause is inert for the category buttons |
| `Services.PmuPriceList` | src/App.jsx:185-317 | the `pmu` button lists exactly brows, lips, eyes-classic, eyes-shadow, eyes-velvet, in that order |
| `Services.CosmetologyPriceList` | src/App.jsx:185-317 | the `cosmetology` button lists exactly botox, contour, biorev, in that order |
| `Services.CategoryListsPartitionServices` | src/App.jsx:185-317 | the two category lists are disjoint and together hold every service exactly once |
| `Services.SubstringKeySelectsEyeServices` | src/App.jsx:313-317 | a non-button key is still matched by substring: `eyes` keeps the three eye services |
| `Services.IconName` | src/App.jsx:558 | the icon is one of the five names, and it is `eye` exactly when the id contains `eyes` |
| `Services.ServiceIcons` | src/App.jsx:546-558 | the catalog shows the first six services; the icon of each of the eight ids |
| `Lightbox.JsRemainder` | src/App.jsx:1062-1063 | JavaScript `%` keeps the dividend's sign, lies strictly within `n` of zero, and agrees with the mathematical remainder for non-negative dividends |
| `Lightbox.Next` | src/App.jsx:1062 | the next index stays in `[0, n)`, is `i + 1`, and wraps from `n - 1` to `0` |
| `Lightbox.Prev` | src/App.jsx:1063 | the previous index stays in `[0, n)`, is `i - 1`, and wraps from `0` to `n - 1` |
| `Lightbox.NextPrevInverse` | src/App.jsx:1062-1063 | next after previous, and previous after next, return to the same image |
| `Lightbox.AdvanceIsModular` | src/App.jsx:1062 | `k` presses of next from `i` land on `(i + k) mod n` |
| `Lightbox.FullCycleReturns` | src/App.jsx:1062 | `n` presses of next come back to the starting image |
| `Lightbox.CounterLabel` | src/App.jsx:100 | the counter `currentIndex + 1` lies in `1..n` |
| `App.Page.constructor` | src/App.jsx:151-152 | the page starts with the lightbox closed and the filter key `all` |
| `App.Page.OpenLightbox` | src/App.jsx:507 | clicking thumbnail `idx` opens the lightbox on exactly `idx` |
| `App.Page.ShowNext` | src/App.jsx:1062 | next moves the open cursor to `Next(i, 4)`, and the cursor stays in range |
| `App.Page.ShowPrevious` | src/App.jsx:1063 | previous moves the open cursor to `Prev(i, 4)`, and the cursor stays in range |
| `App.Page.CloseLightbox` | src/App.jsx:1061 | close sets the cursor to none from any state |
| `App.Page.SelectPriceFilter` | src/App.jsx:620 | a filter button sets the active key and leaves the lightbox alone |
| `App.Page.Counter` | src/App.jsx:100 | while the lightbox is open, the counter shown lies in `1..4` and is the index plus one |
| `App.Page.FilteredServices` | src/App.jsx:313-317 | the listed services are an ordered sublist of all services: all of them for `all`, the five PMU ones for `pmu`, the three cosmetology ones for `cosmetology` |
| `FormHandler.RejectionMessage` | src/App.jsx:35 | the message is the server's when present and non-empty, else `Щось пішло не так`; it is never empty |
| `FormHandler.FailureMessage` | src/App.jsx:34-39 | a transport failure shows `Помилка мережі. Спробуйте ще раз.`; a rejection shows its rejection message; the text is never empty |
| `FormHandler.CanSubmit` | src/App.jsx:883-950 | the form is shown (`!isSuccess`) and its button enabled (`!isSubmitting`); a submission started from there keeps the form shown with the button disabled and no error banner |
| `FormHandler.Begin` | src/App.jsx:16-17 | sets submitting and clears the error flag, leaves success and the message untouched, and keeps the status consistent when the form is shown |
| `FormHandler.Complete` | src/App.jsx:30-41 | ends not submitting; sets success exactly on acceptance and the error flag exactly on failure, with the failure's non-empty text; acceptance keeps the old message; keeps the status consistent |
| `FormHandler.Reset` | src/App.jsx:45-49 | clears success, error and the message, leaves submitting unchanged, re-enables the form unless a request is outstanding, and keeps the status consistent |
| `FormHandler.SubmissionOutcome` | src/App.jsx:14-43 | a whole submission ends with the busy flag cleared, success iff accepted, error iff not, and the message set per outcome (unchanged on acceptance) |
| `FormHandler.FailureTextsDiffer` | src/App.jsx:35-39 | the network-failure text differs from the rejection fallback |
| `FormHandler.StepKeepsConsistent` | src/App.jsx:14-49 | any one enabled event keeps the status consistent: never success and error together, neither while submitting, and never an empty error text |
| `FormHandler.RunKeepsConsistent` | src/App.jsx:14-49 | every sequence of user events and request outcomes keeps the status consistent |
| `FormHandler.SubmitGuards` | src/App.jsx:950 | submit is a no-op while a request is outstanding; after an error the form can be resubmitted without a reset |
| `FormHandler.Form.constructor` | src/App.jsx:9-12 | the hook starts with all flags false and an empty message |
| `FormHandler.Form.BeginSubmit` | src/App.jsx:16-17 | sets submitting, clears the error flag, and leaves success and the message untouched |
| `FormHandler.Form.CompleteSubmit` | src/App.jsx:30-41 | acceptance sets success; a failure sets the error flag and its message; submitting ends false |
| `FormHandler.Form.HandleSubmit` | src/App.jsx:14-43 | from an enabled form, one submission ends idle with success iff accepted and error iff not |
| `FormHandler.Form.ResetForm` | src/App.jsx:45-49 | clears success, error and the message, and leaves submitting unchanged |
| `Accordion.OpenAfterParity` | src/App.jsx:108-114 | after `k` clicks a section is open iff `defaultOpen` agrees with `k` being even |
| `Accordion.TwoClicksRestore` | src/App.jsx:114 | two clicks restore the section |
| `Accordion.Section.constructor` | src/App.jsx:108-109 | a section starts at `defaultOpen`, which defaults to closed |
| `Accordion.Section.Toggle` | src/App.jsx:114 | a click flips `isOpen` |
| `Accordion.ToggleOne` | src/App.jsx:108-114 | clicking one section leaves a sibling section unchanged |

## Left out

- The `fetch` POST to the form relay, `response.json()`, `FormData` and the access key (src/App.jsx:19-28) are network I/O. They are replaced by the `Outcome` datatype. A truthy `data.success` is `Accepted`; an exception from either call is `TransportFailure`.
- `e.target.reset()` (clearing the form's inputs after acceptance) and `e.preventDefault()` are DOM side effects and are not modelled.
- The async scheduling is modelled as two sequential transitions, `Begin` and `Complete`. Concurrent interleavings are excluded by the disabled button, which is the `CanSubmit` guard.
- The scroll listener and the `scrolled` flag (src/App.jsx:319-325), and `scrollToSection` (src/App.jsx:327-332), are browser DOM effects.
- Event propagation in the lightbox is not modelled. The previous/next buttons and the image stop propagation (src/App.jsx:76, 83, 96). The close button's click (src/App.jsx:67-70) also reaches the backdrop's handler (src/App.jsx:65), so close runs twice; `App.Page.CloseLightbox` makes that harmless, since closing a closed lightbox leaves it closed.
- `Rejected(message: Option<string>)` covers only string messages. `data.message || 'Щось пішло не так'` (src/App.jsx:35) passes any truthy value through, so a non-string message such as `true` would render an empty or odd banner. The clause `isError ==> errorMessage != ""` of `Consistent` holds only because the model's message is a string.
- JSX rendering, animations, styling, the `SafeIcon` component and the static texts are left out. Only the service ids and the gallery length take part.
- `tailwind.config.js` is theme data with no behaviour.
- In the event-trace model, the reset event is enabled only in the success view, where its button is rendered. The invariant would hold without that guard too.

