# Review form and search box: a Dafny model

This project models two stateful components from the UI layer of a mobile shop
front: the review form of the WriteReview page and the search box of the
navigator. It proves what their handlers do to the component state and which
callbacks they call.

**Review form** (`review_form.dfy`, module `WriteReview`). The form keeps a draft
review (`rate`, `author`, `title`, `review`), a `productId` and a map from field
to error message. A draft is a JavaScript object restricted to the four fields,
`map<Field, Value>`. A value is a number, a string or `Nil` (null or undefined),
and an absent key reads as `Nil`. Object spread is right-biased map union.
Truthiness and `.length > max` follow JavaScript.

- The three rules `validateRate`, `validateAuthor` and `validateLength` are pure
  functions of the stored error map and a scope. Each one sets or deletes one key.
- `formValid` merges the five rule results in the order rate, author,
  length(author), length(title), length(review). Every result carries the
  stored keys, so the merge is "the draft's own errors, overridden by every
  stored error" (`FormErrorsKeepStored`).
- A stored error is therefore never cleared by a submit. The rate picker
  does not revalidate either. So one failed submit without a rate blocks
  every later submit (`StaleRateErrorBlocks`, scenario `StaleRateError`).
  The model reproduces this behaviour of the code as it is.
- The class `ReviewForm` holds the props and the state. Its methods are the
  constructor, `componentWillReceiveProps`, `formValid`, `handleSubmit`, the
  four onChange handlers and the render gate.
- Calls of the `submit` callback are recorded in `submissions`.

**Search box** (`search.dfy`, module `NavigatorSearch`). The class `Search` holds:

- the `active` prop;
- the state `active` and `inputValue`;
- the input element's value and caret;
- the debounce slot `pending`;
- logs of the calls to `setSearchPhrase` (`phrases`), `submitSearch` (`submits`)
  and `toggleSearch` (`toggles`).

The 250 ms debounce is one pending flag. The environment fires it with
`FireDebounced`, which reads the element as it is when it fires. Blur, focus
and submit commit at once and leave the pending commit in place. Handlers need
`active`, because they are attached only to a rendered element.

A pending commit that fires after the search has closed finds the element
unmounted: its ref is null and reading its value throws. The model lets such a
fire commit nothing.

**Scenarios** (`scenarios.dfy`, module `Scenarios`) drive fresh components
through event sequences and return what the callbacks received. They cover
debounce coalescing, blur not cancelling the timer, the empty submit, reopening
before the timer fires, the stale rate error, the update flag and the author
fallback.

Three behaviours of the code are easy to miss; the model follows the code in each:

- The constructor does not apply the author-name fallback. Only new props do.
- A full validation keeps stale errors instead of replacing the error map.
- Activation depends on a change of the active prop, not on the internal
  flag. A reopen during the closing animation therefore re-seeds the input.

## Model

| member | source | states |
|---|---|---|
| WriteReview.ValidateRate | pages/WriteReview/components/ReviewForm/index.jsx:100-111 | the rate key is set to the rate message iff the rate is falsy and removed otherwise; every other key is as stored; well-formed errors stay well-formed |
| WriteReview.ValidateAuthor | pages/WriteReview/components/ReviewForm/index.jsx:118-132 | an empty or missing author gives the author-empty message, a longer one than the maximum the length message, otherwise the author key is removed; other keys as stored |
| WriteReview.ValidateLength | pages/WriteReview/components/ReviewForm/index.jsx:140-152 | the field's key is set to the length message iff its value is a string longer than the maximum; empty or absent values always pass; other keys as stored |
| WriteReview.FormErrors | pages/WriteReview/components/ReviewForm/index.jsx:73-93 | the merged map keeps every stored key and stays well-formed |
| WriteReview.FreshErrors | pages/WriteReview/components/ReviewForm/index.jsx:100-152 | reference definition: the errors of a draft with nothing stored, one per failing field, each with its own rule's message |
| WriteReview.FormErrorsKeys | pages/WriteReview/components/ReviewForm/index.jsx:81-93 | the merged keys are exactly the stored keys plus the keys of the fields that fail now |
| WriteReview.FormErrorsAt | pages/WriteReview/components/ReviewForm/index.jsx:82-88 | per key, for well-formed stored errors: a stored error keeps its message in the merge; a key not stored gets its field's own message |
| WriteReview.FormErrorsKeepStored | pages/WriteReview/components/ReviewForm/index.jsx:73-93 | for well-formed stored errors the merge equals the draft's own errors overridden by every stored error |
| WriteReview.FormErrorsFromEmpty | pages/WriteReview/components/ReviewForm/index.jsx:81-93 | with nothing stored the merge is exactly the draft's own errors |
| WriteReview.FormValidIff | pages/WriteReview/components/ReviewForm/index.jsx:81-93 | the merge is empty iff nothing is stored and the rate is truthy, the author non-empty and within the maximum, and title and review within the maximum |
| WriteReview.StaleRateErrorBlocks | pages/WriteReview/components/ReviewForm/index.jsx:81-111 | a merge over a draft with a falsy rate stores the rate error, and any later merge, whatever the draft, keeps it and is non-empty |
| WriteReview.AuthorRulesAgree | pages/WriteReview/components/ReviewForm/index.jsx:118-152 | whenever the length rule flags the author, the author rule gives the same map; merging the two author rules in either order after the rate rule gives the same result |
| WriteReview.PassingDraft | pages/WriteReview/components/ReviewForm/index.jsx:100-152 | a draft passing every rule has no errors of its own |
| WriteReview.BlankDraftErrors | pages/WriteReview/components/ReviewForm/index.jsx:81-152 | a draft with rate 0 and empty texts, or an empty draft, fails exactly with the rate and author-empty messages |
| WriteReview.ReviewForm.constructor | pages/WriteReview/components/ReviewForm/index.jsx:47-56 | the draft is the review prop verbatim (no author fallback), the product id is the prop's, no errors, no submissions |
| WriteReview.ReviewForm.ReceiveProps | pages/WriteReview/components/ReviewForm/index.jsx:62-67 | the new review's keys overwrite the draft, the author becomes the review's author or else the author name, errors and state product id are kept |
| WriteReview.ReviewForm.FormValid | pages/WriteReview/components/ReviewForm/index.jsx:81-93 | stores the merge, which equals the draft's own errors overridden by the old errors, and returns whether it is empty |
| WriteReview.ReviewForm.HandleSubmit | pages/WriteReview/components/ReviewForm/index.jsx:159-168 | stores the merge; submit is called once with the draft, the product id and the truthiness of the review PROP's rate iff the merge is empty, never while an error was stored |
| WriteReview.ReviewForm.ChangeRate | pages/WriteReview/components/ReviewForm/index.jsx:182-184 | sets the rate; errors untouched |
| WriteReview.ReviewForm.ChangeAuthor | pages/WriteReview/components/ReviewForm/index.jsx:194-197 | sets the author; its key holds the author-empty or length message iff the author is empty or too long; other keys as stored |
| WriteReview.ReviewForm.ChangeTitle | pages/WriteReview/components/ReviewForm/index.jsx:205-208 | sets the title; its key holds the length message iff it is too long; other keys as stored |
| WriteReview.ReviewForm.ChangeReview | pages/WriteReview/components/ReviewForm/index.jsx:217-220 | sets the review text; its key holds the length message iff it is too long; other keys as stored |
| WriteReview.ReviewForm.Render | pages/WriteReview/components/ReviewForm/index.jsx:174-177 | renders nothing iff the product id prop is null, otherwise the draft and the errors |
| NavigatorSearch.Search.constructor | components/Navigator/components/Content/components/Search/index.jsx:45-55 | starts inactive with an empty input and no pending commit, whatever the active prop |
| NavigatorSearch.Search.ReceiveProps | components/Navigator/components/Content/components/Search/index.jsx:62-81 | only a change of the active prop to true activates and seeds input and element with the query parameter or ''; any other prop change leaves the state as it was |
| NavigatorSearch.Search.UpdateQuery | components/Navigator/components/Content/components/Search/index.jsx:86-89 | commits the element's current value |
| NavigatorSearch.Search.HandleInput | components/Navigator/components/Content/components/Search/index.jsx:94-104 | input and element take the typed text and the debounce slot is armed; nothing is committed |
| NavigatorSearch.Search.FireDebounced | components/Navigator/components/Content/components/Search/index.jsx:86-94 | clears the slot and commits the value the element holds at fire time; commits nothing once the element is unmounted |
| NavigatorSearch.Search.HandleBlur | components/Navigator/components/Content/components/Search/index.jsx:109-111 | commits the current value and leaves the pending commit in place |
| NavigatorSearch.Search.HandleFocus | components/Navigator/components/Content/components/Search/index.jsx:116-120 | commits the current value, puts both caret ends at the value's length, leaves the pending commit in place |
| NavigatorSearch.Search.HandleOverlayClick | components/Navigator/components/Content/components/Search/index.jsx:125-127 | only calls toggleSearch(false) |
| NavigatorSearch.Search.HandleSubmit | components/Navigator/components/Content/components/Search/index.jsx:133-144 | with an empty value nothing happens; otherwise the value is committed and submitSearch is called once |
| NavigatorSearch.Search.HandleAnimationEnd | components/Navigator/components/Content/components/Search/index.jsx:150-152 | the internal active flag takes the active prop |
| NavigatorSearch.Search.Render | components/Navigator/components/Content/components/Search/index.jsx:158-167 | renders nothing iff inactive, regardless of the prop; otherwise the input value with the in/out animation of the prop |
| Scenarios.TypeBurst | components/Navigator/components/Content/components/Search/index.jsx:62-120 | opening, the auto-focus and a burst of keystrokes before the timer commit the query parameter and then only the last value typed |
| Scenarios.BlurThenTimer | components/Navigator/components/Content/components/Search/index.jsx:94-111 | a blur after a keystroke commits the value at once and the timer commits it again |
| Scenarios.SubmitEmpty | components/Navigator/components/Content/components/Search/index.jsx:133-139 | an empty submit commits nothing and does not submit |
| Scenarios.SubmitTyped | components/Navigator/components/Content/components/Search/index.jsx:133-144 | a typed submit commits the value and submits once |
| Scenarios.ReopenBeforeTimer | components/Navigator/components/Content/components/Search/index.jsx:62-94 | closed and reopened on another query before the timer fires, the timer commits the reopened query, not the typed text |
| Scenarios.TimerAfterClose | components/Navigator/components/Content/components/Search/index.jsx:86-94 | a timer firing after the search closed commits nothing |
| Scenarios.StaleRateError | pages/WriteReview/components/ReviewForm/index.jsx:81-184 | a submit without a rate stores the rate error; choosing a rate and a valid author does not clear it and the next submit is blocked |
| Scenarios.UpdateFlag | pages/WriteReview/components/ReviewForm/index.jsx:159-168 | the update flag follows the review prop's rate, not the edited rate |
| Scenarios.AuthorFallback | pages/WriteReview/components/ReviewForm/index.jsx:47-67 | the constructor keeps a missing author; new props fill an empty author from the author name and keep the errors |

## Left out

- The variant fetch thunk (product/actions/getProductVariants.js) is not part of this model. It delegates freshness, the network call and logging to code that is not shown.
- The home tab action (components/TabBar/components/HomeAction/index.jsx) is not part of this model. It is one path comparison followed by a navigation side effect.
- Message texts and translation: errors are the tags RateRequired, AuthorEmpty and TooLong.
- The constants file is not part of this model. REVIEW_FORM_MAX_LENGTH is the parameter `maxLength`, any natural number. The field-name constants are assumed to be `rate`, `author`, `title` and `review`.
- Keys of the review prop other than the four fields are not modelled. Neither are values other than numbers, strings, null and undefined (NaN, booleans, objects).
- String length is `|s|` over characters, not UTF-16 code units.
- The `validationErrors` getter's copy is implicit: maps are values, so each rule receives the stored map itself.
- React: setState is an immediate assignment (no batching). JSX, styles, class names other than the animation in/out, SearchSuggestions, RatingScale and TextField are left out.
- `event.preventDefault()` and handleSubmit's return value `false` are left out.
- WriteReview.ReviewForm.HandleSubmit: the recorded submission holds the draft and the product id, not the (then empty) error map of the state.
- NavigatorSearch.Search.FireDebounced: once the input is unmounted its ref is null and reading its value throws a TypeError; the model does not model the exception and has such a fire commit nothing (the timer slot is cleared either way).
- Real time: the 250 ms debounce is the `pending` flag, and the timer is the explicit `FireDebounced` step.
- DOM focus: `inputElement.focus()` after activation and `inputElement.blur()` in handleSubmit reach handleFocus/handleBlur through the DOM. The methods do not call them. A client calls `HandleFocus` or `HandleBlur` explicitly, as `TypeBurst` does.
- The caret of a newly mounted input element is not modelled; only handleFocus sets it.
- Search's default `submitSearch` is a string and would throw if called. The model records the call instead.
- The component unmounting as a whole (no componentWillUnmount cancels the timer) is not modelled beyond the internal render gate.
