# Imagify/VideoSpark front end: a Dafny model

This project models the behaviour of a small demo front end for an "AI content generator". A user types a prompt and picks a kind (image or video). A mock service waits, then returns a URL drawn from a fixed pool. The user may save the result to a gallery kept in the browser's `localStorage`, filter the gallery by kind, and delete entries. Beside this runs a credit balance kept in the same store. It has one guarded `deductCredits` operation, which the purchase flow calls with a negative amount to add credits.

The React components become Dafny classes whose fields are the components' state variables (`useState`). Event handlers become methods. The pure expressions inside the components become functions, and lemmas prove what those functions guarantee. The JavaScript built-ins the code relies on are modelled in their own modules: `trim`, `split`, `join`, `parseInt`, `toString`, `Array.prototype.filter` and `Array.prototype.map`.

Modules, one per source file plus helpers:

- `JsArray` (`js_array.dfy`): `filter` and `map`, and lemmas about ordering, multiplicity, idempotence, commutation and concatenation.
- `JsText` (`js_text.dfy`): ECMAScript white space, `trim`, `split` on one character, `join`, integer `toString`, and `parseInt(s, 10)`. It proves the decimal round trip.
- `Storage` (`storage.dfy`): `localStorage` with its two slots, `"user_credits"` and `"creations"`. It also defines the stored record and the host's date conversions (`DateCodec`).
- `CreationCard`, `GenerationUtils`, `CreditContext`, `CreditPurchaseOptions`, `Gallery`, `IndexPage`, `Generator`, `PromptInput`, `Profile`: one module per source file of the same name.

Inputs the environment supplies become parameters:

- Each `Math.random()` value is a `Random`, a real in `[0, 1)`.
- `crypto.randomUUID()` is `freshId`.
- `new Date()` is `now`.
- Whether a `localStorage.setItem` succeeds is `writeSucceeds`.
- Whether an awaited generation resolves or throws is an `Outcome`.
- `Date`'s JSON form and `new Date(string)` are a `DateCodec`. The store round trip is proved under the hypothesis `Lossless` (parsing a date's JSON form gives the same instant).

Behaviour as the code has it:

- `deductCredits` is the only way to change the balance. It is also how credits are added (`deductCredits(-plan.credits)`). Nothing charges credits for a generation.
- Delete removes every creation with the given id, not just one.
- `handleSave` hands the current creation to `onSave` and does not clear it. The generator keeps showing the creation after saving.
- Together these mean ids are not always unique. A second click on "Save to Gallery" prepends the same creation again, so its id appears twice (`SaveFromGeneratorTwice`). One trash click on either card then removes both copies (`DoubleSaveDuplicatesId`).
- A stored balance is not forced to be non-negative: it is whatever `parseInt` reads from the slot. Non-negativity is proved in the form "a non-negative balance stays non-negative".

## Model

| member | source | states |
|---|---|---|
| `JsArray.Filter` | src/pages/Gallery.tsx:20 | `filter` returns no more elements than it was given. Every survivor is an input element that passes the predicate. Every passing input element survives. |
| `JsArray.Map` | src/utils/generationUtils.ts:102-105 | `map` keeps the length, and position `i` of the result is `f` applied to position `i` of the input. |
| `JsArray.FilterIsSubsequence` | src/pages/Gallery.tsx:20 | The result of `filter` is a subsequence of its input, so survivors keep their original order. |
| `JsArray.FilterCount` | src/pages/Gallery.tsx:20 | Each passing value occurs in the result exactly as often as in the input. Failing values do not occur. |
| `JsArray.FilterKeepsAll` | src/pages/Gallery.tsx:20 | A filter whose predicate holds everywhere returns its input unchanged. |
| `JsArray.FilterDropsOne` | src/pages/Gallery.tsx:20 | A filter that rejects exactly one position shortens its input by exactly one. |
| `JsArray.FilterIdempotent` | src/pages/Gallery.tsx:20 | Filtering twice with the same predicate equals filtering once. |
| `JsArray.FilterCommutes` | src/pages/Gallery.tsx:20-28 | Two filters give the same result in either order. |
| `JsArray.FilterAppend` | src/pages/Gallery.tsx:28 | Filtering a concatenation is the concatenation of the filtered parts. |
| `JsText.TrimStart` | src/components/PromptInput.tsx:22 | The result is a suffix of the input. Everything removed is white space. The result does not start with white space. |
| `JsText.TrimEnd` | src/components/PromptInput.tsx:22 | The result is a prefix of the input. Everything removed is white space. The result does not end with white space. |
| `JsText.Trim` | src/components/PromptInput.tsx:22-23 | `trim` never lengthens its input, and a non-empty result neither starts nor ends with white space. |
| `JsText.TrimIsInfix` | src/components/PromptInput.tsx:22-23 | `trim` returns a contiguous piece `s[i..j]` of its input, with only white space cut off on either side. The piece neither starts nor ends with white space. |
| `JsText.TrimEmptyIff` | src/components/PromptInput.tsx:22 | The trimmed text is empty exactly when every character of the input is white space. |
| `JsText.TrimIdempotent` | src/components/PromptInput.tsx:23 | Trimming an already trimmed prompt changes nothing. |
| `JsText.Split` | src/pages/Profile.tsx:101 | `split(' ')` returns at least one part, and no part contains the separator. |
| `JsText.Join` | src/pages/Profile.tsx:101 | `join` of no parts is `""`. Otherwise the result starts with the first part, and its length is the parts' total length plus one separator between each pair of neighbours. |
| `JsText.JoinSplit` | src/pages/Profile.tsx:101 | Joining the parts of `split(c)` with `c` gives back the original string. |
| `JsText.IntToString` | src/context/CreditContext.tsx:22 | `toString` writes a `-` exactly for a negative number. The rest is a non-empty run of decimal digits whose base-10 reading (`Decimal`) is the magnitude, with no leading `0` except for `0` itself. |
| `JsText.DigitsValueIsDecimal` | src/context/CreditContext.tsx:18 | `parseInt` accumulates digits right to left as `DigitsValue`. That equals the reference reading `Decimal`, where the leading digit of `k` digits weighs `10^(k-1)`. |
| `JsText.ParseInt` | src/context/CreditContext.tsx:18 | `parseInt(s, 10)` is a number exactly when, after leading white space, `s` starts with a digit or with a sign followed by a digit; otherwise it is NaN. A leading `-` gives a number `<= 0`, anything else a number `>= 0`. |
| `JsText.ParseIntReads` | src/context/CreditContext.tsx:18 | For white space `w`, an optional sign, a non-empty digit run `ds` and a tail `t` that does not start with a digit, `parseInt(w + sign + ds + t, 10)` is the base-10 value `Decimal(ds)`, negated exactly when the sign is `-`. The tail is ignored. |
| `JsText.ParseIntToString` | src/context/CreditContext.tsx:18-22 | `parseInt(n.toString(), 10) == n` for every integer `n`: the decimal round trip of the balance. |
| `CreationCard.Extension` | src/components/CreationCard.tsx:37 | The extension has three characters. It is `png` exactly for images and `mp4` exactly for videos. |
| `CreationCard.DownloadName` | src/components/CreationCard.tsx:37 | The name is laid out as the prefix `creation-`, then the id, then `.` and the kind's extension, each part at a known position. |
| `CreationCard.DownloadNameInjective` | src/components/CreationCard.tsx:37 | Two creations with the same download name have the same id and the same kind. |
| `CreationCard.CardState.constructor` | src/components/CreationCard.tsx:29-32 | A card starts not hovered, not liked and with its media not loaded. It remembers whether an `onDelete` callback was supplied. |
| `CreationCard.CardState.ToggleLike` | src/components/CreationCard.tsx:125 | The heart button flips `isLiked` and touches no other field. |
| `CreationCard.CardState.MediaLoaded` | src/components/CreationCard.tsx:91-101 | The media-loaded handlers set `isLoaded` to true. They are the only methods allowed to change it, so the flag never falls back to false. |
| `CreationCard.CardState.MouseEnter` | src/components/CreationCard.tsx:69 | Entering the card sets `isHovered`. |
| `CreationCard.CardState.MouseLeave` | src/components/CreationCard.tsx:70 | Leaving the card clears `isHovered`. |
| `CreationCard.CardState.Download` | src/components/CreationCard.tsx:34-41 | The download link is given the creation's download name. |
| `CreationCard.CardState.DeleteClicked` | src/components/CreationCard.tsx:145-150 | A delete request exists exactly when `onDelete` was supplied, and it carries exactly the creation's id. |
| `CreationCard.LikeTwice` | src/components/CreationCard.tsx:125 | Toggling the like twice restores it. It may write only `isLiked`, so every other flag of the card is unchanged. |
| `Storage.LocalStorage.constructor` | src/utils/generationUtils.ts:87-98 | A store holds the given contents of its `"user_credits"` and `"creations"` slots. |
| `GenerationUtils.RandomIndex` | src/utils/generationUtils.ts:45 | `Math.floor(r * len)` with `0 <= r < 1` is a valid index into a non-empty array. |
| `GenerationUtils.ImageWait` | src/utils/generationUtils.ts:42 | The image wait is an integer number of milliseconds in `[1000, 2999]`. |
| `GenerationUtils.VideoWait` | src/utils/generationUtils.ts:66 | The video wait is an integer number of milliseconds in `[2000, 4999]`. |
| `GenerationUtils.GenerateImage` | src/utils/generationUtils.ts:39-56 | `generateImage` returns a URL from the 8-image pool with `alt` equal to the prompt, after an image-length wait. |
| `GenerationUtils.GenerateVideo` | src/utils/generationUtils.ts:63-80 | `generateVideo` returns a URL from the 4-video pool with `alt` equal to the prompt, after a video-length wait. |
| `GenerationUtils.RandomIndexReaches` | src/utils/generationUtils.ts:45 | Every index of the array is reached by some value of `Math.random()`. |
| `GenerationUtils.EveryImageReachable` | src/utils/generationUtils.ts:45-48 | Every URL of the image pool can come back for any prompt. |
| `GenerationUtils.EveryVideoReachable` | src/utils/generationUtils.ts:69-72 | Every URL of the video pool can come back for any prompt. |
| `GenerationUtils.ToStored` | src/utils/generationUtils.ts:87 | The stored record copies id, url, prompt and kind and holds the date's `toJSON` form. It rebuilds to the same creation, provided dates survive their JSON form. |
| `GenerationUtils.FromStored` | src/utils/generationUtils.ts:102-105 | `{...creation, createdAt: new Date(creation.createdAt)}`: id, url, prompt and kind are copied, and the date is rebuilt from the stored string. |
| `GenerationUtils.Serialize` | src/utils/generationUtils.ts:87 | The payload `saveCreations` writes is a JSON array with one record per creation, in list order, with each date converted by `toJSON`. |
| `GenerationUtils.Deserialize` | src/utils/generationUtils.ts:96-112 | `loadCreations` returns `[]` when the slot is empty and `[]` when parsing fails, so the error never reaches the caller. Otherwise it returns one creation per record, with every field copied except `createdAt`, which is rebuilt from the stored string. |
| `GenerationUtils.LoadAfterSave` | src/utils/generationUtils.ts:85-105 | Loading what `saveCreations` wrote gives back exactly the saved list, provided dates survive their JSON form. |
| `GenerationUtils.LoadCreations` | src/utils/generationUtils.ts:96-112 | Reading the `"creations"` slot gives `[]` when it is missing or unparseable. Otherwise it gives one creation per stored record, in order, each rebuilt from its record. |
| `GenerationUtils.SaveCreations` | src/utils/generationUtils.ts:85-91 | The `"creations"` slot is overwritten with the whole list. A failed write is swallowed and leaves the slot as it was. The credits slot is untouched. |
| `CreditContext.InitialCredits` | src/context/CreditContext.tsx:12-19 | With nothing stored, or an empty string, the balance starts at `DEFAULT_CREDITS` = 1000. Otherwise it starts at the base-10 parse of the stored text. |
| `CreditContext.InitialCreditsRoundTrip` | src/context/CreditContext.tsx:17-23 | Re-initialising from the decimal string the ledger wrote yields the same balance. |
| `CreditContext.Deduct` | src/context/CreditContext.tsx:25-33 | A deduction goes through exactly when `amount <= balance`, and then lowers the balance by exactly `amount`. Otherwise the balance is unchanged. A non-negative balance never becomes negative. A negative amount on a non-negative balance always goes through and raises the balance by its magnitude. |
| `CreditContext.CreditProvider.Valid` | src/context/CreditContext.tsx:21-23 | The provider's invariant: the `"user_credits"` slot holds the balance in decimal, so re-initialising from the slot gives back exactly the balance. |
| `CreditContext.CreditProvider.constructor` | src/context/CreditContext.tsx:15-23 | The provider starts at `InitialCredits` of the slot, and its mount effect then writes the balance back in decimal. |
| `CreditContext.CreditProvider.PersistCredits` | src/context/CreditContext.tsx:21-23 | The effect stores the decimal form of the balance and leaves the creations slot alone. |
| `CreditContext.CreditProvider.DeductCredits` | src/context/CreditContext.tsx:25-33 | The method returns whether the deduction went through. The new balance is `Deduct`'s, and afterwards the slot again holds that balance in decimal. |
| `CreditPurchaseOptions.PlanTable` | src/components/CreditPurchaseOptions.tsx:16-33 | There are exactly three plans, with 500, 2000 and 5000 credits in that order. Exactly the `standard` plan is highlighted. |
| `CreditPurchaseOptions.ImagesFor` | src/components/CreditPurchaseOptions.tsx:74 | The image count is the floor of `credits / 5`: `5n <= credits < 5n + 5`. |
| `CreditPurchaseOptions.VideosFor` | src/components/CreditPurchaseOptions.tsx:78 | The video count is the floor of `credits / 15`: `15n <= credits < 15n + 15`. |
| `CreditPurchaseOptions.PlanCounts` | src/components/CreditPurchaseOptions.tsx:74-78 | The plans show 100/33, 400/133 and 1000/333 images/videos. |
| `CreditPurchaseOptions.HandlePurchase` | src/components/CreditPurchaseOptions.tsx:39-46 | A purchase is `deductCredits(-plan.credits)`. On a non-negative balance it always raises the balance by `plan.credits`, and the slot follows. The creations slot is untouched. |
| `Gallery.WithoutId` | src/pages/Gallery.tsx:20 | The list without the id is no longer than the list. Every entry comes from the list and has a different id. Every entry of the list with a different id is kept. |
| `Gallery.Filtered` | src/pages/Gallery.tsx:26-28 | The filtered view is no longer than the list. Every entry comes from the list and passes the filter (`all`, or the chosen kind). Every passing entry of the list appears. |
| `Gallery.DeleteRemovesExactly` | src/pages/Gallery.tsx:20 | After a delete, no creation with the id remains. Every other creation stays, in its original order and as often as before. |
| `Gallery.DeleteAbsent` | src/pages/Gallery.tsx:20 | Deleting an id that no creation has leaves the list unchanged. |
| `Gallery.DeleteIdempotent` | src/pages/Gallery.tsx:20 | Deleting the same id twice equals deleting it once. |
| `Gallery.DeleteUnique` | src/pages/Gallery.tsx:20 | Deleting an id held by exactly one creation shortens the list by exactly one. |
| `Gallery.FilterAllIsIdentity` | src/pages/Gallery.tsx:26-27 | Filter `all` returns the list unchanged. |
| `Gallery.FilterKindExactly` | src/pages/Gallery.tsx:28 | A kind filter returns exactly the entries of that kind, in original order, each as often as in the list. The result is a subsequence no longer than the list. |
| `Gallery.DeleteThenFilter` | src/pages/Gallery.tsx:20-28 | The filtered view after a delete is the old filtered view without the id. |
| `Gallery.SavedShowsFirst` | src/pages/Index.tsx:17 | A newly saved creation heads every gallery view that shows its kind, ahead of the older entries. |
| `Gallery.DeleteKeepsUniqueIds` | src/pages/Gallery.tsx:20 | If no two creations shared an id before a delete, none do after it. |
| `Gallery.GalleryPage.constructor` | src/pages/Gallery.tsx:11-17 | The page's initial list is exactly what `loadCreations` returns, which is what the slot reloads to. The filter starts at `all`. |
| `Gallery.GalleryPage.FilteredCreations` | src/pages/Gallery.tsx:26-28 | The page's view holds exactly the page's creations that pass its current filter, and no more of them than the page has. |
| `Gallery.GalleryPage.SetFilter` | src/pages/Gallery.tsx:43-57 | A filter button sets the filter and nothing else. |
| `Gallery.GalleryPage.HandleDelete` | src/pages/Gallery.tsx:19-24 | The new list is the old one without the id. The list written to storage is that new list, so after a successful write the slot reloads to the in-memory list. |
| `Gallery.GalleryPage.DeleteFromCard` | src/components/CreationCard.tsx:145-150 | A card's trash button in the grid deletes exactly that card's creation from the list. The slot is overwritten with the new list after a successful write and unchanged after a failed one, and the credits slot is untouched. |
| `Generator.PoolFor` | src/utils/generationUtils.ts:6-23 | Each kind has a non-empty candidate pool. The image pool belongs exactly to `image` and the video pool exactly to `video`. |
| `Generator.Dispatch` | src/components/Generator.tsx:26-30 | Kind `image` dispatches to `generateImage` and any other kind to `generateVideo`. Either way the URL comes from that kind's pool and the prompt is echoed. |
| `Generator.GeneratorState.constructor` | src/components/Generator.tsx:16-17 | The generator starts not loading and with no current creation. |
| `Generator.GeneratorState.BeginGeneration` | src/components/Generator.tsx:20-21 | Starting a generation sets `isLoading` and clears `currentCreation` before any result arrives. |
| `Generator.GeneratorState.FinishGeneration` | src/components/Generator.tsx:23-47 | On success the current creation has the fresh id, the result URL, the prompt, the kind and the timestamp. On failure there is no current creation. `isLoading` is false in both cases. |
| `Generator.GeneratorState.HandleGenerate` | src/components/Generator.tsx:19-48 | After a whole generation `isLoading` is false. On success the current creation echoes the prompt and kind and carries the dispatched URL, the fresh id and the timestamp. On failure it stays empty. Throughout, a shown creation's URL is from its kind's pool. |
| `Generator.GeneratorState.SubmitFrom` | src/components/Generator.tsx:59-63 | A form submit starts a generation exactly when the form's guard accepts under the generator's `isLoading`. While a generation is pending, a second submit is ignored and changes nothing. |
| `Generator.GeneratorState.HandleSave` | src/components/Generator.tsx:50-55 | `onSave` receives the current creation unchanged, and only when there is one. The current creation is not cleared. |
| `PromptInput.SubmitGuard` | src/components/PromptInput.tsx:22-23 | A submission happens exactly when the prompt has a non-white-space character and nothing is loading. It passes on the trimmed prompt, which is then non-empty, and the selected kind. |
| `PromptInput.SubmitDisabled` | src/components/PromptInput.tsx:134 | The submit button is disabled exactly when a generation is loading or every character of the prompt is white space. |
| `PromptInput.DisabledIffRejected` | src/components/PromptInput.tsx:134 | The submit button is disabled exactly when `handleSubmit` would reject. |
| `PromptInput.TextareaValue` | src/components/PromptInput.tsx:102 | The textarea's value is at most 500 characters, a prefix of what was entered, and exactly what was entered when that fits. |
| `PromptInput.PromptInputState.IsSubmitDisabled` | src/components/PromptInput.tsx:134 | The form's button is disabled exactly when its `handleSubmit` would reject the current prompt and kind. |
| `PromptInput.PromptInputState.constructor` | src/components/PromptInput.tsx:15-16 | The prompt starts empty and the selected kind starts at `image`. |
| `PromptInput.PromptInputState.OnChange` | src/components/PromptInput.tsx:97-103 | Typing sets the prompt to the capped text, except while loading, when the textarea is disabled. The prompt stays within 500 characters. |
| `PromptInput.PromptInputState.SelectKind` | src/components/PromptInput.tsx:69-84 | The two selector buttons are the only writers of the kind and are disabled while loading. |
| `PromptInput.PromptInputState.ClickExample` | src/components/PromptInput.tsx:106-117 | An example button, offered only while the prompt is empty and not loading, sets the prompt to exactly that example. |
| `PromptInput.PromptInputState.HandleSubmit` | src/components/PromptInput.tsx:20-25 | `handleSubmit` passes to `onSubmit` exactly what `SubmitGuard` says. |
| `PromptInput.PromptInputState.HandleKeyDown` | src/components/PromptInput.tsx:27-31 | Cmd+Enter submits exactly as the form does, and other keys submit nothing. |
| `IndexPage.PrependFreshKeepsUniqueIds` | src/pages/Index.tsx:17 | Prepending a creation whose id is new to the list keeps ids unique. |
| `IndexPage.DoubleSaveDuplicatesId` | src/pages/Index.tsx:17 | Prepending the same creation twice gives a list whose ids are not unique. Deleting that id afterwards gives the same list as deleting it from the older list, so both copies go. |
| `IndexPage.SaveFromGeneratorTwice` | src/components/Generator.tsx:50-55 | Because `handleSave` keeps the current creation, two clicks on "Save to Gallery" (src/components/Generator.tsx:76-81) yield `[c, c] + old`, whose ids are not unique. |
| `IndexPage.IndexPageState.constructor` | src/pages/Index.tsx:9-14 | The index page's initial list is exactly what `loadCreations` returns, which is what the slot reloads to. |
| `IndexPage.IndexPageState.HandleSaveCreation` | src/pages/Index.tsx:16-20 | Saving yields `[creation] + old`: one longer, the new item at index 0, old items in their order. The list persisted is the new in-memory list, so after a successful write the slot reloads to it. |
| `IndexPage.IndexPageState.SaveFromGenerator` | src/components/Generator.tsx:50-55 | "Save to Gallery" prepends the generator's current creation when there is one, and otherwise changes neither the list nor the slot. When a creation is saved, the slot holds the new list after a successful write and is unchanged after a failed one. The credits slot is always untouched. |
| `IndexPage.SaveTwice` | src/pages/Index.tsx:17 | Saving twice places the second creation ahead of the first, and both ahead of the older list. |
| `Profile.FirstChar` | src/pages/Profile.tsx:101 | `n => n[0]` yields the first character of a non-empty part and nothing for an empty one. |
| `Profile.WordStartsOfSplit` | src/pages/Profile.tsx:101 | The split/map/join pipeline equals the left-to-right scan `WordStarts`, which collects the non-space characters at the start of the string or after a space. Stated for both scan states. |
| `Profile.Initials` | src/pages/Profile.tsx:101 | The initials equal the left-to-right scan `WordStarts`: the first character of each space-separated part, concatenated in order. Empty parts contribute nothing. |
| `Profile.InitialUserInitials` | src/pages/Profile.tsx:101 | The demo user 'User Name' shows the initials "UN". |
| `Profile.ProfilePage.AvatarInitials` | src/pages/Profile.tsx:101 | The avatar fallback shows the scan `WordStarts` of the current user's name. |
| `Profile.ProfilePage.constructor` | src/pages/Profile.tsx:33-48 | The page starts not editing, with the fixed record ('User Name', 'user@example.com', empty avatar). The form defaults copy name and email, with an empty password. |
| `Profile.ProfilePage.ToggleEditing` | src/pages/Profile.tsx:81 | The edit button flips `isEditing`. |
| `Profile.ProfilePage.OnSubmit` | src/pages/Profile.tsx:50-60 | The form submit replaces name and email, keeps the avatar and never stores the password. It always leaves editing mode. |

## Left out

- Rendering, CSS, icons and animation are not modelled. This covers the presentational components (`App`, `NotFound`, `Navbar`, `LoadingIndicator`, `CreditDisplay`) and the empty-gallery view. None of them changes state the model tracks.
- Toast notices and console logging are not modelled. Where a notice marks a branch, the branch is visible in the contract instead: `DeductCredits` returning false, `FinishGeneration` with `Throws`. The purchase flow's success toast is shown before `deductCredits` runs; the model does not track it.
- `setTimeout` and async scheduling are not modelled. The wait length is computed (`waitMs`) but elapsed time is not. Only one interleaving point is modelled: between `BeginGeneration` and `FinishGeneration`, where `SubmitFrom` shows that a second submit is ignored. Other events during the wait are not modelled.
- `Math.random()` is any real in `[0, 1)`. The model proves that every pool entry is reachable, not that the choice is uniform.
- `crypto.randomUUID()` and `new Date()` are parameters. That fresh ids really are fresh is therefore a hypothesis (`PrependFreshKeepsUniqueIds`), not a guarantee. Id uniqueness also fails without any UUID collision: saving the same generation twice duplicates its id (`SaveFromGeneratorTwice`).
- JSON is not modelled. The `"creations"` slot holds either a parsed array of well-formed records or `Unparseable`. Unparseable covers input that is not JSON, JSON that is not an array, and the empty string; `loadCreations` returns `[]` for all of these. Records with missing or extra fields, and `Invalid Date`, are not modelled. The ISO date form is the `DateCodec` parameter.
- `CreditContext.CreditProvider.constructor`: requires that the stored credit text is absent, empty, or read by `parseInt` as a number. A stored value that `parseInt` turns into NaN, and the NaN balance that follows from it, are not modelled.
- Integers are unbounded. JavaScript `number` precision beyond 2^53 and the exponent form of `toString` above 10^21 are not modelled.
- React state batching and the stale closure are not modelled. `deductCredits` reads `credits` from its render, while `setCredits` uses the previous value; two calls in one render would both see the old balance. The model is sequential: each call sees the latest balance.
- `localStorage.setItem` throwing inside the credit effect is not modelled. It has no `try` there, so a failure would surface as an uncaught error. For the creations slot the failure is modelled (`writeSucceeds`).
- Browser APIs of the card are not modelled: the DOM download link itself, `navigator.share`, `clipboard`, `alert` and `toLocaleDateString`. The prompt form's focus flag and autofocus effect are left out as well; they only style the form.
- `PromptInput.TextareaValue`: the `maxLength={500}` limit is modelled as truncation of the new value to its first 500 characters, counted in Dafny characters rather than UTF-16 code units. A browser instead refuses or shortens the text inserted at the caret: typing at the start of a full prompt leaves it unchanged, while the model keeps the new text's first 500 characters.
- `Profile.FirstChar`: takes the first character as a Unicode code point. JavaScript's `n[0]` takes the first UTF-16 code unit, so for a name part that starts with a character outside the Basic Multilingual Plane (an emoji, say) the source yields a lone high surrogate and the model the whole character.
- `react-hook-form` field editing, the router, and `useCredits` throwing outside a provider are not modelled. Plan prices are kept in cents and are not used.
- Credit gating of generation is not modelled, because the source never charges credits for a generation.
- The Gallery and Index pages are modelled as separate instances over one shared store. Navigation and remounting are not modelled.
