# Diary: entry editor, theme and greeting, modelled in Dafny

Diary is a journaling web app written with React and Next.js. This project
models the four pieces of it that hold logic, and proves what they promise.

- **The entry editor** (`EntryEditor`). It shows a word and character count
  for the draft. It autosaves the draft 1500 ms after the last change. A
  save updates the id its timer captured, and inserts when its timer was set
  while no id was bound. So a save scheduled before an insert answered can
  still insert after the id is bound. An insert that returns an id binds it. The editor can also delete the entry and return to
  the dashboard.
  - Module `WordStats` holds the statistics: the trim/split/filter pipeline,
    with the exact ECMAScript whitespace class, and the UTF-16 length.
  - Module `Autosave` holds the draft as a state record and one function per
    event. The events are:
    - an edit;
    - a privacy toggle;
    - the pending timer firing;
    - a callback getting the user;
    - the store answering an insert or an update;
    - a delete and its answer;
    - unmounting.

    The module also follows React's two effects. The stats effect stores the
    counts, and the autosave effect clears the previous timer and sets a new
    one. The module defines the invariant every reachable state keeps.
  - Module `AutosaveProperties` proves the editor's promises from those
    functions.
  - Module `Editor` is the component as an object: its fields are the state,
    and its methods make the setter calls in the source's order. Each method
    is proved to move the object as the matching `Autosave` function does,
    and to keep the invariant.
- **The theme provider** (module `ThemeProvider`). It defines:
  - the theme record and its default;
  - partial updates merged by object spread;
  - the font-name to font-stack mapping;
  - the CSS variables written on the root element;
  - a `Provider` object that loads the stored config, applies the theme, and
    updates and persists it.
- **The theme customizer** (module `ThemeCustomizer`). It holds the four
  option tables, the partial update each button sends, and which button is
  shown selected.
- **The dashboard greeting** (module `Dashboard`): the hour of the day
  decides between morning, afternoon and evening.

Some parts are not visible in the model's sources or are not computation, so
each is abstract:

- **The Supabase store and auth client.** Each answer (the user, an insert's
  id or failure, a stored config) is an event parameter. Each request the code
  sends is appended to a recorded sequence.
- **The clock.** Every reading is a parameter: a `Time` for timestamps and an
  `Hour` for the greeting.
- **The debounce timer.** It is the pending snapshot, and the 1500 ms wait is
  the `TimerFired` event.

The code has no version stamp and no in-flight flag. So the model does not
promise "at most one insert per draft" or "late answers are ignored", and its
lemmas show the opposite is reachable:

- `SecondInsertReachable`: a second insert is sent while the first is in
  flight.
- `InsertAfterBind`: a save whose timer fired before the first insert
  answered sends a second insert after that answer has bound the id.
- `InsertBindsId`: a late insert answer rebinds the entry id.
- `DeleteSendsOne`: a delete leaves the pending save in place.

## Model

| member | source | states |
|---|---|---|
| WordStats.Trim | src/components/diary/editor.tsx:32 | `content.trim()`, as trimming from the start and then the end; `TrimStartShape` and `TrimEndShape` state what it removes. |
| WordStats.Split | src/components/diary/editor.tsx:32 | `split(/\s+/)`, empty pieces at the ends included; `SplitPiecesWhitespaceFree` and `SplitFromCountsRuns` state what it yields. |
| WordStats.NonEmpty | src/components/diary/editor.tsx:32 | `.filter((w) => w.length > 0)`; `NonEmptyKeeps` and `NonEmptyAppend` state what it keeps. |
| WordStats.NonEmptyKeeps | src/components/diary/editor.tsx:32 | Filtering whitespace-free pieces leaves only non-empty, whitespace-free pieces. |
| WordStats.NonEmptyAppend | src/components/diary/editor.tsx:32 | Filtering distributes over concatenation. |
| WordStats.WordCount | src/components/diary/editor.tsx:32 | The stored `wordCount`; `WordCountIsRunCount` and `WordCountZero` state its value. |
| WordStats.CharCount | src/components/diary/editor.tsx:34 | The stored `charCount`, the UTF-16 length; `CharCountBounds`, `CharCountBmp` and `CharCountAppend` state its value. |
| WordStats.WordCountIsRunCount | src/components/diary/editor.tsx:32 | The word count of any content equals the number of maximal runs of non-whitespace characters in it, an independent count. |
| WordStats.WordCountZero | src/components/diary/editor.tsx:32 | The word count is 0 exactly when the content is empty or whitespace only, in both directions. |
| WordStats.WordsAreWhitespaceFree | src/components/diary/editor.tsx:32 | Every counted word is non-empty and holds no whitespace character. |
| WordStats.TrimStartShape | src/components/diary/editor.tsx:32 | `trim` drops exactly a leading whitespace prefix and stops at a non-whitespace character. |
| WordStats.TrimEndShape | src/components/diary/editor.tsx:32 | `trim` drops exactly a trailing whitespace suffix and stops at a non-whitespace character. |
| WordStats.SplitPiecesWhitespaceFree | src/components/diary/editor.tsx:32 | No piece produced by `split(/\s+/)` contains whitespace. |
| WordStats.RunCountTrim | src/components/diary/editor.tsx:32 | Trimming does not change the number of non-whitespace runs. |
| WordStats.SplitFromCountsRuns | src/components/diary/editor.tsx:32 | After splitting and dropping empty pieces, the number of pieces equals the number of runs, plus the piece being collected. |
| WordStats.CharCountBounds | src/components/diary/editor.tsx:34 | The character count (UTF-16 length) lies between the number of characters and twice that. |
| WordStats.CharCountBmp | src/components/diary/editor.tsx:34 | For text within the Basic Multilingual Plane, the character count is the number of characters, whitespace included. |
| WordStats.CharCountAppend | src/components/diary/editor.tsx:34 | The character count of a concatenation is the sum of the parts' counts. |
| Autosave.Skips | src/components/diary/editor.tsx:39 | The skip rule: content and privacy equal their initial values and no id is bound. `MountSchedules` and `ChangeReschedules` state its effect. |
| Autosave.StatsEffect | src/components/diary/editor.tsx:31-35 | The stats effect: when `content` changed since its last run, the counts become `WordCount` and `CharCount` of it. `FlushEffects` states its result. |
| Autosave.AutosaveEffect | src/components/diary/editor.tsx:38-78 | The autosave effect: when the rendered values changed since its last run, the old timer is cleared and a new one is set unless the skip rule holds. `FlushEffects` states its result. |
| Autosave.Flush | src/components/diary/editor.tsx:31-78 | One commit: the stats effect, then the autosave effect with the values the render saw. `FlushEffects` states it field by field. |
| Autosave.FlushEffects | src/components/diary/editor.tsx:31-78 | One commit changes only the counts and the effects' bookkeeping. It sets the timer to the skip rule's answer for the rendered values whenever they changed. |
| Autosave.FlushSettled | src/components/diary/editor.tsx:31-78 | A commit on a state whose effects already ran changes nothing. |
| Autosave.Settle | src/components/diary/editor.tsx:31-78 | The renders after a state update, two commits while mounted; `SettleEffects` states the result. |
| Autosave.Mount | src/components/diary/editor.tsx:17-39 | The first render and its effects, counts starting at 0; `MountValid` and `MountSchedules` state the result. |
| Autosave.Edit | src/components/diary/editor.tsx:160 | `setContent` followed by the renders; `ChangeReschedules` and `EditKeepsLatest` state the result. |
| Autosave.TogglePrivacy | src/components/diary/editor.tsx:114 | `setIsPrivate(!isPrivate)` followed by the renders; `ChangeReschedules` states the result. |
| Autosave.Fire | src/components/diary/editor.tsx:41-44 | The pending timer fires: the callback starts with its captured values and `isSaving` is set; `FireCarriesLatest` states the result. |
| Autosave.RowOf | src/components/diary/editor.tsx:47-54 | The `entryData` record built from a callback's captured values, the user and the clock; `SaveKind` states which request carries it. |
| Autosave.LoadUser | src/components/diary/editor.tsx:44-64 | A callback gets the user: it stops without one, else sends an update or an insert; `SaveKind` and `NoUserLeavesSaving` state the result. |
| Autosave.Complete | src/components/diary/editor.tsx:60-74 | An insert or update answers: a returned insert id is bound, then `lastSaved` and `isSaving` are set. `InsertBindsId`, `InsertReschedules`, `UpdateKeepsPending` and `CompletionSettlesFlags` state the result. |
| Autosave.ConfirmDelete | src/components/diary/editor.tsx:80-83 | `handleDelete` up to its await; `DeleteNeedsId` and `DeleteSendsOne` state the result. |
| Autosave.FinishDelete | src/components/diary/editor.tsx:84 | The delete answers and the editor navigates; `DeleteAlwaysNavigates` states the result. |
| Autosave.Unmount | src/components/diary/editor.tsx:77 | The effect cleanup clears a timer that has not fired; `StepValid` keeps the invariant through it. |
| Autosave.SettleValid | src/components/diary/editor.tsx:31-78 | The renders after a state update keep the invariant, when the state already satisfied it or content, privacy or id changed. |
| Autosave.ProgressValid | src/components/diary/editor.tsx:44-64 | Changes to the in-flight callbacks and the sent requests alone keep the invariant, when their counts match their content. |
| Autosave.SettleEffects | src/components/diary/editor.tsx:31-78 | The renders after a state update run both effects to a fixed point. They leave every field but the counts and the timer alone. When content, privacy or id changed, the pending timer is exactly the one the skip rule asks for at the new values. |
| Autosave.MountValid | src/components/diary/editor.tsx:17-39 | The first render reaches a state that satisfies the invariant, with the timer set for the initial values. |
| Autosave.EditValid | src/components/diary/editor.tsx:160 | An edit keeps the invariant. |
| Autosave.TogglePrivacyValid | src/components/diary/editor.tsx:114 | A privacy toggle keeps the invariant. |
| Autosave.FireValid | src/components/diary/editor.tsx:41-44 | The timer firing keeps the invariant. |
| Autosave.LoadUserValid | src/components/diary/editor.tsx:44-64 | A callback getting the user, or finding none, keeps the invariant. |
| Autosave.CompleteValid | src/components/diary/editor.tsx:66-74 | The answer to an insert or update keeps the invariant, including when it binds a new id. |
| Autosave.StepValid | src/components/diary/editor.tsx:38-85 | Every event keeps the invariant. The invariant says: counts match content in the state, in every in-flight save and in every row sent; the pending timer holds exactly the current values; no timer is pending for skipped values or after unmount. |
| Autosave.RunValid | src/components/diary/editor.tsx:17-85 | Any sequence of events from a state satisfying the invariant ends in a state satisfying it. |
| Autosave.ReachableValid | src/components/diary/editor.tsx:17-85 | Every state reached from the first render by any sequence of events satisfies the invariant. |
| AutosaveProperties.MountSchedules | src/components/diary/editor.tsx:39 | On mount, a save is scheduled exactly when an initial id was given. It carries the initial content, privacy and their counts. Nothing is sent. |
| AutosaveProperties.ChangeReschedules | src/components/diary/editor.tsx:38-78 | A text change or privacy toggle replaces the pending timer with one for the new values, unless content and privacy are back at their initial values and no id is bound; nothing is sent. |
| AutosaveProperties.EditKeepsLatest | src/components/diary/editor.tsx:77-78 | From a mounted state whose pending timer is the skip rule's answer for its current values, an edit keeps it so and sends nothing. |
| AutosaveProperties.TypingKeepsLatest | src/components/diary/editor.tsx:77-78 | From a state whose pending timer is the skip rule's answer for its current values, a burst of edits of any length keeps it so for the last text; nothing is sent. |
| AutosaveProperties.BurstCoalesces | src/components/diary/editor.tsx:41-78 | After a burst of edits with no timer firing, at most one save is pending. It carries the last text, the current privacy and id, and that text's counts. |
| AutosaveProperties.Typing | src/components/diary/editor.tsx:160 | A burst of keystrokes gives one edit event per text, in order. |
| AutosaveProperties.FireCarriesLatest | src/components/diary/editor.tsx:42-54 | When the timer fires, its callback sets `isSaving` and carries the latest content, privacy, id and counts. |
| AutosaveProperties.SaveKind | src/components/diary/editor.tsx:56-64 | A callback that gets a user sends exactly one request, with the captured values. It is an update keyed by the captured id exactly when an id was captured, and an insert exactly when none was. |
| AutosaveProperties.BoundDraftUpdates | src/components/diary/editor.tsx:56-57 | A save whose timer fires while an id is bound sends an update for that id with the current values, never an insert. |
| AutosaveProperties.EntryIdWrittenByInsertOnly | src/components/diary/editor.tsx:66-67 | The entry id changes only when an insert returns an id, and then becomes that id. |
| AutosaveProperties.InsertBindsId | src/components/diary/editor.tsx:66-67 | An insert that returns an id binds it, even when another id is already bound. |
| AutosaveProperties.InsertReschedules | src/components/diary/editor.tsx:66-78 | An insert that binds a new id schedules a save of the current content and privacy, with their counts, under that id. Once the timer fires, an update follows the insert. |
| AutosaveProperties.UpdateKeepsPending | src/components/diary/editor.tsx:73-78 | An update's answer, or a failed insert's, leaves the pending timer and the entry id as they were. |
| AutosaveProperties.CompletionSettlesFlags | src/components/diary/editor.tsx:73-74 | When an insert or update answers, success or not, `lastSaved` becomes the time then and `isSaving` is cleared. Content and privacy are untouched. |
| AutosaveProperties.NoUserLeavesSaving | src/components/diary/editor.tsx:42-45 | A save that finds no user sends nothing and leaves `isSaving` set. |
| AutosaveProperties.DeleteNeedsId | src/components/diary/editor.tsx:81 | Delete changes nothing while no id is bound. |
| AutosaveProperties.DeleteSendsOne | src/components/diary/editor.tsx:82-83 | With an id bound, delete sets `isSaving`, sends one delete for that id and leaves the pending timer in place. |
| AutosaveProperties.DeleteAlwaysNavigates | src/components/diary/editor.tsx:84 | The answer to a delete is not inspected: the editor navigates to `/dashboard`. |
| AutosaveProperties.UnboundEditInserts | src/components/diary/editor.tsx:41-64 | With no id bound, an edit to a text other than both the current and the initial one, followed by the timer and a user, sends an insert of that text, whatever is still in flight. |
| AutosaveProperties.FirstInsertInFlight | src/components/diary/editor.tsx:41-64 | On a new draft, the first edit, its timer and a user leave one insert of that text in flight, with no id bound yet. |
| AutosaveProperties.SecondInsertFrom | src/components/diary/editor.tsx:41-64 | With one insert in flight and no id bound, a further edit, its timer and a user send a second insert. The first stays as it was. |
| AutosaveProperties.SecondInsertReachable | src/components/diary/editor.tsx:41-77 | On a new draft, two edits with the timer firing after each send two inserts. The second goes out while the first is in flight. |
| AutosaveProperties.UnboundEditFires | src/components/diary/editor.tsx:39-44 | With no id bound, an edit to a text other than both the current and the initial one, then the timer, leaves one more callback waiting for the user, with that text and no captured id; nothing is sent. |
| AutosaveProperties.TwoCallbacksWaiting | src/components/diary/editor.tsx:39-44 | On a new draft, two edits each followed by their timer leave two callbacks waiting for the user, neither with an id, and nothing sent. |
| AutosaveProperties.OldestCallbackInserts | src/components/diary/editor.tsx:56-64 | The older of two waiting callbacks, having captured no id, sends an insert of its captured values. |
| AutosaveProperties.StaleCallbackInserts | src/components/diary/editor.tsx:56-67 | After an insert answer binds an id, a waiting callback that captured no id still sends an insert. |
| AutosaveProperties.StaleInsertChain | src/components/diary/editor.tsx:41-67 | From two waiting callbacks without an id, the first inserts, its answer binds the id, and the second then inserts too. |
| AutosaveProperties.InsertAfterBind | src/components/diary/editor.tsx:41-67 | Reachable from the first render on a new draft: after the first insert's answer binds the id, a second insert is sent with the second text. |
| Editor.EntryEditor.constructor | src/components/diary/editor.tsx:17-24 | The object starts in the first-render state and satisfies the invariant. |
| Editor.EntryEditor.Commit | src/components/diary/editor.tsx:31-78 | One commit runs the stats effect, then the autosave effect: clear the old timer, then set one unless the skip rule holds. |
| Editor.EntryEditor.Render | src/components/diary/editor.tsx:31-78 | The renders after a state update, as the record's `Settle`. |
| Editor.EntryEditor.Edit | src/components/diary/editor.tsx:160 | `setContent` moves the object as `Autosave.Edit` and keeps the invariant. |
| Editor.EntryEditor.TogglePrivacy | src/components/diary/editor.tsx:114 | `setIsPrivate(!isPrivate)` moves the object as `Autosave.TogglePrivacy` and keeps the invariant. |
| Editor.EntryEditor.TimerFired | src/components/diary/editor.tsx:41-44 | The timer firing moves the object as `Autosave.Fire` and keeps the invariant. |
| Editor.EntryEditor.UserLoaded | src/components/diary/editor.tsx:44-64 | The callback getting the user moves the object as `Autosave.LoadUser` and keeps the invariant. |
| Editor.EntryEditor.GatewayReturned | src/components/diary/editor.tsx:60-74 | An answer from the store moves the object as `Autosave.Complete` and keeps the invariant. |
| Editor.EntryEditor.DeleteConfirmed | src/components/diary/editor.tsx:80-83 | `handleDelete` up to its await moves the object as `Autosave.ConfirmDelete` and keeps the invariant. |
| Editor.EntryEditor.DeleteReturned | src/components/diary/editor.tsx:84 | The delete's answer moves the object as `Autosave.FinishDelete` and keeps the invariant. |
| Editor.EntryEditor.Unmount | src/components/diary/editor.tsx:77 | Unmounting clears a timer that has not fired and keeps the invariant. |
| ThemeProvider.Merge | src/components/providers/theme-provider.tsx:87 | Every key present in the partial takes the partial's value. Every absent key keeps the theme's value. |
| ThemeProvider.Combine | src/components/providers/theme-provider.tsx:87 | Spreading two partials: a key of the second wins, otherwise the first's key is kept. |
| ThemeProvider.AsPatch | src/components/providers/theme-provider.tsx:94 | A stored theme, as a config, holds every key the theme holds. |
| ThemeProvider.ThemeExt | src/components/providers/theme-provider.tsx:7-15 | Two themes that agree on every key are equal. |
| ThemeProvider.MergeEmpty | src/components/providers/theme-provider.tsx:87 | An empty partial leaves the theme unchanged. |
| ThemeProvider.MergeIdempotent | src/components/providers/theme-provider.tsx:87 | Applying a partial twice gives the same theme as applying it once. |
| ThemeProvider.MergeCompose | src/components/providers/theme-provider.tsx:87 | Two updates in a row equal one update with the spread of both partials. |
| ThemeProvider.MergeCommutes | src/components/providers/theme-provider.tsx:87 | Partials with no key in common give the same theme in either order. |
| ThemeProvider.StoredThemeRestores | src/components/providers/theme-provider.tsx:53-55 | Loading a stored theme over any theme restores every key it holds. Loading it over itself changes nothing. |
| ThemeProvider.FontStack | src/components/providers/theme-provider.tsx:78-82 | "Inter" maps to "Inter, sans-serif", "Serif" to "Playfair Display, serif", and any other font to no stack. |
| ThemeProvider.StyleFor | src/components/providers/theme-provider.tsx:70-82 | The root element's style after the apply effect; `StyleWritesTheme`, `StyleIgnoresRingAndCard` and `StyleIdempotent` state what it writes. |
| ThemeProvider.StyleWritesTheme | src/components/providers/theme-provider.tsx:70-82 | The apply effect writes exactly primary, secondary, accent, background, foreground and radius, each from the same-named field, plus `--font-sans` only for a known font. Every other property keeps its value. |
| ThemeProvider.StyleIgnoresRingAndCard | src/components/providers/theme-provider.tsx:70-82 | `ring` and `card` have no effect on the style. |
| ThemeProvider.StyleIdempotent | src/components/providers/theme-provider.tsx:62-84 | Running the apply effect again for the same theme changes nothing. |
| ThemeProvider.Provider.constructor | src/components/providers/theme-provider.tsx:37-59 | The initial theme is the default theme, and it is applied: the style shows it. With a user, one config fetch is sent. |
| ThemeProvider.Provider.LoadEffect | src/components/providers/theme-provider.tsx:43-59 | With a user, a fetch of that user's config is sent. Without one, nothing happens. A style that showed the theme still does. |
| ThemeProvider.Provider.ApplyEffect | src/components/providers/theme-provider.tsx:62-84 | The sequence of `setProperty` calls leaves the style equal to `StyleFor` of the theme, so the style shows the theme. |
| ThemeProvider.Provider.UserChanged | src/components/providers/theme-provider.tsx:59 | A change of user sends a fetch for the new user, if any. A style that showed the theme still does. |
| ThemeProvider.Provider.ConfigLoaded | src/components/providers/theme-provider.tsx:47-55 | A returned config is merged over the current theme and applied. Without a config the theme is unchanged. The style shows the theme afterwards whenever it did before or a config was applied. |
| ThemeProvider.Provider.UpdateTheme | src/components/providers/theme-provider.tsx:86-95 | The theme becomes the merge of the partial and is applied. With a user, the whole merged theme is upserted. Without one, nothing is sent. Afterwards the style shows the theme. |
| ThemeCustomizer.Choose | src/components/settings/theme-customizer.tsx:53-124 | The partial each button sends to `updateTheme`; `ChoiceWrites` states the keys it writes and their values. |
| ThemeCustomizer.CardFor | src/components/settings/theme-customizer.tsx:78 | The card tone for a background; `BackgroundCard` states both cases. |
| ThemeCustomizer.Selected | src/components/settings/theme-customizer.tsx:56-127 | A button is shown selected when the theme's field for its row equals its value; `AtMostOneSelected` and `ChoiceSelects` state which one is. |
| ThemeCustomizer.ChoiceWrites | src/components/settings/theme-customizer.tsx:53-124 | Each button changes exactly its row's keys and sets the shown field to its value. Accent sets `primary` and `ring`; background sets `background` and `card`; font sets only `font`; radius sets only `radius`. |
| ThemeCustomizer.BackgroundCard | src/components/settings/theme-customizer.tsx:78 | Background "10 10 15" sets card "20 20 25". Any other background sets card to itself. |
| ThemeCustomizer.TablesDistinct | src/components/settings/theme-customizer.tsx:7-34 | The values within each option table are pairwise distinct. |
| ThemeCustomizer.AtMostOneSelected | src/components/settings/theme-customizer.tsx:56-127 | At most one button per row is shown selected. |
| ThemeCustomizer.ChoiceSelects | src/components/settings/theme-customizer.tsx:53-127 | After pressing button i of a row, button j of that row is shown selected exactly when j = i. |
| ThemeCustomizer.DefaultSelection | src/components/settings/theme-customizer.tsx:7-34 | The default theme shows Default Red, Midnight, Modern Sans and Rounded selected. |
| Dashboard.GreetingAsWritten | src/app/dashboard/page.tsx:16 | The conditional as written, with its two clock reads as two hours; `AsWrittenAgrees`, `MidnightRace` and `AsWrittenAcrossMidnight` state where it agrees with `Greeting` and where it does not. |
| Dashboard.Greeting | src/app/dashboard/page.tsx:16 | "morning" exactly for hours 0-11, "afternoon" exactly for 12-17, "evening" exactly for 18-23. |
| Dashboard.GreetingOrdered | src/app/dashboard/page.tsx:16 | Every hour gets one of the three greetings, and a later hour never gets an earlier greeting. |
| Dashboard.AsWrittenAgrees | src/app/dashboard/page.tsx:16 | When the two clock reads agree (or the second cannot matter), the expression as written gives `Greeting`. |
| Dashboard.MidnightRace | src/app/dashboard/page.tsx:16 | Reads of 23 then 0 give "afternoon", which neither hour calls for. |
| Dashboard.AsWrittenAcrossMidnight | src/app/dashboard/page.tsx:16 | Whenever the first read is in the evening and the second in the morning, the result contradicts both reads. |

## Left out

- Supabase: auth, `select`, `insert`, `update`, `delete` and `upsert` become abstract answers and recorded requests. Row contents beyond the fields written, and the SQL, are not modelled.
- `window.history.replaceState` after an insert, `router.push`, and writes to `document.documentElement.style` are foreign I/O. The navigation is the `route` field and the style is a `map`; the address bar is not modelled.
- Real time: the 1500 ms debounce becomes the `TimerFired` event, and time stamps are a `Time` parameter. Their ISO string format is not modelled.
- `createClient()` is taken to return the same client on every render, so it never re-triggers an effect. `src/lib/supabase/client` is not part of this model.
- Autosave: React's effect ordering is modelled as two commits per state update. Batching of several setters into one render, Strict Mode double effects, and the timing of React's state updates are not modelled.
- Autosave: a setter called after unmount does nothing, as in React 18. A callback that finishes after unmount only leaves the in-flight list.
- WordStats: strings are sequences of Unicode scalar values. A JavaScript string can hold a lone surrogate, which `.length` counts as 1; such strings cannot be written here.
- Editor: the delete-confirmation dialog (`showDeleteConfirm`, lines 25, 132-146) and the rest of the rendering are UI, not modelled.
- Editor: entry ids are non-empty strings, so `!entryId` means "no id"; the source's ids are UUIDs.
- ThemeProvider: a partial whose key is present with the value `undefined` overwrites the field with `undefined` in JavaScript. Partials here hold strings only. A stored config whose values are not strings is not modelled either.
- ThemeProvider: `updateTheme` merges over the theme of the render it was created in. Here every state update renders at once, so a stale closure cannot be expressed.
- ThemeProvider.Provider.UserChanged: users are compared by id. React compares the dependency by object identity, so a new `user` object with the same id re-runs the load effect in the source but not here.
- ThemeProvider: the fetch's error is ignored in the source and here. The answer is not checked against the user that asked, in the source or here.
- ThemeProvider: the context's default value (lines 32-35), used outside a provider, is not modelled.
- ThemeCustomizer: class names, icons and the `font-sans`/`font-serif` label styling are rendering, not modelled.
- Dashboard: the rest of the page (the entry list, the link) is rendering.
- Not modelled, as they are outside the editor, theme and greeting logic: `src/components/auth/auth-modal.tsx`, `src/components/relationship/relationship-manager.tsx`, `src/components/landing/hero.tsx`, `src/components/layout/nav.tsx`, `src/components/diary/entry-list.tsx`, `src/app/dashboard/layout.tsx`, the page wrappers and `src/components/providers/index.tsx`.

## Findings

| source | as written | input that shows it | evidently intended | confidence | as-written member | corrected member |
|---|---|---|---|---|---|---|
| src/app/dashboard/page.tsx:16 | The hour is read twice: once for the morning test and again for the afternoon test. | First read 23:59:59.999 (hour 23), second read just after midnight (hour 0): the page greets "Good afternoon". | One hour decides the greeting: morning before 12, afternoon before 18, evening after. | low; a race of a few microseconds at midnight; not executed | Dashboard.MidnightRace | Dashboard.Greeting |
