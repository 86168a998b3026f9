# Sun narration app: a Dafny model of its sequential core

This project models the logic of a narrated educational single-page app about the Sun. The app has a splash screen, a hub of three topics that unlock in order, narrated popups, a quiz and a credits screen. Five pieces are modelled:

- **Narration engine** (`Narration.NarrationEngine`, hooks/useNarration.ts). It holds an optional audio context, a cache of decoded buffers keyed by narration identifier, and an optional current buffer source. It has four operations:
  - a cache lookup with four outcomes: hit, no context, unusable URL, and load;
  - `cancel`;
  - single-flight `playAudioBuffer`;
  - the `onended` callback, which checks the source's identity before acting.

  `speak` is split in two. `Speak` is the part before the `await`; `FinishLoad` and `SpeakResolved` are the parts after it. The caller holds the continuation, so the model shows what the code does: nothing checks between the two halves, and a `cancel` issued while a load is in flight does not stop the later playback (`CancelDuringLoadStillPlays`).
- **Caption synchroniser** (`Caption`, components/SyncedCaption.tsx). This is a pure derivation from `(wordTimings, currentTime)`. It yields the visible words, the current word and the highlighted spans, and falls back to the full text when there are no timings.
- **Topic hub** (`Hub`, App.tsx). It covers:
  - the unlock rules;
  - the visited set, with the invariant that every reachable set is a prefix of Temperature, Composition, Neighbors;
  - the active popup;
  - the screen handlers and restart;
  - the topic-to-narration map.

  It also holds which handlers the rendered page offers, and the screen cycle that follows from them.
- **Main screen** (`MainScreen`, components/MainScreen.tsx). This is a pure view: three topic buttons with their visited styling, each button selecting its own topic, and the start-quiz button.
- **Quiz** (`QuizModel`, components/Quiz.tsx). The answer can be taken once. The feedback and the narration key depend on the answer. A pure classification of the option buttons goes with it.

The data of types.ts and audioAssets.ts live in `Types` and `AudioAssets`. The browser is abstract:

- A fetch is a `FetchOutcome`.
- Decoding is a function the caller supplies.
- A buffer source is a fresh natural number.
- Everything the engine does to the outside world is appended to a ghost effect log: fetch, stop, resume, start and close.

Times are `real` seconds, because the caption code only compares them.

Where the code does not do what one would expect of it, the model follows the code:

- One would expect `cancel` to stop an in-flight load from playing once it resolves. The code has no such check, and neither does the model.
- One would expect the hook to offer an `isSpeaking` flag, a transcript, a time-tracking loop and `clearNarration`, since App.tsx destructures them. The hook returns only `{ speak, cancel }` (hooks/useNarration.ts:137). These are not modelled as features. Their absence is modelled where App.tsx relies on them: see `NarratorNeverSpeaks` and the finding below.
- One would expect the latest `speak` to win. In the code a `speak` whose clip must still be loaded plays when its load resolves, over any clip a later `speak` started from the cache in the meantime (`SpeakOutOfOrder`).

## Model

| member | source | states |
|---|---|---|
| `AudioAssets.UsableKeys` | audioAssets.ts:6-19 | a key's URL passes the usability test (non-empty, not starting with `// PLACEHOLDER`) exactly for `mainScreenWelcome` and `temperatureTopic`; the other six keys can never be loaded |
| `Narration.LoadAudioFile` | hooks/useNarration.ts:6-15 | a rejected fetch and a non-ok response are errors (the latter carrying status and status text); otherwise the result is a buffer exactly when the decoder yields one, and it is that buffer |
| `Narration.NarrationEngine.constructor` | hooks/useNarration.ts:18-20 | initial refs: no context, empty cache, no current source, nothing done |
| `Narration.NarrationEngine.Mount` | hooks/useNarration.ts:22-24 | the mount effect installs a context in the state the browser gives it; invariant kept |
| `Narration.NarrationEngine.Speak` | hooks/useNarration.ts:58-75 | a cache hit returns the stored buffer and performs no fetch, even without a context; on a miss, no context or an unusable URL yields null with nothing done; otherwise exactly one fetch of the key's URL is started; a key with an unusable URL never yields a buffer |
| `Narration.NarrationEngine.FinishLoad` | hooks/useNarration.ts:77-85 | the load is `loadAudioFile` of the fetch outcome and decoder; a successful load stores the decoded buffer under exactly that key (`cache == old(cache)[key := b]`) and returns it; a rejected fetch, a non-ok response or a rejected decode returns null and leaves the cache unchanged; no entry is ever removed |
| `Narration.NarrationEngine.Cancel` | hooks/useNarration.ts:88-98 | afterwards there is no current source; with none before it is a no-op; otherwise exactly one stop of the old source is logged |
| `Narration.NarrationEngine.PlayAudioBuffer` | hooks/useNarration.ts:100-114 | without a context nothing changes; with one, the old source is stopped first, a suspended context is resumed, a fresh source for the buffer is started (log order: stop, resume, start), and it is then the only source started and not silenced |
| `Narration.NarrationEngine.OnEnded` | hooks/useNarration.ts:115-119 | the completion of source `id` clears the current source only if `id` is still current; a stale completion leaves the newer source untouched |
| `Narration.NarrationEngine.SpeakResolved` | hooks/useNarration.ts:126-133 | `speak` plays only when a buffer was obtained, and then with no further check: the old source is stopped, a suspended context resumed, and a fresh source for the buffer started and left the only one sounding; a null buffer, or no context, changes nothing; the cache and context are kept |
| `Narration.NarrationEngine.Dispose` | hooks/useNarration.ts:47-54 | unmount cancels the current source and closes a context that is not closed yet; the cache is kept |
| `Narration.CancelDuringLoadStillPlays` | hooks/useNarration.ts:122-133 | speak, then cancel while the load is in flight, then the load resolves: the buffer plays anyway |
| `Narration.PlayTwice` | hooks/useNarration.ts:100-114 | two plays in a row leave exactly one sounding source, bound to the second buffer |
| `Narration.SpeakOutOfOrder` | hooks/useNarration.ts:122-133 | a `speak` that must load, followed by a `speak` served from the cache: when the load resolves, the first clip replaces the second and is the only one sounding |
| `Narration.StaleCompletion` | hooks/useNarration.ts:115-119 | the first source's late completion does not clear the second source |
| `Caption.VisibleWordsIsFilter` | components/SyncedCaption.tsx:21-23 | the visible words are an order-preserving subsequence of the timings that holds every timing with `start <= t` (with its multiplicity) and no other |
| `Caption.CurrentWord` | components/SyncedCaption.tsx:26-30 | the result is the first timing with `start <= t < end`, or none exactly when no timing is active |
| `Caption.Render` | components/SyncedCaption.tsx:12-49 | empty timings give the full text and no spans; otherwise one span per visible word, in order, highlighted iff a current word exists and has the same text |
| `Caption.RevealMonotonic` | components/SyncedCaption.tsx:22 | for `t1 <= t2` the words visible at `t1` are an order-preserving part of those visible at `t2`, so a revealed word stays revealed |
| `Caption.SortedVisibleIsPrefix` | components/SyncedCaption.tsx:22 | with timings ordered by start, the visible words are a prefix of the timings |
| `Caption.CurrentWordIsVisible` | components/SyncedCaption.tsx:22-29 | whenever a current word exists it is among the visible words |
| `Caption.AtMostOneHighlighted` | components/SyncedCaption.tsx:38-42 | when all timing texts are distinct, at most one rendered span is highlighted |
| `Caption.RepeatedWordHighlightsTwice` | components/SyncedCaption.tsx:39 | highlighting compares text, so a repeated word lights up every visible occurrence |
| `Caption.TwoWordsScenario` | components/SyncedCaption.tsx:21-42 | timings "Olá," [0, 1.5) and "mundo!" [1.5, 3) at 2.0 s: both words are shown and only "mundo!" is highlighted |
| `MainScreen.AllTopicsVisitedMeansAll` | components/MainScreen.tsx:37 | `visitedTopics.size === 3` holds exactly when all three topics are visited |
| `MainScreen.Render` | components/MainScreen.tsx:49-79 | three buttons in fixed order; each is styled visited iff its topic is in the visited set; each selects its own topic with no lock check; the quiz button appears iff all topics are visited |
| `MainScreen.RequestsCollapseHistory` | components/MainScreen.tsx:39-41 | over the renders of one mount, narration is requested for the first key and for each key that differs from the one of the render before, in order, and for nothing else (equal to the history with runs of equal keys collapsed) |
| `MainScreen.SteadyKeyRequestsNothing` | components/MainScreen.tsx:39-41 | renders that repeat the previous key request no narration |
| `Hub.UnlockedIsVisitedOrNext` | App.tsx:21-30 | on reachable visited sets, a topic is unlocked exactly when it was visited or is the next one in order |
| `Hub.SelectKeepsPrefix` | App.tsx:32-36 | adding an unlocked topic to a prefix visited set yields a prefix |
| `Hub.QuizButtonIffNeighbors` | components/MainScreen.tsx:37 | on reachable visited sets the quiz button appears exactly when Neighbors has been visited |
| `Hub.PopupNarrationKey` | App.tsx:78-94 | a topic's popup narrates its own topic clip: `temperatureTopic` exactly for Temperature, `compositionTopic` exactly for Composition, `neighborsTopic` exactly for Neighbors |
| `Hub.PopupNarrationKeyInjective` | App.tsx:78-94 | Temperature, Composition and Neighbors map to `temperatureTopic`, `compositionTopic` and `neighborsTopic`, and distinct topics narrate distinct clips |
| `Hub.PopupTitle` | App.tsx:78-94 | each popup title equals the topic's enum string |
| `Hub.MainNarrationOncePerMount` | App.tsx:119-125 | the hub always hands MainScreen `mainScreenWelcome`, so however often the main screen re-renders in one mount, that narration is requested exactly once |
| `Hub.NarratorNeverSpeaks` | App.tsx:18 | reading `isSpeaking` from the hook's result `{ speak, cancel }` yields undefined, so the sun narrator's flag (false on the Quiz screen, otherwise that value's truthiness) is false on every screen |
| `Hub.ScreenCycle` | App.tsx:113-138 | through the handlers the page offers, the screen moves only Splash→Main→Quiz→Credits→Splash, and Main→Quiz only once all topics are visited |
| `Hub.App.constructor` | App.tsx:14-18 | the first screen is Main iff the address asks to skip the splash, otherwise Splash; no popup, empty visited set; a fresh narration hook with no context, empty cache and no current source |
| `Hub.App.TopicSelect` | App.tsx:32-36 | a locked topic changes neither the visited set nor the popup; an unlocked one is added to the visited set (others kept) and becomes the popup; the prefix invariant is kept |
| `Hub.App.ClosePopupAsWritten` | App.tsx:38-42 | cancel runs first (the current source is stopped and exactly that stop logged; cache and context kept); the handler throws exactly when the hook's result has no `clearNarration` function, and then the popup stays as it was |
| `Hub.App.ClosePopup` | App.tsx:38-42 | cancel runs (the current source is stopped and exactly that stop logged), then the popup is closed; the visited set, the screen, the cache and the context are unchanged |
| `Hub.App.SplashComplete` | App.tsx:116 | the splash's completion goes to Main |
| `Hub.App.StartQuiz` | App.tsx:44-46 | sets the Quiz screen |
| `Hub.App.QuizComplete` | App.tsx:48-50 | sets the Credits screen |
| `Hub.App.Restart` | App.tsx:52-56 | empties the visited set, closes the popup and returns to Splash |
| `Hub.App.Unmount` | App.tsx:58-61 | unmount stops the narration: no current source, exactly the stop of the old one logged, cache and context kept |
| `Hub.VisitAllTopics` | App.tsx:21-36 | with the corrected close handler (`ClosePopup`), visiting the topics in order reaches the full visited set, so every prefix is reachable |
| `Hub.PopupStaysOpen` | App.tsx:38-42 | with the handler as written and the hook's actual result, every close attempt throws, a popup once opened survives it, and the visited set stays `{Temperature}` |
| `QuizModel.GetButtonClass` | components/Quiz.tsx:54-65 | blue iff nothing is selected; after a selection the correct option is green whatever was picked, a picked wrong option red, any other gray |
| `QuizModel.ButtonClasses` | components/Quiz.tsx:74-83 | one class per rendered option, in order |
| `QuizModel.ClassesAfterAnswer` | components/Quiz.tsx:54-65 | after an answer, over distinct options that contain the correct one: exactly one green, no blue, one red iff the pick was a wrong option, the rest gray |
| `QuizModel.QuizState.CurrentQuestion` | components/Quiz.tsx:26-30 | the index never changes from 0, so the question shown is always the first |
| `QuizModel.QuizState.constructor` | components/Quiz.tsx:26-34 | nothing selected, no feedback, and `quizQuestion` requested on mount |
| `QuizModel.QuizState.HandleAnswer` | components/Quiz.tsx:36-52 | once an answer is held nothing changes; otherwise the answer is taken, a correct one sets the question's feedback and requests `quizCorrect`, a wrong one sets the message naming the correct answer and requests `quizWrong`, and a 5000 ms completion is scheduled |
| `QuizModel.QuizState.Classes` | components/Quiz.tsx:55-57 | before any selection every option button is blue |
| `QuizModel.AnswerLocks` | components/Quiz.tsx:36-52 | a second click keeps the first answer, and the buttons show one green and, for a wrong pick, one red |

## Left out

- Browser audio APIs are abstract. `fetch`, `arrayBuffer` and `decodeAudioData` become a `FetchOutcome` and a decoder function. `AudioContext` creation becomes a parameter of `Mount`. `resume`, `close` and `source.start/stop/disconnect` become entries of the ghost effect log. The exceptions that `stop`/`disconnect` swallow are not modelled: a stopped source counts as silenced.
- `Narration.NarrationEngine.PlayAudioBuffer`: `resume()` is asynchronous. The model records the request and does not model the later change of the context's state after the resume.
- `Narration.NarrationEngine.Dispose`: `close()` is asynchronous, and the browser's `state` turns closed only once it settles. The model logs the request and sets the context to `Closed` at once, so it does not capture the interval in which the context is still suspended or running after the request.
- The first-interaction resume listeners (hooks/useNarration.ts:26-46) and all `console` logging: these are event wiring and diagnostics.
- `speak`'s `if (!key) return` (hooks/useNarration.ts:124): every `AudioKey` is a non-empty string, so this branch never runs.
- Narration features the hook does not implement: a time-tracking loop, `currentTime`, `isSpeaking`, transcripts in the registry, and `clearNarration`. The hook does not have them.
- components/SunNarrator.tsx: dragging, blink timers and SVG. These are UI and timers.
- components/TopicContents.tsx: shader flames and static text.
- components/SplashScreen.tsx: the 4.5-second timer that gates the click (`canProceed`). `Hub.App.SplashComplete` models the completion itself.
- components/InfoPopup.tsx and components/CreditsScreen.tsx only call `speak` on mount and render markup. The keys they are given are `Hub.PopupNarrationKey` and `credits` (the model's `CreditsNarration`).
- The star background of App.tsx (`Math.random`, floats) and the quiz's `setTimeout`. For the timeout, only the scheduled delay is recorded in `scheduled`; its firing is the caller invoking `QuizComplete`.
- React rendering and batching: the handlers are modelled as running one at a time on current state.

## Findings

| source | as written | input that shows it | evidently intended | confidence | as-written member | corrected member |
|---|---|---|---|---|---|---|
| App.tsx:38-42 | `handleClosePopup` calls `clearNarration()`. That name is destructured at App.tsx:18 from a hook that returns only `{ speak, cancel }` (hooks/useNarration.ts:137), so the call throws a TypeError and `setActivePopup(null)` never runs | select Temperature, then click the popup's close button or backdrop: the narration stops, but the popup stays open; since an open popup covers every other control (`Hub.Offered`), visiting stops after Temperature and the quiz and credits screens are never reached | stop the narration and close the popup | medium, not executed (assumes the bundle is built without type checking) | `Hub.App.ClosePopupAsWritten` (with `Hub.PopupStaysOpen`) | `Hub.App.ClosePopup` |
