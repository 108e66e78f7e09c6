# Gesture typing in AnySoftKeyboard, modelled in Dafny

This project models the gesture-typing layer of the AnySoftKeyboard input
method service (`AnySoftKeyboardWithGestureTyping`) and proves properties of
that model. The layer has four parts:

- **The detector registry.** Each keyboard layout gets one gesture detector. The
  detector is cached under the key `"<keyboard id>,<min width>,<height>"`.
  At most one detector is *current*. A *ready* flag follows the loading state
  of the current detector. The registry destroys every detector when gesture
  typing is disabled or the add-ons change. Under memory pressure it destroys
  every detector except the current one.
- **Enable gating.** Gesture typing is on when the user's preference is on and
  power saving is off.
- **The dictionary aggregator (`WordListDictionaryListener`).** It counts the
  dictionaries that are still loading. It collects their word and frequency
  batches. When the count drops back to zero, it calls the consumer once.
- **The gesture session.** It covers the start guard, point input, and the
  finish protocol: capitalise the candidates, commit a separating space when
  one is needed, compose the first candidate and show the others as
  suggestions. It also covers confirming a pending gesture result when the
  next key arrives.

Files:

- `wrappers.dfy`: the `Option` datatype, used for the source's nullable
  references.
- `layout_key.dfy` (module `LayoutKey`): the keyboard's cache key, and a parser
  that reads a key back. The round trip shows that the key identifies the
  layout.
- `registry.dfy` (module `Registry`): the registry state, one pure function per
  operation, the consistency invariant, the lemmas, and the class
  `DetectorRegistry`. Each method of the class ensures
  `State() == Op(old(State()))`. The cache walks of `destroyAllDetectors` and
  `onLowMemory` are loops with invariants.
- `aggregator.dfy` (module `Aggregator`): the listener state and its
  operations. `Run` folds these operations over any sequence of load events.
  The module also holds the counting lemmas and the class
  `WordListDictionaryListener`.
- `session.dfy` (module `Session`): the session state and the start, input,
  finish, confirm and key functions. It also holds the capitalisation loop and
  the class `GestureSession`, which reads the enable flag and the current
  detector from a `DetectorRegistry`.

Detectors are opaque ids. A new detector takes the next unused id. Destroying a
detector adds its id to the ghost set `destroyed`. The text connection, and the
calls into the keyboard's own word handling, are a log of `TextOp` values.

The model follows the code as written in three places where the code's
behaviour may surprise:

- After the callback, `doCallback` replaces only the word list. The frequency
  list keeps every earlier batch, so a listener that reaches zero a second time
  delivers frequencies from the first round. `SecondRoundKeepsOldFrequencies`
  shows the consequence.
- A batch whose lengths do not match makes `onGetWordsFinished` throw. That
  exception is caught inside `onDictionaryLoadingDone`. So the batch is
  dropped, the count still goes down, and the callback can still fire.
- `destroyAllDetectors` does not dispose the readiness subscription. So after
  `onAddOnsCriticalChange` the subscription to the old current detector is still
  live (`AddOnsChangeLeavesSubscription`). Disabling gesture typing does dispose
  the subscription first.

## Model

| member | source | states |
|---|---|---|
| `LayoutKey.KeyForDetector` | ime/app/src/main/java/com/anysoftkeyboard/ime/AnySoftKeyboardWithGestureTyping.java:50-57 | the key "%s,%d,%d" of a keyboard reads back as the same keyboard id, minimum width and height, even when the id contains commas |
| `LayoutKey.KeyForDetectorInjective` | ime/app/src/main/java/com/anysoftkeyboard/ime/AnySoftKeyboardWithGestureTyping.java:50-57 | two keyboards get the same detector key exactly when id, minimum width and height all agree |
| `Registry.EffectiveEnabled` | ime/app/src/main/java/com/anysoftkeyboard/ime/AnySoftKeyboardWithGestureTyping.java:72-75 | gesture typing is enabled iff the preference is on and power saving is off |
| `Registry.DisableDestroysAll` | ime/app/src/main/java/com/anysoftkeyboard/ime/AnySoftKeyboardWithGestureTyping.java:77-101 | disabling leaves an empty cache, no current detector, ready false, the subscription disposed and every cached detector destroyed; disabling twice equals disabling once |
| `Registry.EnableSetsUpAlphabet` | ime/app/src/main/java/com/anysoftkeyboard/ime/AnySoftKeyboardWithGestureTyping.java:82-87 | enabling with an alphabet keyboard on screen caches a detector under its key and makes that detector current |
| `Registry.SetupActivates` | ime/app/src/main/java/com/anysoftkeyboard/ime/AnySoftKeyboardWithGestureTyping.java:115-133 | when enabled, setup leaves the key cached with current == cache[key], observed and not yet ready; a cached key reuses its detector and leaves the cache unchanged, otherwise exactly one fresh, never-destroyed detector is added |
| `Registry.SetupTwiceIsSetupOnce` | ime/app/src/main/java/com/anysoftkeyboard/ime/AnySoftKeyboardWithGestureTyping.java:115-133 | activating the same keyboard twice gives the same state as activating it once: one entry and one current detector |
| `Registry.DistinctLayoutsDistinctDetectors` | ime/app/src/main/java/com/anysoftkeyboard/ime/AnySoftKeyboardWithGestureTyping.java:118-131 | two different keyboards activated one after the other get different current detectors |
| `Registry.LowMemoryKeepsCurrent` | ime/app/src/main/java/com/anysoftkeyboard/ime/AnySoftKeyboardWithGestureTyping.java:169-179 | with a current detector, memory pressure keeps exactly the entries holding it (one entry), and destroys exactly the other cached detectors, which are the cache size minus one |
| `Registry.LowMemoryWithoutCurrent` | ime/app/src/main/java/com/anysoftkeyboard/ime/AnySoftKeyboardWithGestureTyping.java:180-182 | with no current detector, memory pressure destroys every cached detector and empties the cache |
| `Registry.LowMemoryThreeEntries` | ime/app/src/main/java/com/anysoftkeyboard/ime/AnySoftKeyboardWithGestureTyping.java:167-183 | three cached detectors with one current: exactly two are destroyed, and the current one is still cached under its key |
| `Registry.SymbolsKeyboardUnbinds` | ime/app/src/main/java/com/anysoftkeyboard/ime/AnySoftKeyboardWithGestureTyping.java:314-320 | the symbols keyboard unbinds the current detector, clears ready and disposes the subscription, and keeps the cache |
| `Registry.AddOnsChangeLeavesSubscription` | ime/app/src/main/java/com/anysoftkeyboard/ime/AnySoftKeyboardWithGestureTyping.java:104-107 | an add-ons change empties the cache and unbinds the current detector but leaves the subscription as it was |
| `Registry.ApplyPreserves` | ime/app/src/main/java/com/anysoftkeyboard/ime/AnySoftKeyboardWithGestureTyping.java:93-183 | every registry operation keeps the invariant: one key per detector, cached detectors live and allocated, current detector cached and only while enabled, ready only with a live subscription |
| `Registry.ReachableIsConsistent` | ime/app/src/main/java/com/anysoftkeyboard/ime/AnySoftKeyboardWithGestureTyping.java:33-41 | every state reachable from the initial fields by any sequence of registry events satisfies the invariant |
| `Registry.DetectorRegistry.constructor` | ime/app/src/main/java/com/anysoftkeyboard/ime/AnySoftKeyboardWithGestureTyping.java:33-41 | starts disabled, with an empty cache, no current detector, not ready, and no subscription |
| `Registry.DetectorRegistry.DestroyAllDetectors` | ime/app/src/main/java/com/anysoftkeyboard/ime/AnySoftKeyboardWithGestureTyping.java:93-101 | the loop destroys every cached detector; afterwards the cache is empty, there is no current detector and ready is false |
| `Registry.DetectorRegistry.OnAddOnsCriticalChange` | ime/app/src/main/java/com/anysoftkeyboard/ime/AnySoftKeyboardWithGestureTyping.java:104-107 | same new state as destroying all detectors |
| `Registry.DetectorRegistry.SetupGestureDetector` | ime/app/src/main/java/com/anysoftkeyboard/ime/AnySoftKeyboardWithGestureTyping.java:115-161 | disposes the old subscription; when enabled, reuses or creates the detector for the key, makes it current and observes it; keeps the invariant |
| `Registry.DetectorRegistry.OnGestureTypingPreferencesChanged` | ime/app/src/main/java/com/anysoftkeyboard/ime/AnySoftKeyboardWithGestureTyping.java:72-89 | stores the combined flag, disposes the subscription, then destroys everything (disabled) or sets up the alphabet keyboard (enabled) |
| `Registry.DetectorRegistry.OnAlphabetKeyboardSet` | ime/app/src/main/java/com/anysoftkeyboard/ime/AnySoftKeyboardWithGestureTyping.java:301-307 | sets up the keyboard's detector only while enabled |
| `Registry.DetectorRegistry.OnSymbolsKeyboardSet` | ime/app/src/main/java/com/anysoftkeyboard/ime/AnySoftKeyboardWithGestureTyping.java:314-320 | disposes the subscription, unbinds the current detector, clears ready |
| `Registry.DetectorRegistry.OnLowMemory` | ime/app/src/main/java/com/anysoftkeyboard/ime/AnySoftKeyboardWithGestureTyping.java:167-183 | the walk over a copy of the entries destroys and removes those whose detector is not the current one; with no current detector, destroys all |
| `Registry.DetectorRegistry.DisposeSubscription` | ime/app/src/main/java/com/anysoftkeyboard/ime/AnySoftKeyboardWithGestureTyping.java:136-141 | disposing a live subscription runs its hook, which clears ready; disposing a disposed one changes nothing |
| `Registry.DetectorRegistry.OnDetectorStateChanged` | ime/app/src/main/java/com/anysoftkeyboard/ime/AnySoftKeyboardWithGestureTyping.java:143-151 | while observing, ready becomes "the state is LOADED" |
| `Registry.DetectorRegistry.OnDetectorStateError` | ime/app/src/main/java/com/anysoftkeyboard/ime/AnySoftKeyboardWithGestureTyping.java:152-159 | an error ends the subscription and clears ready |
| `Aggregator.BatchRules` | ime/app/src/main/java/com/anysoftkeyboard/ime/AnySoftKeyboardWithGestureTyping.java:187-200 | an empty batch is skipped; a batch with mismatched lengths is rejected with both lengths and nothing is appended; a valid batch appends one entry to each list |
| `Aggregator.RunExpected` | ime/app/src/main/java/com/anysoftkeyboard/ime/AnySoftKeyboardWithGestureTyping.java:224-259 | after any sequence of events, the counter is its start value plus the starts minus the done and failed calls |
| `Aggregator.RunDeliveries` | ime/app/src/main/java/com/anysoftkeyboard/ime/AnySoftKeyboardWithGestureTyping.java:228-259 | the callback fires once for each done or failed call whose decrement reaches zero, never otherwise, and earlier deliveries stay as they were |
| `Aggregator.CallbackFiresOnceAtLast` | ime/app/src/main/java/com/anysoftkeyboard/ime/AnySoftKeyboardWithGestureTyping.java:224-259 | n starts followed by n done or failed calls in any order fire the callback exactly once, at the last call |
| `Aggregator.FirstDeliveryHoldsAcceptedBatches` | ime/app/src/main/java/com/anysoftkeyboard/ime/AnySoftKeyboardWithGestureTyping.java:187-247 | from a fresh listener, that one delivery holds exactly the accepted batches in finishing order, each word batch paired with its own non-empty, equal-length frequency batch; afterwards the word list is empty |
| `Aggregator.SecondRoundKeepsOldFrequencies` | ime/app/src/main/java/com/anysoftkeyboard/ime/AnySoftKeyboardWithGestureTyping.java:244-247 | only the word list is reset: a second round delivers one word batch next to two frequency batches |
| `Aggregator.WordListDictionaryListener.constructor` | ime/app/src/main/java/com/anysoftkeyboard/ime/AnySoftKeyboardWithGestureTyping.java:212-221 | empty lists, counter zero, no deliveries |
| `Aggregator.WordListDictionaryListener.OnDictionaryLoadingStarted` | ime/app/src/main/java/com/anysoftkeyboard/ime/AnySoftKeyboardWithGestureTyping.java:224-226 | increments the counter |
| `Aggregator.WordListDictionaryListener.OnGetWordsFinished` | ime/app/src/main/java/com/anysoftkeyboard/ime/AnySoftKeyboardWithGestureTyping.java:187-205 | skips, rejects or appends the batch as BatchRules says |
| `Aggregator.WordListDictionaryListener.OnDictionaryLoadingDone` | ime/app/src/main/java/com/anysoftkeyboard/ime/AnySoftKeyboardWithGestureTyping.java:229-242 | decrements, takes in the dictionary's batch (a rejected batch is dropped), and calls back when the decrement reached zero |
| `Aggregator.WordListDictionaryListener.DoCallback` | ime/app/src/main/java/com/anysoftkeyboard/ime/AnySoftKeyboardWithGestureTyping.java:244-247 | hands both lists to the consumer, then empties the word list only |
| `Aggregator.WordListDictionaryListener.OnDictionaryLoadingFailed` | ime/app/src/main/java/com/anysoftkeyboard/ime/AnySoftKeyboardWithGestureTyping.java:250-259 | decrements and calls back when the decrement reached zero |
| `Session.IsValidGestureTypingStart` | ime/app/src/main/java/com/anysoftkeyboard/ime/AnySoftKeyboardWithGestureTyping.java:356-373 | a gesture may start on a key iff it is not functional and its primary code is positive and neither SPACE nor ENTER |
| `Session.StartConfirmsAsKeyWould` | ime/app/src/main/java/com/anysoftkeyboard/ime/AnySoftKeyboardWithGestureTyping.java:332-347 | on a valid start key, the confirmation a gesture start performs gives the same text calls and entry state as typing that key would (onKey at :419-423) |
| `Session.StartGuard` | ime/app/src/main/java/com/anysoftkeyboard/ime/AnySoftKeyboardWithGestureTyping.java:332-347 | start returns true iff enabled, a detector is current and the key is valid; then any pending gesture is confirmed and the path is exactly the start point; on false nothing changes |
| `Session.InputAppendsOnePoint` | ime/app/src/main/java/com/anysoftkeyboard/ime/AnySoftKeyboardWithGestureTyping.java:382-388 | input appends the point to the current detector's path alone, and is a no-op when disabled or without a current detector |
| `Session.ConfirmIsIdempotent` | ime/app/src/main/java/com/anysoftkeyboard/ime/AnySoftKeyboardWithGestureTyping.java:432-436 | confirming picks the first suggestion only when a gesture is pending; a second confirmation changes nothing |
| `Session.KeyConfirmsGesture` | ime/app/src/main/java/com/anysoftkeyboard/ime/AnySoftKeyboardWithGestureTyping.java:419-423 | a printable key after a gesture confirms it, with auto-space unless the key is SPACE |
| `Session.CapitalizeCandidates` | ime/app/src/main/java/com/anysoftkeyboard/ime/AnySoftKeyboardWithGestureTyping.java:461-472 | the in-place loop leaves every candidate, in its place, capitalised for caps lock or for shift by the locale's upper-casing `upper` |
| `Session.CapitalizationRules` | ime/app/src/main/java/com/anysoftkeyboard/ime/AnySoftKeyboardWithGestureTyping.java:459-473 | for any upper-casing `upper`, the number and order of candidates is kept; caps lock gives `upper(w)` for every candidate w, shift alone gives `upper(w[..1]) + w[1..]`, and with neither or with no locale the candidates are unchanged |
| `Session.AsciiShiftKeepsLength` | ime/app/src/main/java/com/anysoftkeyboard/ime/AnySoftKeyboardWithGestureTyping.java:466-470 | with the ASCII upper-casing, shift keeps each candidate's length and changes only its first character |
| `Session.IsJavaWhitespace` | ime/app/src/main/java/com/anysoftkeyboard/ime/AnySoftKeyboardWithGestureTyping.java:495 | Character.isWhitespace holds iff the code point is a space, line or paragraph separator other than a no-break space, or one of the separator controls U+0009-U+000D, U+001C-U+001F |
| `Session.NeedsSpace` | ime/app/src/main/java/com/anysoftkeyboard/ime/AnySoftKeyboardWithGestureTyping.java:490-503 | a space is needed iff the text before the cursor is non-empty and its last code point is neither whitespace nor an apostrophe nor a hyphen |
| `Session.CapitalizationExamples` | ime/app/src/main/java/com/anysoftkeyboard/ime/AnySoftKeyboardWithGestureTyping.java:459-473 | ["hello","world"] becomes ["Hello","World"] under shift, ["HELLO","WORLD"] under caps lock, and is unchanged with neither |
| `Session.SpaceRuleExamples` | ime/app/src/main/java/com/anysoftkeyboard/ime/AnySoftKeyboardWithGestureTyping.java:490-504 | a space goes after "don" but not after "don'", "well-", "so ", "end\n" or empty text |
| `Session.CommitOpsShape` | ime/app/src/main/java/com/anysoftkeyboard/ime/AnySoftKeyboardWithGestureTyping.java:475-516 | the batch edit opens and aborts correction, commits a space iff NeedsSpace, composes the first candidate, shows suggestions iff more than one candidate (clears them iff exactly one) and ends the edit |
| `Session.DoneCommitsFirstCandidate` | ime/app/src/main/java/com/anysoftkeyboard/ime/AnySoftKeyboardWithGestureTyping.java:443-520 | with candidates, finishing commits that batch edit for the capitalised candidates, records the first as typed and preferred word, sets auto-capitalised to shift or caps lock, marks the gesture performed and clears the path |
| `Session.DoneWithoutCandidates` | ime/app/src/main/java/com/anysoftkeyboard/ime/AnySoftKeyboardWithGestureTyping.java:449-520 | with no candidates, finishing only clears the path |
| `Session.DoneNeedsDetectorAndConnection` | ime/app/src/main/java/com/anysoftkeyboard/ime/AnySoftKeyboardWithGestureTyping.java:444-449 | finishing while disabled, without a current detector or without a text connection changes nothing |
| `Session.GestureScenario` | ime/app/src/main/java/com/anysoftkeyboard/ime/AnySoftKeyboardWithGestureTyping.java:332-520 | a disabled start captures nothing; start, two moves and finish with "cat","car" after "the" give the three points, then a space, composing "cat", suggestions for both words and the gesture pending |
| `Session.GestureSession.constructor` | ime/app/src/main/java/com/anysoftkeyboard/ime/AnySoftKeyboardWithGestureTyping.java:31-41 | no paths, no pending gesture, empty log |
| `Session.GestureSession.ConfirmLastGesture` | ime/app/src/main/java/com/anysoftkeyboard/ime/AnySoftKeyboardWithGestureTyping.java:432-436 | picks the typed word as suggestion 0 when a gesture is pending |
| `Session.GestureSession.OnGestureTypingInput` | ime/app/src/main/java/com/anysoftkeyboard/ime/AnySoftKeyboardWithGestureTyping.java:382-388 | adds the point to the current detector when enabled |
| `Session.GestureSession.OnGestureTypingInputStart` | ime/app/src/main/java/com/anysoftkeyboard/ime/AnySoftKeyboardWithGestureTyping.java:332-347 | guard, confirm, clear the path, add the first point, return whether it started |
| `Session.GestureSession.OnKey` | ime/app/src/main/java/com/anysoftkeyboard/ime/AnySoftKeyboardWithGestureTyping.java:413-426 | the gesture part of onKey: confirm a pending gesture on a printable key |
| `Session.GestureSession.CommitFirstCandidate` | ime/app/src/main/java/com/anysoftkeyboard/ime/AnySoftKeyboardWithGestureTyping.java:475-516 | performs the batch edit of CommitOps and records the typed word |
| `Session.GestureSession.OnGestureTypingInputDone` | ime/app/src/main/java/com/anysoftkeyboard/ime/AnySoftKeyboardWithGestureTyping.java:443-521 | capitalises the candidates with the loop, commits the first one when there are any, and clears the path |

## Left out

- The RxJava machinery (`combineLatest`, subscribe, dispose) is left out. The model keeps only its effect on the state: the stored enable flag, the ready flag, and whether a subscription is live and on which detector. Each event handler is a method that the environment calls.
- A new subscription does not receive the detector's state at once. Ready stays false until an `OnDetectorStateChanged` call arrives.
- `AtomicInteger` thread safety is left out. Aggregator events arrive one at a time, in any order. The counter is an unbounded integer, so 32-bit wrap-around is not modelled.
- The geometry and the word matching inside `SharkGestureTypingDetector` are left out. A detector is an id. `addPoint` always appends the point, so any minimum-distance filtering inside the detector is not modelled. The candidates that `getCandidates` returns are a parameter. Its constructor arguments (15 suggestions, minimum point distance, 800) do not appear.
- `onDictionariesLoaded`, `getDictionaryLoadedListener`, `generateWatermark` and `setupInputViewWatermark` are left out. They hand words to `setWords` or draw the watermark, and they change none of the state modelled here.
- `Aggregator.Deliver` records each delivery as values at the time of the callback. In the source the consumer keeps the live `mWordFrequencies` list (:245), and later rounds keep appending to that same object (:199), since only `mWords` is replaced (:246). So the model's deliveries, and `Aggregator.RunDeliveries`' "earlier deliveries stay as they were", do not capture what a consumer holding that list sees later. The aliasing is not modelled.
- `Dictionary.getLoadedWords` is modelled as handing over one batch or throwing (`Unavailable`). A dictionary that calls back several times is not modelled.
- Logging is left out, and so are `eventTime` and the `long` timestamps.
- The keyboard locale's `toUpperCase` is the parameter `upper: string -> string`, and the capitalisation contracts hold for every such function. Only the examples use a concrete instance, `ToUpper`, which maps `a`-`z` to `A`-`Z`. Locale rules such as "ß" becoming "SS" are therefore not computed, though the general contracts cover them.
- The keyboard locale and the shift state come in as parameters. So do the text connection's presence and `getTextBeforeCursor`.
- `Session.GestureSession.OnGestureTypingInputDone` requires every candidate to be non-empty when only shift applies. The source would throw on an empty candidate there; the detector does not return empty words.
- `Session.CapitalizeCandidates` makes the same exclusion: it requires non-empty candidates unless caps lock is on, for the same reason.
- Strings are sequences of Unicode scalar values. So `Character.codePointBefore` is the last character, and surrogate pairs do not arise.
- `KeyCodes.SPACE` (32) and `KeyCodes.ENTER` (10) are written out as constants. `KeyCodes` is not part of this model.
- `TextEntryState` is reduced to "a gesture is pending" versus anything else. The model assumes that `pickSuggestionManually` leaves the pending-gesture state, as its name says. That method, `abortCorrectionAndResetPredictionState` and `setSuggestions` belong to the keyboard's superclasses and are recorded as calls only.
- Null-pointer failures are not modelled. Examples are a missing current alphabet keyboard in `onGestureTypingInputDone`, or a null text before the cursor.
- `buildSrc/src/main/java/deployment/DeploymentRequestProcessTask.java` is left out. It is a build task that sends an HTTP deployment request and has no keyboard logic.
