# Quantum love state engine, modelled in Dafny

`kh.js` holds the engine of a single-page keepsake application. It has two parts:

- `QuantumLoveState` is one state record and the operations that update it:
  - a daily word puzzle with attempts, a streak, a lockout and metric bumps;
  - a memory log, newest first, where each entry carries a sentiment amplitude and a length class;
  - tag and text queries over the log;
  - favourite verses, de-duplicated by their Urdu text;
  - a keyword-dispatched chat reply;
  - seven-day predictions with an emoji each;
  - a list of observers that receive change events.
- `NeuralLoveNetwork` is a keyword-bucket classifier. It counts words per category, normalises the counts, picks the first strict arg-max of weight × score, and trains with a clamped additive update. The training log is capped at 1000 records.

The model is split into five modules:

- `Options` (options.dfy): the optional-value wrapper.
- `Text` (text.dfy): the JavaScript string operations the engine relies on: `toLowerCase` on ASCII letters, `trim`, `split(' ')`, `includes`, and the decimal rendering of counters.
- `Classifier` (classifier.dfy): the classifier. Its specification functions are `Analysis`, `Predict`, `Retrained` and `Logged`, and lemmas about them are proved. The class `NeuralLoveNetwork` updates its weights and its log in place. The source's loops are module-level methods that the class's methods call: `CountKeywords`, `Tally`, `NormalizeScores`, `StrongestWeighted` and `Reweigh`. Each loop method is proved equal to its specification function.
- `Rules` (rules.dfy): the engine's rules as values: the lock transition, the verdict, the memory entry, the queries, the favourite update, the reply dispatch, the emoji choice and observer removal. Lemmas about them are proved here.
- `Engine` (engine.dfy): the class `QuantumLoveState`. Its fields mirror the parts of the state record. Each method updates them in place as `kh.js` does, keeps the invariant `Valid()`, and records each event it emits with the observers it goes to. Saving the state counts as a `state_saved` event.

The engine's outside world becomes parameters:

- clock readings are `now`/`memoryAt`/`sentAt`/`repliedAt` strings, one parameter per reading, so a correct guess's `lastUnlock` and its memory's timestamp are separate readings;
- memory ids are an `id` argument;
- the random pick of a default reply is an index `pick`;
- the word table is a non-empty sequence, and the quantum seed is a `nat`;
- the response banks are a function `Topic -> string`;
- the prediction templates are a function `nat -> Draw`, and the date `i` days ahead is a function `nat -> string`.

The content database (`QuantumDB`) is not part of this model.

On these points the model follows the code as written:

- Words split on a single space, not on any whitespace. An empty piece is a word.
- A guess is judged even after a lockout, and it still counts an attempt. `attempts ≤ maxAttempts` is proved only for callers that stop guessing once the lock is secured.
- The initial memory density is 0.87, not `min(1, 0/1000)`. The invariant ties the density to the log length only once the log has at least one entry.
- An empty or all-whitespace guess matches the unset word `""` of a lock that has not been generated yet.

## Model

| member | source | states |
|---|---|---|
| Text.LowerSpec | kh.js:191 | lower-casing leaves no letter A-Z, keeps every other character and maps A-Z to a-z |
| Text.LowerIdempotent | kh.js:427 | lower-casing an already lower-cased input changes nothing |
| Text.TrimSpec | kh.js:191 | the trimmed guess is the slice left after leading and trailing whitespace, and it neither starts nor ends with whitespace |
| Text.ContainsIff | kh.js:313 | `includes` holds exactly when the needle occurs at some position |
| Text.AnyInIff | kh.js:283 | `some(k => word.includes(k))` holds exactly when some key occurs in the word |
| Text.JoinSplit | kh.js:279 | splitting on one space loses nothing: joining the pieces with a space gives the text back |
| Text.NatToStringValue | kh.js:242 | the decimal rendering of a count reads back as that count, and has no leading zero except for 0 itself, which renders as "0" |
| Text.SplitCount | kh.js:627 | a text splits into one more word than it has spaces |
| Classifier.NeuralLoveNetwork.constructor | kh.js:610-624 | a fresh network has the weights 0.7, 0.6, 0.8, 0.5, 0.4, learning rate 0.1 and an empty log, and satisfies its invariant |
| Classifier.AnalysisZeroIff | kh.js:626-662 | a category's score is 0 exactly when none of the text's words contains one of its keywords |
| Classifier.NeuralLoveNetwork.AnalyzeText | kh.js:626-662 | the scores are the normalised keyword counts of the text's words; each is in [0, 1]; they sum to 1 exactly when some word matched a keyword, and otherwise they are all 0 |
| Classifier.CountKeywords | kh.js:645-651 | the counting loop yields, per category, the number of words that contain one of its keywords |
| Classifier.Tally | kh.js:646-650 | one word adds 1 to every category it matches and nothing to the others |
| Classifier.NormalizeScores | kh.js:653-659 | the normalising loop divides every count by the total when the total is positive, and leaves the counts alone otherwise |
| Classifier.CountZeroIff | kh.js:645-651 | a category counts 0 exactly when no word contains one of its keywords |
| Classifier.CountsPositive | kh.js:645-651 | when some word matches some category, the total count is positive |
| Classifier.CountsZero | kh.js:645-651 | when no word matches any category, every count is 0 |
| Classifier.NormalizeIsDistribution | kh.js:653-659 | dividing non-negative counts with a positive total gives scores in [0, 1] that sum to 1 |
| Classifier.ZeroIsFixed | kh.js:655 | all-zero counts are left as they are, with sum 0 |
| Classifier.AnalysisIsDistribution | kh.js:626-662 | for every text: the scores are in [0, 1]; the sum is 1 exactly when a keyword matched; with no match all scores are 0 |
| Classifier.NormalizedCountsIsDistribution | kh.js:645-661 | the same bounds for any list of words |
| Classifier.NeuralLoveNetwork.PredictEmotion | kh.js:664-682 | the prediction is the arg-max of the weighted analysis, with the analysis as breakdown; with weights in range the confidence is in [0, 1] |
| Classifier.StrongestWeighted | kh.js:666-675 | the running-maximum loop over the categories in order computes the same pick and maximum as the scan |
| Classifier.Scan | kh.js:669-675 | the scan keeps a maximum at least every weighted score seen, 0 while neutral, and a pick that is the first category to reach it |
| Classifier.Predict | kh.js:664-682 | neutral exactly when no weighted score is positive, with confidence 0; otherwise the confidence is the largest weighted score and every earlier category scores strictly less |
| Classifier.ConfidenceBounded | kh.js:670-679 | with scores and weights in [0, 1], the confidence is in [0, 1] |
| Classifier.WeightedBounded | kh.js:670 | weighting keeps every score in [0, 1] when the weights are in [0, 1] |
| Classifier.ProductBound | kh.js:670 | the product of two numbers in [0, 1] is in [0, 1] |
| Classifier.Clamp | kh.js:698 | a clamped weight is in [0.1, 1], and a weight already in range is unchanged |
| Classifier.Retrained | kh.js:690-699 | after training every weight is in [0.1, 1], and each one is its own clamped update, raised for the expected label and lowered for the others |
| Classifier.RetrainDirection | kh.js:690-699 | the expected label's weight never goes down and every other weight never goes up |
| Classifier.Adjusted | kh.js:691-698 | one weight after a training step stays in [0.1, 1] |
| Classifier.AdjustedDirection | kh.js:691-698 | one weight's update moves in the direction its label calls for |
| Classifier.Reweigh | kh.js:690-699 | the in-place loop over the weights computes exactly the retrained weights |
| Classifier.Logged | kh.js:701-712 | the new record is last and the log is a suffix of the old log plus the record; a log within 1000 stays within 1000, and one under 1000 just grows by the record; from 1000 on the log keeps its length, so exactly the oldest record is dropped |
| Classifier.NeuralLoveNetwork.Train | kh.js:684-713 | the weights become the retrained weights for the prediction's confidence; the record with the predicted label is logged; every weight stays in [0.1, 1] and the log stays within 1000 |
| Rules.WordIndex | kh.js:180 | the table index `(day*seed + month*hour) % N` lies in [0, N) |
| Rules.HintNamesWord | kh.js:184 | the hint quotes the word's meaning right after `Relates to "` and ends with its quantum state |
| Rules.LockAfter | kh.js:190-236 | no guess changes today's word, its hint or the attempt limit; the attempts are 0 afterwards exactly when the guess was right; a wrong guess keeps the last unlock time |
| Rules.VerdictOf | kh.js:212-245 | the verdict is the unlock exactly when the guess is right and the lockout exactly when a wrong guess reaches the limit; every other verdict reports the attempts plus one |
| Rules.CorrectGuess | kh.js:194-218 | a correct guess extends the streak by one, clears the attempts, records the time and is answered with the unlock message and the new streak |
| Rules.WrongGuess | kh.js:219-246 | a wrong guess counts one attempt. At the limit the streak drops to 0 and the verdict is the lockout. Below it the streak stays, and the verdict reports `maxAttempts - attempts` remaining and the hint |
| Rules.WrongRun | kh.js:219-236 | a run of wrong guesses adds one attempt per guess; the streak survives while the attempts stay under the limit and is 0 once they reach it |
| Rules.FifthWrongGuessLocks | kh.js:221-235 | with the default limit of 5, the fifth wrong guess in a row is answered with the lockout and leaves the streak at 0 |
| Rules.GatedRunStaysInBounds | kh.js:190-247 | a caller that makes no guess once the lock is secured keeps `attempts ≤ maxAttempts` |
| Rules.GuessAfterLockout | kh.js:190-192 | without that gate, a wrong guess on a secured lock still counts and pushes the attempts past the limit |
| Rules.Min | kh.js:201-202 | `Math.min` is a lower bound that is one of its arguments |
| Rules.AfterUnlock | kh.js:201-202 | an unlock sets entanglement to `min(1, e + 0.1)` and coherence to `min(1, c + 0.05)` and leaves the other metrics alone |
| Rules.UnlockMetricsBounded | kh.js:201-202 | unlocks never lower the two metrics and keep them in [0, 1]; from 0.9 entanglement saturates at 1 |
| Rules.DetermineQuantumState | kh.js:290-296 | coherent exactly below 50 characters, entangled from 50 to 99, superposition from 100 to 199, multiversal from 200 |
| Rules.QuantumStateMonotonic | kh.js:290-296 | a longer content never falls in a lower length class |
| Rules.BalanceBounds | kh.js:282-285 | the word balance moves by at most one per word |
| Rules.UnitClamp | kh.js:287 | `Math.max(0, Math.min(1, x))` is in [0, 1] and is `x` when `x` is in range |
| Rules.Amplitude | kh.js:274-288 | the amplitude is always in [0, 1] |
| Rules.AmplitudeSign | kh.js:280-287 | the amplitude is above, at or below 0.5 exactly as positive words outnumber, match or trail negative ones |
| Rules.NewMemory | kh.js:251-258 | the entry keeps the given content, tags, id and time, has an amplitude in [0, 1] and the length class of its content |
| Rules.Density | kh.js:264-266 | the density is in [0, 1], is 1 exactly from 1000 memories on, and is `n/1000` below that |
| Rules.DensityMonotonic | kh.js:264-266 | the density grows with the number of memories |
| Rules.UnlockMemory | kh.js:205-209 | the unlock memory is tagged quantum, achievement, love and stamped with the time given for it |
| Rules.Selected | kh.js:298-305 | with no tag or the empty tag the whole log is kept; with a tag, exactly the memories of the log that carry it, never more than there were |
| Rules.Tagged | kh.js:301-305 | the tag filter keeps exactly the memories that carry the tag, and never more than there were |
| Rules.TaggedAppend | kh.js:302-304 | the tag filter keeps storage order: it distributes over concatenation |
| Rules.TaggedCons | kh.js:302-304 | the filter keeps or drops the first memory by its own tags and then filters the rest |
| Rules.SliceEnd | kh.js:307 | `slice(0, limit)` ends at `min(limit, n)` for a non-negative limit and at `max(n + limit, 0)` for a negative one |
| Rules.Search | kh.js:312-315 | the search keeps exactly the memories whose lower-cased content or some lower-cased tag contains the query |
| Rules.SearchAppend | kh.js:312-315 | the search keeps storage order: it distributes over concatenation |
| Rules.SearchCons | kh.js:312-315 | the filter keeps or drops the first memory by its own match and then filters the rest |
| Rules.SearchEmptyQuery | kh.js:310-316 | searching for the empty query returns the whole storage |
| Rules.WithFavorite | kh.js:319-329 | the poem is appended with its time, and true is returned, exactly when no favourite has the same verse; otherwise nothing changes and false is returned |
| Rules.FavoritesStayDistinct | kh.js:320-324 | adding keeps the favourite verses distinct, and the verse is present afterwards |
| Rules.FavoriteIdempotent | kh.js:319-329 | favouriting the same verse a second time changes nothing and returns false |
| Rules.IsGreeting | kh.js:466-469 | an input is a greeting exactly when one of hello, hi, hey, greetings, salaam, namaste occurs in it |
| Rules.ContainingHiIsGreeting | kh.js:466-469 | substring matching makes every input containing "hi" a greeting |
| Rules.DetectEmotion | kh.js:471-486 | no mood exactly when no keyword of any mood occurs; otherwise the mood found matches and no earlier mood in table order does |
| Rules.Dispatch | kh.js:426-455 | the topic is the first test that matches: greeting, then mood, then poetry, memory and future keywords, else the default |
| Rules.GenerateAIResponse | kh.js:426-464 | the reply is the bank of the lower-cased input's topic, or the picked default when no topic matches |
| Rules.ResponseIgnoresCase | kh.js:427 | the reply does not depend on letter case |
| Rules.GreetingFirst | kh.js:430-432 | a greeting wins over every other topic |
| Rules.PredictionEmoji | kh.js:513-520 | each emoji is chosen exactly when its keyword is the first one, in order, that occurs in the text, with 🌟 when none does |
| Rules.Stamped | kh.js:498-500 | a stamped prediction keeps the drawn text and confidence and carries its date and the text's emoji |
| Rules.Without | kh.js:527-529 | removal keeps every other observer, drops every occurrence of the removed one and adds nothing |
| Rules.WithoutAppend | kh.js:528 | removal distributes over concatenation, so the order of the rest is kept |
| Rules.WithoutAbsent | kh.js:528 | removing an observer that is not subscribed changes nothing |
| Rules.AddThenRemove | kh.js:523-529 | adding and then removing an observer leaves the other subscriptions as they were |
| Engine.QuantumLoveState.constructor | kh.js:15-88 | the first-visit state: lock, metrics, memory bank and emotional intelligence 94; no favourites, history, predictions, observers or events; a fresh classifier; the invariant holds |
| Engine.QuantumLoveState.NotifyObservers | kh.js:531-539 | the event is recorded once, together with the current observers |
| Engine.QuantumLoveState.SaveQuantumState | kh.js:121-137 | saving succeeds and emits `state_saved` |
| Engine.QuantumLoveState.AddObserver | kh.js:523-525 | the observer is appended |
| Engine.QuantumLoveState.RemoveObserver | kh.js:527-529 | the observer list becomes the list without the removed observer |
| Engine.QuantumLoveState.GenerateTodaysQuantumWord | kh.js:172-188 | today's word and hint become those of the table entry at the date index, and the attempts are cleared; nothing else in the lock changes |
| Engine.QuantumLoveState.AnalyzeEmotionalAmplitude | kh.js:274-288 | the running score loop computes the amplitude of the content, which is in [0, 1] |
| Engine.QuantumLoveState.AddMemory | kh.js:250-272 | the entry goes in front of the unchanged log, the count goes up by one, the density follows the new length, and `memory_added` then `state_saved` are emitted; the invariant is kept |
| Engine.QuantumLoveState.QuantumUnlockAttempt | kh.js:190-247 | the lock and the verdict follow the lock rules. A correct guess records `now` as the last unlock, bumps the metrics, prepends the unlock memory stamped with the separate reading `memoryAt`, adds one to the count, sets the density for the new length, leaves the bank's other fields alone, and emits `memory_added`, `state_saved`, `quantum_unlock_success`, `state_saved`. A wrong guess leaves metrics and memories alone and emits `quantum_lockout` and `state_saved` at the limit, and `state_saved` alone below it |
| Engine.QuantumLoveState.RecordUnlock | kh.js:194-218 | the success branch: streak plus one, attempts 0, `now` recorded as the last unlock, metrics bumped, one memory stamped `memoryAt` prepended, the count up by one, the density for the new length, every other field of the memory bank unchanged, the four events in order, the unlock verdict |
| Engine.QuantumLoveState.RecordMiss | kh.js:219-246 | the failure branch: one more attempt, then the lockout with streak 0, or the remaining-attempts verdict with the hint, and the matching events |
| Engine.QuantumLoveState.GetMemories | kh.js:298-308 | at most `limit` memories, and exactly as many as `slice(0, limit)` keeps. They are a prefix of the log, or of the tagged memories when a non-empty tag is given, and each one then carries the tag |
| Engine.QuantumLoveState.SearchMemories | kh.js:310-316 | exactly the stored memories whose lower-cased content or tags contain the lower-cased query; the log is only read |
| Engine.QuantumLoveState.AddToFavorites | kh.js:319-329 | the favourites and the flag follow the de-duplicating update, the verses stay distinct, and the state is saved only when the poem was added |
| Engine.QuantumLoveState.AiResponse | kh.js:390-424 | the reply is the dispatched response; the user's and the reply's turns are appended; the emotional intelligence becomes `min(100, ei + 0.1)`; `ai_thinking`, `ai_response` and `state_saved` are emitted in order |
| Engine.QuantumLoveState.RecordExchange | kh.js:391-421 | the state changes of one exchange, with the invariant kept |
| Engine.QuantumLoveState.RaiseEmotionalIntelligence | kh.js:415-417 | the emotional intelligence rises by 0.1 up to 100 and stays in [0, 100] |
| Engine.QuantumLoveState.GeneratePredictions | kh.js:489-511 | exactly seven forecasts, the i-th built from the i-th draw (taken as a fresh value) and stamped with day i's date and its emoji; the update time is set; `state_saved` then `predictions_updated` are emitted |

## Left out

- Persistence is not modelled: `localStorage`, the cookie encoding and parsing, JSON, and the load path (kh.js:95-169). This is browser I/O.
- Engine.QuantumLoveState.SaveQuantumState: models only the success path. A failing save that returns false is not modelled, because the failure comes from the browser's storage.
- The `user` record, `generateQuantumId`, and the `system` and `ai` profile fields are not modelled. They are written once and never read by the modelled operations.
- The poetry `history`, `aiGenerated` and `personal` lists are not modelled, for the same reason. So are the predictions' `mediumTerm`, `longTerm` and `accuracy` fields.
- A favourite keeps only the verse, its translation and its tags, not the other poem fields.
- `generateAIPoetry` and the random word helpers (kh.js:331-387) are left out. The helpers only pick random template parts. `generateAIPoetry` also prepends the poem to `poetry.aiGenerated` and saves the state (kh.js:353-354); that write and its `state_saved` event are left out with the poetry lists.
- `QuantumDB` is abstract: the word table, the response banks and the prediction templates are parameters. The random choices of a reply within a bank and of a template are part of those parameters.
- Engine.QuantumLoveState.GeneratePredictions: treats each draw as a fresh value. The source writes `date` and `emoji` into the object `QuantumDB.generatePrediction` returns (kh.js:498-500) and pushes that same object (kh.js:502). The model does not capture that in-place write. If `QuantumDB` hands back one shared template object, two days that draw it hold one object, both show the later date, and the template itself is changed. That sharing is not modelled, so the forecast for each day keeps its own date only when every draw is a distinct object.
- Engine.QuantumLoveState.AiResponse: the one-to-two-second `sleep` and the `aiThinking` flag are not modelled. The model makes the exchange atomic. In the source, the `await` at kh.js:402 comes between the user's turn (kh.js:395-399) and the reply (kh.js:408-412), so other operations can run in between. That interleaving is not modelled.
- The timer-driven metric drift `startQuantumUpdates`/`updateQuantumMetrics` (kh.js:542-565) is not modelled: it uses trigonometry on a timer. Nor is `getMoonPhase`/`getFormattedDate` (kh.js:572-605): they are floating-point date arithmetic.
- Engine.QuantumLoveState.NotifyObservers: the observer callbacks are not invoked. The model records each event with the observers it is sent to.
- Text.Lower: maps only the ASCII letters A-Z. JavaScript's `toLowerCase` also maps other Unicode letters.
- Strings are sequences of code points, so lengths count code points rather than UTF-16 units. Only `determineQuantumState` reads a length.
- Numbers are exact reals, not IEEE doubles. The rounding of `0.5 + 0.1 + …`, `count / total` and `weight ± rate * confidence` is not modelled.
- The seed and the date parts are natural numbers, so a negative seed, which would give a negative remainder in JavaScript, is not modelled.
- `QuantumLoveUI`, `QuantumLoveApp`, the DOM handlers and the bootstrap (kh.js:717-1884) are not modelled. They are display and wiring code.
