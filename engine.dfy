/**
 * `QuantumLoveState`: the state record of the application and the
 * operations that update it in place. Each method applies the rules of
 * module Rules and records the change notifications it emits, in order,
 * together with the observers they were sent to; saving the state is such a
 * notification.
 */
module Engine {
  import opened Options
  import opened Text
  import opened Rules
  import Classifier

  class QuantumLoveState {
    var quantumLock: Lock
    var metrics: Metrics
    var memories: MemoryBank
    var favorites: seq<Favorite>
    var conversationHistory: seq<Turn>
    var emotionalIntelligence: real
    var shortTerm: seq<Forecast>
    var lastUpdated: string
    var observers: seq<Observer>
    var notifications: seq<Notification>
    const neuralNetwork: Classifier.NeuralLoveNetwork

    /** A stored memory carries the amplitude and length class of its own content. */
    static predicate WellFormed(m: Memory) {
      m.emotionalAmplitude == Amplitude(m.content) && m.quantumState == DetermineQuantumState(m.content)
    }

    /**
     * The invariant the operations keep: a positive attempt limit, a memory
     * count that matches the log, a density in [0, 1] that follows the log
     * once it has entries, well-formed memories, the two metrics an unlock
     * raises within [0, 1], distinct favourite verses and an emotional
     * intelligence within [0, 100].
     */
    ghost predicate Valid()
      reads this`quantumLock, this`memories, this`metrics, this`favorites, this`emotionalIntelligence
    {
      && quantumLock.maxAttempts > 0
      && memories.total == |memories.storage|
      && 0.0 <= memories.density <= 1.0
      && (memories.storage != [] ==> memories.density == Density(|memories.storage|))
      && (forall i :: 0 <= i < |memories.storage| ==> WellFormed(memories.storage[i]))
      && 0.0 <= metrics.entanglement <= 1.0 && 0.0 <= metrics.coherence <= 1.0
      && DistinctVerses(favorites)
      && 0.0 <= emotionalIntelligence <= 100.0
    }

    /** `initializeQuantumState`: the first-visit state, with a fresh classifier. */
    constructor (now: string)
      ensures Valid()
      ensures quantumLock == InitialLock && metrics == InitialMetrics && memories == InitialMemories
      ensures favorites == [] && conversationHistory == [] && emotionalIntelligence == 94.0
      ensures shortTerm == [] && lastUpdated == now && observers == [] && notifications == []
      ensures fresh(neuralNetwork) && neuralNetwork.Valid()
      ensures neuralNetwork.weights == Classifier.InitialWeights && neuralNetwork.trainingData == []
    {
      quantumLock := InitialLock;
      metrics := InitialMetrics;
      memories := InitialMemories;
      favorites := [];
      conversationHistory := [];
      emotionalIntelligence := 94.0;
      shortTerm := [];
      lastUpdated := now;
      observers := [];
      notifications := [];
      neuralNetwork := new Classifier.NeuralLoveNetwork();
    }

    /** `notifyObservers`: the event goes to every current observer. */
    method NotifyObservers(event: Event)
      modifies this`notifications
      ensures notifications == old(notifications) + [Notification(event, observers)]
    {
      notifications := notifications + [Notification(event, observers)];
    }

    /** `saveQuantumState` on its success path: persisting is announced as `state_saved`. */
    method SaveQuantumState() returns (ok: bool)
      modifies this`notifications
      ensures ok
      ensures notifications == old(notifications) + [Notification(StateSaved, observers)]
    {
      NotifyObservers(StateSaved);
      ok := true;
    }

    method AddObserver(o: Observer)
      modifies this`observers
      ensures observers == old(observers) + [o]
    {
      observers := observers + [o];
    }

    method RemoveObserver(o: Observer)
      modifies this`observers
      ensures observers == Without(old(observers), o)
    {
      observers := Without(observers, o);
    }

    /** `generateTodaysQuantumWord`: picks today's entry of the table, sets the word and hint, clears the attempts. */
    method GenerateTodaysQuantumWord(table: seq<QuantumWord>, seed: nat, day: nat, month: nat, hour: nat)
      returns (w: QuantumWord)
      requires |table| > 0
      requires Valid()
      modifies this`quantumLock
      ensures Valid()
      ensures w == table[WordIndex(day, month, hour, seed, |table|)]
      ensures quantumLock == old(quantumLock).(todaysWord := w.word, todaysHint := Hint(w), attempts := 0)
    {
      var wordIndex := (day * seed + month * hour) % |table|;
      w := table[wordIndex];
      quantumLock := quantumLock.(todaysWord := w.word);
      quantumLock := quantumLock.(todaysHint := "Relates to \"" + w.meaning + "\" | Quantum state: " + w.quantumState);
      quantumLock := quantumLock.(attempts := 0);
    }

    /** `analyzeEmotionalAmplitude`: a running score from 0.5, clamped to [0, 1] at the end. */
    method AnalyzeEmotionalAmplitude(content: string) returns (a: real)
      ensures a == Amplitude(content)
      ensures 0.0 <= a <= 1.0
    {
      var words := Split(Lower(content));
      var score := 0.5;
      var i := 0;
      while i < |words|
        invariant 0 <= i <= |words|
        invariant score == 0.5 + 0.1 * (Balance(words[..i]) as real)
      {
        var word := words[i];
        if AnyIn(word, PositiveWords) {
          score := score + 0.1;
        }
        if AnyIn(word, NegativeWords) {
          score := score - 0.1;
        }
        assert words[..i + 1][..i] == words[..i];
        i := i + 1;
      }
      assert words[..|words|] == words;
      a := UnitClamp(score);
    }

    /**
     * `addMemory`: the new entry goes to the front of the log, the count
     * goes up by one and the density follows the new length.
     */
    method AddMemory(id: string, content: string, tags: seq<string> := [], timestamp: string) returns (m: Memory)
      requires Valid()
      modifies this`memories, this`notifications
      ensures Valid()
      ensures m == NewMemory(id, content, tags, timestamp)
      ensures memories == old(memories).(storage := [m] + old(memories.storage),
                                         total := old(memories.total) + 1,
                                         density := Density(|old(memories.storage)| + 1))
      ensures notifications == old(notifications) + [Notification(MemoryAdded(m), observers), Notification(StateSaved, observers)]
    {
      var amplitude := AnalyzeEmotionalAmplitude(content);
      m := Memory(id, content, tags, timestamp, amplitude, DetermineQuantumState(content));
      memories := memories.(storage := [m] + memories.storage);
      memories := memories.(total := memories.total + 1);
      memories := memories.(density := Density(|memories.storage|));
      NotifyObservers(MemoryAdded(m));
      var saved := SaveQuantumState();
    }

    /**
     * `quantumUnlockAttempt`: a correct guess updates the lock and the
     * metrics and records a memory; a wrong one counts an attempt and may
     * secure the lock. The lock is not consulted before the guess is judged.
     * The source reads the clock twice on success: `now` for the lock's
     * `lastUnlock`, and `memoryAt` for the unlock memory's timestamp.
     */
    method QuantumUnlockAttempt(input: string, now: string, memoryAt: string, memoryId: string) returns (v: Verdict)
      requires Valid()
      modifies this`quantumLock, this`metrics, this`memories, this`notifications
      ensures Valid()
      ensures quantumLock == LockAfter(old(quantumLock), input, now)
      ensures v == VerdictOf(old(quantumLock), input)
      ensures IsCorrect(old(quantumLock), input) ==>
                && metrics == AfterUnlock(old(metrics))
                && memories == old(memories).(storage := [UnlockMemory(memoryId, input, memoryAt)] + old(memories.storage),
                                              total := old(memories.total) + 1,
                                              density := Density(|old(memories.storage)| + 1))
                && notifications == old(notifications) + [
                     Notification(MemoryAdded(UnlockMemory(memoryId, input, memoryAt)), observers),
                     Notification(StateSaved, observers),
                     Notification(UnlockSuccess, observers),
                     Notification(StateSaved, observers)]
      ensures !IsCorrect(old(quantumLock), input) ==>
                && metrics == old(metrics)
                && memories == old(memories)
                && notifications == old(notifications) +
                     (if old(quantumLock).attempts + 1 >= old(quantumLock).maxAttempts
                      then [Notification(Lockout, observers), Notification(StateSaved, observers)]
                      else [Notification(StateSaved, observers)])
    {
      var normalizedInput := Trim(Lower(input));
      var isCorrect := normalizedInput == quantumLock.todaysWord;
      if isCorrect {
        v := RecordUnlock(normalizedInput, now, memoryAt, memoryId);
      } else {
        v := RecordMiss();
      }
    }

    /** The success branch of `quantumUnlockAttempt`, for the normalised guess `word`, unlocked at `now`; the memory is stamped `memoryAt`. */
    method RecordUnlock(word: string, now: string, memoryAt: string, memoryId: string) returns (v: Verdict)
      requires Valid()
      modifies this`quantumLock, this`metrics, this`memories, this`notifications
      ensures Valid()
      ensures quantumLock == old(quantumLock).(lastUnlock := Some(now), unlockStreak := old(quantumLock).unlockStreak + 1,
                                               attempts := 0)
      ensures metrics == AfterUnlock(old(metrics))
      ensures memories == old(memories).(storage := [NewMemory(memoryId, UnlockContent(word), UnlockTags, memoryAt)] + old(memories.storage),
                                         total := old(memories.total) + 1,
                                         density := Density(|old(memories.storage)| + 1))
      ensures notifications == old(notifications) + [
                Notification(MemoryAdded(NewMemory(memoryId, UnlockContent(word), UnlockTags, memoryAt)), observers),
                Notification(StateSaved, observers),
                Notification(UnlockSuccess, observers),
                Notification(StateSaved, observers)]
      ensures v == Unlocked(UnlockMessage, quantumLock.unlockStreak)
    {
      quantumLock := quantumLock.(lastUnlock := Some(now));
      quantumLock := quantumLock.(unlockStreak := quantumLock.unlockStreak + 1);
      quantumLock := quantumLock.(attempts := 0);
      metrics := metrics.(entanglement := Min(1.0, metrics.entanglement + 0.1));
      metrics := metrics.(coherence := Min(1.0, metrics.coherence + 0.05));
      ghost var before := notifications;
      var m := AddMemory(memoryId, "Quantum lock unlocked with \"" + word + "\"", ["quantum", "achievement", "love"], memoryAt);
      NotifyObservers(UnlockSuccess);
      var saved := SaveQuantumState();
      assert notifications == before + [Notification(MemoryAdded(m), observers), Notification(StateSaved, observers),
                                        Notification(UnlockSuccess, observers), Notification(StateSaved, observers)];
      v := Unlocked("Quantum entanglement achieved! Chamber opening...", quantumLock.unlockStreak);
    }

    /** The failure branch of `quantumUnlockAttempt`: one more attempt, and the lockout when it reaches the maximum. */
    method RecordMiss() returns (v: Verdict)
      requires Valid()
      modifies this`quantumLock, this`notifications
      ensures Valid()
      ensures old(quantumLock).attempts + 1 >= old(quantumLock).maxAttempts ==>
                && quantumLock == old(quantumLock).(attempts := old(quantumLock).attempts + 1, unlockStreak := 0)
                && v == LockedOut(LockoutMessage, quantumLock.attempts)
                && notifications == old(notifications) + [Notification(Lockout, observers), Notification(StateSaved, observers)]
      ensures old(quantumLock).attempts + 1 < old(quantumLock).maxAttempts ==>
                && quantumLock == old(quantumLock).(attempts := old(quantumLock).attempts + 1)
                && v == Incorrect(RemainingMessage(quantumLock.maxAttempts - quantumLock.attempts), quantumLock.attempts,
                                  quantumLock.todaysHint)
                && notifications == old(notifications) + [Notification(StateSaved, observers)]
    {
      quantumLock := quantumLock.(attempts := quantumLock.attempts + 1);
      if quantumLock.attempts >= quantumLock.maxAttempts {
        quantumLock := quantumLock.(unlockStreak := 0);
        ghost var before := notifications;
        NotifyObservers(Lockout);
        var saved := SaveQuantumState();
        assert notifications == before + [Notification(Lockout, observers), Notification(StateSaved, observers)];
        v := LockedOut("Quantum lock secured. Try again tomorrow.", quantumLock.attempts);
      } else {
        var saved := SaveQuantumState();
        v := Incorrect("Incorrect. Attempts remaining: " + NatToString(quantumLock.maxAttempts - quantumLock.attempts),
                       quantumLock.attempts, quantumLock.todaysHint);
      }
    }

    /**
     * `getMemories`: at most `limit` memories (a negative limit drops that
     * many from the end), the first of the log, or of those carrying `tag`
     * when a non-empty tag is given.
     */
    function GetMemories(limit: int := 10, tag: Option<string> := None): (r: seq<Memory>)
      reads this`memories
      ensures limit >= 0 ==> |r| <= limit
      ensures |r| == SliceEnd(|Selected(memories.storage, tag)|, limit)
      ensures r <= Selected(memories.storage, tag)
      ensures forall m :: m in r ==> m in memories.storage
      ensures tag.Some? && tag.value != "" ==> forall m :: m in r ==> tag.value in m.tags
    {
      var selected := Selected(memories.storage, tag);
      selected[..SliceEnd(|selected|, limit)]
    }

    /** `searchMemories`: the memories whose lower-cased content or tags contain the lower-cased query, in log order. */
    function SearchMemories(query: string): (r: seq<Memory>)
      reads this`memories
      ensures |r| <= |memories.storage|
      ensures forall m :: m in r <==> m in memories.storage && Mentions(m, Lower(query))
    {
      Search(memories.storage, Lower(query))
    }

    /** `addToFavorites`: appends the poem, stamped, when no favourite has its verse, and saves. */
    method AddToFavorites(poem: Poem, now: string) returns (added: bool)
      requires Valid()
      modifies this`favorites, this`notifications
      ensures Valid()
      ensures (favorites, added) == WithFavorite(old(favorites), poem, now)
      ensures notifications == old(notifications) + (if added then [Notification(StateSaved, observers)] else [])
    {
      FavoritesStayDistinct(favorites, poem, now);
      if !HasVerse(favorites, poem.urdu) {
        favorites := favorites + [Favorite(poem, now)];
        var saved := SaveQuantumState();
        added := true;
      } else {
        added := false;
      }
    }

    /**
     * `aiResponse` without its delay: records the user's turn, answers by
     * keyword dispatch, records the answer, raises the emotional
     * intelligence by 0.1 up to 100, and announces both steps.
     */
    method AiResponse(userInput: string, sentAt: string, repliedAt: string, bank: Topic -> string, pick: nat)
      returns (response: string)
      requires pick < |DefaultResponses|
      requires Valid()
      modifies this`conversationHistory, this`emotionalIntelligence, this`notifications
      ensures Valid()
      ensures response == GenerateAIResponse(userInput, bank, pick)
      ensures conversationHistory == old(conversationHistory) + [Turn(User, userInput, sentAt), Turn(Ai, response, repliedAt)]
      ensures emotionalIntelligence == Min(100.0, old(emotionalIntelligence) + 0.1)
      ensures notifications == old(notifications) + [Notification(AiThinking, observers),
                                                     Notification(AiResponded(response), observers),
                                                     Notification(StateSaved, observers)]
    {
      response := GenerateAIResponse(userInput, bank, pick);
      RecordExchange(userInput, sentAt, response, repliedAt);
    }

    /**
     * The state changes of one exchange: `ai_thinking`, both turns appended to
     * the history, the intelligence raised, `ai_response` and the save.
     */
    method RecordExchange(userInput: string, sentAt: string, response: string, repliedAt: string)
      requires Valid()
      modifies this`conversationHistory, this`emotionalIntelligence, this`notifications
      ensures Valid()
      ensures conversationHistory == old(conversationHistory) + [Turn(User, userInput, sentAt), Turn(Ai, response, repliedAt)]
      ensures emotionalIntelligence == Min(100.0, old(emotionalIntelligence) + 0.1)
      ensures notifications == old(notifications) + [Notification(AiThinking, observers),
                                                     Notification(AiResponded(response), observers),
                                                     Notification(StateSaved, observers)]
    {
      ghost var before := notifications;
      NotifyObservers(AiThinking);
      conversationHistory := conversationHistory + [Turn(User, userInput, sentAt)];
      conversationHistory := conversationHistory + [Turn(Ai, response, repliedAt)];
      RaiseEmotionalIntelligence();
      NotifyObservers(AiResponded(response));
      var saved := SaveQuantumState();
      assert notifications == before + [Notification(AiThinking, observers), Notification(AiResponded(response), observers),
                                        Notification(StateSaved, observers)];
    }

    /** `emotionalIntelligence = Math.min(100, emotionalIntelligence + 0.1)`. */
    method RaiseEmotionalIntelligence()
      requires Valid()
      modifies this`emotionalIntelligence
      ensures Valid()
      ensures emotionalIntelligence == Min(100.0, old(emotionalIntelligence) + 0.1)
    {
      emotionalIntelligence := Min(100.0, emotionalIntelligence + 0.1);
    }

    /**
     * `generatePredictions`: exactly seven forecasts, the i-th drawn from
     * the table and stamped with the date i days ahead and its emoji.
     */
    method GeneratePredictions(draw: nat -> Draw, dayAfter: nat -> string, now: string) returns (r: seq<Forecast>)
      modifies this`shortTerm, this`lastUpdated, this`notifications
      ensures |shortTerm| == 7
      ensures forall k :: 0 <= k < 7 ==> shortTerm[k] == Stamped(draw(k + 1), dayAfter(k + 1))
      ensures r == shortTerm && lastUpdated == now
      ensures notifications == old(notifications) + [Notification(StateSaved, observers), Notification(PredictionsUpdated, observers)]
    {
      shortTerm := [];
      var i := 1;
      while i <= 7
        invariant 1 <= i <= 8
        invariant |shortTerm| == i - 1
        invariant forall k :: 0 <= k < i - 1 ==> shortTerm[k] == Stamped(draw(k + 1), dayAfter(k + 1))
        invariant notifications == old(notifications)
      {
        var prediction := draw(i);
        var stamped := Forecast(prediction.text, prediction.confidence, dayAfter(i), PredictionEmoji(prediction.text));
        shortTerm := shortTerm + [stamped];
        i := i + 1;
      }
      lastUpdated := now;
      ghost var before := notifications;
      var saved := SaveQuantumState();
      NotifyObservers(PredictionsUpdated);
      assert notifications == before + [Notification(StateSaved, observers), Notification(PredictionsUpdated, observers)];
      r := shortTerm;
    }
  }
}
