/**
 * The rules of the quantum love state engine, as values: the daily word
 * puzzle, the memory log and its queries, the favourite verses, the chat
 * reply dispatch, the prediction emojis and the observer list. The class
 * that holds the state and applies these rules step by step is in module
 * Engine.
 */
module Rules {
  import opened Options
  import opened Text

  // ===== Daily puzzle =====

  /** An entry of the word-of-the-day table. */
  datatype QuantumWord = QuantumWord(word: string, meaning: string, quantumState: string)

  /** The `quantumLock` part of the state. */
  datatype Lock = Lock(todaysWord: string, todaysHint: string, attempts: nat, maxAttempts: nat,
                       lastUnlock: Option<string>, unlockStreak: nat)

  const InitialLock: Lock := Lock("", "", 0, 5, None, 0)

  /** `(day * seed + month * hour) % N`: the table index of today's word. */
  function WordIndex(day: nat, month: nat, hour: nat, seed: nat, n: nat): (k: nat)
    requires n > 0
    ensures k < n
  {
    (day * seed + month * hour) % n
  }

  /** The hint shown beside the puzzle. */
  function Hint(w: QuantumWord): string {
    "Relates to \"" + w.meaning + "\" | Quantum state: " + w.quantumState
  }

  /** The hint quotes the word's meaning right after its opening quote and ends with its quantum state. */
  lemma HintNamesWord(w: QuantumWord)
    ensures OccursAt(Hint(w), w.meaning, 12)
    ensures OccursAt(Hint(w), w.quantumState, |Hint(w)| - |w.quantumState|)
  {
    var h := Hint(w);
    var pre := "Relates to \"";
    var mid := "\" | Quantum state: ";
    assert h == pre + w.meaning + mid + w.quantumState;
    assert |pre| == 12;
    assert h[12..12 + |w.meaning|] == w.meaning;
    assert h[|h| - |w.quantumState|..] == w.quantumState;
  }

  /** A guess as it is compared: lower-cased, then trimmed. */
  function Normalized(input: string): string {
    Trim(Lower(input))
  }

  predicate IsCorrect(l: Lock, input: string) {
    Normalized(input) == l.todaysWord
  }

  /**
   * The lock after one guess: a correct guess records the unlock, extends
   * the streak and clears the attempts; a wrong guess counts an attempt and
   * breaks the streak once the attempts reach the maximum.
   */
  function LockAfter(l: Lock, input: string, now: string): (r: Lock)
    ensures r.todaysWord == l.todaysWord && r.todaysHint == l.todaysHint && r.maxAttempts == l.maxAttempts
    ensures r.attempts == 0 <==> IsCorrect(l, input)
    ensures !IsCorrect(l, input) ==> r.lastUnlock == l.lastUnlock
  {
    if IsCorrect(l, input) then l.(lastUnlock := Some(now), unlockStreak := l.unlockStreak + 1, attempts := 0)
    else if l.attempts + 1 >= l.maxAttempts then l.(attempts := l.attempts + 1, unlockStreak := 0)
    else l.(attempts := l.attempts + 1)
  }

  /** The result object of `quantumUnlockAttempt`. */
  datatype Verdict =
    | Unlocked(message: string, streak: nat)
    | LockedOut(message: string, attempts: nat)
    | Incorrect(message: string, attempts: nat, hint: string)

  const UnlockMessage: string := "Quantum entanglement achieved! Chamber opening..."
  const LockoutMessage: string := "Quantum lock secured. Try again tomorrow."

  function RemainingMessage(n: nat): string {
    "Incorrect. Attempts remaining: " + NatToString(n)
  }

  /** The verdict on one guess, given the lock before it. */
  function VerdictOf(l: Lock, input: string): (r: Verdict)
    ensures r.Unlocked? <==> IsCorrect(l, input)
    ensures r.LockedOut? <==> !IsCorrect(l, input) && l.attempts + 1 >= l.maxAttempts
    ensures !r.Unlocked? ==> r.attempts == l.attempts + 1
  {
    if IsCorrect(l, input) then Unlocked(UnlockMessage, l.unlockStreak + 1)
    else if l.attempts + 1 >= l.maxAttempts then LockedOut(LockoutMessage, l.attempts + 1)
    else Incorrect(RemainingMessage(l.maxAttempts - (l.attempts + 1)), l.attempts + 1, l.todaysHint)
  }

  /** A correct guess extends the streak by one, clears the attempts and records the time. */
  lemma CorrectGuess(l: Lock, input: string, now: string)
    requires IsCorrect(l, input)
    ensures LockAfter(l, input, now).unlockStreak == l.unlockStreak + 1
    ensures LockAfter(l, input, now).attempts == 0
    ensures LockAfter(l, input, now).lastUnlock == Some(now)
    ensures VerdictOf(l, input) == Unlocked(UnlockMessage, LockAfter(l, input, now).unlockStreak)
  {
  }

  /**
   * A wrong guess counts one attempt; when the attempts reach the maximum the
   * streak is broken and the lock is reported secured, otherwise the streak
   * stays and the verdict reports the attempts remaining with the hint.
   */
  lemma WrongGuess(l: Lock, input: string, now: string)
    requires !IsCorrect(l, input)
    ensures LockAfter(l, input, now).attempts == l.attempts + 1
    ensures LockAfter(l, input, now).lastUnlock == l.lastUnlock
    ensures l.attempts + 1 >= l.maxAttempts ==>
              && LockAfter(l, input, now).unlockStreak == 0
              && VerdictOf(l, input) == LockedOut(LockoutMessage, LockAfter(l, input, now).attempts)
    ensures l.attempts + 1 < l.maxAttempts ==>
              && LockAfter(l, input, now).unlockStreak == l.unlockStreak
              && VerdictOf(l, input) == Incorrect(RemainingMessage(l.maxAttempts - LockAfter(l, input, now).attempts),
                                                  LockAfter(l, input, now).attempts, l.todaysHint)
  {
  }

  /** The lock after a run of guesses made one after the other. */
  function AfterAll(l: Lock, inputs: seq<string>, now: string): Lock
    decreases |inputs|
  {
    if inputs == [] then l else AfterAll(LockAfter(l, inputs[0], now), inputs[1..], now)
  }

  /** Every guess of the run is made while the lock is still open for guesses. */
  predicate Gated(l: Lock, inputs: seq<string>, now: string)
    decreases |inputs|
  {
    inputs == [] || (l.attempts < l.maxAttempts && Gated(LockAfter(l, inputs[0], now), inputs[1..], now))
  }

  /**
   * A caller that makes no guess once the lock is secured keeps the attempts
   * within the maximum; today's word and the maximum never change.
   */
  lemma {:induction false} GatedRunStaysInBounds(l: Lock, inputs: seq<string>, now: string)
    requires l.attempts <= l.maxAttempts
    requires Gated(l, inputs, now)
    ensures AfterAll(l, inputs, now).attempts <= l.maxAttempts
    ensures AfterAll(l, inputs, now).maxAttempts == l.maxAttempts
    ensures AfterAll(l, inputs, now).todaysWord == l.todaysWord
    decreases |inputs|
  {
    if inputs != [] {
      GatedRunStaysInBounds(LockAfter(l, inputs[0], now), inputs[1..], now);
    }
  }

  /** Without that gate the count goes past the maximum: a wrong guess on a secured lock still counts. */
  lemma GuessAfterLockout(l: Lock, input: string, now: string)
    requires l.attempts >= l.maxAttempts && !IsCorrect(l, input)
    ensures LockAfter(l, input, now).attempts > l.maxAttempts
    ensures VerdictOf(l, input).LockedOut?
  {
  }

  /**
   * A run of wrong guesses adds one attempt per guess; the streak survives
   * while the attempts stay under the maximum and is 0 once they reach it.
   */
  lemma {:induction false} WrongRun(l: Lock, inputs: seq<string>, now: string)
    requires forall i :: 0 <= i < |inputs| ==> !IsCorrect(l, inputs[i])
    ensures AfterAll(l, inputs, now).attempts == l.attempts + |inputs|
    ensures AfterAll(l, inputs, now).todaysWord == l.todaysWord
    ensures AfterAll(l, inputs, now).maxAttempts == l.maxAttempts
    ensures l.attempts + |inputs| < l.maxAttempts ==> AfterAll(l, inputs, now).unlockStreak == l.unlockStreak
    ensures inputs != [] && l.attempts + |inputs| >= l.maxAttempts ==> AfterAll(l, inputs, now).unlockStreak == 0
    decreases |inputs|
  {
    if inputs != [] {
      var next := LockAfter(l, inputs[0], now);
      var rest := inputs[1..];
      assert forall i :: 0 <= i < |rest| ==> rest[i] == inputs[i + 1];
      WrongRun(next, rest, now);
    }
  }

  /**
   * With the default limit of five, the fifth wrong guess in a row is
   * answered with the lockout and leaves the streak at 0, whatever it was.
   */
  lemma FifthWrongGuessLocks(l: Lock, inputs: seq<string>, now: string)
    requires l.attempts == 0 && l.maxAttempts == 5 && |inputs| == 5
    requires forall i :: 0 <= i < |inputs| ==> !IsCorrect(l, inputs[i])
    ensures VerdictOf(AfterAll(l, inputs[..4], now), inputs[4]) == LockedOut(LockoutMessage, 5)
    ensures AfterAll(l, inputs, now).attempts == 5
    ensures AfterAll(l, inputs, now).unlockStreak == 0
  {
    var first := inputs[..4];
    assert forall i :: 0 <= i < |first| ==> first[i] == inputs[i];
    WrongRun(l, first, now);
    WrongRun(l, inputs, now);
    var before := AfterAll(l, first, now);
    assert IsCorrect(before, inputs[4]) == IsCorrect(l, inputs[4]);
  }

  /** The `metrics` part of the state. */
  datatype Metrics = Metrics(loveAmplitude: real, entanglement: real, coherence: real,
                             superposition: int, temporalAlignment: string)

  const InitialMetrics: Metrics := Metrics(0.94, 0.72, 0.89, 7, "optimal")

  /** `Math.min(a, b)`. */
  function Min(a: real, b: real): (r: real)
    ensures r <= a && r <= b
    ensures r == a || r == b
  {
    if a <= b then a else b
  }

  /** An unlock raises entanglement by 0.1 and coherence by 0.05, neither past 1. */
  function AfterUnlock(m: Metrics): (r: Metrics)
    ensures r.entanglement == Min(1.0, m.entanglement + 0.1)
    ensures r.coherence == Min(1.0, m.coherence + 0.05)
    ensures r.loveAmplitude == m.loveAmplitude && r.superposition == m.superposition
    ensures r.temporalAlignment == m.temporalAlignment
  {
    m.(entanglement := Min(1.0, m.entanglement + 0.1), coherence := Min(1.0, m.coherence + 0.05))
  }

  /** Unlocks never lower the two metrics and keep them in [0, 1]; an unlock from an entanglement of 0.9 or more saturates it. */
  lemma UnlockMetricsBounded(m: Metrics)
    requires 0.0 <= m.entanglement <= 1.0 && 0.0 <= m.coherence <= 1.0
    ensures m.entanglement <= AfterUnlock(m).entanglement <= 1.0
    ensures m.coherence <= AfterUnlock(m).coherence <= 1.0
    ensures m.entanglement >= 0.9 ==> AfterUnlock(m).entanglement == 1.0
  {
  }

  // ===== Memories =====

  /** The length classes of `determineQuantumState`, in increasing order. */
  datatype QuantumState = Coherent | Entangled | Superposition | Multiversal

  function Rank(q: QuantumState): nat {
    match q
    case Coherent => 0
    case Entangled => 1
    case Superposition => 2
    case Multiversal => 3
  }

  /** The length class of a memory's content: under 50, under 100, under 200, or longer. */
  function DetermineQuantumState(content: string): (q: QuantumState)
    ensures q == Coherent <==> |content| < 50
    ensures q == Entangled <==> 50 <= |content| < 100
    ensures q == Superposition <==> 100 <= |content| < 200
    ensures q == Multiversal <==> 200 <= |content|
  {
    var length := |content|;
    if length < 50 then Coherent
    else if length < 100 then Entangled
    else if length < 200 then Superposition
    else Multiversal
  }

  /** A longer text never falls in a lower class. */
  lemma QuantumStateMonotonic(a: string, b: string)
    requires |a| <= |b|
    ensures Rank(DetermineQuantumState(a)) <= Rank(DetermineQuantumState(b))
  {
  }

  const PositiveWords: seq<string> := ["love", "happy", "joy", "beautiful", "perfect", "amazing"]
  const NegativeWords: seq<string> := ["miss", "sad", "pain", "hurt", "alone"]

  /** One word's contribution: +1 if it holds a positive word, -1 if it holds a negative one (both can apply). */
  function WordTone(word: string): int {
    (if AnyIn(word, PositiveWords) then 1 else 0) - (if AnyIn(word, NegativeWords) then 1 else 0)
  }

  /** The sum of the word tones, in tenths of the amplitude. */
  function Balance(words: seq<string>): int
    decreases |words|
  {
    if words == [] then 0 else Balance(words[..|words| - 1]) + WordTone(words[|words| - 1])
  }

  /** The balance moves by at most one per word. */
  lemma {:induction false} BalanceBounds(words: seq<string>)
    ensures -|words| <= Balance(words) <= |words|
    decreases |words|
  {
    if words != [] {
      BalanceBounds(words[..|words| - 1]);
    }
  }

  /** `Math.max(0, Math.min(1, x))`. */
  function UnitClamp(x: real): (r: real)
    ensures 0.0 <= r <= 1.0
    ensures 0.0 <= x <= 1.0 ==> r == x
    ensures x < 0.0 ==> r == 0.0
    ensures x > 1.0 ==> r == 1.0
  {
    if x > 1.0 then 1.0 else if x < 0.0 then 0.0 else x
  }

  /** `analyzeEmotionalAmplitude`: 0.5 plus 0.1 per word tone, clamped to [0, 1] only at the end. */
  function Amplitude(content: string): (a: real)
    ensures 0.0 <= a <= 1.0
  {
    UnitClamp(0.5 + 0.1 * (Balance(Words(content)) as real))
  }

  /** The amplitude is above, at or below the neutral 0.5 as the positive words outnumber, match or trail the negative ones. */
  lemma AmplitudeSign(content: string)
    ensures Amplitude(content) > 0.5 <==> Balance(Words(content)) > 0
    ensures Amplitude(content) == 0.5 <==> Balance(Words(content)) == 0
    ensures Amplitude(content) < 0.5 <==> Balance(Words(content)) < 0
  {
    var b := Balance(Words(content));
    var x := 0.5 + 0.1 * (b as real);
    if b > 0 {
      assert x >= 0.6;
    } else if b < 0 {
      assert x <= 0.4;
    } else {
      assert x == 0.5;
    }
  }

  /** A memory entry. */
  datatype Memory = Memory(id: string, content: string, tags: seq<string>, timestamp: string,
                           emotionalAmplitude: real, quantumState: QuantumState)

  /** The entry `addMemory` builds: the given fields plus the two derived ones. */
  function NewMemory(id: string, content: string, tags: seq<string>, timestamp: string): (m: Memory)
    ensures m.content == content && m.tags == tags && m.id == id && m.timestamp == timestamp
    ensures 0.0 <= m.emotionalAmplitude <= 1.0
    ensures m.quantumState == DetermineQuantumState(content)
  {
    Memory(id, content, tags, timestamp, Amplitude(content), DetermineQuantumState(content))
  }

  /** `Math.min(1, n / 1000)`: how full the memory bank is. */
  function Density(n: nat): (d: real)
    ensures 0.0 <= d <= 1.0
    ensures n >= 1000 <==> d == 1.0
    ensures n < 1000 ==> d * 1000.0 == n as real
  {
    Min(1.0, n as real / 1000.0)
  }

  /** The density grows with the number of memories. */
  lemma DensityMonotonic(m: nat, n: nat)
    requires m <= n
    ensures Density(m) <= Density(n)
  {
  }

  /** The `memories` part of the state. */
  datatype MemoryBank = MemoryBank(storage: seq<Memory>, total: nat, density: real, recallSpeed: int, compression: string)

  const InitialMemories: MemoryBank := MemoryBank([], 0, 0.87, 24, "lossless")

  const UnlockTags: seq<string> := ["quantum", "achievement", "love"]

  function UnlockContent(word: string): string {
    "Quantum lock unlocked with \"" + word + "\""
  }

  /** The memory a correct guess records. */
  function UnlockMemory(id: string, input: string, now: string): (m: Memory)
    ensures m.tags == UnlockTags && m.timestamp == now
  {
    NewMemory(id, UnlockContent(Normalized(input)), UnlockTags, now)
  }

  /** `memories.filter(m => m.tags.includes(tag))`. */
  function Tagged(ms: seq<Memory>, tag: string): (r: seq<Memory>)
    ensures |r| <= |ms|
    ensures forall m :: m in r <==> m in ms && tag in m.tags
    decreases |ms|
  {
    if ms == [] then [] else (if tag in ms[0].tags then [ms[0]] else []) + Tagged(ms[1..], tag)
  }

  /** The tag filter keeps storage order: filtering a concatenation concatenates the filtered parts. */
  lemma {:induction false} TaggedAppend(a: seq<Memory>, b: seq<Memory>, tag: string)
    ensures Tagged(a + b, tag) == Tagged(a, tag) + Tagged(b, tag)
    decreases |a|
  {
    if a != [] {
      var head := if tag in a[0].tags then [a[0]] else [];
      calc {
        Tagged(a + b, tag);
        { assert a + b == [a[0]] + (a[1..] + b); }
        Tagged([a[0]] + (a[1..] + b), tag);
        { TaggedCons(a[0], a[1..] + b, tag); }
        head + Tagged(a[1..] + b, tag);
        { TaggedAppend(a[1..], b, tag); }
        head + (Tagged(a[1..], tag) + Tagged(b, tag));
        (head + Tagged(a[1..], tag)) + Tagged(b, tag);
        { TaggedCons(a[0], a[1..], tag); assert a == [a[0]] + a[1..]; }
        Tagged(a, tag) + Tagged(b, tag);
      }
    } else {
      assert a + b == b;
    }
  }

  /** The tag filter looks at the first memory, then at the rest. */
  lemma TaggedCons(m: Memory, ms: seq<Memory>, tag: string)
    ensures Tagged([m] + ms, tag) == (if tag in m.tags then [m] else []) + Tagged(ms, tag)
  {
    assert ([m] + ms)[1..] == ms;
  }

  /** The list `getMemories` slices: the tag filter applies only when a non-empty tag is given. */
  function Selected(ms: seq<Memory>, tag: Option<string>): (r: seq<Memory>)
    ensures |r| <= |ms|
    ensures tag.None? || tag.value == "" ==> r == ms
    ensures forall m :: m in r <==> m in ms && (tag.Some? && tag.value != "" ==> tag.value in m.tags)
  {
    if tag.Some? && tag.value != "" then Tagged(ms, tag.value) else ms
  }

  /** The end index of `slice(0, limit)` on a list of length `n`; a negative limit counts from the end. */
  function SliceEnd(n: nat, limit: int): (e: nat)
    ensures e <= n
    ensures limit >= 0 ==> e == if limit < n then limit else n
    ensures limit < 0 ==> e == if n + limit > 0 then n + limit else 0
  {
    if limit >= 0 then (if limit < n then limit else n)
    else if n + limit > 0 then n + limit else 0
  }

  /** A memory mentions a (lower-case) query in its lower-cased content or in one of its lower-cased tags. */
  predicate Mentions(m: Memory, q: string) {
    Contains(Lower(m.content), q) || AnyTagContains(m.tags, q)
  }

  /** `tags.some(tag => tag.toLowerCase().includes(q))`. */
  function AnyTagContains(tags: seq<string>, q: string): bool {
    tags != [] && (Contains(Lower(tags[0]), q) || AnyTagContains(tags[1..], q))
  }

  /** `storage.filter(m => ...)` for a lower-cased query. */
  function Search(ms: seq<Memory>, q: string): (r: seq<Memory>)
    ensures |r| <= |ms|
    ensures forall m :: m in r <==> m in ms && Mentions(m, q)
    decreases |ms|
  {
    if ms == [] then [] else (if Mentions(ms[0], q) then [ms[0]] else []) + Search(ms[1..], q)
  }

  /** The search keeps storage order. */
  lemma {:induction false} SearchAppend(a: seq<Memory>, b: seq<Memory>, q: string)
    ensures Search(a + b, q) == Search(a, q) + Search(b, q)
    decreases |a|
  {
    if a != [] {
      var head := if Mentions(a[0], q) then [a[0]] else [];
      calc {
        Search(a + b, q);
        { assert a + b == [a[0]] + (a[1..] + b); }
        Search([a[0]] + (a[1..] + b), q);
        { SearchCons(a[0], a[1..] + b, q); }
        head + Search(a[1..] + b, q);
        { SearchAppend(a[1..], b, q); }
        head + (Search(a[1..], q) + Search(b, q));
        (head + Search(a[1..], q)) + Search(b, q);
        { SearchCons(a[0], a[1..], q); assert a == [a[0]] + a[1..]; }
        Search(a, q) + Search(b, q);
      }
    } else {
      assert a + b == b;
    }
  }

  /** The search looks at the first memory, then at the rest. */
  lemma SearchCons(m: Memory, ms: seq<Memory>, q: string)
    ensures Search([m] + ms, q) == (if Mentions(m, q) then [m] else []) + Search(ms, q)
  {
    assert ([m] + ms)[1..] == ms;
  }

  /** Every memory contains the empty query, so searching for it returns the whole storage. */
  lemma {:induction false} SearchEmptyQuery(ms: seq<Memory>)
    ensures Search(ms, "") == ms
    decreases |ms|
  {
    if ms != [] {
      assert Mentions(ms[0], "");
      SearchEmptyQuery(ms[1..]);
    }
  }

  // ===== Favourite verses =====

  /** A verse of the poetry table, reduced to the fields favouriting uses. */
  datatype Poem = Poem(urdu: string, translation: string, tags: seq<string>)

  /** A favourite: the poem plus the moment it was favourited. */
  datatype Favorite = Favorite(poem: Poem, favoritedAt: string)

  predicate HasVerse(favs: seq<Favorite>, urdu: string) {
    exists i :: 0 <= i < |favs| && favs[i].poem.urdu == urdu
  }

  /** No verse appears twice among the favourites. */
  predicate DistinctVerses(favs: seq<Favorite>) {
    forall i, j :: 0 <= i < j < |favs| ==> favs[i].poem.urdu != favs[j].poem.urdu
  }

  /**
   * `addToFavorites`: the poem is appended, stamped with the time, exactly
   * when no favourite has the same verse; the flag says whether it was.
   */
  function WithFavorite(favs: seq<Favorite>, poem: Poem, now: string): (r: (seq<Favorite>, bool))
    ensures r.1 <==> !HasVerse(favs, poem.urdu)
    ensures r.1 ==> r.0 == favs + [Favorite(poem, now)]
    ensures !r.1 ==> r.0 == favs
  {
    if HasVerse(favs, poem.urdu) then (favs, false) else (favs + [Favorite(poem, now)], true)
  }

  /** Adding a favourite keeps the verses distinct, and afterwards the verse is present. */
  lemma FavoritesStayDistinct(favs: seq<Favorite>, poem: Poem, now: string)
    requires DistinctVerses(favs)
    ensures DistinctVerses(WithFavorite(favs, poem, now).0)
    ensures HasVerse(WithFavorite(favs, poem, now).0, poem.urdu)
  {
    var r := WithFavorite(favs, poem, now).0;
    if HasVerse(favs, poem.urdu) {
    } else {
      assert r[|favs|].poem.urdu == poem.urdu;
      forall i, j | 0 <= i < j < |r| ensures r[i].poem.urdu != r[j].poem.urdu {
        if j == |favs| {
          assert r[i] == favs[i];
        }
      }
    }
  }

  /** Favouriting the same verse a second time changes nothing and reports false. */
  lemma FavoriteIdempotent(favs: seq<Favorite>, poem: Poem, now: string, later: string)
    ensures WithFavorite(WithFavorite(favs, poem, now).0, poem, later) == (WithFavorite(favs, poem, now).0, false)
  {
    var r := WithFavorite(favs, poem, now).0;
    if !HasVerse(favs, poem.urdu) {
      assert r[|favs|].poem.urdu == poem.urdu;
    }
  }

  // ===== Chat replies =====

  const GreetingWords: seq<string> := ["hello", "hi", "hey", "greetings", "salaam", "namaste"]

  /** `isGreeting`: one of the greeting words occurs anywhere in the input. */
  predicate IsGreeting(input: string): (r: bool)
    ensures r <==> exists j :: 0 <= j < |GreetingWords| && Contains(input, GreetingWords[j])
  {
    AnyInIff(input, GreetingWords);
    AnyIn(input, GreetingWords)
  }

  /** Substring matching makes any input that contains "hi" a greeting. */
  lemma ContainingHiIsGreeting(input: string, i: int)
    requires OccursAt(input, "hi", i)
    ensures IsGreeting(input)
  {
    ContainsIff(input, "hi");
    assert GreetingWords[1] == "hi";
  }

  /** The moods `detectEmotion` recognises, in the order it tries them. */
  datatype Mood = Love | Longing | Joy | Melancholy

  function MoodRank(m: Mood): nat {
    match m
    case Love => 0
    case Longing => 1
    case Joy => 2
    case Melancholy => 3
  }

  function MoodKeywords(m: Mood): seq<string> {
    match m
    case Love => ["love", "mohabbat", "ishq", "pyar", "ador", "affection"]
    case Longing => ["miss", "intizaar", "wait", "longing", "yearning", "desire"]
    case Joy => ["happy", "joy", "excited", "delighted", "pleased", "content"]
    case Melancholy => ["sad", "melancholy", "blue", "down", "unhappy", "lonely"]
  }

  predicate Feels(input: string, m: Mood) {
    AnyIn(input, MoodKeywords(m))
  }

  /** `detectEmotion`: the first mood, in table order, one of whose keywords occurs in the input. */
  function DetectEmotion(input: string): (r: Option<Mood>)
    ensures r == None <==> forall m :: !Feels(input, m)
    ensures r.Some? ==> Feels(input, r.value)
    ensures r.Some? ==> forall m :: MoodRank(m) < MoodRank(r.value) ==> !Feels(input, m)
  {
    if Feels(input, Love) then Some(Love)
    else if Feels(input, Longing) then Some(Longing)
    else if Feels(input, Joy) then Some(Joy)
    else if Feels(input, Melancholy) then Some(Melancholy)
    else None
  }

  /** The response banks of the content table. */
  datatype Topic = Greetings | Emotions(mood: Mood) | PoetrySuggestions | MemoryAdvice | Predictions

  /** Where a reply comes from: a bank of the content table or one of the built-in defaults. */
  datatype Reply = Bank(topic: Topic) | Default

  const PoetryWords: seq<string> := ["poetry", "shayri", "verse"]
  const MemoryWords: seq<string> := ["memory", "remember"]
  const FutureWords: seq<string> := ["future", "prediction", "tomorrow"]

  /** The first test that matches: greeting, then mood, then poetry, memory and future keywords. */
  function Dispatch(input: string): (r: Reply)
    ensures IsGreeting(input) ==> r == Bank(Greetings)
    ensures !IsGreeting(input) && DetectEmotion(input).Some? ==> r == Bank(Emotions(DetectEmotion(input).value))
    ensures r == Bank(PoetrySuggestions) <==>
              !IsGreeting(input) && DetectEmotion(input) == None && AnyIn(input, PoetryWords)
    ensures r == Bank(MemoryAdvice) <==>
              !IsGreeting(input) && DetectEmotion(input) == None && !AnyIn(input, PoetryWords) && AnyIn(input, MemoryWords)
    ensures r == Bank(Predictions) <==>
              && !IsGreeting(input) && DetectEmotion(input) == None
              && !AnyIn(input, PoetryWords) && !AnyIn(input, MemoryWords) && AnyIn(input, FutureWords)
    ensures r == Default <==>
              && !IsGreeting(input) && DetectEmotion(input) == None
              && !AnyIn(input, PoetryWords) && !AnyIn(input, MemoryWords) && !AnyIn(input, FutureWords)
  {
    if IsGreeting(input) then Bank(Greetings)
    else
      var mood := DetectEmotion(input);
      if mood.Some? then Bank(Emotions(mood.value))
      else if AnyIn(input, PoetryWords) then Bank(PoetrySuggestions)
      else if AnyIn(input, MemoryWords) then Bank(MemoryAdvice)
      else if AnyIn(input, FutureWords) then Bank(Predictions)
      else Default
  }

  const DefaultResponses: seq<string> := [
    "I sense deep emotional resonance in your words. Would you like to explore this feeling further?",
    "The quantum patterns in your message suggest meaningful emotional content. How are you truly feeling?",
    "Your words create beautiful interference patterns in our neural network. Tell me more.",
    "I detect elevated emotional frequencies. This is a perfect moment for deep connection."
  ]

  /**
   * `generateAIResponse`: the reply for the lower-cased input, drawn from the
   * bank of its topic, or the default the random pick selects.
   */
  function GenerateAIResponse(input: string, bank: Topic -> string, pick: nat): (r: string)
    requires pick < |DefaultResponses|
    ensures Dispatch(Lower(input)).Bank? ==> r == bank(Dispatch(Lower(input)).topic)
    ensures Dispatch(Lower(input)) == Default ==> r == DefaultResponses[pick]
  {
    match Dispatch(Lower(input))
    case Bank(topic) => bank(topic)
    case Default => DefaultResponses[pick]
  }

  /** The reply does not depend on letter case. */
  lemma ResponseIgnoresCase(input: string, bank: Topic -> string, pick: nat)
    requires pick < |DefaultResponses|
    ensures GenerateAIResponse(Lower(input), bank, pick) == GenerateAIResponse(input, bank, pick)
  {
    LowerIdempotent(input);
  }

  /** A greeting wins over every other topic, whatever else the input mentions. */
  lemma GreetingFirst(input: string, bank: Topic -> string, pick: nat)
    requires pick < |DefaultResponses|
    requires IsGreeting(Lower(input))
    ensures GenerateAIResponse(input, bank, pick) == bank(Greetings)
  {
  }

  // ===== Predictions =====

  /** A prediction template drawn from the content table. */
  datatype Draw = Draw(text: string, confidence: real)

  /** A stamped prediction. */
  datatype Forecast = Forecast(text: string, confidence: real, date: string, emoji: string)

  /** `getPredictionEmoji`: the first keyword (case-sensitive) that occurs picks the emoji; 🌟 when none does. */
  function PredictionEmoji(text: string): (e: string)
    ensures e == "💝" <==> (Contains(text, "romantic") || Contains(text, "love"))
    ensures e == "🎨" <==> (!Contains(text, "romantic") && !Contains(text, "love") && Contains(text, "creative"))
    ensures e == "💬" <==> (!Contains(text, "romantic") && !Contains(text, "love") && !Contains(text, "creative")
                            && Contains(text, "communication"))
    ensures e == "🔒" <==> (!Contains(text, "romantic") && !Contains(text, "love") && !Contains(text, "creative")
                            && !Contains(text, "communication") && Contains(text, "intimacy"))
    ensures e == "🧠" <==> (!Contains(text, "romantic") && !Contains(text, "love") && !Contains(text, "creative")
                            && !Contains(text, "communication") && !Contains(text, "intimacy") && Contains(text, "understanding"))
    ensures e == "🌟" <==> (!Contains(text, "romantic") && !Contains(text, "love") && !Contains(text, "creative")
                            && !Contains(text, "communication") && !Contains(text, "intimacy") && !Contains(text, "understanding"))
  {
    if Contains(text, "romantic") || Contains(text, "love") then "💝"
    else if Contains(text, "creative") then "🎨"
    else if Contains(text, "communication") then "💬"
    else if Contains(text, "intimacy") then "🔒"
    else if Contains(text, "understanding") then "🧠"
    else "🌟"
  }

  /** A drawn template stamped with its date and emoji. */
  function Stamped(d: Draw, date: string): (f: Forecast)
    ensures f.text == d.text && f.confidence == d.confidence && f.date == date
    ensures f.emoji == PredictionEmoji(d.text)
  {
    Forecast(d.text, d.confidence, date, PredictionEmoji(d.text))
  }

  // ===== Observers and events =====

  /** A subscriber to the engine's change notifications, known only by identity. */
  class Observer {
    constructor ()
    {
    }
  }

  /** `observers.filter(obs => obs !== o)`. */
  function Without(s: seq<Observer>, o: Observer): (r: seq<Observer>)
    ensures |r| <= |s|
    ensures forall i :: 0 <= i < |r| ==> r[i] in s && r[i] != o
    ensures forall i :: 0 <= i < |s| && s[i] != o ==> s[i] in r
    decreases |s|
  {
    if s == [] then [] else (if s[0] == o then [] else [s[0]]) + Without(s[1..], o)
  }

  /** Removal keeps the order of the rest: it distributes over concatenation. */
  lemma {:induction false} WithoutAppend(a: seq<Observer>, b: seq<Observer>, o: Observer)
    ensures Without(a + b, o) == Without(a, o) + Without(b, o)
    decreases |a|
  {
    if a != [] {
      WithoutAppend(a[1..], b, o);
      assert (a + b)[0] == a[0];
      assert (a + b)[1..] == a[1..] + b;
      var head := if a[0] == o then [] else [a[0]];
      assert Without(a + b, o) == head + Without(a[1..] + b, o);
      assert Without(a, o) == head + Without(a[1..], o);
    } else {
      assert a + b == b;
    }
  }

  /** Removing an observer that is not subscribed changes nothing, so removing twice is removing once. */
  lemma {:induction false} WithoutAbsent(s: seq<Observer>, o: Observer)
    requires o !in s
    ensures Without(s, o) == s
    decreases |s|
  {
    if s != [] {
      assert s[0] != o;
      assert o !in s[1..];
      WithoutAbsent(s[1..], o);
      assert s == [s[0]] + s[1..];
    }
  }

  /** Adding and then removing the same observer leaves the other subscriptions as they were. */
  lemma AddThenRemove(s: seq<Observer>, o: Observer)
    ensures Without(s + [o], o) == Without(s, o)
  {
    WithoutAppend(s, [o], o);
    assert Without([o], o) == [];
  }

  /** The change events of the engine, with the data they carry. */
  datatype Event =
    | StateSaved
    | UnlockSuccess
    | Lockout
    | MemoryAdded(memory: Memory)
    | PredictionsUpdated
    | AiThinking
    | AiResponded(response: string)

  /** One notification: the event and the observers it went to. */
  datatype Notification = Notification(event: Event, recipients: seq<Observer>)

  datatype Role = User | Ai

  /** One line of the conversation history. */
  datatype Turn = Turn(role: Role, content: string, timestamp: string)
}
