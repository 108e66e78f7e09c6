/** WordListDictionaryListener: gathers the word lists of the dictionaries that
    load for one keyboard and hands them to the gesture detector's consumer once
    the last outstanding dictionary has finished, successfully or not.

    The counter is an AtomicInteger in the source; here the calls arrive one at a
    time, in any order. */
module Aggregator {
  import opened LayoutKey

  type Word = seq<char>
  /** One dictionary's words (`char[][]`) and their frequencies (`int[]`). */
  type WordBatch = seq<Word>
  type FrequencyBatch = seq<int>

  /** One call of the consumer callback: the keyboard and the two lists. */
  datatype Delivery = Delivery(keyboard: Keyboard, words: seq<WordBatch>, frequencies: seq<FrequencyBatch>)

  /** What a finished dictionary hands over through getLoadedWords: one batch, or
      nothing because getLoadedWords threw. */
  datatype LoadedWords = Supplied(words: WordBatch, frequencies: FrequencyBatch) | Unavailable

  /** How onGetWordsFinished treated a batch. `Rejected` is the
      IllegalArgumentException, which onDictionaryLoadingDone catches and logs. */
  datatype BatchOutcome = Skipped | Appended | Rejected(wordsLength: nat, frequenciesLength: nat)

  datatype ListenerState = ListenerState(
    keyboard: Keyboard,
    words: seq<WordBatch>,
    frequencies: seq<FrequencyBatch>,
    expected: int,
    deliveries: seq<Delivery>)

  function Fresh(keyboard: Keyboard): (r: ListenerState) {
    ListenerState(keyboard, [], [], 0, [])
  }

  // ---------------------------------------------------------------------------
  // The listener's operations, as functions of the state before them.

  function WordsFinished(s: ListenerState, words: WordBatch, frequencies: FrequencyBatch): (r: (ListenerState, BatchOutcome)) {
    if |words| > 0 then
      if |frequencies| != |words| then (s, Rejected(|words|, |frequencies|))
      else (s.(words := s.words + [words], frequencies := s.frequencies + [frequencies]), Appended)
    else (s, Skipped)
  }

  /** doCallback: the consumer gets both lists, then only the word list is
      replaced by an empty one; the frequency list is kept. */
  function Deliver(s: ListenerState): (r: ListenerState) {
    s.(deliveries := s.deliveries + [Delivery(s.keyboard, s.words, s.frequencies)], words := [])
  }

  function LoadingStarted(s: ListenerState): (r: ListenerState) {
    s.(expected := s.expected + 1)
  }

  function LoadingDone(s: ListenerState, loaded: LoadedWords): (r: ListenerState) {
    var s1 := s.(expected := s.expected - 1);
    var s2 := match loaded
      case Unavailable => s1
      case Supplied(w, f) => WordsFinished(s1, w, f).0;
    if s1.expected == 0 then Deliver(s2) else s2
  }

  function LoadingFailed(s: ListenerState): (r: ListenerState) {
    var s1 := s.(expected := s.expected - 1);
    if s1.expected == 0 then Deliver(s1) else s1
  }

  datatype Event = Started | Done(loaded: LoadedWords) | Failed

  predicate IsTerminal(e: Event) {
    e.Done? || e.Failed?
  }

  function Step(s: ListenerState, e: Event): (r: ListenerState) {
    match e
    case Started => LoadingStarted(s)
    case Done(loaded) => LoadingDone(s, loaded)
    case Failed => LoadingFailed(s)
  }

  function Run(s: ListenerState, events: seq<Event>): (r: ListenerState)
    decreases |events|
  {
    if events == [] then s else Step(Run(s, events[..|events| - 1]), events[|events| - 1])
  }

  /** Starts minus terminal calls. */
  function Balance(events: seq<Event>): (r: int)
    decreases |events|
  {
    if events == [] then 0
    else Balance(events[..|events| - 1]) + (if events[|events| - 1].Started? then 1 else -1)
  }

  /** The number of terminal calls among `events` whose decrement leaves the
      counter, which starts at `start`, at zero. */
  function ZeroHits(start: int, events: seq<Event>): (r: nat)
    decreases |events|
  {
    if events == [] then 0
    else ZeroHits(start, events[..|events| - 1])
         + (if IsTerminal(events[|events| - 1]) && start + Balance(events) == 0 then 1 else 0)
  }

  /** The batches a sequence of events appends, in order. */
  function Accepted(events: seq<Event>): (r: seq<(WordBatch, FrequencyBatch)>)
    decreases |events|
  {
    if events == [] then []
    else
      var e := events[|events| - 1];
      Accepted(events[..|events| - 1])
      + (if e.Done? && e.loaded.Supplied? && |e.loaded.words| > 0 && |e.loaded.frequencies| == |e.loaded.words|
         then [(e.loaded.words, e.loaded.frequencies)] else [])
  }

  function Starts(n: nat): (r: seq<Event>)
    ensures |r| == n && forall i :: 0 <= i < n ==> r[i] == Started
  {
    seq(n, _ => Started)
  }

  // ---------------------------------------------------------------------------
  // Properties.

  /** A batch with no words is skipped; a batch whose frequencies do not match
      its words in length is rejected and nothing is appended; otherwise one
      entry is appended to each list. */
  lemma BatchRules(s: ListenerState, words: WordBatch, frequencies: FrequencyBatch)
    ensures var (r, outcome) := WordsFinished(s, words, frequencies);
      && (|words| == 0 ==> outcome == Skipped && r == s)
      && (|words| > 0 && |frequencies| != |words| ==>
            outcome == Rejected(|words|, |frequencies|) && r == s)
      && (|words| > 0 && |frequencies| == |words| ==>
            outcome == Appended && r.words == s.words + [words]
            && r.frequencies == s.frequencies + [frequencies]
            && r.expected == s.expected && r.deliveries == s.deliveries)
  {
  }

  /** The counter is the starting value plus starts minus terminal calls. */
  lemma {:induction false} RunExpected(s: ListenerState, events: seq<Event>)
    ensures Run(s, events).expected == s.expected + Balance(events)
    ensures Run(s, events).keyboard == s.keyboard
    decreases |events|
  {
    if events != [] {
      RunExpected(s, events[..|events| - 1]);
    }
  }

  /** The callback fires once for each terminal call whose decrement reaches zero,
      and at no other time; earlier deliveries are never altered. */
  lemma {:induction false} RunDeliveries(s: ListenerState, events: seq<Event>)
    ensures |Run(s, events).deliveries| == |s.deliveries| + ZeroHits(s.expected, events)
    ensures Run(s, events).deliveries[..|s.deliveries|] == s.deliveries
    decreases |events|
  {
    if events != [] {
      var front := events[..|events| - 1];
      RunDeliveries(s, front);
      RunExpected(s, front);
      RunExpected(s, events);
    }
  }

  lemma {:induction false} StartsBalance(n: nat, tail: seq<Event>)
    requires forall i :: 0 <= i < |tail| ==> IsTerminal(tail[i])
    ensures Balance(Starts(n) + tail) == n - |tail|
    decreases n + |tail|
  {
    var evs := Starts(n) + tail;
    if tail != [] {
      assert evs[..|evs| - 1] == Starts(n) + tail[..|tail| - 1];
      StartsBalance(n, tail[..|tail| - 1]);
    } else if n > 0 {
      assert evs[..|evs| - 1] == Starts(n - 1) + [];
      StartsBalance(n - 1, []);
    }
  }

  lemma {:induction false} StartsNoHits(start: int, n: nat)
    requires start >= 0
    ensures ZeroHits(start, Starts(n)) == 0
    decreases n
  {
    if n > 0 {
      assert Starts(n)[..n - 1] == Starts(n - 1);
      StartsNoHits(start, n - 1);
    }
  }

  /** With the counter at zero, n starts followed by n terminal calls in any mix
      of done and failed reach zero only at the last terminal call. */
  lemma {:induction false} HitsOnlyAtLast(n: nat, terminals: seq<Event>)
    requires |terminals| <= n
    requires forall i :: 0 <= i < |terminals| ==> IsTerminal(terminals[i])
    ensures ZeroHits(0, Starts(n) + terminals) == if n > 0 && |terminals| == n then 1 else 0
    decreases |terminals|
  {
    var evs := Starts(n) + terminals;
    if terminals == [] {
      assert evs == Starts(n);
      StartsNoHits(0, n);
    } else {
      var front := terminals[..|terminals| - 1];
      assert evs[..|evs| - 1] == Starts(n) + front;
      HitsOnlyAtLast(n, front);
      StartsBalance(n, terminals);
    }
  }

  /** n dictionaries start and then all finish, in any order of done and failed:
      the callback fires exactly once, and it fires at the last terminal call. */
  lemma CallbackFiresOnceAtLast(s: ListenerState, n: nat, terminals: seq<Event>)
    requires s.expected == 0 && n > 0 && |terminals| == n
    requires forall i :: 0 <= i < n ==> IsTerminal(terminals[i])
    ensures |Run(s, Starts(n) + terminals).deliveries| == |s.deliveries| + 1
    ensures |Run(s, Starts(n) + terminals[..n - 1]).deliveries| == |s.deliveries|
  {
    RunDeliveries(s, Starts(n) + terminals);
    HitsOnlyAtLast(n, terminals);
    RunDeliveries(s, Starts(n) + terminals[..n - 1]);
    HitsOnlyAtLast(n, terminals[..n - 1]);
  }

  /** While the counter stays above zero, every accepted batch is appended to both
      lists, in the order the dictionaries finished. */
  lemma {:induction false} RunAccumulates(s: ListenerState, n: nat, terminals: seq<Event>)
    requires s.expected == 0 && |terminals| < n
    requires forall i :: 0 <= i < |terminals| ==> IsTerminal(terminals[i])
    ensures var r := Run(s, Starts(n) + terminals);
      && r.deliveries == s.deliveries
      && r.words == s.words + Firsts(Accepted(Starts(n) + terminals))
      && r.frequencies == s.frequencies + Seconds(Accepted(Starts(n) + terminals))
    decreases n + |terminals|
  {
    var evs := Starts(n) + terminals;
    if terminals != [] {
      var front := terminals[..|terminals| - 1];
      assert evs[..|evs| - 1] == Starts(n) + front;
      RunAccumulates(s, n, front);
      RunExpected(s, evs[..|evs| - 1]);
      StartsBalance(n, front);
    } else {
      assert evs == Starts(n);
      RunStarts(s, n);
    }
  }

  lemma {:induction false} RunStarts(s: ListenerState, n: nat)
    ensures Run(s, Starts(n)) == s.(expected := s.expected + n)
    ensures Accepted(Starts(n)) == []
    decreases n
  {
    if n > 0 {
      assert Starts(n)[..n - 1] == Starts(n - 1);
      RunStarts(s, n - 1);
    }
  }

  function Firsts(pairs: seq<(WordBatch, FrequencyBatch)>): (r: seq<WordBatch>)
    ensures |r| == |pairs| && forall i :: 0 <= i < |pairs| ==> r[i] == pairs[i].0
  {
    seq(|pairs|, i requires 0 <= i < |pairs| => pairs[i].0)
  }

  function Seconds(pairs: seq<(WordBatch, FrequencyBatch)>): (r: seq<FrequencyBatch>)
    ensures |r| == |pairs| && forall i :: 0 <= i < |pairs| ==> r[i] == pairs[i].1
  {
    seq(|pairs|, i requires 0 <= i < |pairs| => pairs[i].1)
  }

  /** From a fresh listener, the one delivery made after n starts and n terminal
      calls holds exactly the accepted batches in finishing order, each word batch
      beside its own frequency batch; afterwards the word list is empty. */
  lemma FirstDeliveryHoldsAcceptedBatches(keyboard: Keyboard, n: nat, terminals: seq<Event>)
    requires n > 0 && |terminals| == n
    requires forall i :: 0 <= i < n ==> IsTerminal(terminals[i])
    ensures var r := Run(Fresh(keyboard), Starts(n) + terminals);
      var batches := Accepted(Starts(n) + terminals);
      && |r.deliveries| == 1
      && r.deliveries[0] == Delivery(keyboard, Firsts(batches), Seconds(batches))
      && (forall i :: 0 <= i < |batches| ==> |batches[i].0| == |batches[i].1| > 0)
      && r.words == [] && r.expected == 0
  {
    var s := Fresh(keyboard);
    var evs := Starts(n) + terminals;
    var front := terminals[..n - 1];
    assert evs[..|evs| - 1] == Starts(n) + front;
    RunAccumulates(s, n, front);
    RunExpected(s, evs);
    RunExpected(s, evs[..|evs| - 1]);
    StartsBalance(n, terminals);
    StartsBalance(n, front);
    AcceptedWellFormed(evs);
  }

  lemma {:induction false} AcceptedWellFormed(events: seq<Event>)
    ensures forall i :: 0 <= i < |Accepted(events)| ==>
      |Accepted(events)[i].0| == |Accepted(events)[i].1| > 0
    decreases |events|
  {
    if events != [] {
      AcceptedWellFormed(events[..|events| - 1]);
    }
  }

  /** The frequency list outlives a callback while the word list does not: a
      second round on the same listener delivers one word batch beside two
      frequency batches. */
  lemma SecondRoundKeepsOldFrequencies(keyboard: Keyboard)
    ensures var events := [Started, Done(Supplied(["a"], [1])), Started, Done(Supplied(["b"], [2]))];
      var r := Run(Fresh(keyboard), events);
      && |r.deliveries| == 2
      && r.deliveries[0] == Delivery(keyboard, [["a"]], [[1]])
      && r.deliveries[1] == Delivery(keyboard, [["b"]], [[1], [2]])
  {
    var events := [Started, Done(Supplied(["a"], [1])), Started, Done(Supplied(["b"], [2]))];
    var s0 := Fresh(keyboard);
    assert events[..1][..0] == [];
    assert events[..2][..1] == events[..1];
    assert events[..3][..2] == events[..2];
    assert events[..4] == events && events[..3] == events[..4][..3];
    assert Run(s0, []) == s0;
    assert events[..1] == [Started];
    var s1 := Run(s0, events[..1]);
    assert s1 == Step(s0, Started);
    assert s1 == s0.(expected := 1);
    var s2 := Run(s0, events[..2]);
    assert s2 == Step(s1, Done(Supplied(["a"], [1])));
    var batch := WordsFinished(s0, ["a"], [1]).0;
    assert batch == s0.(words := [["a"]], frequencies := [[1]]);
    assert s2 == Deliver(batch);
    assert s2 == ListenerState(keyboard, [], [[1]], 0, [Delivery(keyboard, [["a"]], [[1]])]);
    var s3 := Run(s0, events[..3]);
    assert s3 == s2.(expected := 1);
  }

  // ---------------------------------------------------------------------------
  // The listener object.

  class WordListDictionaryListener {
    const keyboard: Keyboard
    var words: seq<WordBatch>
    var wordFrequencies: seq<FrequencyBatch>
    var expectedDictionaries: int
    /** The calls made so far to the consumer callback. */
    var deliveries: seq<Delivery>

    function State(): (r: ListenerState)
      reads this
    {
      ListenerState(keyboard, words, wordFrequencies, expectedDictionaries, deliveries)
    }

    constructor (keyboard: Keyboard)
      ensures State() == Fresh(keyboard)
    {
      this.keyboard := keyboard;
      words, wordFrequencies, expectedDictionaries, deliveries := [], [], 0, [];
    }

    method OnDictionaryLoadingStarted()
      modifies this
      ensures State() == LoadingStarted(old(State()))
    {
      expectedDictionaries := expectedDictionaries + 1;
    }

    method OnGetWordsFinished(batchWords: WordBatch, batchFrequencies: FrequencyBatch) returns (outcome: BatchOutcome)
      modifies this
      ensures (State(), outcome) == WordsFinished(old(State()), batchWords, batchFrequencies)
    {
      outcome := Skipped;
      if |batchWords| > 0 {
        if |batchFrequencies| != |batchWords| {
          return Rejected(|batchWords|, |batchFrequencies|);
        }
        words := words + [batchWords];
        wordFrequencies := wordFrequencies + [batchFrequencies];
        outcome := Appended;
      }
    }

    method DoCallback()
      modifies this
      ensures State() == Deliver(old(State()))
    {
      deliveries := deliveries + [Delivery(keyboard, words, wordFrequencies)];
      words := [];
    }

    method OnDictionaryLoadingDone(loaded: LoadedWords)
      modifies this
      ensures State() == LoadingDone(old(State()), loaded)
    {
      expectedDictionaries := expectedDictionaries - 1;
      var remaining := expectedDictionaries;
      if loaded.Supplied? {
        // a rejected batch is logged and otherwise ignored
        var _ := OnGetWordsFinished(loaded.words, loaded.frequencies);
      }
      if remaining == 0 {
        DoCallback();
      }
    }

    method OnDictionaryLoadingFailed()
      modifies this
      ensures State() == LoadingFailed(old(State()))
    {
      expectedDictionaries := expectedDictionaries - 1;
      if expectedDictionaries == 0 {
        DoCallback();
      }
    }
  }
}
