/**
 The discount-plus-backoff language model of ejemplo.py (class `KneserNeyLM`).

 `Train` pads every sentence with n - 1 start markers `<s>` and one end
 marker `</s>`. It then slides an order-n window over the padded sentence;
 each window is one event `(context, word)`, with `context = ngram[:-1]` and
 `word = ngram[-1]`. Each event increments three tables:
 - the nested counter `ngram_counts[context][word]`;
 - the context counter `context_counts[context]`;
 - the vocabulary set.

 The queries are closed-form expressions over these tables, with a uniform
 `1 / |vocab|` fallback for a context never seen. Probabilities are exact
 `real` values where the source uses floats.
 */
module Ejemplo {
  import opened Counters
  import opened NGrams

  type Corpus = seq<seq<Token>>

  /** What one window counts: its context `ngram[:-1]` and its last word `ngram[-1]`. */
  datatype Event = Event(context: NGram, word: Token)

  // ---------------------------------------------------------------------
  // What training is meant to see

  /** `['<s>'] * (n - 1)`: Python repeats a list a negative number of times as the empty list. */
  function StartPadding(n: int): (r: seq<Token>)
    ensures |r| == if n >= 1 then n - 1 else 0
    ensures forall i :: 0 <= i < |r| ==> r[i] == "<s>"
  {
    if n <= 1 then [] else StartPadding(n - 1) + ["<s>"]
  }

  /** `['<s>'] * (n - 1) + sentence + ['</s>']`. */
  function Padded(sentence: seq<Token>, n: int): (r: seq<Token>)
    ensures |r| == |StartPadding(n)| + |sentence| + 1
    ensures forall i :: 0 <= i < |StartPadding(n)| ==> r[i] == "<s>"
    ensures r[|StartPadding(n)|..|r| - 1] == sentence
    ensures r[|r| - 1] == "</s>"
  {
    StartPadding(n) + sentence + ["</s>"]
  }

  /** The event of a non-empty window. */
  function EventOf(g: NGram): (e: Event)
    requires |g| >= 1
    ensures e.context + [e.word] == g
  {
    Event(Prefix(g), g[|g| - 1])
  }

  /** The events of a sequence of non-empty windows, in order. */
  function EventsOf(gs: seq<NGram>): (es: seq<Event>)
    requires forall j :: 0 <= j < |gs| ==> |gs[j]| >= 1
    ensures |es| == |gs|
  {
    if gs == [] then [] else EventsOf(gs[..|gs| - 1]) + [EventOf(gs[|gs| - 1])]
  }

  /** Every window `train` slides over the corpus, sentence after sentence. */
  function TrainingWindows(corpus: Corpus, n: int): (r: seq<NGram>)
    ensures forall j :: 0 <= j < |r| ==> |r[j]| == n
    ensures r != [] ==> n >= 1
  {
    if corpus == [] then []
    else TrainingWindows(corpus[..|corpus| - 1], n) + Windows(Padded(corpus[|corpus| - 1], n), n)
  }

  /** Every event `train` records for the corpus, in order. */
  function TrainingEvents(corpus: Corpus, n: int): seq<Event>
  {
    EventsOf(TrainingWindows(corpus, n))
  }

  /** The contexts of the events, in order. */
  function ContextsOf(es: seq<Event>): seq<NGram>
  {
    seq(|es|, i requires 0 <= i < |es| => es[i].context)
  }

  /** The words of the events. */
  function WordsOf(es: seq<Event>): set<Token>
  {
    set e | e in es :: e.word
  }

  /** The number of events with context `c`. */
  function ContextOccurrences(es: seq<Event>, c: NGram): nat
  {
    multiset(ContextsOf(es))[c]
  }

  /** The distinct words that follow context `c` in the events. */
  function FollowersOf(es: seq<Event>, c: NGram): set<Token>
  {
    set e | e in es && e.context == c :: e.word
  }

  // ---------------------------------------------------------------------
  // The nested counter `defaultdict(Counter)`

  type Table = map<NGram, map<Token, nat>>

  /** `ngram_counts[c]`: a context never recorded reads as an empty counter. */
  function Followers(m: Table, c: NGram): (r: map<Token, nat>)
    ensures c in m ==> r == m[c]
    ensures c !in m ==> forall w :: Get(r, w) == 0
  {
    if c in m then m[c] else map[]
  }

  /** `ngram_counts[e.context][e.word] += 1`. */
  function Record(m: Table, e: Event): Table
  {
    m[e.context := Inc(Followers(m, e.context), e.word)]
  }

  /** Recording one event adds its context and raises exactly its own cell by one. */
  lemma RecordGet(m: Table, e: Event, c: NGram, w: Token)
    ensures Record(m, e).Keys == m.Keys + {e.context}
    ensures Get(Followers(Record(m, e), c), w) == Get(Followers(m, c), w) + (if Event(c, w) == e then 1 else 0)
  {
  }

  /** Recording every event, first to last. */
  function RecordAll(m: Table, es: seq<Event>): Table
  {
    if es == [] then m else Record(RecordAll(m, es[..|es| - 1]), es[|es| - 1])
  }

  /** The discounted count plus the backoff term, as `get_ngram_prob` combines them for a seen context. */
  function Backoff(count: nat, total: nat, followers: nat, d: real, lower: real): (r: real)
    requires total > 0
    ensures d == 0.0 ==> r == count as real / total as real
  {
    var t := total as real;
    var prob := if count > 0 then (count as real - d) / t else 0.0;
    prob + d * followers as real / t * lower
  }

  // ---------------------------------------------------------------------
  // Arithmetic of the backoff

  /** With 0 <= d <= 1 and a non-negative lower estimate, the combination is non-negative. */
  lemma BackoffNonnegative(count: nat, total: nat, followers: nat, d: real, lower: real)
    requires total > 0 && 0.0 <= d <= 1.0 && lower >= 0.0
    ensures Backoff(count, total, followers, d, lower) >= 0.0
  {
    var t := total as real;
    if count > 0 {
      assert (count as real - d) / t >= 0.0;
    }
    assert d * followers as real >= 0.0;
    assert d * followers as real / t >= 0.0;
    assert d * followers as real / t * lower >= 0.0;
  }

  /** An unseen word with a zero lower estimate gets 0. */
  lemma BackoffUnseen(total: nat, followers: nat, d: real)
    requires total > 0
    ensures Backoff(0, total, followers, d, 0.0) == 0.0
  {
  }

  /** An unseen word after a seen context: a zero count over the context count is a zero lower estimate, and the value is 0 for any discount. */
  lemma BackoffUnseenFraction(total: nat, followers: nat, d: real)
    requires total > 0
    ensures Backoff(0, total, followers, d, 0 as real / total as real) == 0.0
  {
    assert 0 as real / total as real == 0.0;
    BackoffUnseen(total, followers, d);
  }

  /** A seen word gets a positive value when 0 <= d <= 1, it has at least one follower and its lower estimate is positive. */
  lemma BackoffSeen(count: nat, total: nat, followers: nat, d: real, lower: real)
    requires total > 0 && count > 0 && followers > 0 && 0.0 <= d <= 1.0 && lower > 0.0
    ensures Backoff(count, total, followers, d, lower) > 0.0
  {
    var t := total as real;
    assert (count as real - d) / t >= 0.0;
    if d > 0.0 {
      assert d * followers as real > 0.0;
      assert d * followers as real / t > 0.0;
      assert d * followers as real / t * lower > 0.0;
    } else {
      assert (count as real - d) / t > 0.0;
      assert d * followers as real / t * lower == 0.0;
    }
  }

  /** A count over a total it does not exceed is a fraction in [0, 1], zero exactly for a zero count. */
  lemma Fraction(count: nat, total: nat)
    requires 0 < total && count <= total
    ensures 0.0 <= count as real / total as real <= 1.0
    ensures count as real / total as real == 0.0 <==> count == 0
  {
    var t := total as real;
    assert count as real / t * t == count as real;
  }

  /** With the relative frequency as lower estimate, the combination is 0 exactly for a zero count. */
  lemma BackoffZeroIff(count: nat, total: nat, followers: nat, d: real)
    requires 0 < total && count <= total && 0.0 <= d <= 1.0
    requires count > 0 ==> followers > 0
    ensures Backoff(count, total, followers, d, count as real / total as real) == 0.0 <==> count == 0
    ensures Backoff(count, total, followers, d, count as real / total as real) > 0.0 <==> count > 0
  {
    Fraction(count, total);
    if count == 0 {
      BackoffUnseen(total, followers, d);
    } else {
      BackoffSeen(count, total, followers, d, count as real / total as real);
    }
  }

  // ---------------------------------------------------------------------
  // Facts about the event sequences

  lemma {:induction false} EventsOfAppend(a: seq<NGram>, b: seq<NGram>)
    requires forall j :: 0 <= j < |a| ==> |a[j]| >= 1
    requires forall j :: 0 <= j < |b| ==> |b[j]| >= 1
    ensures EventsOf(a + b) == EventsOf(a) + EventsOf(b)
    decreases |b|
  {
    if b == [] {
      assert a + b == a;
    } else {
      var front := b[..|b| - 1];
      assert (a + b)[..|a + b| - 1] == a + front;
      assert (a + b)[|a + b| - 1] == b[|b| - 1];
      EventsOfAppend(a, front);
      assert EventsOf(a + b) == EventsOf(a + front) + [EventOf(b[|b| - 1])];
    }
  }

  lemma ContextsOfAppend(a: seq<Event>, b: seq<Event>)
    ensures ContextsOf(a + b) == ContextsOf(a) + ContextsOf(b)
  {
  }

  lemma WordsOfAppend(a: seq<Event>, b: seq<Event>)
    ensures WordsOf(a + b) == WordsOf(a) + WordsOf(b)
  {
    forall w | w in WordsOf(a + b)
      ensures w in WordsOf(a) + WordsOf(b)
    {
      var e :| e in a + b && e.word == w;
      if e in a {
        assert w in WordsOf(a);
      } else {
        assert e in b;
      }
    }
  }

  /** Recording `a + b` is recording `a` and then `b`. */
  lemma {:induction false} RecordAllAppend(m: Table, a: seq<Event>, b: seq<Event>)
    ensures RecordAll(m, a + b) == RecordAll(RecordAll(m, a), b)
    decreases |b|
  {
    if b == [] {
      assert a + b == a;
    } else {
      assert (a + b)[..|a + b| - 1] == a + b[..|b| - 1];
      RecordAllAppend(m, a, b[..|b| - 1]);
    }
  }

  /** One more window of a sentence, as the inner loop of `train` counts it. */
  lemma EventSnoc(windows: seq<NGram>, j: nat, e: Event)
    requires j < |windows| && forall k :: 0 <= k < |windows| ==> |windows[k]| >= 1
    requires e == EventOf(windows[j])
    ensures EventsOf(windows[..j + 1]) == EventsOf(windows[..j]) + [e]
  {
    assert windows[..j + 1][..j] == windows[..j];
  }

  /** The events of the first j windows of `tokens`, each read off its slice `tokens[i:i+n]`. */
  function WindowEvents(tokens: seq<Token>, n: int, j: nat): seq<Event>
    requires n >= 1 && (j > 0 ==> j + n - 1 <= |tokens|)
  {
    if j == 0 then []
    else
      var g := tokens[j - 1..j - 1 + n];
      WindowEvents(tokens, n, j - 1) + [Event(g[..n - 1], g[n - 1])]
  }

  /** One more window read off its slice `tokens[j:j+n]`. */
  lemma WindowEventsSnoc(tokens: seq<Token>, n: int, j: nat, seen: seq<Event>, ngram: NGram)
    requires n >= 1 && j + n <= |tokens|
    requires seen == WindowEvents(tokens, n, j) && ngram == tokens[j..j + n]
    ensures seen + [Event(ngram[..|ngram| - 1], ngram[|ngram| - 1])] == WindowEvents(tokens, n, j + 1)
  {
  }

  /** Reading the windows off their slices gives the events of `Windows`. */
  lemma {:induction false} WindowEventsAre(tokens: seq<Token>, n: int, j: nat)
    requires n >= 1 && j <= |Windows(tokens, n)|
    ensures j > 0 ==> j + n - 1 <= |tokens|
    ensures WindowEvents(tokens, n, j) == EventsOf(Windows(tokens, n)[..j])
  {
    var windows := Windows(tokens, n);
    if j > 0 {
      WindowEventsAre(tokens, n, j - 1);
      WindowsAt(tokens, n, j - 1);
      EventSnoc(windows, j - 1, EventOf(windows[j - 1]));
      var g := tokens[j - 1..j - 1 + n];
      assert EventOf(g) == Event(g[..n - 1], g[n - 1]);
    }
  }

  /** Appending to the event history in two steps or in one. */
  lemma AppendAssoc(history: seq<Event>, seen: seq<Event>, added: seq<Event>)
    ensures history + (seen + added) == history + seen + added
  {
  }

  /** Recording one more event into the three tables. */
  lemma RecordSnoc(m: Table, cm: map<NGram, nat>, vs: set<Token>, seen: seq<Event>, e: Event)
    ensures RecordAll(m, seen + [e]) == Record(RecordAll(m, seen), e)
    ensures Tally(cm, ContextsOf(seen + [e])) == Inc(Tally(cm, ContextsOf(seen)), e.context)
    ensures vs + WordsOf(seen + [e]) == vs + WordsOf(seen) + {e.word}
  {
    assert (seen + [e])[..|seen|] == seen;
    ContextsOfAppend(seen, [e]);
    TallySnoc(cm, ContextsOf(seen), e.context);
    WordsOfAppend(seen, [e]);
  }

  /** One more sentence, as the outer loop of `train` counts it. */
  lemma SentenceSnoc(corpus: Corpus, n: int, i: nat)
    requires i < |corpus|
    ensures TrainingEvents(corpus[..i + 1], n)
         == TrainingEvents(corpus[..i], n) + EventsOf(Windows(Padded(corpus[i], n), n))
  {
    var before, windows := TrainingWindows(corpus[..i], n), Windows(Padded(corpus[i], n), n);
    assert corpus[..i + 1][..i] == corpus[..i];
    assert TrainingWindows(corpus[..i + 1], n) == before + windows;
    EventsOfAppend(before, windows);
  }

  /** Recording `seen + added` into the three tables is recording `seen` and then `added`. */
  lemma RecordAppend(m: Table, cm: map<NGram, nat>, vs: set<Token>, seen: seq<Event>, added: seq<Event>)
    ensures RecordAll(m, seen + added) == RecordAll(RecordAll(m, seen), added)
    ensures Tally(cm, ContextsOf(seen + added)) == Tally(Tally(cm, ContextsOf(seen)), ContextsOf(added))
    ensures vs + WordsOf(seen + added) == vs + WordsOf(seen) + WordsOf(added)
  {
    RecordAllAppend(m, seen, added);
    ContextsOfAppend(seen, added);
    TallyAppend(cm, ContextsOf(seen), ContextsOf(added));
    WordsOfAppend(seen, added);
  }

  // ---------------------------------------------------------------------
  // What the tables hold after recording events from empty tables

  /** Each cell of the nested counter is the number of times its event was recorded. */
  lemma {:induction false} RecordAllGet(m: Table, es: seq<Event>, c: NGram, w: Token)
    ensures Get(Followers(RecordAll(m, es), c), w) == Get(Followers(m, c), w) + multiset(es)[Event(c, w)]
  {
    if es != [] {
      var init, last := es[..|es| - 1], es[|es| - 1];
      RecordAllGet(m, init, c, w);
      assert es == init + [last];
    }
  }

  /** Recording more events never lowers a count. */
  lemma RecordAllGrows(m: Table, es: seq<Event>, c: NGram, w: Token)
    ensures Get(Followers(RecordAll(m, es), c), w) >= Get(Followers(m, c), w)
  {
    RecordAllGet(m, es, c, w);
  }

  /** The contexts recorded are exactly the contexts of the events. */
  lemma {:induction false} RecordAllContexts(es: seq<Event>)
    ensures RecordAll(map[], es).Keys == set e | e in es :: e.context
  {
    if es != [] {
      var init, last := es[..|es| - 1], es[|es| - 1];
      RecordAllContexts(init);
      assert es == init + [last];
      assert (set e | e in es :: e.context) == (set e | e in init :: e.context) + {last.context};
    }
  }

  /** The words recorded after context `c` are exactly the distinct words that follow `c` in the events. */
  lemma {:induction false} RecordAllFollowers(es: seq<Event>, c: NGram)
    ensures Followers(RecordAll(map[], es), c).Keys == FollowersOf(es, c)
  {
    if es != [] {
      var init, last := es[..|es| - 1], es[|es| - 1];
      RecordAllFollowers(init, c);
      assert es == init + [last];
      if last.context == c {
        assert FollowersOf(es, c) == FollowersOf(init, c) + {last.word};
      } else {
        assert FollowersOf(es, c) == FollowersOf(init, c);
      }
    }
  }

  /**
   Every increment of `context_counts[c]` is paired with an increment of
   `ngram_counts[c][w]` for the same context: the context count is the sum
   of the counts of its words.
   */
  lemma {:induction false} ContextCountIsSum(es: seq<Event>, c: NGram)
    ensures Get(Tally(map[], ContextsOf(es)), c) == Sum(Followers(RecordAll(map[], es), c))
  {
    if es == [] {
      var empty: map<Token, nat> := map[];
      assert Followers(RecordAll(map[], es), c) == empty;
      assert empty.Keys == {};
    } else {
      var init, last := es[..|es| - 1], es[|es| - 1];
      ContextCountIsSum(init, c);
      assert es == init + [last];
      ContextsOfAppend(init, [last]);
      TallySnoc(map[], ContextsOf(init), last.context);
      if last.context == c {
        SumInc(Followers(RecordAll(map[], init), c), last.word);
      }
    }
  }

  /** The context counter counts every event's context: its keys are the recorded contexts. */
  lemma ContextCountKeys(es: seq<Event>)
    ensures Tally(map[], ContextsOf(es)).Keys == RecordAll(map[], es).Keys
    ensures forall c :: c in Tally(map[], ContextsOf(es)) ==> Tally(map[], ContextsOf(es))[c] >= 1
  {
    TallyKeys(map[], ContextsOf(es));
    RecordAllContexts(es);
    TallyPositive(ContextsOf(es));
    forall x | x in ContextsOf(es)
      ensures x in set e | e in es :: e.context
    {
      var i :| 0 <= i < |es| && ContextsOf(es)[i] == x;
      assert es[i] in es;
    }
    forall e | e in es
      ensures e.context in ContextsOf(es)
    {
      var i :| 0 <= i < |es| && es[i] == e;
      assert ContextsOf(es)[i] == e.context;
    }
  }

  // ---------------------------------------------------------------------
  // Facts about one padded sentence

  /** A padded sentence of L tokens, n >= 1, has exactly L + 1 windows. */
  lemma SentenceWindowCount(sentence: seq<Token>, n: int)
    requires n >= 1
    ensures |Windows(Padded(sentence, n), n)| == |sentence| + 1
  {
    WindowsCount(Padded(sentence, n), n);
  }

  /** With n >= 1, the words a padded sentence contributes are its own tokens and `</s>`, never `<s>` unless the sentence has it. */
  lemma SentenceVocabulary(sentence: seq<Token>, n: int)
    requires n >= 1
    ensures WordsOf(EventsOf(Windows(Padded(sentence, n), n))) == (set w | w in sentence) + {"</s>"}
  {
    var tokens := Padded(sentence, n);
    var windows := Windows(tokens, n);
    var es := EventsOf(windows);
    SentenceWindowCount(sentence, n);
    forall i | 0 <= i < |es|
      ensures es[i].word == tokens[i + n - 1]
    {
      WindowsAt(tokens, n, i);
      EventsAt(windows, i);
    }
    assert forall i :: 0 <= i <= |sentence| ==> tokens[i + n - 1] == (sentence + ["</s>"])[i];
    forall w | w in WordsOf(es)
      ensures w in (set w | w in sentence) + {"</s>"}
    {
      var e :| e in es && e.word == w;
      var i :| 0 <= i < |es| && es[i] == e;
      assert w == (sentence + ["</s>"])[i];
    }
    forall w | w in (set w | w in sentence) + {"</s>"}
      ensures w in WordsOf(es)
    {
      if w in sentence {
        var i :| 0 <= i < |sentence| && sentence[i] == w;
        assert (sentence + ["</s>"])[i] == w;
        assert es[i] in es;
      } else {
        assert es[|sentence|] in es;
      }
    }
  }

  /** Every word of every sentence of the corpus. */
  function CorpusWords(corpus: Corpus): set<Token>
  {
    set s, w | s in corpus && w in s :: w
  }

  /** A non-empty corpus is its first sentences followed by its last one. */
  lemma SplitLast(corpus: Corpus)
    requires corpus != []
    ensures corpus == corpus[..|corpus| - 1] + [corpus[|corpus| - 1]]
  {
  }

  /** The words of `init + [last]` are the words of `init` plus the words of `last`. */
  lemma CorpusWordsSnoc(init: Corpus, last: seq<Token>)
    ensures CorpusWords(init + [last]) == CorpusWords(init) + (set w | w in last)
  {
    forall w | w in CorpusWords(init + [last])
      ensures w in CorpusWords(init) + (set w | w in last)
    {
      var s :| s in init + [last] && w in s;
      if s != last {
        assert s in init;
      }
    }
  }

  /** One more sentence: its words and `</s>` join the vocabulary of the sentences before it. */
  lemma VocabularyStep(events: seq<Event>, before: seq<Event>, added: seq<Event>,
                       words: set<Token>, wordsBefore: set<Token>, last: set<Token>, empty: bool)
    requires events == before + added
    requires WordsOf(before) == wordsBefore + (if empty then {} else {"</s>"})
    requires WordsOf(added) == last + {"</s>"}
    requires words == wordsBefore + last
    ensures WordsOf(events) == words + {"</s>"}
  {
    WordsOfAppend(before, added);
  }

  /** The vocabulary `train` builds is every word of every sentence, plus `</s>` once the corpus has a sentence. */
  lemma {:induction false} TrainingVocabulary(corpus: Corpus, n: int)
    requires n >= 1
    ensures WordsOf(TrainingEvents(corpus, n)) == CorpusWords(corpus) + (if corpus == [] then {} else {"</s>"})
  {
    if corpus != [] {
      var init, last := corpus[..|corpus| - 1], corpus[|corpus| - 1];
      var windows := Windows(Padded(last, n), n);
      TrainingVocabulary(init, n);
      EventsOfAppend(TrainingWindows(init, n), windows);
      SentenceVocabulary(last, n);
      SplitLast(corpus);
      CorpusWordsSnoc(init, last);
      VocabularyStep(TrainingEvents(corpus, n), TrainingEvents(init, n), EventsOf(windows),
                     CorpusWords(corpus), CorpusWords(init), (set w | w in last), init == []);
    }
  }

  /** The i-th event is the event of the i-th window. */
  lemma {:induction false} EventsAt(gs: seq<NGram>, i: nat)
    requires forall j :: 0 <= j < |gs| ==> |gs[j]| >= 1
    requires i < |gs|
    ensures EventsOf(gs)[i] == EventOf(gs[i])
  {
    if i < |gs| - 1 {
      EventsAt(gs[..|gs| - 1], i);
    }
  }

  // ---------------------------------------------------------------------
  // The model

  class KneserNeyLM {
    const n: int
    const discount: real
    var ngramCounts: Table
    var contextCounts: map<NGram, nat>
    var vocab: set<Token>
    /** Every event recorded so far, over all calls of `Train`. */
    ghost var events: seq<Event>

    /** The tables are those that recording `events` into empty tables builds. */
    ghost predicate Valid()
      reads this
    {
      && ngramCounts == RecordAll(map[], events)
      && contextCounts == Tally(map[], ContextsOf(events))
      && vocab == WordsOf(events)
    }

    /** `__init__`: empty tables. */
    constructor (n: int, discount: real)
      ensures Valid() && events == []
      ensures this.n == n && this.discount == discount
    {
      this.n := n;
      this.discount := discount;
      ngramCounts := map[];
      contextCounts := map[];
      vocab := {};
      events := [];
    }

    /** `train`: record every window of every padded sentence into the three tables. */
    method Train(corpus: Corpus)
      requires corpus != [] ==> n >= 1
      modifies this`ngramCounts, this`contextCounts, this`vocab, this`events
      ensures events == old(events) + TrainingEvents(corpus, n)
      ensures ngramCounts == RecordAll(old(ngramCounts), TrainingEvents(corpus, n))
      ensures contextCounts == Tally(old(contextCounts), ContextsOf(TrainingEvents(corpus, n)))
      ensures vocab == old(vocab) + WordsOf(TrainingEvents(corpus, n))
      ensures old(Valid()) ==> Valid()
    {
      ghost var seen: seq<Event> := [];
      for i := 0 to |corpus|
        invariant seen == TrainingEvents(corpus[..i], n)
        invariant ngramCounts == RecordAll(old(ngramCounts), seen)
        invariant contextCounts == Tally(old(contextCounts), ContextsOf(seen))
        invariant vocab == old(vocab) + WordsOf(seen)
        invariant events == old(events) + seen
      {
        var tokens := Padded(corpus[i], n);
        ghost var added := EventsOf(Windows(tokens, n));
        SentenceSnoc(corpus, n, i);
        RecordAppend(old(ngramCounts), old(contextCounts), old(vocab), seen, added);
        AppendAssoc(old(events), seen, added);
        RecordWindows(tokens);
        seen := seen + added;
      }
      assert corpus[..|corpus|] == corpus;
      RecordAppend(map[], map[], {}, old(events), seen);
    }

    /** The inner loop of `train`: record every window of one padded sentence. */
    method RecordWindows(tokens: seq<Token>)
      requires n >= 1
      modifies this`ngramCounts, this`contextCounts, this`vocab, this`events
      ensures events == old(events) + EventsOf(Windows(tokens, n))
      ensures ngramCounts == RecordAll(old(ngramCounts), EventsOf(Windows(tokens, n)))
      ensures contextCounts == Tally(old(contextCounts), ContextsOf(EventsOf(Windows(tokens, n))))
      ensures vocab == old(vocab) + WordsOf(EventsOf(Windows(tokens, n)))
    {
      ghost var seen: seq<Event> := [];
      var count := if |tokens| < n then 0 else |tokens| - n + 1;
      for j := 0 to count
        invariant seen == WindowEvents(tokens, n, j)
        invariant ngramCounts == RecordAll(old(ngramCounts), seen)
        invariant contextCounts == Tally(old(contextCounts), ContextsOf(seen))
        invariant vocab == old(vocab) + WordsOf(seen)
        invariant events == old(events) + seen
      {
        var ngram := tokens[j..j + n];
        var context, word := ngram[..|ngram| - 1], ngram[|ngram| - 1];
        WindowEventsSnoc(tokens, n, j, seen, ngram);
        RecordSnoc(old(ngramCounts), old(contextCounts), old(vocab), seen, Event(context, word));
        AppendAssoc(old(events), seen, [Event(context, word)]);
        Count(context, word);
        seen := seen + [Event(context, word)];
      }
      WindowsCount(tokens, n);
      WindowEventsAre(tokens, n, count);
      assert Windows(tokens, n)[..count] == Windows(tokens, n);
    }

    /** The body of the inner loop of `train`: count one window `context + (word,)`. */
    method Count(context: NGram, word: Token)
      modifies this`ngramCounts, this`contextCounts, this`vocab, this`events
      ensures ngramCounts == Record(old(ngramCounts), Event(context, word))
      ensures contextCounts == Inc(old(contextCounts), context)
      ensures vocab == old(vocab) + {word}
      ensures events == old(events) + [Event(context, word)]
    {
      ngramCounts := ngramCounts[context := Inc(Followers(ngramCounts, context), word)];
      contextCounts := Inc(contextCounts, context);
      vocab := vocab + {word};
      events := events + [Event(context, word)];
    }

    /** `get_context_prob`: the relative frequency of `word` after a seen context, else the uniform `1 / |vocab|`. */
    function GetContextProb(context: NGram, word: Token): (r: real)
      reads this
      requires context in contextCounts ==> contextCounts[context] > 0
      requires context !in contextCounts ==> vocab != {}
      ensures r >= 0.0
    {
      if context in contextCounts then
        Get(Followers(ngramCounts, context), word) as real / contextCounts[context] as real
      else
        1.0 / |vocab| as real
    }

    /**
     `get_ngram_prob`: the uniform `1 / |vocab|` for an unseen context;
     otherwise the discounted count of the n-gram over the context count, plus
     the discount times the number of distinct followers over the context
     count, times `get_context_prob`.
     */
    function GetNgramProb(ngram: NGram): (r: real)
      reads this
      requires |ngram| >= 1
      requires Prefix(ngram) in contextCounts ==> contextCounts[Prefix(ngram)] > 0
      requires Prefix(ngram) !in contextCounts ==> vocab != {}
      ensures 0.0 <= discount <= 1.0 ==> r >= 0.0
    {
      var context, word := Prefix(ngram), ngram[|ngram| - 1];
      if context !in contextCounts then
        1.0 / |vocab| as real
      else
        var lower := GetContextProb(context, word);
        var count, total := Get(Followers(ngramCounts, context), word), contextCounts[context];
        var followers := |Followers(ngramCounts, context).Keys|;
        var p := Backoff(count, total, followers, discount, lower);
        assert 0.0 <= discount <= 1.0 ==> p >= 0.0 by {
          if 0.0 <= discount <= 1.0 {
            BackoffNonnegative(count, total, followers, discount, lower);
          }
        }
        p
    }

    // -------------------------------------------------------------------
    // What the tables mean on a valid model

    /** The two counters know the same contexts, the contexts of the recorded events, and every context count is positive. */
    lemma ValidTables()
      requires Valid()
      ensures contextCounts.Keys == ngramCounts.Keys
      ensures ngramCounts.Keys == set e | e in events :: e.context
      ensures forall c :: c in contextCounts ==> contextCounts[c] >= 1
    {
      ContextCountKeys(events);
      RecordAllContexts(events);
    }

    /**
     Every increment of `context_counts[c]` comes with one of some
     `ngram_counts[c][w]`: the context count is the number of recorded events
     with context c, it is the sum of the counts of its words, and it is at
     least the number of distinct words seen after c.
     */
    lemma ContextCountsPaired(c: NGram)
      requires Valid()
      ensures Get(contextCounts, c) == ContextOccurrences(events, c)
      ensures Get(contextCounts, c) == Sum(Followers(ngramCounts, c))
      ensures Followers(ngramCounts, c).Keys == FollowersOf(events, c)
      ensures |FollowersOf(events, c)| <= Get(contextCounts, c)
      ensures c in contextCounts <==> Followers(ngramCounts, c).Keys != {}
    {
      ValidTables();
      if c in contextCounts {
        var e :| e in events && e.context == c;
        assert e.word in FollowersOf(events, c);
      }
      TallyGet(map[], ContextsOf(events), c);
      ContextCountIsSum(events, c);
      RecordAllFollowers(events, c);
      var f := Followers(ngramCounts, c);
      forall w | w in f
        ensures f[w] >= 1
      {
        RecordAllGet(map[], events, c, w);
        var e :| e in events && e.context == c && e.word == w;
        assert e == Event(c, w);
      }
      SumOverAtLeastSize(f, f.Keys);
    }

    /** Each cell of the nested counter is the number of times its event was recorded. */
    lemma NGramCountInHistory(c: NGram, w: Token)
      requires Valid()
      ensures Get(Followers(ngramCounts, c), w) == multiset(events)[Event(c, w)]
    {
      RecordAllGet(map[], events, c, w);
    }

    /** For a seen context, `get_context_prob` is the share of that context's events that end in `word`: a value in [0, 1], 0 exactly when the pair was never recorded. */
    lemma ContextProbInHistory(context: NGram, word: Token)
      requires Valid() && context in contextCounts
      ensures contextCounts[context] > 0 && ContextOccurrences(events, context) == contextCounts[context]
      ensures GetContextProb(context, word)
           == multiset(events)[Event(context, word)] as real / ContextOccurrences(events, context) as real
      ensures 0.0 <= GetContextProb(context, word) <= 1.0
      ensures GetContextProb(context, word) == 0.0 <==> Event(context, word) !in events
    {
      ValidTables();
      ContextCountsPaired(context);
      NGramCountInHistory(context, word);
      var f := Followers(ngramCounts, context);
      if word in f {
        SumOverBound(f, f.Keys, word);
      }
      Fraction(Get(f, word), contextCounts[context]);
    }

    /** A context with no recorded event gets the uniform estimate over the words recorded so far. */
    lemma UnseenContextUniform(ngram: NGram)
      requires Valid() && |ngram| >= 1
      requires ContextOccurrences(events, Prefix(ngram)) == 0 && WordsOf(events) != {}
      ensures Prefix(ngram) !in contextCounts && vocab != {}
      ensures GetNgramProb(ngram) == 1.0 / |WordsOf(events)| as real
      ensures GetContextProb(Prefix(ngram), ngram[|ngram| - 1]) == 1.0 / |WordsOf(events)| as real
    {
      ValidTables();
      ContextCountsPaired(Prefix(ngram));
    }

    /**
     For a context with recorded events, `get_ngram_prob` is the backoff
     formula over the history: k the times the n-gram was recorded, t the
     events of its context, K the distinct words after that context, and the
     lower estimate k / t.
     */
    lemma SeenContextInHistory(ngram: NGram)
      requires Valid() && |ngram| >= 1
      requires ContextOccurrences(events, Prefix(ngram)) > 0
      ensures Prefix(ngram) in contextCounts && contextCounts[Prefix(ngram)] > 0
      ensures var c, k := Prefix(ngram), multiset(events)[EventOf(ngram)];
        var t := ContextOccurrences(events, c);
        GetNgramProb(ngram) == Backoff(k, t, |FollowersOf(events, c)|, discount, k as real / t as real)
    {
      var c, w := Prefix(ngram), ngram[|ngram| - 1];
      ValidTables();
      ContextCountsPaired(c);
      NGramCountInHistory(c, w);
    }

    /** For any discount, a word never seen after a seen context gets probability 0. */
    lemma UnseenWordZero(ngram: NGram)
      requires Valid() && |ngram| >= 1
      requires ContextOccurrences(events, Prefix(ngram)) > 0
      requires EventOf(ngram) !in events
      ensures Prefix(ngram) in contextCounts && contextCounts[Prefix(ngram)] > 0
      ensures GetNgramProb(ngram) == 0.0
    {
      SeenContextInHistory(ngram);
      var c := Prefix(ngram);
      assert multiset(events)[EventOf(ngram)] == 0;
      BackoffUnseenFraction(ContextOccurrences(events, c), |FollowersOf(events, c)|, discount);
    }

    /** With 0 <= discount <= 1 and a seen context, `get_ngram_prob` is 0 exactly for the n-grams never recorded, and positive otherwise. */
    lemma ZeroIffUnseen(ngram: NGram)
      requires Valid() && |ngram| >= 1
      requires ContextOccurrences(events, Prefix(ngram)) > 0
      requires 0.0 <= discount <= 1.0
      ensures Prefix(ngram) in contextCounts && contextCounts[Prefix(ngram)] > 0
      ensures GetNgramProb(ngram) == 0.0 <==> EventOf(ngram) !in events
      ensures GetNgramProb(ngram) > 0.0 <==> EventOf(ngram) in events
    {
      var c, w := Prefix(ngram), ngram[|ngram| - 1];
      SeenContextInHistory(ngram);
      var k, t := multiset(events)[EventOf(ngram)], ContextOccurrences(events, c);
      ContextCountsPaired(c);
      NGramCountInHistory(c, w);
      var f := Followers(ngramCounts, c);
      if w in f {
        SumOverBound(f, f.Keys, w);
      }
      if k > 0 {
        assert w in FollowersOf(events, c);
      }
      BackoffZeroIff(k, t, |FollowersOf(events, c)|, discount);
    }
  }
}
