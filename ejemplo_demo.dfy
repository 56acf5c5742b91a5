/**
 The usage example `main` of ejemplo.py: a bigram model trained on two
 sentences, queried for ("this", "is") and ("is", "a").
 */
module EjemploDemo {
  import opened Counters
  import opened NGrams
  import opened Ejemplo

  /** The two training sentences of the example. */
  function Example(): Corpus
  {
    [["this", "is", "a", "test"],
     ["this", "is", "another", "test"]]
  }

  /** The events a bigram model records for a padded four-token sentence. */
  function FourTokenEvents(a: Token, b: Token, c: Token, d: Token): seq<Event>
  {
    [Event(["<s>"], a), Event([a], b), Event([b], c), Event([c], d), Event([d], "</s>")]
  }

  /** A token in front of at least one more adds one bigram in front. */
  lemma BigramCons(x: Token, s: seq<Token>)
    requires |s| >= 1
    ensures Windows([x] + s, 2) == [[x, s[0]]] + Windows(s, 2)
  {
    assert ([x] + s)[..2] == [x, s[0]] && ([x] + s)[1..] == s;
  }

  /** The bigrams of a padded four-token sentence. */
  lemma SentenceBigrams(a: Token, b: Token, c: Token, d: Token)
    ensures Windows(Padded([a, b, c, d], 2), 2) == [["<s>", a], [a, b], [b, c], [c, d], [d, "</s>"]]
  {
    assert StartPadding(1) == [];
    assert StartPadding(2) == ["<s>"];
    var u: seq<Token> := ["</s>"];
    assert Windows(u, 2) == [];
    BigramCons(d, u);
    BigramCons(c, [d] + u);
    BigramCons(b, [c] + ([d] + u));
    BigramCons(a, [b] + ([c] + ([d] + u)));
    BigramCons("<s>", [a] + ([b] + ([c] + ([d] + u))));
    assert Padded([a, b, c, d], 2) == ["<s>"] + ([a] + ([b] + ([c] + ([d] + u))));
  }

  /** The events of a padded four-token sentence. */
  lemma SentenceEvents(a: Token, b: Token, c: Token, d: Token)
    ensures EventsOf(Windows(Padded([a, b, c, d], 2), 2)) == FourTokenEvents(a, b, c, d)
  {
    SentenceBigrams(a, b, c, d);
    var gs: seq<NGram> := [["<s>", a], [a, b], [b, c], [c, d], [d, "</s>"]];
    var es := EventsOf(gs);
    forall i | 0 <= i < 5
      ensures es[i] == FourTokenEvents(a, b, c, d)[i]
    {
      EventsAt(gs, i);
    }
  }

  /** Training on the example records the events of its two sentences, in order. */
  lemma ExampleEvents()
    ensures TrainingEvents(Example(), 2)
         == FourTokenEvents("this", "is", "a", "test") + FourTokenEvents("this", "is", "another", "test")
  {
    var c := Example();
    assert c[..0] == [];
    SentenceSnoc(c, 2, 0);
    SentenceSnoc(c, 2, 1);
    assert c[..2] == c;
    SentenceEvents("this", "is", "a", "test");
    SentenceEvents("this", "is", "another", "test");
  }

  /** The contexts of a padded four-token sentence. */
  lemma FourTokenContexts(a: Token, b: Token, c: Token, d: Token)
    ensures ContextsOf(FourTokenEvents(a, b, c, d)) == [["<s>"], [a], [b], [c], [d]]
  {
  }

  /** ("this", "is") was recorded twice and ("is", "a") once. */
  lemma ExampleCounts()
    ensures multiset(TrainingEvents(Example(), 2))[Event(["this"], "is")] == 2
    ensures multiset(TrainingEvents(Example(), 2))[Event(["is"], "a")] == 1
  {
    ExampleEvents();
  }

  /** Each of the contexts ("this",) and ("is",) was recorded twice. */
  lemma ExampleContexts()
    ensures ContextOccurrences(TrainingEvents(Example(), 2), ["this"]) == 2
    ensures ContextOccurrences(TrainingEvents(Example(), 2), ["is"]) == 2
  {
    ExampleEvents();
    ContextsOfAppend(FourTokenEvents("this", "is", "a", "test"), FourTokenEvents("this", "is", "another", "test"));
    FourTokenContexts("this", "is", "a", "test");
    FourTokenContexts("this", "is", "another", "test");
  }

  /** "is" is the only word recorded after "this". */
  lemma ExampleFollowersThis()
    ensures |FollowersOf(TrainingEvents(Example(), 2), ["this"])| == 1
  {
    ExampleEvents();
    var es := TrainingEvents(Example(), 2);
    forall w | w in FollowersOf(es, ["this"])
      ensures w == "is"
    {
      var e :| e in es && e.context == ["this"] && e.word == w;
    }
    assert es[1] == Event(["this"], "is");
    assert FollowersOf(es, ["this"]) == {"is"};
  }

  /** "a" and "another" are the words recorded after "is". */
  lemma ExampleFollowersIs()
    ensures |FollowersOf(TrainingEvents(Example(), 2), ["is"])| == 2
  {
    ExampleEvents();
    var es := TrainingEvents(Example(), 2);
    forall w | w in FollowersOf(es, ["is"])
      ensures w == "a" || w == "another"
    {
      var e :| e in es && e.context == ["is"] && e.word == w;
    }
    assert es[2] == Event(["is"], "a") && es[7] == Event(["is"], "another");
    assert FollowersOf(es, ["is"]) == {"a", "another"};
  }

  /** The two backoff values as exact rationals. */
  lemma ExampleArithmetic()
    ensures Backoff(2, 2, 1, 0.75, 2 as real / 2 as real) == 1.0
    ensures Backoff(1, 2, 2, 0.75, 1 as real / 2 as real) == 0.5
  {
  }

  /**
   A bigram over a seen context on a valid model: k records of the bigram,
   t of its context and f distinct words after the context give the backoff
   value of k, t and f.
   */
  lemma BigramInHistory(m: KneserNeyLM, a: Token, b: Token, k: nat, t: nat, f: nat, v: real)
    requires m.Valid() && t > 0
    requires multiset(m.events)[Event([a], b)] == k
    requires ContextOccurrences(m.events, [a]) == t
    requires |FollowersOf(m.events, [a])| == f
    requires Backoff(k, t, f, m.discount, k as real / t as real) == v
    ensures Prefix([a, b]) in m.contextCounts && m.contextCounts[Prefix([a, b])] > 0
    ensures m.GetNgramProb([a, b]) == v
  {
    assert Prefix([a, b]) == [a] && EventOf([a, b]) == Event([a], b);
    m.SeenContextInHistory([a, b]);
  }

  /** A valid model whose history is the example's training, with discount 0.75, gives P(is | this) = 1. */
  lemma ExampleThisIs(m: KneserNeyLM)
    requires m.Valid() && m.events == TrainingEvents(Example(), 2) && m.discount == 0.75
    ensures Prefix(["this", "is"]) in m.contextCounts && m.contextCounts[Prefix(["this", "is"])] > 0
    ensures m.GetNgramProb(["this", "is"]) == 1.0
  {
    ExampleCounts();
    ExampleContexts();
    ExampleFollowersThis();
    ExampleArithmetic();
    BigramInHistory(m, "this", "is", 2, 2, 1, 1.0);
  }

  /** The same model gives P(a | is) = 1/2. */
  lemma ExampleIsA(m: KneserNeyLM)
    requires m.Valid() && m.events == TrainingEvents(Example(), 2) && m.discount == 0.75
    ensures Prefix(["is", "a"]) in m.contextCounts && m.contextCounts[Prefix(["is", "a"])] > 0
    ensures m.GetNgramProb(["is", "a"]) == 0.5
  {
    ExampleCounts();
    ExampleContexts();
    ExampleFollowersIs();
    ExampleArithmetic();
    BigramInHistory(m, "is", "a", 1, 2, 2, 0.5);
  }

  /** `main`: train a bigram model with discount 0.75 on the example and query the two bigrams it prints. */
  method MainExample() returns (thisIs: real, isA: real)
    ensures thisIs == 1.0 && isA == 0.5
  {
    var model := new KneserNeyLM(2, 0.75);
    model.Train(Example());
    ExampleThisIs(model);
    ExampleIsA(model);
    thisIs := model.GetNgramProb(["this", "is"]);
    isA := model.GetNgramProb(["is", "a"]);
  }
}
