/**
 The interpolated Kneser-Ney model of KN_smoothing.py (class `KneserNeySmoothing`).

 Construction makes one counting pass over the tokenized corpus. It builds the
 unigram and order-n n-gram counters and their totals. Then two more passes
 over the distinct n-gram keys, one per table, build the continuation counts
 (distinct n-grams per suffix `g[1:]`) and the context counts (distinct
 n-grams per prefix `g[:-1]`).
 Queries are pure, recursive arithmetic over these read-only tables. They use
 exact `real` values where the source uses floats.

 In the source, `ngramCounts` is keyed by order first, then by n-gram. Only
 order `n` is ever filled. Here it is one counter whose keys all have length
 `n`, so a lookup of an n-gram of any other length reads 0, as in the source.
 */
module KNSmoothing {
  import opened Counters
  import opened NGrams

  type Corpus = seq<seq<Token>>

  // ---------------------------------------------------------------------
  // What the counting pass is meant to see

  /** Every token of the corpus, sentence after sentence. */
  function Tokens(corpus: Corpus): seq<Token>
  {
    if corpus == [] then []
    else Tokens(corpus[..|corpus| - 1]) + corpus[|corpus| - 1]
  }

  /** Every order-n window of the corpus, sentence after sentence; no window crosses two sentences. */
  function CorpusNGrams(corpus: Corpus, n: int): (r: seq<NGram>)
    ensures forall j :: 0 <= j < |r| ==> |r[j]| == n
  {
    if corpus == [] then []
    else CorpusNGrams(corpus[..|corpus| - 1], n) + Windows(corpus[|corpus| - 1], n)
  }

  /** The number of windows each sentence should contribute, max(L - n + 1, 0), summed over the corpus. */
  function WindowTotal(corpus: Corpus, n: int): nat
  {
    if corpus == [] then 0
    else
      var last := corpus[|corpus| - 1];
      WindowTotal(corpus[..|corpus| - 1], n) + (if n <= 0 || |last| < n then 0 else |last| - n + 1)
  }

  /** The number of distinct order-n n-grams of the corpus with prefix `p`. */
  ghost function ContextTypes(corpus: Corpus, n: int, p: NGram): nat
  {
    |set g | g in CorpusNGrams(corpus, n) && Prefix(g) == p|
  }

  /** The number of distinct order-n n-grams of the corpus with suffix `s`. */
  ghost function ContinuationTypes(corpus: Corpus, n: int, s: NGram): nat
  {
    |set g | g in CorpusNGrams(corpus, n) && Suffix(g) == s|
  }

  /** `max(x, 0)`. */
  function Max0(x: real): (r: real)
    ensures r >= 0.0 && r >= x
    ensures r == x || r == 0.0
  {
    if x >= 0.0 then x else 0.0
  }

  /**
   The interpolation step: the discounted count of the n-gram over the context
   count of its prefix, plus the discount times the lower-order estimate over
   the same context count.
   */
  function Interpolated(ngramCount: nat, prefixCount: nat, d: real, lower: real): (r: real)
    requires prefixCount > 0
    ensures d >= 0.0 && lower >= 0.0 ==> r >= 0.0
  {
    var p := prefixCount as real;
    var discounted := Max0(ngramCount as real - d);
    assert discounted / p >= 0.0;
    assert d >= 0.0 && lower >= 0.0 ==> d * lower >= 0.0 && d * lower / p >= 0.0;
    discounted / p + d * lower / p
  }

  /**
   The smoothed probability stated over the corpus itself, not over the
   tables: occurrence counts are multiplicities in the corpus, and context and
   continuation counts are numbers of distinct n-grams.
   */
  ghost function CorpusProbability(corpus: Corpus, n: int, d: real, g: NGram): real
    requires |g| >= 1 && |Tokens(corpus)| > 0
    requires |g| >= 2 ==> |CorpusNGrams(corpus, n)| > 0
    decreases |g|
  {
    if |g| == 1 then
      multiset(Tokens(corpus))[g[0]] as real / |Tokens(corpus)| as real
    else if ContextTypes(corpus, n, Prefix(g)) == 0 then
      ContinuationTypes(corpus, n, [g[|g| - 1]]) as real / |CorpusNGrams(corpus, n)| as real
    else
      Interpolated(multiset(CorpusNGrams(corpus, n))[g], ContextTypes(corpus, n, Prefix(g)), d,
                   CorpusProbability(corpus, n, d, g[1..]))
  }

  // ---------------------------------------------------------------------
  // Facts about the counting pass

  /** One more sentence adds its tokens and its windows at the end. */
  lemma CorpusSnoc(corpus: Corpus, n: int, i: nat)
    requires i < |corpus|
    ensures Tokens(corpus[..i + 1]) == Tokens(corpus[..i]) + corpus[i]
    ensures CorpusNGrams(corpus[..i + 1], n) == CorpusNGrams(corpus[..i], n) + Windows(corpus[i], n)
  {
    assert corpus[..i + 1][..i] == corpus[..i];
  }

  /** Counting one more sentence: its tokens and its windows are counted on top of what the earlier sentences gave. */
  lemma CountSnoc(corpus: Corpus, n: int, i: nat, unigrams: map<Token, nat>, ngrams: map<NGram, nat>)
    requires i < |corpus|
    ensures Tally(unigrams, Tokens(corpus[..i + 1])) == Tally(Tally(unigrams, Tokens(corpus[..i])), corpus[i])
    ensures |Tokens(corpus[..i + 1])| == |Tokens(corpus[..i])| + |corpus[i]|
    ensures Tally(ngrams, CorpusNGrams(corpus[..i + 1], n))
         == Tally(Tally(ngrams, CorpusNGrams(corpus[..i], n)), Windows(corpus[i], n))
    ensures |CorpusNGrams(corpus[..i + 1], n)| == |CorpusNGrams(corpus[..i], n)| + |Windows(corpus[i], n)|
  {
    CorpusSnoc(corpus, n, i);
    TallyAppend(unigrams, Tokens(corpus[..i]), corpus[i]);
    TallyAppend(ngrams, CorpusNGrams(corpus[..i], n), Windows(corpus[i], n));
  }

  /** The corpus has at least as many tokens as order-n windows. */
  lemma {:induction false} NGramsFitInTokens(corpus: Corpus, n: int)
    ensures |CorpusNGrams(corpus, n)| <= |Tokens(corpus)|
  {
    if corpus != [] {
      NGramsFitInTokens(corpus[..|corpus| - 1], n);
      WindowsCount(corpus[|corpus| - 1], n);
    }
  }

  /** Each sentence of L tokens contributes exactly max(L - n + 1, 0) windows. */
  lemma {:induction false} CorpusNGramsCount(corpus: Corpus, n: int)
    ensures |CorpusNGrams(corpus, n)| == WindowTotal(corpus, n)
  {
    if corpus != [] {
      CorpusNGramsCount(corpus[..|corpus| - 1], n);
      WindowsCount(corpus[|corpus| - 1], n);
    }
  }

  /** Counting the tokens of a corpus: the counts add up to the token total, and each reads as the word's number of occurrences. */
  lemma UnigramTable(corpus: Corpus, w: Token)
    ensures Sum(Tally(map[], Tokens(corpus))) == |Tokens(corpus)|
    ensures Get(Tally(map[], Tokens(corpus)), w) == multiset(Tokens(corpus))[w]
  {
    TallySum(map[], Tokens(corpus));
    TallyGet(map[], Tokens(corpus), w);
  }

  /** Counting the windows of a corpus: the keys are exactly the distinct windows, all of length n, and the counts add up to the window total. */
  lemma NGramTable(corpus: Corpus, n: int)
    ensures Tally(map[], CorpusNGrams(corpus, n)).Keys == set g | g in CorpusNGrams(corpus, n)
    ensures forall g :: g in Tally(map[], CorpusNGrams(corpus, n)) ==> |g| == n
    ensures Sum(Tally(map[], CorpusNGrams(corpus, n))) == |CorpusNGrams(corpus, n)| == WindowTotal(corpus, n)
  {
    TallyKeys(map[], CorpusNGrams(corpus, n));
    TallySum(map[], CorpusNGrams(corpus, n));
    CorpusNGramsCount(corpus, n);
  }

  /** The context-count table of a corpus reads, for every prefix, the number of distinct n-grams with that prefix. */
  lemma ContextTable(corpus: Corpus, n: int, p: NGram)
    ensures Get(TypeCounts(Tally(map[], CorpusNGrams(corpus, n)).Keys, Prefix), p) == ContextTypes(corpus, n, p)
  {
    var all := CorpusNGrams(corpus, n);
    var keys := Tally(map[], all).Keys;
    TallyKeys(map[], all);
    TypeCountsGet(keys, Prefix, p, set h | h in all && Prefix(h) == p);
  }

  /** The continuation-count table of a corpus reads, for every suffix, the number of distinct n-grams with that suffix. */
  lemma ContinuationTable(corpus: Corpus, n: int, s: NGram)
    ensures Get(TypeCounts(Tally(map[], CorpusNGrams(corpus, n)).Keys, Suffix), s) == ContinuationTypes(corpus, n, s)
  {
    var all := CorpusNGrams(corpus, n);
    var keys := Tally(map[], all).Keys;
    TallyKeys(map[], all);
    TypeCountsGet(keys, Suffix, s, set h | h in all && Suffix(h) == s);
  }

  /**
   The continuation and context counts depend only on WHICH n-grams occur:
   two corpora with the same distinct n-grams get the same tables, however
   often each n-gram occurs and in whatever order the keys are visited.
   */
  lemma DistinctTypesOnly(c1: Corpus, c2: Corpus, n: int)
    requires (set g | g in CorpusNGrams(c1, n)) == (set g | g in CorpusNGrams(c2, n))
    ensures TypeCounts(Tally(map[], CorpusNGrams(c1, n)).Keys, Suffix)
         == TypeCounts(Tally(map[], CorpusNGrams(c2, n)).Keys, Suffix)
    ensures TypeCounts(Tally(map[], CorpusNGrams(c1, n)).Keys, Prefix)
         == TypeCounts(Tally(map[], CorpusNGrams(c2, n)).Keys, Prefix)
  {
    TallyKeys(map[], CorpusNGrams(c1, n));
    TallyKeys(map[], CorpusNGrams(c2, n));
  }

  // ---------------------------------------------------------------------
  // Products of window probabilities

  /** The product of `ps`, multiplied left to right from 1. */
  function Product(ps: seq<real>): real
  {
    if ps == [] then 1.0 else Product(ps[..|ps| - 1]) * ps[|ps| - 1]
  }

  /** The product over a concatenation is the product of the two products. */
  lemma {:induction false} ProductAppend(a: seq<real>, b: seq<real>)
    ensures Product(a + b) == Product(a) * Product(b)
    decreases |b|
  {
    if b == [] {
      assert a + b == a;
    } else {
      var init, last := b[..|b| - 1], b[|b| - 1];
      assert (a + b)[..|a + b| - 1] == a + init;
      assert (a + b)[|a + b| - 1] == last;
      ProductAppend(a, init);
      assert Product(a + b) == (Product(a) * Product(init)) * last;
      assert Product(b) == Product(init) * last;
    }
  }

  /** Multiplying one more factor at the end. */
  lemma ProductSnoc(ps: seq<real>, p: real)
    ensures Product(ps + [p]) == Product(ps) * p
  {
    assert (ps + [p])[..|ps|] == ps;
  }

  /** A product of non-negative factors is non-negative. */
  lemma {:induction false} ProductNonnegative(ps: seq<real>)
    requires forall i :: 0 <= i < |ps| ==> ps[i] >= 0.0
    ensures Product(ps) >= 0.0
  {
    if ps != [] {
      ProductNonnegative(ps[..|ps| - 1]);
      NonnegativeMul(Product(ps[..|ps| - 1]), ps[|ps| - 1]);
    }
  }

  lemma NonnegativeMul(x: real, y: real)
    requires x >= 0.0 && y >= 0.0
    ensures x * y >= 0.0
  {
  }

  /** A count over a positive total is 0 exactly when the count is. */
  lemma RatioZero(count: nat, total: nat)
    requires total > 0
    ensures count as real / total as real == 0.0 <==> count == 0
  {
    if count > 0 {
      assert count as real / total as real > 0.0;
    }
  }

  /** `acc *= p`, where `acc` is the product of `ps`. */
  method MultiplyInto(acc: real, ps: seq<real>, p: real) returns (r: real)
    requires acc == Product(ps)
    ensures r == Product(ps + [p])
  {
    r := acc * p;
    ProductSnoc(ps, p);
  }

  /** Multiplying one more factor in front. */
  lemma ProductCons(p: real, ps: seq<real>)
    ensures Product([p] + ps) == p * Product(ps)
  {
    ProductAppend([p], ps);
    assert [p][..0] == [];
  }

  class KneserNeySmoothing {
    const n: int
    const descuento: real
    var unigramCounts: map<Token, nat>
    var ngramCounts: map<NGram, nat>
    var cuentasContinuacion: map<NGram, nat>
    var cuentasContexto: map<NGram, nat>
    var totalNgrams: nat
    var totalUnigrams: nat
    /** The corpus the tables were built from. */
    ghost const corpus: Corpus

    /** The tables are those one counting pass over `corpus` builds. */
    ghost predicate Valid()
      reads this
    {
      && unigramCounts == Tally(map[], Tokens(corpus))
      && totalUnigrams == |Tokens(corpus)|
      && ngramCounts == Tally(map[], CorpusNGrams(corpus, n))
      && totalNgrams == |CorpusNGrams(corpus, n)|
      && cuentasContinuacion == TypeCounts(ngramCounts.Keys, Suffix)
      && cuentasContexto == TypeCounts(ngramCounts.Keys, Prefix)
    }

    /** `__init__`: count the corpus, then the continuation and context tables. */
    constructor (corpus: Corpus, n: int, descuento: real)
      ensures Valid()
      ensures this.corpus == corpus && this.n == n && this.descuento == descuento
    {
      this.n := n;
      this.descuento := descuento;
      unigramCounts := map[];
      ngramCounts := map[];
      cuentasContinuacion := map[];
      cuentasContexto := map[];
      totalNgrams := 0;
      totalUnigrams := 0;
      this.corpus := corpus;
      new;
      CalcularFrecuencias(corpus);
      CalcularCuentasContinuacion();
      CalcularCuentasContexto();
      PlusEmpty(TypeCounts(ngramCounts.Keys, Suffix));
      PlusEmpty(TypeCounts(ngramCounts.Keys, Prefix));
    }

    /** `_calcularFrecuencias`: add the corpus's tokens and order-n windows to the counters and totals. */
    method CalcularFrecuencias(corpus: Corpus)
      modifies this`unigramCounts, this`ngramCounts, this`totalNgrams, this`totalUnigrams
      ensures unigramCounts == Tally(old(unigramCounts), Tokens(corpus))
      ensures totalUnigrams == old(totalUnigrams) + |Tokens(corpus)|
      ensures ngramCounts == Tally(old(ngramCounts), CorpusNGrams(corpus, n))
      ensures totalNgrams == old(totalNgrams) + |CorpusNGrams(corpus, n)|
    {
      ghost var unigrams0, ngrams0, total0, tokens0 := unigramCounts, ngramCounts, totalNgrams, totalUnigrams;
      for i := 0 to |corpus|
        invariant unigramCounts == Tally(unigrams0, Tokens(corpus[..i]))
        invariant totalUnigrams == tokens0 + |Tokens(corpus[..i])|
        invariant ngramCounts == Tally(ngrams0, CorpusNGrams(corpus[..i], n))
        invariant totalNgrams == total0 + |CorpusNGrams(corpus[..i], n)|
      {
        var tokens := corpus[i];
        totalUnigrams := totalUnigrams + |tokens|;
        unigramCounts := Tally(unigramCounts, tokens);
        var ngrams := Windows(tokens, n);
        ghost var before, start := CorpusNGrams(corpus[..i], n), ngramCounts;
        for j := 0 to |ngrams|
          modifies this`ngramCounts, this`totalNgrams
          invariant ngramCounts == Tally(start, ngrams[..j])
          invariant totalNgrams == total0 + |before| + j
        {
          var ngram := ngrams[j];
          TallyPrefix(start, ngrams, j);
          ngramCounts := Inc(ngramCounts, ngram);
          totalNgrams := totalNgrams + 1;
        }
        assert ngrams[..|ngrams|] == ngrams;
        assert ngramCounts == Tally(start, ngrams);
        assert totalNgrams == total0 + |before| + |ngrams|;
        CountSnoc(corpus, n, i, unigrams0, ngrams0);
      }
      assert corpus[..|corpus|] == corpus;
    }

    /** `_calcularCuentasContinuacion`: once per DISTINCT n-gram key, add 1 to the count of its suffix. */
    method CalcularCuentasContinuacion()
      modifies this`cuentasContinuacion
      ensures cuentasContinuacion == Plus(old(cuentasContinuacion), TypeCounts(ngramCounts.Keys, Suffix))
    {
      var pending, counts := ngramCounts.Keys, cuentasContinuacion;
      ghost var keys, visited: set<NGram> := pending, {};
      PlusTypeCountsEmpty(counts, Suffix);
      while pending != {}
        invariant pending + visited == keys && pending !! visited
        invariant counts == Plus(old(cuentasContinuacion), TypeCounts(visited, Suffix))
        decreases pending
      {
        var ngram :| ngram in pending;
        PlusTypeCountsAdd(old(cuentasContinuacion), visited, ngram, Suffix);
        counts := Inc(counts, Suffix(ngram));
        pending := pending - {ngram};
        visited := visited + {ngram};
      }
      assert visited == keys;
      cuentasContinuacion := counts;
    }

    /** `_calcularCuentasContexto`: once per DISTINCT n-gram key, add 1 to the count of its prefix. */
    method CalcularCuentasContexto()
      modifies this`cuentasContexto
      ensures cuentasContexto == Plus(old(cuentasContexto), TypeCounts(ngramCounts.Keys, Prefix))
    {
      var pending, counts := ngramCounts.Keys, cuentasContexto;
      ghost var keys, visited: set<NGram> := pending, {};
      PlusTypeCountsEmpty(counts, Prefix);
      while pending != {}
        invariant pending + visited == keys && pending !! visited
        invariant counts == Plus(old(cuentasContexto), TypeCounts(visited, Prefix))
        decreases pending
      {
        var ngram :| ngram in pending;
        var context := Prefix(ngram);
        PlusTypeCountsAdd(old(cuentasContexto), visited, ngram, Prefix);
        counts := Inc(counts, context);
        pending := pending - {ngram};
        visited := visited + {ngram};
      }
      assert visited == keys;
      cuentasContexto := counts;
    }

    /**
     The queries the source answers without dividing by zero: a non-empty
     tuple, a positive token total, and for two tokens or more a positive
     n-gram total. On a valid model a positive n-gram total implies a
     positive token total (`QueryableExact`).
     */
    predicate Queryable(k: int)
      reads this
    {
      k >= 1 && totalUnigrams > 0 && (k >= 2 ==> totalNgrams > 0)
    }

    /** `_probabilidadContinuacion`: the continuation count of the one-token tuple `(word,)` over the n-gram total. */
    function ProbabilidadContinuacion(word: Token): (r: real)
      reads this
      requires totalNgrams > 0
      ensures r >= 0.0
    {
      Get(cuentasContinuacion, [word]) as real / totalNgrams as real
    }

    /** `_probabilidadCondicional`: the smoothed probability, recursing on `ngram[1:]` down to one token. */
    function ProbabilidadCondicional(ngram: NGram): (r: real)
      reads this
      requires Queryable(|ngram|)
      ensures descuento >= 0.0 ==> r >= 0.0
      decreases |ngram|
    {
      if |ngram| == 1 then
        Get(unigramCounts, ngram[0]) as real / totalUnigrams as real
      else
        var prefix, word := Prefix(ngram), ngram[|ngram| - 1];
        var prefixCount := Get(cuentasContexto, prefix);
        if prefixCount == 0 then
          ProbabilidadContinuacion(word)
        else
          var ngramCount := Get(ngramCounts, ngram);
          var lowerOrderProb := ProbabilidadCondicional(ngram[1..]);
          Interpolated(ngramCount, prefixCount, descuento, lowerOrderProb)
    }

    /** `obtenerProbabilidad`: the public name of the query. */
    function ObtenerProbabilidad(ngram: NGram): (r: real)
      reads this
      requires Queryable(|ngram|)
      ensures r == ProbabilidadCondicional(ngram)
    {
      ProbabilidadCondicional(ngram)
    }

    /** The probability of each window, in order. */
    function ProbabilidadesVentanas(ngrams: seq<NGram>): (ps: seq<real>)
      reads this
      requires forall j :: 0 <= j < |ngrams| ==> Queryable(|ngrams[j]|)
      ensures |ps| == |ngrams|
    {
      if ngrams == [] then []
      else ProbabilidadesVentanas(ngrams[..|ngrams| - 1]) + [ObtenerProbabilidad(ngrams[|ngrams| - 1])]
    }

    lemma {:induction false} ProbabilidadesVentanasAppend(a: seq<NGram>, b: seq<NGram>)
      requires forall j :: 0 <= j < |a| ==> Queryable(|a[j]|)
      requires forall j :: 0 <= j < |b| ==> Queryable(|b[j]|)
      ensures ProbabilidadesVentanas(a + b) == ProbabilidadesVentanas(a) + ProbabilidadesVentanas(b)
      decreases |b|
    {
      if b == [] {
        assert a + b == a;
      } else {
        assert (a + b)[..|a + b| - 1] == a + b[..|b| - 1];
        ProbabilidadesVentanasAppend(a, b[..|b| - 1]);
      }
    }

    /** One more window appends its probability. */
    lemma ProbabilidadesSnoc(ngrams: seq<NGram>, i: nat)
      requires i < |ngrams| && forall j :: 0 <= j < |ngrams| ==> Queryable(|ngrams[j]|)
      ensures ProbabilidadesVentanas(ngrams[..i + 1])
           == ProbabilidadesVentanas(ngrams[..i]) + [ObtenerProbabilidad(ngrams[i])]
    {
      var longer := ngrams[..i + 1];
      assert longer[..|longer| - 1] == ngrams[..i] && longer[|longer| - 1] == ngrams[i];
    }

    /** The probability of a tokenized sentence: the product of the probabilities of its order-n windows. */
    function ProbabilidadOracion(tokens: seq<Token>): (r: real)
      reads this
      requires Windows(tokens, n) != [] ==> Queryable(n)
      ensures descuento >= 0.0 ==> r >= 0.0
    {
      var ps := ProbabilidadesVentanas(Windows(tokens, n));
      if descuento >= 0.0 then
        ProbabilidadesNonnegative(Windows(tokens, n));
        ProductNonnegative(ps);
        Product(ps)
      else
        Product(ps)
    }

    /** `generarProbabilidadOracion`: multiply the window probabilities into `prob`, from 1. */
    method GenerarProbabilidadOracion(tokens: seq<Token>) returns (prob: real)
      requires Windows(tokens, n) != [] ==> Queryable(n)
      ensures prob == ProbabilidadOracion(tokens)
    {
      var ngrams := Windows(tokens, n);
      prob := 1.0;
      for i := 0 to |ngrams|
        invariant prob == Product(ProbabilidadesVentanas(ngrams[..i]))
      {
        ProbabilidadesSnoc(ngrams, i);
        prob := MultiplyInto(prob, ProbabilidadesVentanas(ngrams[..i]), ObtenerProbabilidad(ngrams[i]));
      }
      assert ngrams[..|ngrams|] == ngrams;
    }

    // -------------------------------------------------------------------
    // Properties of a constructed model

    /** On a valid model the token total is the sum of the unigram counts and the n-gram total is the sum of the n-gram counts. */
    lemma TotalsAreSums()
      requires Valid()
      ensures totalUnigrams == Sum(unigramCounts)
      ensures totalNgrams == Sum(ngramCounts) == WindowTotal(corpus, n)
      ensures totalNgrams <= totalUnigrams
      ensures forall g :: g in ngramCounts ==> |g| == n
    {
      UnigramTable(corpus, "");
      NGramTable(corpus, n);
      NGramsFitInTokens(corpus, n);
    }

    /** On a valid model, a query of two tokens or more is answerable exactly when the n-gram total is positive. */
    lemma QueryableExact(k: int)
      requires Valid() && k >= 2
      ensures Queryable(k) <==> totalNgrams > 0
    {
      NGramsFitInTokens(corpus, n);
    }

    /** The continuation and context counts add up to the number of distinct n-grams. */
    lemma TypeTotals()
      requires Valid()
      ensures Sum(cuentasContinuacion) == |ngramCounts.Keys|
      ensures Sum(cuentasContexto) == |ngramCounts.Keys|
    {
      TypeCountsSum(ngramCounts.Keys, Suffix);
      TypeCountsSum(ngramCounts.Keys, Prefix);
    }

    /** A one-token query is the word's relative frequency in the corpus, and 0 exactly for a word the corpus never contains. */
    lemma UnigramQuery(w: Token)
      requires Valid() && Queryable(1)
      ensures ProbabilidadCondicional([w]) == multiset(Tokens(corpus))[w] as real / |Tokens(corpus)| as real
      ensures ProbabilidadCondicional([w]) == 0.0 <==> w !in Tokens(corpus)
    {
      UnigramTable(corpus, w);
      RatioZero(multiset(Tokens(corpus))[w], |Tokens(corpus)|);
    }

    /**
     A query whose prefix never starts an n-gram falls back to the continuation
     probability of its last word alone: two such queries with the same last
     word get the same value.
     */
    lemma UnseenPrefixFallback(g1: NGram, g2: NGram)
      requires Queryable(|g1|) && Queryable(|g2|) && |g1| >= 2 && |g2| >= 2
      requires Get(cuentasContexto, Prefix(g1)) == 0 && Get(cuentasContexto, Prefix(g2)) == 0
      requires g1[|g1| - 1] == g2[|g2| - 1]
      ensures ProbabilidadCondicional(g1) == ProbabilidadCondicional(g2)
                                          == ProbabilidadContinuacion(g1[|g1| - 1])
    {
    }

    /**
     The continuation table is keyed by suffixes of length n - 1, while the
     fallback looks up the one-token tuple `(word,)`: for any order other than
     2 the fallback is always 0.
     */
    lemma FallbackZeroUnlessBigrams(word: Token)
      requires Valid() && totalNgrams > 0 && n != 2
      ensures ProbabilidadContinuacion(word) == 0.0
    {
      NGramTable(corpus, n);
      forall g | g in ngramCounts.Keys
        ensures Suffix(g) != [word]
      {
        assert |g| == n && |Suffix(g)| != 1;
      }
      TypeCountsGet(ngramCounts.Keys, Suffix, [word], {});
      assert Get(cuentasContinuacion, [word]) == 0;
      RatioZero(0, totalNgrams);
    }

    /** On a valid model every query equals the probability stated over the corpus's own statistics. */
    lemma {:induction false} ProbabilidadMatchesCorpus(g: NGram)
      requires Valid() && Queryable(|g|)
      ensures ProbabilidadCondicional(g) == CorpusProbability(corpus, n, descuento, g)
      decreases |g|
    {
      if |g| == 1 {
        UnigramTable(corpus, g[0]);
      } else {
        var all, p, word := CorpusNGrams(corpus, n), Prefix(g), g[|g| - 1];
        ContextTable(corpus, n, p);
        if Get(cuentasContexto, p) == 0 {
          ContinuationTable(corpus, n, [word]);
          assert ProbabilidadCondicional(g) == ProbabilidadContinuacion(word);
        } else {
          TallyGet(map[], all, g);
          ProbabilidadMatchesCorpus(g[1..]);
        }
      }
    }

    /** The public query `obtenerProbabilidad` answers, on a valid model, the probability stated over the corpus. */
    lemma ObtenerProbabilidadMeaning(g: NGram)
      requires Valid() && Queryable(|g|)
      ensures ObtenerProbabilidad(g) == CorpusProbability(corpus, n, descuento, g)
    {
      ProbabilidadMatchesCorpus(g);
    }

    /** A sentence shorter than n tokens, or any sentence when n <= 0, forms no window and scores exactly 1. */
    lemma ShortSentence(tokens: seq<Token>)
      requires n <= 0 || |tokens| < n
      ensures Windows(tokens, n) == []
      ensures ProbabilidadOracion(tokens) == 1.0
    {
    }

    /**
     A sentence of at least n >= 1 tokens scores its first window first and then
     the windows of the rest: with `ProductCons`, its probability is the first
     window's probability times the probability of `tokens[1:]`.
     */
    lemma SentenceStep(tokens: seq<Token>)
      requires 1 <= n <= |tokens| && Queryable(n)
      ensures ProbabilidadesVentanas(Windows(tokens, n))
           == [ObtenerProbabilidad(tokens[..n])] + ProbabilidadesVentanas(Windows(tokens[1..], n))
    {
      var first, rest := tokens[..n], Windows(tokens[1..], n);
      assert Windows(tokens, n) == [first] + rest;
      ProbabilidadesVentanasAppend([first], rest);
      assert ProbabilidadesVentanas([first]) == [ObtenerProbabilidad(first)];
    }

    /** Every window probability is non-negative when the discount is. */
    lemma {:induction false} ProbabilidadesNonnegative(ngrams: seq<NGram>)
      requires forall j :: 0 <= j < |ngrams| ==> Queryable(|ngrams[j]|)
      requires descuento >= 0.0
      ensures forall j :: 0 <= j < |ngrams| ==> ProbabilidadesVentanas(ngrams)[j] >= 0.0
    {
      if ngrams != [] {
        var init := ngrams[..|ngrams| - 1];
        ProbabilidadesNonnegative(init);
        assert ProbabilidadesVentanas(ngrams) == ProbabilidadesVentanas(init) + [ObtenerProbabilidad(ngrams[|ngrams| - 1])];
      }
    }
  }
}
