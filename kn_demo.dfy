/**
 The demonstration at the end of KN_smoothing.py: a bigram model with discount
 0.75 over five short sentences, four bigram queries and one sentence score.
 */
module KNDemo {
  import opened Counters
  import opened NGrams
  import opened KNSmoothing

  /** The demonstration corpus, each sentence already split on spaces. */
  function Demo(): Corpus
  {
    [["el", "gato", "come", "pescado"],
     ["el", "perro", "come", "carne"],
     ["el", "gato", "duerme"],
     ["el", "perro", "ladra"],
     ["el", "perro", "come", "pescado"]]
  }

  lemma Bigrams3(a: Token, b: Token, c: Token)
    ensures Windows([a, b, c], 2) == [[a, b], [b, c]]
  {
    assert [a, b, c][..2] == [a, b] && [a, b, c][1..] == [b, c];
    assert [b, c][..2] == [b, c] && [b, c][1..] == [c];
  }

  lemma Bigrams4(a: Token, b: Token, c: Token, d: Token)
    ensures Windows([a, b, c, d], 2) == [[a, b], [b, c], [c, d]]
  {
    assert [a, b, c, d][..2] == [a, b] && [a, b, c, d][1..] == [b, c, d];
    Bigrams3(b, c, d);
  }

  /** The tokens and the bigrams of the corpus, sentence after sentence. */
  lemma DemoCounted()
    ensures Tokens(Demo()) == Demo()[0] + Demo()[1] + Demo()[2] + Demo()[3] + Demo()[4]
    ensures CorpusNGrams(Demo(), 2)
         == Windows(Demo()[0], 2) + Windows(Demo()[1], 2) + Windows(Demo()[2], 2)
          + Windows(Demo()[3], 2) + Windows(Demo()[4], 2)
  {
    var c := Demo();
    assert c[..0] == [];
    CorpusSnoc(c, 2, 0);
    CorpusSnoc(c, 2, 1);
    CorpusSnoc(c, 2, 2);
    CorpusSnoc(c, 2, 3);
    CorpusSnoc(c, 2, 4);
    assert c[..5] == c;
  }

  /** The bigrams of each sentence. */
  lemma DemoWindows()
    ensures Windows(Demo()[0], 2) == [["el", "gato"], ["gato", "come"], ["come", "pescado"]]
    ensures Windows(Demo()[1], 2) == [["el", "perro"], ["perro", "come"], ["come", "carne"]]
    ensures Windows(Demo()[2], 2) == [["el", "gato"], ["gato", "duerme"]]
    ensures Windows(Demo()[3], 2) == [["el", "perro"], ["perro", "ladra"]]
    ensures Windows(Demo()[4], 2) == [["el", "perro"], ["perro", "come"], ["come", "pescado"]]
  {
    Bigrams4("el", "gato", "come", "pescado");
    Bigrams4("el", "perro", "come", "carne");
    Bigrams3("el", "gato", "duerme");
    Bigrams3("el", "perro", "ladra");
    Bigrams4("el", "perro", "come", "pescado");
  }

  lemma TokenCount(w: Token)
    ensures multiset(Tokens(Demo()))[w]
         == multiset(Demo()[0])[w] + multiset(Demo()[1])[w] + multiset(Demo()[2])[w]
          + multiset(Demo()[3])[w] + multiset(Demo()[4])[w]
  {
    DemoCounted();
  }

  lemma BigramCount(g: NGram)
    ensures multiset(CorpusNGrams(Demo(), 2))[g]
         == multiset(Windows(Demo()[0], 2))[g] + multiset(Windows(Demo()[1], 2))[g]
          + multiset(Windows(Demo()[2], 2))[g] + multiset(Windows(Demo()[3], 2))[g]
          + multiset(Windows(Demo()[4], 2))[g]
  {
    DemoCounted();
  }

  /** 18 tokens and 13 bigrams. */
  lemma DemoTotals()
    ensures |Tokens(Demo())| == 18
    ensures |CorpusNGrams(Demo(), 2)| == 13
  {
    DemoCounted();
    DemoWindows();
  }

  /** The occurrences of the words the queries fall back on. */
  lemma DemoUnigrams()
    ensures multiset(Tokens(Demo()))["gato"] == 2
    ensures multiset(Tokens(Demo()))["perro"] == 3
    ensures multiset(Tokens(Demo()))["come"] == 3
    ensures multiset(Tokens(Demo()))["carne"] == 1
    ensures multiset(Tokens(Demo()))["pescado"] == 2
  {
    TokenCount("gato");
    TokenCount("perro");
    TokenCount("come");
    TokenCount("carne");
    TokenCount("pescado");
  }

  lemma BigramElGato()
    ensures multiset(CorpusNGrams(Demo(), 2))[["el", "gato"]] == 2
  {
    DemoWindows();
    BigramCount(["el", "gato"]);
  }

  lemma BigramElPerro()
    ensures multiset(CorpusNGrams(Demo(), 2))[["el", "perro"]] == 3
  {
    DemoWindows();
    BigramCount(["el", "perro"]);
  }

  lemma BigramGatoCome()
    ensures multiset(CorpusNGrams(Demo(), 2))[["gato", "come"]] == 1
  {
    DemoWindows();
    BigramCount(["gato", "come"]);
  }

  lemma BigramPerroCome()
    ensures multiset(CorpusNGrams(Demo(), 2))[["perro", "come"]] == 2
  {
    DemoWindows();
    BigramCount(["perro", "come"]);
  }

  lemma BigramComeCarne()
    ensures multiset(CorpusNGrams(Demo(), 2))[["come", "carne"]] == 1
  {
    DemoWindows();
    BigramCount(["come", "carne"]);
  }

  lemma BigramPerroPescado()
    ensures multiset(CorpusNGrams(Demo(), 2))[["perro", "pescado"]] == 0
  {
    DemoWindows();
    BigramCount(["perro", "pescado"]);
  }

  /** Two distinct n-grams, and no other, with prefix `p`. */
  lemma TwoTypes(all: seq<NGram>, p: NGram, x: NGram, y: NGram)
    requires forall g :: g in all && Prefix(g) == p ==> g == x || g == y
    requires x in all && y in all && Prefix(x) == p && Prefix(y) == p && x != y
    ensures |set g | g in all && Prefix(g) == p| == 2
  {
    assert (set g | g in all && Prefix(g) == p) == {x, y};
  }

  /** The context ("el",) starts exactly two distinct bigrams. */
  lemma ContextEl()
    ensures ContextTypes(Demo(), 2, ["el"]) == 2
  {
    DemoCounted();
    DemoWindows();
    var all := CorpusNGrams(Demo(), 2);
    forall g | g in all && Prefix(g) == ["el"]
      ensures g == ["el", "gato"] || g == ["el", "perro"]
    {
      assert |g| == 2 && Prefix(g) == [g[0]];
      assert g[0] == "el";
    }
    TwoTypes(all, ["el"], ["el", "gato"], ["el", "perro"]);
  }

  /** The context ("gato",) starts exactly two distinct bigrams. */
  lemma ContextGato()
    ensures ContextTypes(Demo(), 2, ["gato"]) == 2
  {
    DemoCounted();
    DemoWindows();
    var all := CorpusNGrams(Demo(), 2);
    forall g | g in all && Prefix(g) == ["gato"]
      ensures g == ["gato", "come"] || g == ["gato", "duerme"]
    {
      assert |g| == 2 && Prefix(g) == [g[0]];
      assert g[0] == "gato";
    }
    TwoTypes(all, ["gato"], ["gato", "come"], ["gato", "duerme"]);
  }

  /** The context ("perro",) starts exactly two distinct bigrams. */
  lemma ContextPerro()
    ensures ContextTypes(Demo(), 2, ["perro"]) == 2
  {
    DemoCounted();
    DemoWindows();
    var all := CorpusNGrams(Demo(), 2);
    forall g | g in all && Prefix(g) == ["perro"]
      ensures g == ["perro", "come"] || g == ["perro", "ladra"]
    {
      assert |g| == 2 && Prefix(g) == [g[0]];
      assert g[0] == "perro";
    }
    TwoTypes(all, ["perro"], ["perro", "come"], ["perro", "ladra"]);
  }

  /** The context ("come",) starts exactly two distinct bigrams. */
  lemma ContextCome()
    ensures ContextTypes(Demo(), 2, ["come"]) == 2
  {
    DemoCounted();
    DemoWindows();
    var all := CorpusNGrams(Demo(), 2);
    forall g | g in all && Prefix(g) == ["come"]
      ensures g == ["come", "pescado"] || g == ["come", "carne"]
    {
      assert |g| == 2 && Prefix(g) == [g[0]];
      assert g[0] == "come";
    }
    TwoTypes(all, ["come"], ["come", "pescado"], ["come", "carne"]);
  }

  /**
   A bigram query over a corpus of 18 tokens and 13 bigrams whose context
   starts two distinct bigrams: the discounted count over 2 plus 0.75 times
   the word's relative frequency over 2.
   */
  lemma BigramQuery(c: Corpus, a: Token, b: Token, k: nat, u: nat, v: real)
    requires |Tokens(c)| == 18 && |CorpusNGrams(c, 2)| == 13
    requires ContextTypes(c, 2, [a]) == 2
    requires multiset(CorpusNGrams(c, 2))[[a, b]] == k
    requires multiset(Tokens(c))[b] == u
    requires Interpolated(k, 2, 0.75, u as real / 18.0) == v
    ensures CorpusProbability(c, 2, 0.75, [a, b]) == v
  {
    assert Prefix([a, b]) == [a] && [a, b][1..] == [b];
  }

  /** The interpolation steps of the six queries, as exact rationals. */
  lemma DemoArithmetic()
    ensures Interpolated(2, 2, 0.75, 2.0 / 18.0) == 2.0 / 3.0
    ensures Interpolated(1, 2, 0.75, 3.0 / 18.0) == 3.0 / 16.0
    ensures Interpolated(1, 2, 0.75, 1.0 / 18.0) == 7.0 / 48.0
    ensures Interpolated(0, 2, 0.75, 2.0 / 18.0) == 1.0 / 24.0
    ensures Interpolated(3, 2, 0.75, 3.0 / 18.0) == 19.0 / 16.0
    ensures Interpolated(2, 2, 0.75, 3.0 / 18.0) == 11.0 / 16.0
  {
  }

  /** P(gato | el) = 2/3. */
  lemma ElGato()
    ensures CorpusProbability(Demo(), 2, 0.75, ["el", "gato"]) == 2.0 / 3.0
  {
    DemoTotals();
    DemoUnigrams();
    ContextEl();
    BigramElGato();
    DemoArithmetic();
    BigramQuery(Demo(), "el", "gato", 2, 2, 2.0 / 3.0);
  }

  /** P(come | gato) = 3/16. */
  lemma GatoCome()
    ensures CorpusProbability(Demo(), 2, 0.75, ["gato", "come"]) == 3.0 / 16.0
  {
    DemoTotals();
    DemoUnigrams();
    ContextGato();
    BigramGatoCome();
    DemoArithmetic();
    BigramQuery(Demo(), "gato", "come", 1, 3, 3.0 / 16.0);
  }

  /** P(carne | come) = 7/48. */
  lemma ComeCarne()
    ensures CorpusProbability(Demo(), 2, 0.75, ["come", "carne"]) == 7.0 / 48.0
  {
    DemoTotals();
    DemoUnigrams();
    ContextCome();
    BigramComeCarne();
    DemoArithmetic();
    BigramQuery(Demo(), "come", "carne", 1, 1, 7.0 / 48.0);
  }

  /** P(pescado | perro) = 1/24. */
  lemma PerroPescado()
    ensures CorpusProbability(Demo(), 2, 0.75, ["perro", "pescado"]) == 1.0 / 24.0
  {
    DemoTotals();
    DemoUnigrams();
    ContextPerro();
    BigramPerroPescado();
    DemoArithmetic();
    BigramQuery(Demo(), "perro", "pescado", 0, 2, 1.0 / 24.0);
  }

  /** P(perro | el) = 19/16. */
  lemma ElPerro()
    ensures CorpusProbability(Demo(), 2, 0.75, ["el", "perro"]) == 19.0 / 16.0
  {
    DemoTotals();
    DemoUnigrams();
    ContextEl();
    BigramElPerro();
    DemoArithmetic();
    BigramQuery(Demo(), "el", "perro", 3, 3, 19.0 / 16.0);
  }

  /** P(come | perro) = 11/16. */
  lemma PerroCome()
    ensures CorpusProbability(Demo(), 2, 0.75, ["perro", "come"]) == 11.0 / 16.0
  {
    DemoTotals();
    DemoUnigrams();
    ContextPerro();
    BigramPerroCome();
    DemoArithmetic();
    BigramQuery(Demo(), "perro", "come", 2, 3, 11.0 / 16.0);
  }

  /**
   Any model built from the demonstration corpus with n = 2 and discount 0.75
   answers the four printed queries with 2/3, 3/16, 7/48 and 1/24.
   */
  lemma DemoQueries(m: KneserNeySmoothing)
    requires m.Valid() && m.corpus == Demo() && m.n == 2 && m.descuento == 0.75
    ensures m.Queryable(2)
    ensures m.ObtenerProbabilidad(["el", "gato"]) == 2.0 / 3.0
    ensures m.ObtenerProbabilidad(["gato", "come"]) == 3.0 / 16.0
    ensures m.ObtenerProbabilidad(["come", "carne"]) == 7.0 / 48.0
    ensures m.ObtenerProbabilidad(["perro", "pescado"]) == 1.0 / 24.0
  {
    DemoTotals();
    m.ProbabilidadMatchesCorpus(["el", "gato"]);
    ElGato();
    m.ProbabilidadMatchesCorpus(["gato", "come"]);
    GatoCome();
    m.ProbabilidadMatchesCorpus(["come", "carne"]);
    ComeCarne();
    m.ProbabilidadMatchesCorpus(["perro", "pescado"]);
    PerroPescado();
  }

  /** The probabilities of three windows, in order. */
  lemma ThreeWindows(m: KneserNeySmoothing, x: NGram, y: NGram, z: NGram)
    requires m.Queryable(|x|) && m.Queryable(|y|) && m.Queryable(|z|)
    ensures m.ProbabilidadesVentanas([x, y, z])
         == [m.ObtenerProbabilidad(x), m.ObtenerProbabilidad(y), m.ObtenerProbabilidad(z)]
  {
    assert [x][..0] == [];
    assert m.ProbabilidadesVentanas([x]) == [m.ObtenerProbabilidad(x)];
    assert [x, y][..1] == [x];
    assert m.ProbabilidadesVentanas([x, y]) == [m.ObtenerProbabilidad(x), m.ObtenerProbabilidad(y)];
    assert [x, y, z][..2] == [x, y];
  }

  /** The product of three factors, from 1. */
  lemma Product3(p: real, q: real, r: real)
    ensures Product([p, q, r]) == p * q * r
  {
    assert [p][..0] == [];
    assert Product([p]) == p;
    assert [p, q][..1] == [p];
    assert Product([p, q]) == p * q;
    assert [p, q, r][..2] == [p, q];
  }

  /**
   The same model scores the sentence "el perro come carne" with
   19/16 * 11/16 * 7/48 = 1463/12288: its first factor exceeds 1.
   */
  lemma DemoSentence(m: KneserNeySmoothing)
    requires m.Valid() && m.corpus == Demo() && m.n == 2 && m.descuento == 0.75
    ensures m.ObtenerProbabilidad(["el", "perro"]) == 19.0 / 16.0 > 1.0
    ensures m.ProbabilidadOracion(["el", "perro", "come", "carne"]) == 1463.0 / 12288.0
  {
    DemoTotals();
    m.ProbabilidadMatchesCorpus(["el", "perro"]);
    ElPerro();
    m.ProbabilidadMatchesCorpus(["perro", "come"]);
    PerroCome();
    m.ProbabilidadMatchesCorpus(["come", "carne"]);
    ComeCarne();
    Bigrams4("el", "perro", "come", "carne");
    ThreeWindows(m, ["el", "perro"], ["perro", "come"], ["come", "carne"]);
    Product3(19.0 / 16.0, 11.0 / 16.0, 7.0 / 48.0);
  }

  /** The demonstration script: build the model, print four bigram probabilities and one sentence probability. */
  method Demonstration() returns (elGato: real, gatoCome: real, comeCarne: real, perroPescado: real, sentence: real)
    ensures elGato == 2.0 / 3.0 && gatoCome == 3.0 / 16.0 && comeCarne == 7.0 / 48.0 && perroPescado == 1.0 / 24.0
    ensures sentence == 1463.0 / 12288.0
  {
    var model := new KneserNeySmoothing(Demo(), 2, 0.75);
    DemoQueries(model);
    DemoSentence(model);
    elGato := model.ObtenerProbabilidad(["el", "gato"]);
    gatoCome := model.ObtenerProbabilidad(["gato", "come"]);
    comeCarne := model.ObtenerProbabilidad(["come", "carne"]);
    perroPescado := model.ObtenerProbabilidad(["perro", "pescado"]);
    sentence := model.GenerarProbabilidadOracion(["el", "perro", "come", "carne"]);
  }
}
