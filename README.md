# Kneser-Ney smoothing, modelled in Dafny

This project models the two n-gram language models of the repository:

- `KneserNeySmoothing` (KN_smoothing.py) is an interpolated Kneser-Ney model.
  - Construction makes one counting pass over the sentences. It builds the unigram counter, the order-n n-gram counter and their totals.
  - Two more passes over the distinct n-gram keys build one table each. The first builds the continuation table: for each suffix `g[1:]`, the number of distinct n-grams with that suffix. The second builds the context table, which does the same for each prefix `g[:-1]`.
  - A query recurses from the full n-gram down to one token. At each order it interpolates the discounted count with the lower-order estimate. A prefix never seen as a context falls back to the continuation probability of the last word.
  - A sentence scores the product of its window probabilities.
- `KneserNeyLM` (ejemplo.py) is a discount-plus-backoff model.
  - `train` pads each sentence with n - 1 `<s>` tokens in front and one `</s>` at the end. Each order-n window of the padded sentence increments three tables: `ngram_counts[context][word]`, `context_counts[context]` and the vocabulary.
  - `get_ngram_prob` and `get_context_prob` are closed-form expressions over these tables. A context never seen gets the uniform `1 / |vocab|`.

Layout:

- `counters.dfy` (module `Counters`): Python's `Counter` as `map<K, nat>`. A missing key reads as 0; `Inc` is `+= 1`; `Tally` is a counting pass; `Sum`, `TypeCounts` and `Plus` are the aggregates the two engines rely on.
- `ngrams.dfy` (module `NGrams`): tokens, n-grams, the slices `g[:-1]` and `g[1:]`, and the sliding windows `zip(*[tokens[i:] for i in range(n)])`.
- `kn_smoothing.dfy` (module `KNSmoothing`): class `KneserNeySmoothing`.
- `ejemplo.dfy` (module `Ejemplo`): class `KneserNeyLM`.
- `kn_demo.dfy` (module `KNDemo`): the demonstration at the end of KN_smoothing.py. It derives the four printed bigram probabilities and the sentence probability from the five-sentence corpus.
- `ejemplo_demo.dfy` (module `EjemploDemo`): the usage example in `main` of ejemplo.py. It derives the two printed bigram probabilities from the two-sentence corpus.

Both classes keep their tables as fields that their counting methods update in loops. Each counting method's postcondition ties the new tables to a functional definition over the input: `Tally` of the corpus tokens, `TypeCounts` of the n-gram keys, or recording the training events. A ghost `Valid()` predicate says that the fields are what counting the corpus from empty tables gives. The query lemmas then relate the queries to counts over the corpus itself:

- occurrences of a token or an n-gram;
- numbers of distinct n-grams per prefix or suffix;
- events per context.

Probabilities are exact `real` values. The source computes floats, which approximate these rationals.

The model follows the code, not the prose around it. Results are called probabilities, but the Kneser-Ney query is not bounded by 1. The code also checks none of its parameters and raises no errors of its own. Every division by zero and every index error the code can reach is therefore a precondition here, and no upper bound is claimed.

`Train`'s inner loop and the body of that loop are the separate methods `RecordWindows` and `Count`. Their postconditions state the whole new state.

## Model

| member | source | states |
|---|---|---|
| Counters.Get | ejemplo.py:67 | reading a counter: a present key reads its stored count, and a positive reading means the key is present (a missing key reads 0) |
| Counters.Inc | KN_smoothing.py:73 | `m[k] += 1` adds the key, adds one to its count and leaves every other count unchanged |
| Counters.Plus | KN_smoothing.py:86 | adding a table onto an existing counter adds the two counts key by key, over the union of the keys |
| Counters.TallyGet | KN_smoothing.py:67 | after `Counter.update(items)` every key reads its old count plus its number of occurrences in `items` |
| Counters.TallyKeys | KN_smoothing.py:67 | the keys after a counting pass are the old keys plus the items |
| Counters.TallyAppend | KN_smoothing.py:61-67 | counting `a + b` is counting `a` and then `b` |
| Counters.TallySum | KN_smoothing.py:65-67 | a counting pass adds exactly the number of items to the sum of the counts |
| Counters.TallyPositive | ejemplo.py:30 | every key present after counting from empty has a count of at least 1 |
| Counters.TallyGrows | ejemplo.py:30 | counting more items never lowers a count |
| Counters.TypeCountsGet | KN_smoothing.py:84-86 | a type count reads the number of distinct keys with that image, and 0 for a value that is no key's image |
| Counters.TypeCountsAddAt | KN_smoothing.py:84-86 | visiting one more distinct key raises the count of its image by one and leaves every other value's count unchanged |
| Counters.TypeCountsAdd | KN_smoothing.py:84-86 | visiting one more distinct key increments exactly the count of its image |
| Counters.TypeCountsSum | KN_smoothing.py:84-86 | the type counts add up to the number of distinct keys |
| NGrams.Prefix | KN_smoothing.py:97 | `g[:-1]` is one token shorter than a non-empty g, and g is that prefix followed by its last token; the empty tuple gives the empty tuple |
| NGrams.Suffix | KN_smoothing.py:86 | `g[1:]` is one token shorter than a non-empty g, and g is its first token followed by that suffix; the empty tuple gives the empty tuple |
| NGrams.Windows | KN_smoothing.py:69 | every window has exactly n tokens, and there are windows only when 1 <= n <= the number of tokens |
| NGrams.WindowsCount | KN_smoothing.py:69 | L tokens give max(L - n + 1, 0) windows, and none for n <= 0 |
| NGrams.WindowsAt | KN_smoothing.py:69 | window i is the slice `tokens[i:i+n]` |
| KNSmoothing.CorpusNGrams | KN_smoothing.py:69-71 | every n-gram the counting pass sees has length n |
| KNSmoothing.CountSnoc | KN_smoothing.py:61-75 | one more sentence adds its tokens and its windows on top of the counts of the earlier sentences |
| KNSmoothing.NGramsFitInTokens | KN_smoothing.py:61-75 | the corpus has no more windows than tokens |
| KNSmoothing.CorpusNGramsCount | KN_smoothing.py:69-75 | each sentence of L tokens contributes exactly max(L - n + 1, 0) windows |
| KNSmoothing.UnigramTable | KN_smoothing.py:65-67 | the unigram counts add up to the token total, and each reads the word's number of occurrences in the corpus |
| KNSmoothing.NGramTable | KN_smoothing.py:69-75 | the n-gram keys are exactly the distinct windows, all of length n, and their counts add up to the window total |
| KNSmoothing.ContextTable | KN_smoothing.py:95-99 | the context table reads, for every prefix, the number of distinct corpus n-grams with that prefix |
| KNSmoothing.ContinuationTable | KN_smoothing.py:84-86 | the continuation table reads, for every suffix, the number of distinct corpus n-grams with that suffix |
| KNSmoothing.DistinctTypesOnly | KN_smoothing.py:84-99 | two corpora with the same distinct n-grams get the same context and continuation tables, whatever the multiplicities and the visiting order |
| KNSmoothing.Max0 | KN_smoothing.py:148 | `max(x, 0)` is non-negative, at least x, and either x or 0 |
| KNSmoothing.Interpolated | KN_smoothing.py:148 | the interpolation step is non-negative for a non-negative discount and lower-order estimate |
| KNSmoothing.ProductAppend | KN_smoothing.py:183-187 | the product over a concatenation is the product of the two products |
| KNSmoothing.ProductCons | KN_smoothing.py:183-187 | the product of `[p] + ps` is p times the product of `ps` |
| KNSmoothing.ProductNonnegative | KN_smoothing.py:183-187 | a product of non-negative factors is non-negative |
| KNSmoothing.RatioZero | KN_smoothing.py:129 | a count over a positive total is 0 exactly when the count is 0 |
| KNSmoothing.MultiplyInto | KN_smoothing.py:187 | `prob *= p` extends the running product by one factor |
| KNSmoothing.KneserNeySmoothing.constructor | KN_smoothing.py:29-52 | the new model's tables are exactly those one counting pass over the corpus builds (`Valid`), with n and descuento as given |
| KNSmoothing.KneserNeySmoothing.CalcularFrecuencias | KN_smoothing.py:54-75 | the unigram and n-gram counters have counted every token and every in-sentence window of the corpus on top of their old contents, and the totals grew by the numbers of tokens and windows |
| KNSmoothing.KneserNeySmoothing.CalcularCuentasContinuacion | KN_smoothing.py:77-86 | the continuation table grew, for every suffix, by the number of distinct n-gram keys with that suffix |
| KNSmoothing.KneserNeySmoothing.CalcularCuentasContexto | KN_smoothing.py:88-99 | the context table grew, for every prefix, by the number of distinct n-gram keys with that prefix |
| KNSmoothing.KneserNeySmoothing.ProbabilidadContinuacion | KN_smoothing.py:101-113 | the continuation probability is non-negative whenever the n-gram total is positive |
| KNSmoothing.KneserNeySmoothing.ProbabilidadCondicional | KN_smoothing.py:115-148 | the recursion ends at one token and the result is non-negative for a non-negative discount |
| KNSmoothing.KneserNeySmoothing.ObtenerProbabilidadMeaning | KN_smoothing.py:150-161 | on a valid model the public query equals the smoothed probability stated over the corpus itself |
| KNSmoothing.KneserNeySmoothing.ProbabilidadOracion | KN_smoothing.py:163-190 | the probability of a sentence, the product of its window probabilities, is non-negative for a non-negative discount |
| KNSmoothing.KneserNeySmoothing.ProbabilidadesVentanasAppend | KN_smoothing.py:186-187 | the window probabilities of a concatenation are those of the two parts, in order |
| KNSmoothing.KneserNeySmoothing.ProbabilidadesSnoc | KN_smoothing.py:186-187 | one more window appends its probability |
| KNSmoothing.KneserNeySmoothing.GenerarProbabilidadOracion | KN_smoothing.py:163-190 | the loop returns the product, from 1, of the probabilities of all length-n windows of the sentence |
| KNSmoothing.KneserNeySmoothing.TotalsAreSums | KN_smoothing.py:61-75 | on a valid model the token total is the sum of the unigram counts; the n-gram total is the sum of the n-gram counts and the sum of max(L - n + 1, 0) over the sentences; it is at most the token total; every n-gram key has length n |
| KNSmoothing.KneserNeySmoothing.QueryableExact | KN_smoothing.py:113 | on a valid model a query of two tokens or more avoids every division by zero exactly when the n-gram total is positive |
| KNSmoothing.KneserNeySmoothing.TypeTotals | KN_smoothing.py:84-99 | the continuation counts and the context counts each add up to the number of distinct n-grams |
| KNSmoothing.KneserNeySmoothing.UnigramQuery | KN_smoothing.py:128-129 | a one-token query is the word's occurrences over the token total, and 0 exactly for a word the corpus lacks |
| KNSmoothing.KneserNeySmoothing.UnseenPrefixFallback | KN_smoothing.py:132-139 | a query whose prefix has context count 0 is the continuation probability of its last word, so two such queries with the same last word agree |
| KNSmoothing.KneserNeySmoothing.FallbackZeroUnlessBigrams | KN_smoothing.py:113 | the fallback reads the continuation count of the one-token tuple `(word,)`, so for any order other than 2 it is always 0 |
| KNSmoothing.KneserNeySmoothing.ProbabilidadMatchesCorpus | KN_smoothing.py:115-148 | on a valid model every query equals the smoothed probability stated over the corpus itself: occurrences, distinct-prefix and distinct-suffix counts, and the recursion on `ngram[1:]` |
| KNSmoothing.KneserNeySmoothing.ShortSentence | KN_smoothing.py:180-190 | a sentence shorter than n tokens, or any sentence when n <= 0, has no window and scores exactly 1 |
| KNSmoothing.KneserNeySmoothing.SentenceStep | KN_smoothing.py:180-187 | a sentence of at least n tokens scores its first window and then the windows of `tokens[1:]` |
| KNSmoothing.KneserNeySmoothing.ProbabilidadesNonnegative | KN_smoothing.py:186-187 | every window probability is non-negative for a non-negative discount |
| Ejemplo.StartPadding | ejemplo.py:24 | `['<s>'] * (n - 1)` has n - 1 copies of `<s>` for n >= 1 and none otherwise |
| Ejemplo.Padded | ejemplo.py:24 | the padded sentence is the n - 1 `<s>` tokens, then the sentence, then one `</s>` |
| Ejemplo.EventOf | ejemplo.py:26-28 | a window is its context followed by its word |
| Ejemplo.EventsOf | ejemplo.py:25-28 | there is one event per window |
| Ejemplo.TrainingWindows | ejemplo.py:23-26 | every window `train` counts has n tokens, and there are windows only for n >= 1 |
| Ejemplo.Followers | ejemplo.py:29 | reading `ngram_counts[c]`: the stored counter for a recorded context, and a counter reading 0 everywhere for any other |
| Ejemplo.RecordGet | ejemplo.py:29 | `ngram_counts[c][w] += 1` adds the context and raises exactly the cell of the recorded event by one |
| Ejemplo.Backoff | ejemplo.py:48-56 | with discount 0 the combination is the plain relative frequency count / total |
| Ejemplo.Fraction | ejemplo.py:67 | a count over a total it does not exceed lies in [0, 1] and is 0 exactly for a zero count |
| Ejemplo.BackoffNonnegative | ejemplo.py:48-56 | with 0 <= discount <= 1 and a non-negative lower estimate, the discounted term plus the backoff term is non-negative |
| Ejemplo.BackoffUnseen | ejemplo.py:52-56 | a zero count with a zero lower estimate gives 0 |
| Ejemplo.BackoffUnseenFraction | ejemplo.py:48-56 | a zero count with the zero relative frequency as lower estimate gives 0, for any discount |
| Ejemplo.BackoffSeen | ejemplo.py:48-56 | a positive count, at least one follower and a positive lower estimate give a positive value when 0 <= discount <= 1 |
| Ejemplo.BackoffZeroIff | ejemplo.py:48-56 | with the relative frequency as lower estimate, the combination is 0 exactly when the count is 0 and positive otherwise |
| Ejemplo.RecordAllAppend | ejemplo.py:23-29 | recording `a + b` into the nested counter is recording `a` and then `b` |
| Ejemplo.RecordAllGet | ejemplo.py:29 | each cell `ngram_counts[c][w]` is its old value plus the number of times the event `(c, w)` was recorded |
| Ejemplo.RecordAllGrows | ejemplo.py:29 | recording more events never lowers a cell of the nested counter |
| Ejemplo.RecordAllContexts | ejemplo.py:29 | the contexts of the nested counter are exactly the contexts of the recorded events |
| Ejemplo.RecordAllFollowers | ejemplo.py:29 | the words recorded after a context are exactly the distinct words following it in the events |
| Ejemplo.ContextCountIsSum | ejemplo.py:29-30 | the context count is the sum over the words of the nested counts for that context |
| Ejemplo.ContextCountKeys | ejemplo.py:29-30 | the context counter and the nested counter have the same contexts, and every context count is at least 1 |
| Ejemplo.WindowEventsAre | ejemplo.py:25-28 | reading the i-th event off the slice `tokens[i:i+n]`, as the inner loop does, gives the events of the first j windows |
| Ejemplo.SentenceWindowCount | ejemplo.py:24-25 | with n >= 1 a sentence of L tokens pads to L + n tokens and so has exactly L + 1 windows |
| Ejemplo.SentenceVocabulary | ejemplo.py:24-31 | with n >= 1 the words a padded sentence adds to the vocabulary are its own tokens and `</s>` |
| Ejemplo.CorpusWordsSnoc | ejemplo.py:23-31 | the words of a corpus are the words of its first sentences plus the words of its last |
| Ejemplo.TrainingVocabulary | ejemplo.py:23-31 | with n >= 1 the vocabulary `train` builds is every word of every sentence, plus `</s>` once the corpus has a sentence |
| Ejemplo.KneserNeyLM.constructor | ejemplo.py:4-15 | the new model has empty tables, no recorded event, and n and discount as given |
| Ejemplo.KneserNeyLM.Train | ejemplo.py:17-31 | every window of every padded sentence has been recorded, in order, into the nested counter, the context counter and the vocabulary on top of their old contents, and a valid model stays valid |
| Ejemplo.KneserNeyLM.RecordWindows | ejemplo.py:25-31 | the inner loop records every window of one padded sentence into the three tables |
| Ejemplo.KneserNeyLM.Count | ejemplo.py:26-31 | one window increments `ngram_counts[context][word]` and `context_counts[context]`, and adds the word to the vocabulary |
| Ejemplo.KneserNeyLM.GetContextProb | ejemplo.py:58-69 | the context probability is non-negative |
| Ejemplo.KneserNeyLM.GetNgramProb | ejemplo.py:33-56 | the n-gram probability is non-negative when 0 <= discount <= 1 |
| Ejemplo.KneserNeyLM.ValidTables | ejemplo.py:27-30 | on a valid model both counters know exactly the contexts of the recorded events, and every context count is positive |
| Ejemplo.KneserNeyLM.ContextCountsPaired | ejemplo.py:26-30 | `context_counts[c]` counts the events with context c and equals the sum of `ngram_counts[c]`; its keys are the distinct followers of c, at most `context_counts[c]` of them; c is a context exactly when it has a recorded word |
| Ejemplo.KneserNeyLM.NGramCountInHistory | ejemplo.py:29 | `ngram_counts[c][w]` is the number of times `(c, w)` was recorded |
| Ejemplo.KneserNeyLM.ContextProbInHistory | ejemplo.py:66-67 | for a seen context the context probability is the share of its events ending in the word: in [0, 1], and 0 exactly when the pair was never recorded |
| Ejemplo.KneserNeyLM.UnseenContextUniform | ejemplo.py:44-45 | a context with no recorded event gets `1 / |vocab|` from both queries, over the words recorded so far |
| Ejemplo.KneserNeyLM.SeenContextInHistory | ejemplo.py:47-56 | for a seen context the n-gram probability is (k - D)/T (0 when k = 0) plus D·K/T · k/T. Here k counts the n-gram's events, T the context's events and K the context's distinct followers |
| Ejemplo.KneserNeyLM.UnseenWordZero | ejemplo.py:47-56 | for any discount, an n-gram never recorded after a seen context gets probability 0 |
| Ejemplo.KneserNeyLM.ZeroIffUnseen | ejemplo.py:48-56 | with 0 <= discount <= 1 and a seen context, the n-gram probability is 0 exactly when the n-gram was never recorded, and positive otherwise |
| KNDemo.DemoTotals | KN_smoothing.py:195-204 | the demonstration corpus has 18 tokens and 13 bigrams |
| KNDemo.DemoUnigrams | KN_smoothing.py:195-204 | in the demonstration corpus gato occurs 2 times, perro 3, come 3, carne 1 and pescado 2 |
| KNDemo.ContextEl | KN_smoothing.py:195-204 | two distinct bigrams start with `el` |
| KNDemo.ContextGato | KN_smoothing.py:195-204 | two distinct bigrams start with `gato` |
| KNDemo.ContextPerro | KN_smoothing.py:195-204 | two distinct bigrams start with `perro` |
| KNDemo.ContextCome | KN_smoothing.py:195-204 | two distinct bigrams start with `come` |
| KNDemo.ElGato | KN_smoothing.py:207 | over the demonstration corpus P(gato given el) is 2/3, printed as 0.6666666666666666 (KN_smoothing.py:220) |
| KNDemo.GatoCome | KN_smoothing.py:208 | P(come given gato) is 3/16, printed as 0.1875 |
| KNDemo.ComeCarne | KN_smoothing.py:209 | P(carne given come) is 7/48, printed as 0.14583333333333334 |
| KNDemo.PerroPescado | KN_smoothing.py:210 | P(pescado given perro), a bigram absent from the corpus, is 1/24, printed as 0.041666666666666664 |
| KNDemo.ElPerro | KN_smoothing.py:213 | P(perro given el) is 19/16, a value above 1 |
| KNDemo.PerroCome | KN_smoothing.py:213 | P(come given perro) is 11/16 |
| KNDemo.DemoQueries | KN_smoothing.py:204-210 | a valid bigram model over the demonstration corpus with discount 0.75 answers the four printed queries with 2/3, 3/16, 7/48 and 1/24 |
| KNDemo.DemoSentence | KN_smoothing.py:213 | the sentence `el perro come carne` scores 19/16 · 11/16 · 7/48 = 1463/12288, printed as 0.11905924479166667 (KN_smoothing.py:232), although its first factor exceeds 1 |
| KNDemo.Demonstration | KN_smoothing.py:204-213 | building the model and asking the four queries and the sentence gives 2/3, 3/16, 7/48, 1/24 and 1463/12288 |
| EjemploDemo.SentenceEvents | ejemplo.py:23-28 | a four-word sentence padded for bigrams gives the five events `<s>`→w1, w1→w2, w2→w3, w3→w4, w4→`</s>` |
| EjemploDemo.ExampleEvents | ejemplo.py:73-82 | training on the two example sentences records their ten bigram events in order |
| EjemploDemo.ExampleCounts | ejemplo.py:73-82 | (this, is) is recorded twice and (is, a) once |
| EjemploDemo.ExampleContexts | ejemplo.py:73-82 | the contexts `this` and `is` each occur twice |
| EjemploDemo.ExampleFollowersThis | ejemplo.py:73-82 | only `is` follows `this` |
| EjemploDemo.ExampleFollowersIs | ejemplo.py:73-82 | two distinct words follow `is` |
| EjemploDemo.ExampleThisIs | ejemplo.py:85 | a model trained on the example corpus with discount 0.75 gives P(this, is) = 1 |
| EjemploDemo.ExampleIsA | ejemplo.py:89 | the same model gives P(is, a) = 1/2 |
| EjemploDemo.MainExample | ejemplo.py:72-90 | building a bigram model, training it on the example corpus and asking the two queries gives 1 and 1/2 |

## Left out

- Tokenization by `str.split()` (KN_smoothing.py:63, 175) is a library call. Sentences are already sequences of tokens here.
- Printing in the demonstration of KN_smoothing.py and in `main` of ejemplo.py is I/O and is not modelled. The printed values are derived as exact rationals instead.
- The default arguments `n=2, descuento=0.75` of `KneserNeySmoothing` (KN_smoothing.py:29) and `discount=0.75` of `KneserNeyLM` (ejemplo.py:4) are not modelled. Dafny has no default parameters, so every caller passes both values, as `KNDemo.Demonstration` and `EjemploDemo.MainExample` do.
- KNSmoothing.KneserNeySmoothing.ObtenerProbabilidad is an alias of `ProbabilidadCondicional`. Its meaning is stated by `ObtenerProbabilidadMeaning`.
- Counters.Tally has no postcondition of its own. `TallyGet` and `TallyKeys` state what a counting pass computes.
- Ejemplo.Record has no postcondition of its own. `RecordGet` states what recording one event does.
- Floating point is not modelled. Results are exact rationals (`real`), which the printed floats approximate.
- `defaultdict` inserts an empty entry on a lookup of a missing key. That side effect changes no returned value and is not modelled. Lookups read 0 or an empty counter instead.
- KNSmoothing.KneserNeySmoothing: `ngramCounts` is keyed by n-gram length first, and only length n is ever filled. Here it is one counter whose keys all have length n. A lookup of any other length reads 0, as in the source.
- KNSmoothing.KneserNeySmoothing.CalcularCuentasContinuacion: the loop adds into a local copy that is stored at the end. Nothing observes the table in between, and the same holds for `CalcularCuentasContexto`.
- KNSmoothing.KneserNeySmoothing.ProbabilidadCondicional: the empty tuple is excluded by the precondition. The source raises `IndexError` on `ngram[-1]`, and on a zero total it raises `ZeroDivisionError`. Both error paths are preconditions rather than modelled results.
- Ejemplo.KneserNeyLM.Train: requires n >= 1 for a non-empty corpus. With n <= 0 the source raises `IndexError` on an empty window, in some cases after counting a few windows. That partial effect is not modelled.
- Ejemplo.KneserNeyLM.GetNgramProb: the empty tuple, an unseen context with an empty vocabulary, and a zero context count are preconditions. The source raises `IndexError` or `ZeroDivisionError` in those cases.
