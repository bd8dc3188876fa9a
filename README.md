# An n-gram Markov text chain, modelled in Dafny

The system learns which words follow each context (the previous n-1 words)
in a text, and then generates new text by walking those contexts.

- **Candidate list** (`candidates.go`, module `CandidateSet`): the
  frequency table of one context.
  - It holds an ordered list of `(word, frequency)` entries and an
    `occurrences` counter.
  - `processCandidate` records one observation in place.
  - `selectCandidate` picks a word, weighted by frequency, from a supplied
    random draw.
  - `getCandidate` looks up an entry.
- **NGramChain** (`ngram_chain.go`, module `Markov`): a store from context
  keys to candidate lists, a fixed arity `n`, a list of seed contexts and
  an injected random function.
  - A context key is the first n-1 words of a window, joined by single
    spaces.
  - `processNgram` learns one window.
  - `ProcessText` slides a window of `n` tokens over a text.
  - `GenerateRandomText` starts from a seed (or any key when there are no
    seeds). At each step it samples a candidate, appends it, and slides the
    context by one word. At the end it adds a final dot.
  - `GetCandidate` and `CandidateProbability` query the store.
  - `NewNGramChain` checks that `n >= 2`.
- **Strings** (module `Strings`): the Go library calls the chain relies on.
  - `strings.Join` and `strings.Split` with separator `" "`.
  - `strings.HasSuffix`.
  - The upper-case seed test.

The two mutable entities are Dafny classes.

- `CandidateSet.Candidates` has fields `words` and `occurrences`. Its
  methods update them in place, with the same loops as the Go code.
- `Markov.NGramChain` keeps `store` as a `map<string, Candidates>` and
  `seeds` as a `seq<string>`.

Each class is proved against value-level specification functions.

- The value of a candidate list is `Counts(words, occurrences)`.
  `processCandidate` is `Observe`, `selectCandidate` is `Pick` and
  `getCandidate` is `Find`.
- The value of the chain is `State(store, seeds)`, where each candidate
  list is replaced by its value.
  - `processNgram` is `Learn`.
  - `ProcessText` is `Train`: every window `tokens[i..i+n]` is learned, in
    order.
  - `GenerateRandomText` is `Generate`: `Walk` samples and slides the
    context, and `Render` builds the text.
- The properties are proved about these functions:
  - the invariant `occurrences == sum of frequencies` with unique words;
  - exact weighting of the pick;
  - the shape of generated text;
  - the slide of the context;
  - the bounds of the probability;
  - that the seeds are exactly the upper-case keys, each once.

## Model

| member | source | states |
|---|---|---|
| Strings.Join | ngram_chain.go:99 | `strings.Join(ws, " ")` of a non-empty list begins with its first word (its inverse is Split, see SplitJoin) |
| Strings.HasSuffix | ngram_chain.go:103 | `strings.HasSuffix(s, suffix)` holds exactly when `s` is some string followed by `suffix` |
| Strings.StartsUpper | ngram_chain.go:176 | the seed test holds exactly when the key is non-empty and its first character is one of the 26 ASCII capitals 'A'..'Z' |
| Strings.Split | ngram_chain.go:94 | `strings.Split(s, " ")` always yields at least one piece, and no piece contains a space |
| Strings.SplitJoin | ngram_chain.go:94-99 | splitting the space-joined list of space-free words gives back exactly that list, which the context slide relies on |
| Strings.JoinInjective | ngram_chain.go:153-156 | two lists of space-free words with the same joined key are equal ("a bc" and "ab c" never share a key) |
| Strings.JoinNonEmpty | ngram_chain.go:176 | a join whose first word is non-empty is non-empty and starts with that word's first character, so `ngram[0]` exists |
| CandidateSet.Total | candidates.go:6-9 | the sum of frequencies is non-negative for non-negative entries, and at least the number of entries when every entry was observed |
| CandidateSet.Record | candidates.go:21-30 | recording one observation raises the sum of frequencies by exactly 1 |
| CandidateSet.Find | candidates.go:56-64 | a found entry carries the looked-up word and is an entry of the list |
| CandidateSet.FindNone | candidates.go:56-63 | the lookup comes back empty exactly when no entry holds the word |
| CandidateSet.RecordPresent | candidates.go:21-26 | for a word already present, the first entry holding it gains 1, and the length and every other entry stay unchanged |
| CandidateSet.RecordAbsent | candidates.go:29-30 | for an absent word, `(word, 1)` is appended at the end and every earlier entry stays unchanged |
| CandidateSet.RecordPresentKeeps | candidates.go:21-26 | raising a present word keeps the words unique and every frequency at least 1 |
| CandidateSet.RecordAbsentKeeps | candidates.go:29-30 | appending an absent word keeps the words unique and every frequency at least 1 |
| CandidateSet.ObserveKeepsWellFormed | candidates.go:17-31 | processCandidate preserves `occurrences == sum of frequencies`, unique words and positive frequencies, and leaves the list non-empty |
| CandidateSet.FrequencyFind | candidates.go:56-64 | a word's frequency is that of the entry getCandidate returns, and 0 when it returns nil |
| CandidateSet.FrequencyBounds | ngram_chain.go:136-141 | on observed entries a word's frequency lies between 0 and the sum of frequencies, and it is 0 exactly when the word is absent |
| CandidateSet.RecordFindSame | candidates.go:17-31 | after one observation of a word, its entry holds its old frequency plus 1 (1 for a new word) |
| CandidateSet.RecordFindOther | candidates.go:17-31 | one observation of a word leaves the entry of every other word as it was |
| CandidateSet.ObserveFind | candidates.go:17-31 | after processCandidate(w), the entry for w has one more observation and other words' entries are unchanged |
| CandidateSet.PickInRange | candidates.go:41-46 | a draw in `[0, sum)` on non-negative entries picks the word of an entry with frequency above 0 |
| CandidateSet.PickBeyond | candidates.go:48-53 | a draw at or past the sum of frequencies gives "" |
| CandidateSet.PickFirstCrossing | candidates.go:37-46 | the pick is the word of the first entry whose running sum of frequencies exceeds the draw |
| CandidateSet.PickNoCrossing | candidates.go:41-53 | when no running sum exceeds the draw, the pick is "" |
| CandidateSet.PickWeighted | candidates.go:39-46 | over the draws `0 .. sum-1`, each word is picked by exactly as many draws as its total recorded frequency |
| CandidateSet.SelectionWeights | candidates.go:33-46 | on a well-formed list, a word is picked by exactly its frequency's worth of the `occurrences` possible draws, so a uniform draw picks it with probability frequency / occurrences |
| CandidateSet.Candidates.constructor | ngram_chain.go:170 | the zero value `&candidates{}`: no entries, no occurrences, and the invariant holds |
| CandidateSet.Candidates.ProcessCandidate | candidates.go:17-31 | the new value is one more occurrence plus the recorded word (`Observe`), and the invariant is preserved |
| CandidateSet.Candidates.SelectCandidate | candidates.go:33-54 | returns the weighted pick for `randFunc(occurrences)`. With the invariant and an in-range draw, that is a listed word with frequency above 0. A draw at or past the sum gives "" |
| CandidateSet.Candidates.GetCandidate | candidates.go:56-64 | returns the first entry holding the word, or nothing, and modifies nothing |
| CandidateSet.SelectExamples | candidates_test.go:80-100 | on `potato:1, banana:4, tomato:5`, draw 0 picks potato, draw 6 picks tomato and draw 15 picks "". The lookup of banana finds `(banana, 4)` and the lookup of platano finds nothing |
| CandidateSet.ObserveExamples | candidates_test.go:28-53 | on `potato:1`, observing banana appends `(banana, 1)` and observing potato raises it to 2; occurrences become 2 |
| Markov.NGramChain.constructor | ngram_chain.go:214-220 | an empty store, no seeds, the given arity and random function, and the chain invariant holds |
| Markov.NewNGramChain | ngram_chain.go:209-221 | fails with `InvalidArity` exactly when `n <= 1`; otherwise returns a fresh chain with that `n`, an empty store and no seeds |
| Markov.NGramChain.ProcessNgram | ngram_chain.go:147-181 | a window of the wrong length returns `NgramLength(n, len)` and changes nothing; otherwise the last word is learned after the key of the others |
| Markov.NGramChain.Add | ngram_chain.go:159-180 | the locked part of processNgram: the chain's new value is `Learn(old, key, candidate)` |
| Markov.NGramChain.AddCandidate | ngram_chain.go:163-167 | for a known key, only that key's list changes (by processCandidate); the other lists and the seeds stay |
| Markov.NGramChain.AddContext | ngram_chain.go:169-178 | for a new key, a fresh list recording the candidate is stored under it, and the key is appended to the seeds iff it starts with 'A'..'Z' |
| Markov.NGramChain.NewCandidates | ngram_chain.go:170-171 | a fresh list holding one observation of the candidate |
| Markov.NGramChain.Insert | ngram_chain.go:173 | storing a list that no other context owns under a new key keeps Valid() (store and table agree, each list owned by one key), adds the key to the store and its value to the abstract table, and leaves the seeds alone |
| Markov.NGramChain.ProcessText | ngram_chain.go:26-60 | returns no error, and the new value is `Train(old, n, tokens)`: on L >= n tokens the windows `tokens[i..i+n]` for i = 0 .. L-n are learned in order, and on fewer than n tokens nothing changes |
| Markov.NGramChain.SlideWindows | ngram_chain.go:46-57 | the second loop: after the first window, the windows starting at 1, 2, ... are learned in turn, up to the last token |
| Markov.NGramChain.ProcessWindow | ngram_chain.go:47-54 | one shift of the window: processing the window that starts at `lo` learns exactly one more window, without error |
| Markov.NGramChain.GetRandomNGram | ngram_chain.go:185-204 | with seeds, returns `seeds[randFunc(len(seeds))]`; without seeds, returns some key of the store |
| Markov.NGramChain.GenerateRandomText | ngram_chain.go:65-108 | "" for an empty store; otherwise `Generate` from a start that getRandomNGram may return |
| Markov.NGramChain.GenerateFrom | ngram_chain.go:77-107 | the string-builder loop produces exactly `Generate(store, randFunc, start, maxWords)` |
| Markov.NGramChain.GetCandidate | ngram_chain.go:112-122 | "" for an unknown prefix; otherwise the weighted pick of that prefix's list, which on a coherent chain is a recorded word |
| Markov.NGramChain.CandidateProbability | ngram_chain.go:127-142 | `PrefixNotFound` for an unknown prefix; otherwise frequency / occurrences of the candidate, and 0 when it is not listed |
| Markov.ContextKeySplit | ngram_chain.go:153-157 | ContextKey, the key of a window, is the join of all but its last word: for space-free words, splitting the key gives exactly those words back |
| Markov.SlideSplit | ngram_chain.go:94-99 | Slide, the next context, drops the first word and appends the candidate: for a space-free candidate, its words are the old context's words after the first, then the candidate, so the word count is kept |
| Markov.TrainStep | ngram_chain.go:46-57 | training on one more window is learning that window's key and last word |
| Markov.WindowKey | ngram_chain.go:156-176 | every window of at least two non-empty tokens has a non-empty key, so the first-byte seed test is defined |
| Markov.LearnKeepsCoherent | ngram_chain.go:163-178 | processNgram keeps the chain invariant: non-empty keys and well-formed, non-empty lists, and seeds that are exactly the upper-case keys, each once, all in the store |
| Markov.TrainKeepsCoherent | ngram_chain.go:33-57 | every prefix of the sequence of windows keeps the chain invariant |
| Markov.TrainCoherent | ngram_chain.go:26-60 | ProcessText on a text of non-empty tokens keeps the chain invariant |
| Markov.LearnEffect | ngram_chain.go:156-178 | learning adds 1 to the key's occurrences and 1 to the candidate's frequency (from 0 when the key or word is new). Every other word of that list, every other key and, for a known key, the seeds stay unchanged; a new key is appended to the seeds iff it starts upper-case |
| Markov.WalkBounds | ngram_chain.go:80-85 | generation takes at most `maxWords` steps, and stops early only at a context the store does not know |
| Markov.EmitRendersWalk | ngram_chain.go:77-100 | the loop's text is the start followed by " " and each word of the walk |
| Markov.RenderPrefix | ngram_chain.go:77-78 | the generated text begins with the start context |
| Markov.GenerateShape | ngram_chain.go:77-107 | generated text is non-empty, starts with the start context and ends with '.' |
| Markov.SampleIsCandidate | ngram_chain.go:116-121 | on a well-formed non-empty list with an in-range random function, the sampled word is one of the list's words |
| Markov.SlideJoin | ngram_chain.go:94-99 | sliding the context of space-free words drops the first word and appends the candidate |
| Markov.SlidePair | ngram_chain.go:94-99 | for a two-word context "a b", the next context is "b candidate" |
| Markov.ProbabilityBounds | ngram_chain.go:136-141 | on a coherent list the probability is frequency / occurrences, lies in [0, 1], and is 0 exactly when the candidate is absent |
| Markov.TrainExample | ngram_chain_test.go:32-63 | trigrams of "a b c d e f" give `a b -> c`, `b c -> d`, `c d -> e`, `d e -> f`, each seen once, and no seeds |
| Markov.GenerateEndsWithDot | ngram_chain_test.go:118-202 | in the test store with draws of 1, generation from "It's a" gives "It's a wonderful world.", which already ends in a dot |
| Markov.GenerateAddsDot | ngram_chain_test.go:214-221 | in the test store with draws of 0, generation from "I am" gives "I am batman", and the dot is added |

## Left out

- Locking (`sync.RWMutex`): every public method is modelled as one atomic step. Concurrency is not modelled.
- `bufio.Scanner` with `ScanWords` over an `io.Reader`: the text is given as a sequence of tokens.
  - Each token is non-empty, as the word scanner guarantees (`NonEmptyTokens`).
  - Whitespace splitting and read errors are not modelled.
- `math/rand.Intn`: the random source is an injected function `int -> int` that returns a draw in `[0, b)` for every positive bound `b` (`RandInRange`).
  - A Dafny function is deterministic, so the same bound always gives the same draw.
  - A stateful generator, whose successive draws differ, is not modelled.
- The `float32` division in `CandidateProbability`: it is modelled as an exact `real` ratio. Rounding is not modelled.
- Go map iteration order in the no-seed fallback of `getRandomNGram`: the order is unspecified.
  - The loop keeps Go's counting down of `pos`, but takes the keys in an arbitrary order.
- Markov.NGramChain.GetRandomNGram: without seeds, the contract only says the result is some key of the store; which key depends on the iteration order above.
- Integer widths: `int` and `uint` counters are unbounded integers. Overflow of `occurrences`, of the frequencies and of the running counter is not modelled.
- Error message texts: errors are the constructors `InvalidArity`, `NgramLength(expected, got)` and `PrefixNotFound`.
- Markov.NGramChain.ProcessNgram: for a window of the right length, it requires a non-empty key. The Go code would panic on `ngram[0]` otherwise. Windows built from the scanner's non-empty tokens always meet this (`WindowKey`).
- Markov.NGramChain.ProcessText: the window is modelled as the slice of the token sequence it holds, not as Go's copy-and-shift of a buffer.
  - Go returns early if `processNgram` fails; here the model proves that it never fails (`ProcessWindow` ensures no error).
  - The chain invariant is not part of this contract; `TrainCoherent` proves ProcessText keeps it.
- Markov.NGramChain.CandidateProbability: it requires the chain invariant, because otherwise `occurrences` could be 0 and the ratio undefined. Every chain reached through `NewNGramChain`, `processNgram` and `ProcessText` meets this invariant (`LearnKeepsCoherent`, `TrainCoherent`).
- The seed list: seeds are duplicate-free, because processNgram appends a key only when it first stores it (ngram_chain.go:169-178); the chain invariant states this.
- The package `Example` and its printed output are not modelled.
