/**
 * The n-gram chain (ngram_chain.go): a store from context keys (the first
 * n-1 words of a window joined by single spaces) to candidate lists, the
 * list of seed contexts that generation may start from, and an injected
 * source of random integers.
 */
module Markov {
  import opened Strings
  import opened CandidateSet

  /** The chain's error returns. */
  datatype Error =
    | InvalidArity                        // NewNGramChain with n <= 1
    | NgramLength(expected: nat, got: nat) // processNgram with a window of the wrong length
    | PrefixNotFound                      // CandidateProbability on an unknown context

  datatype Result<+T> = Success(value: T) | Failure(error: Error)

  /** The value of a chain: what each context has been followed by, and the seeds. */
  datatype State = State(store: map<string, Counts>, seeds: seq<string>)

  /** The words of a generation walk and the context it stopped at. */
  datatype Trail = Trail(words: seq<string>, end: string)

  /** randFunc(b) is a draw in [0, b) for every positive bound, as math/rand's Intn is. */
  ghost predicate RandInRange(rand: int -> int) {
    forall b :: b > 0 ==> 0 <= rand(b) < b
  }

  /** Every context key is non-empty and every candidate list is well formed and non-empty. */
  ghost predicate StoreCoherent(t: map<string, Counts>) {
    forall k :: k in t ==> k != "" && WellFormed(t[k]) && |t[k].words| > 0
  }

  /**
   * The invariant processNgram keeps: the store is coherent, and the seeds
   * are exactly the keys that start with an upper-case letter, each once.
   * (That new seeds are appended in the order their keys first appear is
   * LearnEffect's statement.)
   */
  ghost predicate Coherent(s: State) {
    && StoreCoherent(s.store)
    && (forall i, j :: 0 <= i < j < |s.seeds| ==> s.seeds[i] != s.seeds[j])
    && (forall k :: k in s.seeds ==> k in s.store)
    && (forall k :: k in s.store ==> (k in s.seeds <==> StartsUpper(k)))
  }

  /** The context key of a window: all but its last word, joined by spaces. */
  function ContextKey(window: seq<string>): string
    requires |window| >= 1
  {
    Join(window[..|window| - 1])
  }

  /**
   * The chain after observing `candidate` after context `key`: an existing
   * list records it; an unknown key gets a fresh list that records it, and
   * becomes a seed when it starts with an upper-case letter.
   */
  function Learn(s: State, key: string, candidate: string): State {
    if key in s.store then
      State(s.store[key := Observe(s.store[key], candidate)], s.seeds)
    else
      State(s.store[key := Observe(Empty(), candidate)],
            if StartsUpper(key) then s.seeds + [key] else s.seeds)
  }

  /** The chain after the first `k` windows `tokens[i..i+n]`, i = 0 .. k-1, in order. */
  function TrainWindows(s: State, n: nat, tokens: seq<string>, k: nat): State
    requires 1 <= n && k + n <= |tokens| + 1
  {
    if k == 0 then s
    else
      var w := tokens[k - 1..k - 1 + n];
      Learn(TrainWindows(s, n, tokens, k - 1), ContextKey(w), w[n - 1])
  }

  /** ProcessText over a token sequence: every window of `n` tokens, in order; nothing when fewer. */
  function Train(s: State, n: nat, tokens: seq<string>): State
    requires n >= 1
  {
    if |tokens| < n then s else TrainWindows(s, n, tokens, |tokens| - n + 1)
  }

  /** One weighted draw from a candidate list, with the bound its occurrence count. */
  function Sample(c: Counts, rand: int -> int): string {
    Pick(c.words, rand(c.occurrences))
  }

  /** The next context: drop the first word of `ctx`, append `candidate`. */
  function Slide(ctx: string, candidate: string): string {
    Join(Split(ctx)[1..] + [candidate])
  }

  /**
   * The generation walk from context `ctx`: at most `k` steps, each
   * sampling a candidate of the current context and sliding the context,
   * ending early at a context the store does not know.
   */
  function Walk(t: map<string, Counts>, rand: int -> int, ctx: string, k: nat): Trail
    decreases k
  {
    if k == 0 || ctx !in t then Trail([], ctx)
    else
      var candidate := Sample(t[ctx], rand);
      var rest := Walk(t, rand, Slide(ctx, candidate), k - 1);
      Trail([candidate] + rest.words, rest.end)
  }

  /** The text built by the string builder: the start, then " " and each word. */
  function Render(start: string, words: seq<string>): string {
    if words == [] then start
    else Render(start, words[..|words| - 1]) + " " + words[|words| - 1]
  }

  /**
   * The generation loop read as a tail-recursive function: `text` is the
   * text built so far, `ctx` the current context and `k` the steps left.
   */
  function Emit(t: map<string, Counts>, rand: int -> int, ctx: string, k: nat, text: string): string
    decreases k
  {
    if k == 0 || ctx !in t then text
    else
      var candidate := Sample(t[ctx], rand);
      Emit(t, rand, Slide(ctx, candidate), k - 1, text + " " + candidate)
  }

  /** The text GenerateRandomText returns for a given start context. */
  function Generate(t: map<string, Counts>, rand: int -> int, start: string, maxWords: nat): string {
    var body := Render(start, Walk(t, rand, start, maxWords).words);
    if HasSuffix(body, ".") then body else body + "."
  }

  /** The start contexts getRandomNGram may return. */
  ghost predicate ValidStart(seeds: seq<string>, keys: set<string>, rand: int -> int, start: string) {
    if |seeds| > 0 then 0 <= rand(|seeds|) < |seeds| && start == seeds[rand(|seeds|)]
    else start in keys
  }

  /** CandidateProbability's ratio on a known context: frequency / occurrences, 0 for an unseen word. */
  function Probability(c: Counts, w: string): real
    requires c.occurrences > 0
  {
    match Find(c.words, w)
    case None => 0.0
    case Some(e) => e.frequency as real / c.occurrences as real
  }

  class NGramChain {
    const n: nat
    const randFunc: int -> int
    var store: map<string, Candidates>
    var seeds: seq<string>
    /** The value of each candidate list in the store. */
    ghost var table: map<string, Counts>
    /** The candidate lists the chain has created. */
    ghost var Repr: set<Candidates>
    /** The context each candidate list belongs to. */
    ghost var owner: map<Candidates, string>

    ghost function View(): State
      reads this
    {
      State(table, seeds)
    }

    /** `table` holds the current value of every candidate list of the store. */
    ghost predicate Abstracts()
      reads `store, `table, `Repr, Repr
    {
      && store.Keys == table.Keys
      && (forall k :: k in store ==> store[k] in Repr)
      && (forall k :: k in store ==> store[k].Value() == table[k])
    }

    /** Each context owns its own candidate list, so no two keys share one. */
    ghost predicate Owned()
      reads `store, `owner
    {
      forall k :: k in store ==> store[k] in owner && owner[store[k]] == k
    }

    ghost predicate Valid()
      reads `store, `table, `Repr, `owner, Repr
    {
      n >= 2 && RandInRange(randFunc) && Owned() && Abstracts()
    }

    constructor (n: nat, randFunc: int -> int)
      requires n >= 2 && RandInRange(randFunc)
      ensures Valid() && Coherent(View()) && this.n == n && this.randFunc == randFunc
      ensures View() == State(map[], [])
    {
      this.n := n;
      this.randFunc := randFunc;
      store := map[];
      seeds := [];
      table := map[];
      Repr := {};
      owner := map[];
    }

    /**
     * processNgram: a window of the wrong length is an error and changes
     * nothing; otherwise the last word is recorded after the key of the
     * others.
     */
    method ProcessNgram(input: seq<string>) returns (err: Option<Error>)
      requires Valid()
      requires |input| == n ==> ContextKey(input) != ""
      modifies this, Repr
      ensures Valid() && fresh(Repr - old(Repr))
      ensures |input| != n ==> err == Some(NgramLength(n, |input|)) && View() == old(View())
      ensures |input| == n ==> err == None && View() == Learn(old(View()), ContextKey(input), input[n - 1])
    {
      if |input| != n {
        return Some(NgramLength(n, |input|));
      }
      var ngram := Join(input[..|input| - 1]);
      var candidate := input[|input| - 1];
      assert ngram == ContextKey(input) && candidate == input[n - 1];
      Add(ngram, candidate);
      return None;
    }

    /**
     * The locked part of processNgram: record `candidate` in the list of
     * context `ngram`, creating the list (and a seed, for an upper-case
     * context) when the context is new.
     */
    method Add(ngram: string, candidate: string)
      requires Valid() && ngram != ""
      modifies this, Repr
      ensures Valid() && fresh(Repr - old(Repr))
      ensures View() == Learn(old(View()), ngram, candidate)
    {
      if ngram in store {
        AddCandidate(ngram, candidate);
      } else {
        AddContext(ngram, candidate);
      }
    }

    /** A known context: its list records the candidate in place. */
    method AddCandidate(ngram: string, candidate: string)
      requires Valid() && ngram in store
      modifies this, store[ngram]
      ensures Valid() && Repr == old(Repr)
      ensures View() == Learn(old(View()), ngram, candidate)
    {
      ghost var before := View();
      var candidates := store[ngram];
      candidates.ProcessCandidate(candidate);
      table := table[ngram := candidates.Value()];
      forall k | k in store
        ensures store[k].Value() == table[k]
      {
        if k != ngram {
          assert store[k] != candidates;
        }
      }
      assert View() == Learn(before, ngram, candidate);
    }

    /** A new context: a fresh list records the candidate and joins the store, and the seeds when upper-case. */
    method AddContext(ngram: string, candidate: string)
      requires Valid() && ngram != "" && ngram !in store
      modifies this
      ensures Valid() && fresh(Repr - old(Repr))
      ensures View() == Learn(old(View()), ngram, candidate)
    {
      var candidates := NewCandidates(candidate);
      Insert(ngram, candidates);
      if StartsUpper(ngram) {
        seeds := seeds + [ngram];
      }
    }

    /** Store the list `c` under the new key `ngram`. */
    method Insert(ngram: string, c: Candidates)
      requires Valid() && ngram !in store && c !in Repr
      modifies this
      ensures Valid() && Repr == old(Repr) + {c} && seeds == old(seeds)
      ensures store == old(store)[ngram := c] && table == old(table)[ngram := c.Value()]
    {
      store := store[ngram := c];
      Repr := Repr + {c};
      owner := owner[c := ngram];
      table := table[ngram := c.Value()];
      forall k | k in store
        ensures store[k].Value() == table[k]
      {
        if k != ngram {
          assert store[k] != c;
        }
      }
      assert Owned();
    }

    /** The list of a new context: empty, then recording its first candidate. */
    static method NewCandidates(candidate: string) returns (c: Candidates)
      ensures fresh(c) && c.Value() == Observe(Empty(), candidate)
    {
      c := new Candidates();
      c.ProcessCandidate(candidate);
    }

    /**
     * ProcessText: fill the first window, then slide it one token at a
     * time; every window is processed, in order.
     */
    method ProcessText(tokens: seq<string>) returns (err: Option<Error>)
      requires Valid()
      requires NonEmptyTokens(tokens)
      modifies this, Repr
      ensures Valid() && fresh(Repr - old(Repr))
      ensures err == None
      ensures View() == Train(old(View()), n, tokens)
    {
      ghost var s0 := View();
      var ngram: seq<string> := [];
      var i := 0;
      // fill the first window
      while i < |tokens| && i < n
        invariant 0 <= i <= |tokens| && i <= n
        invariant ngram == tokens[..i]
      {
        ngram := ngram + [tokens[i]];
        i := i + 1;
      }
      if i == n {
        assert ngram == tokens[0..n];
        WindowKey(tokens, 0, n, n);
        TrainStep(s0, n, tokens, 0, ngram);
        err := ProcessNgram(ngram);
        SlideWindows(s0, tokens);
      }
      return None;
    }

    /**
     * The second loop of ProcessText: every later token shifts the window
     * by one, so the windows starting at 1, 2, ... are processed in turn.
     */
    method SlideWindows(ghost s0: State, tokens: seq<string>)
      requires Valid() && n <= |tokens| && NonEmptyTokens(tokens)
      requires View() == TrainWindows(s0, n, tokens, 1)
      modifies this, Repr
      ensures Valid() && fresh(Repr - old(Repr))
      ensures View() == TrainWindows(s0, n, tokens, |tokens| - n + 1)
    {
      var lo := 1;
      while lo + n <= |tokens|
        invariant 1 <= lo <= |tokens| - n + 1
        invariant Valid() && fresh(Repr - old(Repr))
        invariant View() == TrainWindows(s0, n, tokens, lo)
      {
        var err := ProcessWindow(s0, tokens, lo);
        lo := lo + 1;
      }
    }

    /** One step of the sliding loop: processing the window that starts at `lo` trains on one more window. */
    method ProcessWindow(ghost s0: State, tokens: seq<string>, lo: nat) returns (err: Option<Error>)
      requires Valid() && lo + n <= |tokens| && NonEmptyTokens(tokens)
      requires View() == TrainWindows(s0, n, tokens, lo)
      modifies this, Repr
      ensures Valid() && fresh(Repr - old(Repr))
      ensures err == None && View() == TrainWindows(s0, n, tokens, lo + 1)
    {
      var ngram := tokens[lo..lo + n];
      WindowKey(tokens, lo, lo + n, n);
      TrainStep(s0, n, tokens, lo, ngram);
      err := ProcessNgram(ngram);
    }

    /**
     * getRandomNGram: a seed chosen by randFunc when there are seeds,
     * otherwise the key at a random position of the store's iteration
     * order, which Go leaves unspecified.
     */
    method GetRandomNGram() returns (ngram: string)
      requires Valid() && |store| > 0
      ensures ValidStart(seeds, store.Keys, randFunc, ngram)
    {
      if |seeds| > 0 {
        return seeds[randFunc(|seeds|)];
      }
      var pos := randFunc(|store|);
      var keys := store.Keys;
      ngram := "";
      while keys != {}
        invariant keys <= store.Keys
        invariant 0 <= pos < |keys|
        decreases |keys|
      {
        var k :| k in keys;
        if pos == 0 {
          ngram := k;
          break;
        }
        pos := pos - 1;
        keys := keys - {k};
      }
    }

    /**
     * GenerateRandomText: "" for an empty store; otherwise the start context
     * followed by at most maxWords sampled words, ending in '.'.
     */
    method GenerateRandomText(maxWords: nat) returns (text: string)
      requires Valid()
      ensures |store| == 0 ==> text == ""
      ensures |store| > 0 ==> exists start :: ValidStart(seeds, store.Keys, randFunc, start) &&
                                               text == Generate(View().store, randFunc, start, maxWords)
    {
      if |store| == 0 {
        return "";
      }
      var start := GetRandomNGram();
      text := GenerateFrom(start, maxWords);
    }

    /**
     * The generation loop of GenerateRandomText, from the context `start`:
     * each step appends the candidate drawn from the current context and
     * slides the context, until `maxWords` words or an unknown context.
     */
    method GenerateFrom(start: string, maxWords: nat) returns (text: string)
      requires Valid()
      ensures text == Generate(View().store, randFunc, start, maxWords)
    {
      ghost var t := table;
      var ngram := start;
      text := start;
      var i := 0;
      // the loop still has `left` steps to take
      ghost var left := maxWords;
      while i < maxWords
        invariant 0 <= i <= maxWords && left == maxWords - i
        invariant Emit(t, randFunc, ngram, left, text) == Emit(t, randFunc, start, maxWords, start)
      {
        if ngram !in store {
          break;
        }
        var candidate := store[ngram].SelectCandidate(randFunc);
        assert candidate == Sample(t[ngram], randFunc);
        text := text + " " + candidate;
        ngram := Slide(ngram, candidate);
        i := i + 1;
        left := left - 1;
      }
      EmitRendersWalk(t, randFunc, start, maxWords, start);
      if !HasSuffix(text, ".") {
        text := text + ".";
      }
    }

    /** GetCandidate: "" for an unknown prefix, otherwise one weighted draw. */
    method GetCandidate(prefix: string) returns (word: string)
      requires Valid()
      ensures prefix !in store ==> word == ""
      ensures prefix in store ==> word == Sample(View().store[prefix], randFunc)
      ensures prefix in store && Coherent(View()) ==> Find(View().store[prefix].words, word).Some?
    {
      if prefix !in store {
        return "";
      }
      word := store[prefix].SelectCandidate(randFunc);
      if Coherent(View()) {
        SampleIsCandidate(View().store[prefix], randFunc);
      }
    }

    /**
     * CandidateProbability: an error for an unknown prefix, otherwise the
     * candidate's frequency over the context's occurrences (0 when unseen).
     */
    method CandidateProbability(prefix: string, candidate: string) returns (r: Result<real>)
      requires Valid() && Coherent(View())
      ensures prefix !in store ==> r == Failure(PrefixNotFound)
      ensures prefix in store ==> r == Success(Probability(View().store[prefix], candidate))
    {
      if prefix !in store {
        return Failure(PrefixNotFound);
      }
      var candidates := store[prefix];
      var wordFreq := candidates.GetCandidate(candidate);
      if wordFreq.None? {
        return Success(0.0);
      }
      return Success(wordFreq.value.frequency as real / candidates.occurrences as real);
    }
  }

  /** NewNGramChain: an error for n <= 1, otherwise an empty chain of arity n. */
  method NewNGramChain(n: nat, randFunc: int -> int) returns (r: Result<NGramChain>)
    requires RandInRange(randFunc)
    ensures n <= 1 <==> r.Failure?
    ensures r.Failure? ==> r.error == InvalidArity
    ensures r.Success? ==> fresh(r.value) && r.value.Valid() && Coherent(r.value.View()) && r.value.n == n &&
                           r.value.randFunc == randFunc && r.value.View() == State(map[], [])
  {
    if n <= 1 {
      return Failure(InvalidArity);
    }
    var chain := new NGramChain(n, randFunc);
    return Success(chain);
  }

  // ---------------------------------------------------------------------
  // Lemmas about the chain's value

  /** Training on one more window is learning that window's key and last word. */
  lemma TrainStep(s: State, n: nat, tokens: seq<string>, k: nat, w: seq<string>)
    requires 1 <= n && k + n <= |tokens| && w == tokens[k..k + n]
    ensures TrainWindows(s, n, tokens, k + 1) == Learn(TrainWindows(s, n, tokens, k), ContextKey(w), w[n - 1])
  {
  }

  /**
   * Every token the word scanner yields holds at least one character.
   * Stated recursively rather than as a quantifier, so that each step of
   * ProcessText's loops unfolds it for one token only.
   */
  predicate NonEmptyTokens(tokens: seq<string>) {
    tokens == [] || (tokens[0] != "" && NonEmptyTokens(tokens[1..]))
  }

  /** Each of those tokens is non-empty. */
  lemma {:induction false} NonEmptyToken(tokens: seq<string>, i: nat)
    requires NonEmptyTokens(tokens) && i < |tokens|
    ensures tokens[i] != ""
  {
    if i > 0 {
      NonEmptyToken(tokens[1..], i - 1);
    }
  }

  /** A window of at least two non-empty words has a non-empty context key. */
  lemma WindowKey(tokens: seq<string>, lo: nat, hi: nat, n: nat)
    requires 2 <= n && hi == lo + n && hi <= |tokens|
    requires NonEmptyTokens(tokens)
    ensures ContextKey(tokens[lo..hi]) != ""
  {
    var w := tokens[lo..hi];
    NonEmptyToken(tokens, lo);
    assert w[0] == tokens[lo];
    JoinNonEmpty(w[..n - 1]);
  }

  /** processNgram keeps the chain coherent. */
  lemma LearnKeepsCoherent(s: State, key: string, candidate: string)
    requires Coherent(s) && key != ""
    ensures Coherent(Learn(s, key, candidate))
  {
    if key in s.store {
      ObserveKeepsWellFormed(s.store[key], candidate);
    } else {
      ObserveKeepsWellFormed(Empty(), candidate);
    }
  }

  /** ProcessText keeps the chain coherent: every window's key is non-empty. */
  lemma {:induction false} TrainKeepsCoherent(s: State, n: nat, tokens: seq<string>, k: nat)
    requires Coherent(s) && 2 <= n && k + n <= |tokens| + 1
    requires NonEmptyTokens(tokens)
    ensures Coherent(TrainWindows(s, n, tokens, k))
  {
    if k > 0 {
      TrainKeepsCoherent(s, n, tokens, k - 1);
      WindowKey(tokens, k - 1, k - 1 + n, n);
      LearnKeepsCoherent(TrainWindows(s, n, tokens, k - 1), ContextKey(tokens[k - 1..k - 1 + n]), tokens[k - 1..k - 1 + n][n - 1]);
    }
  }

  /** Training a coherent state on the tokens of a text leaves it coherent. */
  lemma TrainCoherent(s: State, n: nat, tokens: seq<string>)
    requires Coherent(s) && n >= 2 && NonEmptyTokens(tokens)
    ensures Coherent(Train(s, n, tokens))
  {
    if |tokens| >= n {
      TrainKeepsCoherent(s, n, tokens, |tokens| - n + 1);
    }
  }

  /** A walk takes at most `k` steps, and stops early only at a context the store does not know. */
  lemma {:induction false} WalkBounds(t: map<string, Counts>, rand: int -> int, ctx: string, k: nat)
    ensures |Walk(t, rand, ctx, k).words| <= k
    ensures |Walk(t, rand, ctx, k).words| < k ==> Walk(t, rand, ctx, k).end !in t
    decreases k
  {
    if k > 0 && ctx in t {
      WalkBounds(t, rand, Slide(ctx, Sample(t[ctx], rand)), k - 1);
    }
  }

  /** Rendering a word first is rendering it in front of the rest. */
  lemma {:induction false} RenderCons(text: string, w: string, words: seq<string>)
    ensures Render(text + " " + w, words) == Render(text, [w] + words)
  {
    if words != [] {
      var init := words[..|words| - 1];
      RenderCons(text, w, init);
      assert ([w] + words)[..|[w] + words| - 1] == [w] + init;
    }
  }

  /** The loop's text is the rendering of the walk's words after the text it started from. */
  lemma {:induction false} EmitRendersWalk(t: map<string, Counts>, rand: int -> int, ctx: string, k: nat, text: string)
    ensures Emit(t, rand, ctx, k, text) == Render(text, Walk(t, rand, ctx, k).words)
    decreases k
  {
    if k > 0 && ctx in t {
      var candidate := Sample(t[ctx], rand);
      EmitRendersWalk(t, rand, Slide(ctx, candidate), k - 1, text + " " + candidate);
      RenderCons(text, candidate, Walk(t, rand, Slide(ctx, candidate), k - 1).words);
    }
  }

  /** The rendered text starts with the start context. */
  lemma {:induction false} RenderPrefix(start: string, words: seq<string>)
    ensures |Render(start, words)| >= |start| && Render(start, words)[..|start|] == start
  {
    if words != [] {
      var init := words[..|words| - 1];
      RenderPrefix(start, init);
      var r := Render(start, init);
      assert Render(start, words) == r + (" " + words[|words| - 1]);
      assert (r + (" " + words[|words| - 1]))[..|start|] == r[..|start|];
    }
  }

  /** Generated text starts with the start context and ends with a dot. */
  lemma GenerateShape(t: map<string, Counts>, rand: int -> int, start: string, maxWords: nat)
    ensures |Generate(t, rand, start, maxWords)| > 0
    ensures Generate(t, rand, start, maxWords)[|Generate(t, rand, start, maxWords)| - 1] == '.'
    ensures |Generate(t, rand, start, maxWords)| >= |start|
    ensures Generate(t, rand, start, maxWords)[..|start|] == start
  {
    var body := Render(start, Walk(t, rand, start, maxWords).words);
    RenderPrefix(start, Walk(t, rand, start, maxWords).words);
    if HasSuffix(body, ".") {
      assert body[|body| - 1] == body[|body| - 1..][0];
    } else {
      assert (body + ".")[..|start|] == body[..|start|];
    }
  }

  /** A draw from a coherent list with an in-range random source is a recorded candidate. */
  lemma SampleIsCandidate(c: Counts, rand: int -> int)
    requires WellFormed(c) && |c.words| > 0 && RandInRange(rand)
    ensures Find(c.words, Sample(c, rand)).Some?
  {
    PickInRange(c.words, rand(c.occurrences));
    FindNone(c.words, Sample(c, rand));
  }

  /**
   * Learning a candidate adds one to its count in the key's list (from 0
   * for a new key or an unseen word) and one to the key's occurrences;
   * every other word of that list and every other key keep their values.
   */
  lemma LearnEffect(s: State, key: string, candidate: string, other: string)
    ensures key in Learn(s, key, candidate).store
    ensures var before := if key in s.store then s.store[key] else Empty();
            var after := Learn(s, key, candidate).store[key];
            && after.occurrences == before.occurrences + 1
            && Find(after.words, candidate) == Some(WordFrequency(candidate, Frequency(before.words, candidate) + 1))
            && (other != candidate ==> Find(after.words, other) == Find(before.words, other))
    ensures Learn(s, key, candidate).store.Keys == s.store.Keys + {key}
    ensures other != key && other in s.store ==> Learn(s, key, candidate).store[other] == s.store[other]
    ensures key in s.store ==> Learn(s, key, candidate).seeds == s.seeds
    ensures key !in s.store ==> Learn(s, key, candidate).seeds == if StartsUpper(key) then s.seeds + [key] else s.seeds
  {
    var before := if key in s.store then s.store[key] else Empty();
    ObserveFind(before, candidate, other);
  }

  /** Sliding the context of a window of words: drop its first word, append the candidate. */
  lemma SlideJoin(ws: seq<string>, candidate: string)
    requires |ws| >= 1 && AllSpaceFree(ws)
    ensures Slide(Join(ws), candidate) == Join(ws[1..] + [candidate])
  {
    SplitJoin(ws);
  }

  /** CandidateProbability's ratio on a coherent list is the word's share of the draws, between 0 and 1. */
  lemma ProbabilityBounds(c: Counts, w: string)
    requires WellFormed(c) && c.occurrences > 0
    ensures Probability(c, w) == Frequency(c.words, w) as real / c.occurrences as real
    ensures 0.0 <= Probability(c, w) <= 1.0
    ensures Probability(c, w) == 0.0 <==> Find(c.words, w).None?
  {
    FrequencyFind(c.words, w);
    FrequencyBounds(c.words, w);
    Ratio(Frequency(c.words, w), c.occurrences);
  }

  /** A part over a positive whole is a ratio between 0 and 1. */
  lemma Ratio(part: int, whole: int)
    requires 0 <= part <= whole && whole > 0
    ensures 0.0 <= part as real / whole as real <= 1.0
  {
    assert part as real / whole as real * whole as real == part as real;
  }

  // ---------------------------------------------------------------------
  // Worked examples
  //
  // The test contexts are written as concatenations such as "It's" + " " + "a"
  // rather than as the literal "It's a": on a literal the verifier unfolds
  // Split character by character, which makes these proofs far costlier.

  /** One observation of each word. */
  function Once(w: string): Counts {
    Counts([WordFrequency(w, 1)], 1)
  }

  /** The key of a three-word window: its first two words with a space between. */
  lemma TrigramKey(a: string, b: string, c: string)
    ensures ContextKey([a, b, c]) == a + " " + b
  {
    assert [a, b, c][..2] == [a, b] && [a, b][1..] == [b];
    assert Join([a, b]) == a + " " + Join([b]) && Join([b]) == b;
  }

  /** Trigrams of "a b c d e f": each two-word context is followed once by the next word; no seeds. */
  lemma TrainExample()
    ensures Train(State(map[], []), 3, ["a", "b", "c", "d", "e", "f"])
            == State(map["a b" := Once("c"), "b c" := Once("d"), "c d" := Once("e"), "d e" := Once("f")], [])
  {
    var s, tokens := State(map[], []), ["a", "b", "c", "d", "e", "f"];
    TrigramKey("a", "b", "c");
    assert tokens[0..3] == [tokens[0], tokens[1], tokens[2]] == ["a", "b", "c"];
    assert "a" + " " + "b" == "a b";
    TrigramKey("b", "c", "d");
    assert tokens[1..4] == [tokens[1], tokens[2], tokens[3]] == ["b", "c", "d"];
    assert "b" + " " + "c" == "b c";
    TrigramKey("c", "d", "e");
    assert tokens[2..5] == [tokens[2], tokens[3], tokens[4]] == ["c", "d", "e"];
    assert "c" + " " + "d" == "c d";
    TrigramKey("d", "e", "f");
    assert tokens[3..6] == [tokens[3], tokens[4], tokens[5]] == ["d", "e", "f"];
    assert "d" + " " + "e" == "d e";
    assert TrainWindows(s, 3, tokens, 1) == State(map["a b" := Once("c")], []);
    assert TrainWindows(s, 3, tokens, 2) == State(map["a b" := Once("c"), "b c" := Once("d")], []);
    assert TrainWindows(s, 3, tokens, 3) == State(map["a b" := Once("c"), "b c" := Once("d"), "c d" := Once("e")], []);
  }

  /**
   * Splitting a window's key gives back all but its last word, so windows
   * of space-free words with different contexts ("a bc" and "ab c") get
   * different keys.
   */
  lemma ContextKeySplit(window: seq<string>)
    requires |window| >= 2 && AllSpaceFree(window)
    ensures Split(ContextKey(window)) == window[..|window| - 1]
  {
    SplitJoin(window[..|window| - 1]);
  }

  /**
   * Sliding keeps the context's word count: the new context's words are
   * the old ones after the first, followed by the space-free candidate.
   */
  lemma SlideSplit(ctx: string, candidate: string)
    requires SpaceFree(candidate)
    ensures Split(Slide(ctx, candidate)) == Split(ctx)[1..] + [candidate]
    ensures |Split(Slide(ctx, candidate))| == |Split(ctx)|
  {
    var words := Split(ctx)[1..] + [candidate];
    assert AllSpaceFree(words) by {
      assert forall i :: 0 <= i < |words| - 1 ==> words[i] == Split(ctx)[i + 1];
    }
    SplitJoin(words);
  }

  /** Sliding a two-word context keeps its second word and appends the candidate. */
  lemma SlidePair(a: string, b: string, candidate: string)
    requires SpaceFree(a) && SpaceFree(b)
    ensures Slide(a + " " + b, candidate) == b + " " + candidate
  {
    SlideJoin([a, b], candidate);
    assert [a, b][1..] + [candidate] == [b, candidate];
  }

  /** With draw 1 the walk from "a wonderful" takes "world." and stops there. */
  lemma WalkAfterWonderful(t: map<string, Counts>, rand: int -> int, k: nat)
    requires "a" + " " + "wonderful" in t
    requires t["a" + " " + "wonderful"] == Counts([WordFrequency("world.", 2), WordFrequency("planet", 3), WordFrequency("day", 2)], 7)
    requires "wonderful" + " " + "world." !in t
    requires rand(7) == 1 && k >= 1
    ensures Walk(t, rand, "a" + " " + "wonderful", k).words == ["world."]
  {
    SlidePair("a", "wonderful", "world.");
  }

  /**
   * A store where "It's a" was followed by trap once and wonderful five
   * times, and "a wonderful" by world. twice, planet three times and day
   * twice: with draw 1 and room for two words or more, generation from
   * "It's a" stops after "world.", which already ends the text.
   */
  lemma GenerateEndsWithDot(t: map<string, Counts>, rand: int -> int, maxWords: nat)
    requires "It's" + " " + "a" in t
    requires t["It's" + " " + "a"] == Counts([WordFrequency("trap", 1), WordFrequency("wonderful", 5)], 6)
    requires "a" + " " + "wonderful" in t
    requires t["a" + " " + "wonderful"] == Counts([WordFrequency("world.", 2), WordFrequency("planet", 3), WordFrequency("day", 2)], 7)
    requires "wonderful" + " " + "world." !in t
    requires rand(6) == 1 && rand(7) == 1 && maxWords >= 2
    ensures Generate(t, rand, "It's" + " " + "a", maxWords) == "It's a wonderful world."
  {
    assert Render("It's" + " " + "a", ["wonderful", "world."]) == "It's a wonderful world." by {
      RenderCons("It's" + " " + "a", "wonderful", ["world."]);
      assert ["wonderful"] + ["world."] == ["wonderful", "world."];
    }
    assert Walk(t, rand, "It's" + " " + "a", maxWords).words == ["wonderful", "world."] by {
      WalkAfterWonderful(t, rand, maxWords - 1);
      SlidePair("It's", "a", "wonderful");
    }
  }

  /**
   * A store where "I am" was followed by batman only and "am batman" is
   * unknown: with draw 0 and room for a word, generation from "I am" stops
   * after "batman", and the dot is added.
   */
  lemma GenerateAddsDot(t: map<string, Counts>, rand: int -> int, maxWords: nat)
    requires "I" + " " + "am" in t && t["I" + " " + "am"] == Counts([WordFrequency("batman", 4)], 4)
    requires "am" + " " + "batman" !in t
    requires rand(4) == 0 && maxWords >= 1
    ensures Generate(t, rand, "I" + " " + "am", maxWords) == "I am batman."
  {
    SlidePair("I", "am", "batman");
    assert Walk(t, rand, "I" + " " + "am", maxWords).words == ["batman"];
    assert Render("I" + " " + "am", ["batman"]) == "I am batman";
  }
}
