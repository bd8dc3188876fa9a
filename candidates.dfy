/**
 * The candidate list of one context: every word that has followed the
 * context, in order of first appearance, with how often it did, and the
 * running number of observations of the context (candidates.go).
 */
module CandidateSet {

  datatype Option<+T> = None | Some(value: T)

  /** One candidate word and the number of times it followed the context. */
  datatype WordFrequency = WordFrequency(word: string, frequency: int)

  /** The value held by a candidate list: its entries and its occurrence counter. */
  datatype Counts = Counts(words: seq<WordFrequency>, occurrences: int)

  /** The sum of the frequencies of the entries. */
  function Total(ws: seq<WordFrequency>): (t: int)
    ensures NonNegative(ws) ==> t >= 0
    ensures Positive(ws) ==> t >= |ws|
  {
    if ws == [] then 0 else ws[0].frequency + Total(ws[1..])
  }

  predicate NonNegative(ws: seq<WordFrequency>) {
    forall i :: 0 <= i < |ws| ==> ws[i].frequency >= 0
  }

  /** Every entry has been observed at least once. */
  predicate Positive(ws: seq<WordFrequency>) {
    forall i :: 0 <= i < |ws| ==> ws[i].frequency >= 1
  }

  /** No word appears in two entries. */
  predicate DistinctWords(ws: seq<WordFrequency>) {
    forall i, j :: 0 <= i < j < |ws| ==> ws[i].word != ws[j].word
  }

  /**
   * The invariant the list keeps through its public operations: the counter
   * is the sum of the frequencies, words are unique and every entry has
   * been seen.
   */
  predicate WellFormed(c: Counts) {
    c.occurrences == Total(c.words) && DistinctWords(c.words) && Positive(c.words)
  }

  /**
   * The entry list after one more observation of `w`: the first entry for
   * `w` gains one, or `(w, 1)` is appended.
   */
  function Record(ws: seq<WordFrequency>, w: string): (r: seq<WordFrequency>)
    ensures Total(r) == Total(ws) + 1
  {
    if ws == [] then [WordFrequency(w, 1)]
    else if ws[0].word == w then [WordFrequency(w, ws[0].frequency + 1)] + ws[1..]
    else [ws[0]] + Record(ws[1..], w)
  }

  /** The value after processCandidate(w). */
  function Observe(c: Counts, w: string): Counts {
    Counts(Record(c.words, w), c.occurrences + 1)
  }

  /** A fresh candidate list. */
  function Empty(): Counts {
    Counts([], 0)
  }

  /**
   * The weighted pick for draw `r`: the word of the first entry whose
   * running sum of frequencies exceeds `r`, or "" when no running sum does.
   */
  function Pick(ws: seq<WordFrequency>, r: int): string {
    if ws == [] then ""
    else if ws[0].frequency > r then ws[0].word
    else Pick(ws[1..], r - ws[0].frequency)
  }

  /** The running sum at entry `j`: the frequencies of entries 0 .. j added up. */
  function RunningSum(ws: seq<WordFrequency>, j: int): int
    requires 0 <= j < |ws|
  {
    Total(ws[..j + 1])
  }

  /** The first entry for `w`, if any. */
  function Find(ws: seq<WordFrequency>, w: string): (r: Option<WordFrequency>)
    ensures r.Some? ==> r.value.word == w && r.value in ws
  {
    if ws == [] then None
    else if ws[0].word == w then Some(ws[0])
    else Find(ws[1..], w)
  }

  /** Find comes back empty exactly when no entry holds `w`. */
  lemma {:induction false} FindNone(ws: seq<WordFrequency>, w: string)
    ensures Find(ws, w).None? <==> forall i :: 0 <= i < |ws| ==> ws[i].word != w
  {
    if ws != [] {
      FindNone(ws[1..], w);
      assert forall i :: 1 <= i < |ws| ==> ws[i] == ws[1..][i - 1];
    }
  }

  /** The total frequency recorded for `w`, over all entries. */
  function Freq(ws: seq<WordFrequency>, w: string): int {
    if ws == [] then 0
    else (if ws[0].word == w then ws[0].frequency else 0) + Freq(ws[1..], w)
  }

  /** The number of draws in [lo, hi) for which the pick is `w`. */
  function Hits(ws: seq<WordFrequency>, w: string, lo: int, hi: int): nat
    decreases hi - lo
  {
    if hi <= lo then 0
    else Hits(ws, w, lo, hi - 1) + (if Pick(ws, hi - 1) == w then 1 else 0)
  }

  // ---------------------------------------------------------------------
  // Recording an observation

  /** When `w` is present, its first entry gains one and nothing else moves. */
  lemma {:induction false} RecordPresent(ws: seq<WordFrequency>, w: string, i: int)
    requires 0 <= i < |ws| && ws[i].word == w
    requires forall j :: 0 <= j < i ==> ws[j].word != w
    ensures Record(ws, w) == ws[i := WordFrequency(w, ws[i].frequency + 1)]
  {
    var e := WordFrequency(w, ws[i].frequency + 1);
    if i == 0 {
      assert ws[i := e] == [e] + ws[1..];
    } else {
      RecordPresent(ws[1..], w, i - 1);
      assert ws[i := e] == [ws[0]] + ws[1..][i - 1 := e];
    }
  }

  /** When `w` is absent, `(w, 1)` is appended and the earlier entries stay. */
  lemma {:induction false} RecordAbsent(ws: seq<WordFrequency>, w: string)
    requires forall j :: 0 <= j < |ws| ==> ws[j].word != w
    ensures Record(ws, w) == ws + [WordFrequency(w, 1)]
  {
    if ws != [] {
      RecordAbsent(ws[1..], w);
      assert ws + [WordFrequency(w, 1)] == [ws[0]] + (ws[1..] + [WordFrequency(w, 1)]);
    }
  }

  /** Counting a word already present keeps the words unique and every entry seen. */
  lemma RecordPresentKeeps(ws: seq<WordFrequency>, w: string, i: int)
    requires DistinctWords(ws) && Positive(ws) && 0 <= i < |ws| && ws[i].word == w
    ensures DistinctWords(Record(ws, w)) && Positive(Record(ws, w))
  {
    RecordPresent(ws, w, i);
    var ws' := ws[i := WordFrequency(w, ws[i].frequency + 1)];
    assert forall k :: 0 <= k < |ws| ==> ws'[k].word == ws[k].word;
  }

  /** Appending an absent word keeps the words unique and every entry seen. */
  lemma RecordAbsentKeeps(ws: seq<WordFrequency>, w: string)
    requires DistinctWords(ws) && Positive(ws)
    requires forall j :: 0 <= j < |ws| ==> ws[j].word != w
    ensures DistinctWords(Record(ws, w)) && Positive(Record(ws, w))
  {
    RecordAbsent(ws, w);
    var ws' := ws + [WordFrequency(w, 1)];
    assert forall k :: 0 <= k < |ws| ==> ws'[k] == ws[k];
  }

  /** processCandidate keeps the counter equal to the sum, the words unique and every entry seen. */
  lemma ObserveKeepsWellFormed(c: Counts, w: string)
    requires WellFormed(c)
    ensures WellFormed(Observe(c, w))
    ensures |Observe(c, w).words| > 0
  {
    if i :| 0 <= i < |c.words| && c.words[i].word == w {
      RecordPresentKeeps(c.words, w, i);
    } else {
      RecordAbsentKeeps(c.words, w);
    }
    assert Total(Observe(c, w).words) > 0;
  }

  /** The frequency stored for `w`: that of its first entry, or 0 when it has none. */
  function Frequency(ws: seq<WordFrequency>, w: string): int {
    if ws == [] then 0
    else if ws[0].word == w then ws[0].frequency
    else Frequency(ws[1..], w)
  }

  /** The frequency is that of the entry Find returns, and 0 when it returns none. */
  lemma {:induction false} FrequencyFind(ws: seq<WordFrequency>, w: string)
    ensures Frequency(ws, w) == match Find(ws, w) case Some(e) => e.frequency case None => 0
  {
    if ws != [] && ws[0].word != w {
      FrequencyFind(ws[1..], w);
    }
  }

  /** With every entry observed, a word's frequency lies between 0 and the total, and is 0 only when absent. */
  lemma {:induction false} FrequencyBounds(ws: seq<WordFrequency>, w: string)
    requires Positive(ws)
    ensures 0 <= Frequency(ws, w) <= Total(ws)
    ensures Frequency(ws, w) == 0 <==> Find(ws, w).None?
  {
    if ws != [] && ws[0].word != w {
      FrequencyBounds(ws[1..], w);
    }
  }

  /** After one observation of `w`, the entry found for `w` holds one more than before (1 when new). */
  lemma {:induction false} RecordFindSame(ws: seq<WordFrequency>, w: string)
    ensures Find(Record(ws, w), w) == Some(WordFrequency(w, Frequency(ws, w) + 1))
  {
    if ws == [] {
      assert Frequency(ws, w) == 0;
      assert Record(ws, w) == [WordFrequency(w, 1)];
    } else if ws[0].word == w {
      var r := Record(ws, w);
      assert Frequency(ws, w) == ws[0].frequency;
      assert r[0] == WordFrequency(w, ws[0].frequency + 1);
      assert Find(r, w) == Some(r[0]);
    } else {
      var tail := ws[1..];
      var f := Frequency(tail, w);
      assert Frequency(ws, w) == f;
      RecordFindSame(tail, w);
      var rest := Record(tail, w);
      var r := [ws[0]] + rest;
      assert Record(ws, w) == r;
      assert r[1..] == rest;
      assert Find(r, w) == Find(rest, w);
    }
  }

  /** Observing `w` leaves the entry found for any other word as it was. */
  lemma {:induction false} RecordFindOther(ws: seq<WordFrequency>, w: string, v: string)
    requires v != w
    ensures Find(Record(ws, w), v) == Find(ws, v)
  {
    if ws == [] {
      assert Record(ws, w)[1..] == [];
    } else if ws[0].word == w {
      assert Record(ws, w)[1..] == ws[1..];
    } else {
      var rest := Record(ws[1..], w);
      assert ([ws[0]] + rest)[1..] == rest;
      RecordFindOther(ws[1..], w, v);
    }
  }

  /** After one observation of `w`, its entry holds one more; other words keep theirs. */
  lemma ObserveFind(c: Counts, w: string, v: string)
    ensures Find(Observe(c, w).words, w) == Some(WordFrequency(w, Frequency(c.words, w) + 1))
    ensures v != w ==> Find(Observe(c, w).words, v) == Find(c.words, v)
  {
    RecordFindSame(c.words, w);
    if v != w {
      RecordFindOther(c.words, w, v);
    }
  }

  // ---------------------------------------------------------------------
  // Weighted selection

  /**
   * A draw in [0, occurrences) on a well-formed list picks a word of the
   * list that has been observed.
   */
  lemma {:induction false} PickInRange(ws: seq<WordFrequency>, r: int)
    requires NonNegative(ws) && 0 <= r < Total(ws)
    ensures exists i :: 0 <= i < |ws| && ws[i].word == Pick(ws, r) && ws[i].frequency > 0
  {
    if ws[0].frequency <= r {
      PickInRange(ws[1..], r - ws[0].frequency);
      var i :| 0 <= i < |ws| - 1 && ws[1..][i].word == Pick(ws[1..], r - ws[0].frequency) && ws[1..][i].frequency > 0;
      assert ws[i + 1].word == Pick(ws, r);
    }
  }

  /** A draw at or past the sum of frequencies walks off the list and gives "". */
  lemma {:induction false} PickBeyond(ws: seq<WordFrequency>, r: int)
    requires NonNegative(ws) && r >= Total(ws)
    ensures Pick(ws, r) == ""
  {
    if ws != [] {
      PickBeyond(ws[1..], r - ws[0].frequency);
    }
  }

  lemma RunningSumTail(ws: seq<WordFrequency>, j: int)
    requires 0 <= j < |ws|
    ensures RunningSum(ws, j) == ws[0].frequency + if j == 0 then 0 else RunningSum(ws[1..], j - 1)
  {
    assert ws[..j + 1][0] == ws[0];
    assert ws[..j + 1][1..] == ws[1..][..j];
    assert Total(ws[..j + 1]) == ws[0].frequency + Total(ws[1..][..j]);
    if j == 0 {
      assert ws[1..][..j] == [];
    }
  }

  /**
   * The pick is the word of the first entry whose running sum exceeds the
   * draw.
   */
  lemma {:induction false} PickFirstCrossing(ws: seq<WordFrequency>, r: int, i: int)
    requires 0 <= i < |ws| && RunningSum(ws, i) > r
    requires forall j :: 0 <= j < i ==> RunningSum(ws, j) <= r
    ensures Pick(ws, r) == ws[i].word
  {
    RunningSumTail(ws, 0);
    if i > 0 {
      forall j | 0 <= j < i - 1
        ensures RunningSum(ws[1..], j) <= r - ws[0].frequency
      {
        RunningSumTail(ws, j + 1);
      }
      RunningSumTail(ws, i);
      PickFirstCrossing(ws[1..], r - ws[0].frequency, i - 1);
    }
  }

  /** When no running sum exceeds the draw, the pick is "". */
  lemma {:induction false} PickNoCrossing(ws: seq<WordFrequency>, r: int)
    requires forall j :: 0 <= j < |ws| ==> RunningSum(ws, j) <= r
    ensures Pick(ws, r) == ""
  {
    if ws != [] {
      RunningSumTail(ws, 0);
      forall j | 0 <= j < |ws| - 1
        ensures RunningSum(ws[1..], j) <= r - ws[0].frequency
      {
        RunningSumTail(ws, j + 1);
      }
      PickNoCrossing(ws[1..], r - ws[0].frequency);
    }
  }

  lemma {:induction false} HitsSplit(ws: seq<WordFrequency>, w: string, lo: int, mid: int, hi: int)
    requires lo <= mid <= hi
    ensures Hits(ws, w, lo, hi) == Hits(ws, w, lo, mid) + Hits(ws, w, mid, hi)
    decreases hi - mid
  {
    if mid < hi {
      HitsSplit(ws, w, lo, mid, hi - 1);
    }
  }

  /** Draws below the first frequency all pick the first word. */
  lemma {:induction false} HitsHead(ws: seq<WordFrequency>, w: string, hi: int)
    requires ws != [] && 0 <= hi <= ws[0].frequency
    ensures Hits(ws, w, 0, hi) == if ws[0].word == w then hi else 0
  {
    if hi > 0 {
      HitsHead(ws, w, hi - 1);
    }
  }

  /** Draws past the first frequency pick as the rest of the list does on the reduced draw. */
  lemma {:induction false} HitsShift(ws: seq<WordFrequency>, w: string, lo: int, hi: int)
    requires ws != [] && 0 <= lo
    ensures Hits(ws, w, ws[0].frequency + lo, ws[0].frequency + hi) == Hits(ws[1..], w, lo, hi)
    decreases hi - lo
  {
    if lo < hi {
      HitsShift(ws, w, lo, hi - 1);
    }
  }

  /**
   * Weighted selection is exact: among the draws 0 .. Total-1, the word `w`
   * is picked for exactly as many draws as its recorded frequency, so a
   * uniform draw picks `w` with probability frequency / occurrences.
   */
  lemma {:induction false} PickWeighted(ws: seq<WordFrequency>, w: string)
    requires NonNegative(ws)
    ensures Hits(ws, w, 0, Total(ws)) == Freq(ws, w)
  {
    if ws != [] {
      var f := ws[0].frequency;
      var rest := Total(ws[1..]);
      assert NonNegative(ws[1..]);
      HitsSplit(ws, w, 0, f, f + rest);
      HitsHead(ws, w, f);
      HitsShift(ws, w, 0, rest);
      PickWeighted(ws[1..], w);
    }
  }

  /** With unique words, the total frequency of `w` is the frequency of its entry. */
  lemma {:induction false} FreqDistinct(ws: seq<WordFrequency>, w: string)
    requires DistinctWords(ws)
    ensures Freq(ws, w) == Frequency(ws, w)
  {
    if ws != [] {
      FreqDistinct(ws[1..], w);
      if ws[0].word == w {
        assert forall i :: 1 <= i < |ws| ==> ws[i] == ws[1..][i - 1];
        FindNone(ws[1..], w);
        FrequencyFind(ws[1..], w);
      }
    }
  }

  /**
   * On a well-formed list, a uniform draw in [0, occurrences) picks each
   * word for exactly its frequency's worth of draws.
   */
  lemma SelectionWeights(c: Counts, w: string)
    requires WellFormed(c)
    ensures Hits(c.words, w, 0, c.occurrences) == Frequency(c.words, w)
  {
    PickWeighted(c.words, w);
    FreqDistinct(c.words, w);
  }

  // ---------------------------------------------------------------------
  // The mutable candidate list

  class Candidates {
    var words: seq<WordFrequency>
    var occurrences: int

    function Value(): Counts
      reads this
    {
      Counts(words, occurrences)
    }

    ghost predicate Valid()
      reads this
    {
      WellFormed(Value())
    }

    /** The zero value `candidates{}`: no entries, no occurrences. */
    constructor ()
      ensures Value() == Empty() && Valid()
    {
      words := [];
      occurrences := 0;
    }

    /**
     * processCandidate: count one more occurrence, then raise the first
     * entry for `candidate` by one or append `(candidate, 1)`.
     */
    method ProcessCandidate(candidate: string)
      modifies this
      ensures Value() == Observe(old(Value()), candidate)
      ensures old(Valid()) ==> Valid()
    {
      occurrences := occurrences + 1;
      var i := 0;
      while i < |words|
        invariant 0 <= i <= |words|
        invariant words == old(words)
        invariant forall j :: 0 <= j < i ==> words[j].word != candidate
      {
        if candidate == words[i].word {
          RecordPresent(words, candidate, i);
          words := words[i := WordFrequency(words[i].word, words[i].frequency + 1)];
          if old(Valid()) {
            ObserveKeepsWellFormed(old(Value()), candidate);
          }
          return;
        }
        i := i + 1;
      }
      RecordAbsent(words, candidate);
      words := words + [WordFrequency(candidate, 1)];
      if old(Valid()) {
        ObserveKeepsWellFormed(old(Value()), candidate);
      }
    }

    /**
     * selectCandidate: draw `randomPos = randFunc(occurrences)` and walk the
     * entries with a running sum until it exceeds the draw.
     */
    method SelectCandidate(randFunc: int -> int) returns (word: string)
      ensures word == Pick(words, randFunc(occurrences))
      ensures Valid() && 0 <= randFunc(occurrences) < occurrences ==>
                exists i :: 0 <= i < |words| && words[i].word == word && words[i].frequency > 0
      ensures NonNegative(words) && randFunc(occurrences) >= Total(words) ==> word == ""
    {
      var randomPos := randFunc(occurrences);
      var counter := 0;
      var i := 0;
      while i < |words|
        invariant 0 <= i <= |words|
        invariant Pick(words, randomPos) == Pick(words[i..], randomPos - counter)
      {
        assert words[i..][1..] == words[i + 1..];
        counter := counter + words[i].frequency;
        if counter > randomPos {
          word := words[i].word;
          SelectFacts(randomPos, word);
          return;
        }
        i := i + 1;
      }
      word := "";
      SelectFacts(randomPos, word);
    }

    lemma SelectFacts(r: int, word: string)
      requires word == Pick(words, r)
      ensures Valid() && 0 <= r < occurrences ==>
                exists i :: 0 <= i < |words| && words[i].word == word && words[i].frequency > 0
      ensures NonNegative(words) && r >= Total(words) ==> word == ""
    {
      if Valid() && 0 <= r < occurrences {
        PickInRange(words, r);
      }
      if NonNegative(words) && r >= Total(words) {
        PickBeyond(words, r);
      }
    }

    /** getCandidate: a copy of the first entry for `word`, or nothing. */
    method GetCandidate(word: string) returns (entry: Option<WordFrequency>)
      ensures entry == Find(words, word)
    {
      var i := 0;
      while i < |words|
        invariant 0 <= i <= |words|
        invariant Find(words, word) == Find(words[i..], word)
      {
        assert words[i..][1..] == words[i + 1..];
        if words[i].word == word {
          return Some(words[i]);
        }
        i := i + 1;
      }
      return None;
    }
  }

  // ---------------------------------------------------------------------
  // Worked examples: the list potato 1, banana 4, tomato 5 (10 draws)

  /** Draw 0 falls on potato, draw 6 on tomato, and a draw past the total on no word. */
  lemma SelectExamples()
    ensures Pick([WordFrequency("potato", 1), WordFrequency("banana", 4), WordFrequency("tomato", 5)], 0) == "potato"
    ensures Pick([WordFrequency("potato", 1), WordFrequency("banana", 4), WordFrequency("tomato", 5)], 6) == "tomato"
    ensures Pick([WordFrequency("potato", 1), WordFrequency("banana", 4), WordFrequency("tomato", 5)], 15) == ""
    ensures Find([WordFrequency("potato", 1), WordFrequency("banana", 4), WordFrequency("tomato", 5)], "banana")
            == Some(WordFrequency("banana", 4))
    ensures Find([WordFrequency("potato", 1), WordFrequency("banana", 4), WordFrequency("tomato", 5)], "platano") == None
  {
    var ws := [WordFrequency("potato", 1), WordFrequency("banana", 4), WordFrequency("tomato", 5)];
    assert Total(ws) == 10;
    PickBeyond(ws, 15);
  }

  /** Observing a new word appends it with count 1; observing a known word raises its count. */
  lemma ObserveExamples()
    ensures Observe(Counts([WordFrequency("potato", 1)], 1), "banana")
            == Counts([WordFrequency("potato", 1), WordFrequency("banana", 1)], 2)
    ensures Observe(Counts([WordFrequency("potato", 1)], 1), "potato") == Counts([WordFrequency("potato", 2)], 2)
  {
  }
}
