/** The knowledge-processing edge function (supabase/functions/process-knowledge): splits a document
    into word chunks of about 500 tokens, gives each a synthetic embedding, stores the chunks and
    marks the `knowledge_base` row completed. */
module ProcessKnowledge {
  import opened Wrappers
  import opened Json
  import opened Strings
  import opened Http
  import opened Store

  const MaxChunkTokens := 500
  const Dimensions := 1536

  // ---------------------------------------------------------------------------------------------
  // Token estimate and chunking

  /** `estimateTokenCount`: one token per four characters, rounded up. */
  function EstimateTokenCount(text: string): nat {
    (|text| + 3) / 4
  }

  /** The estimate is the ceiling of a quarter of the length: the least n with 4n >= length. */
  lemma EstimateIsCeiling(text: string)
    ensures 4 * EstimateTokenCount(text) >= |text|
    ensures EstimateTokenCount(text) > 0 ==> 4 * (EstimateTokenCount(text) - 1) < |text|
  {
  }

  /** The estimated tokens of a list of words. */
  function TokenSum(words: seq<string>): nat {
    if words == [] then 0 else TokenSum(words[..|words| - 1]) + EstimateTokenCount(words[|words| - 1])
  }

  /** The greedy grouping `splitIntoChunks` performs, from a state with `current` words holding
      `currentTokens`: a word starts a new chunk when it would push a non-empty chunk over the limit. */
  function Group(words: seq<string>, current: seq<string>, currentTokens: int, maxTokens: int): seq<seq<string>>
    decreases |words|
  {
    if words == [] then (if current != [] then [current] else [])
    else
      var w := words[0];
      var t := EstimateTokenCount(w);
      if currentTokens + t > maxTokens && current != [] then [current] + Group(words[1..], [w], t, maxTokens)
      else Group(words[1..], current + [w], currentTokens + t, maxTokens)
  }

  /** The word groups of a list of words. */
  function Chunks(words: seq<string>, maxTokens: int): seq<seq<string>> {
    Group(words, [], 0, maxTokens)
  }

  function Concat(groups: seq<seq<string>>): seq<string> {
    if groups == [] then [] else groups[0] + Concat(groups[1..])
  }

  /** Grouping loses, duplicates and reorders no word. */
  lemma {:induction false} GroupFlattens(words: seq<string>, current: seq<string>, currentTokens: int, maxTokens: int)
    ensures Concat(Group(words, current, currentTokens, maxTokens)) == current + words
    decreases |words|
  {
    if words == [] {
      if current != [] {
        assert Concat([current]) == current + Concat([]);
      }
    } else {
      var w := words[0];
      var t := EstimateTokenCount(w);
      assert words == [w] + words[1..];
      if currentTokens + t > maxTokens && current != [] {
        var rest := Group(words[1..], [w], t, maxTokens);
        GroupFlattens(words[1..], [w], t, maxTokens);
        assert ([current] + rest)[1..] == rest;
      } else {
        GroupFlattens(words[1..], current + [w], currentTokens + t, maxTokens);
      }
    }
  }

  /** No chunk is empty. */
  lemma {:induction false} GroupNonEmpty(words: seq<string>, current: seq<string>, currentTokens: int, maxTokens: int)
    ensures forall k :: 0 <= k < |Group(words, current, currentTokens, maxTokens)| ==> Group(words, current, currentTokens, maxTokens)[k] != []
    decreases |words|
  {
    if words != [] {
      var w := words[0];
      var t := EstimateTokenCount(w);
      if currentTokens + t > maxTokens && current != [] {
        GroupNonEmpty(words[1..], [w], t, maxTokens);
      } else {
        GroupNonEmpty(words[1..], current + [w], currentTokens + t, maxTokens);
      }
    }
  }

  /** A chunk is within the limit, or is a single word. */
  predicate WithinLimit(chunk: seq<string>, maxTokens: int) {
    TokenSum(chunk) <= maxTokens || |chunk| == 1
  }

  /** Appending a word adds its estimate to the token sum. */
  lemma TokenSumSnoc(chunk: seq<string>, w: string)
    ensures TokenSum(chunk + [w]) == TokenSum(chunk) + EstimateTokenCount(w)
  {
    assert (chunk + [w])[..|chunk|] == chunk;
  }

  /** A chunk goes over the limit only when it is a single word that is over the limit by itself. */
  lemma {:induction false} GroupWithinLimit(words: seq<string>, current: seq<string>, currentTokens: int, maxTokens: int)
    requires currentTokens == TokenSum(current)
    requires current == [] || WithinLimit(current, maxTokens)
    ensures forall k :: 0 <= k < |Group(words, current, currentTokens, maxTokens)| ==>
      WithinLimit(Group(words, current, currentTokens, maxTokens)[k], maxTokens)
    decreases |words|
  {
    if words != [] {
      var w := words[0];
      var t := EstimateTokenCount(w);
      if currentTokens + t > maxTokens && current != [] {
        TokenSumSnoc([], w);
        assert [] + [w] == [w];
        GroupWithinLimit(words[1..], [w], t, maxTokens);
        var rest := Group(words[1..], [w], t, maxTokens);
        assert Group(words, current, currentTokens, maxTokens) == [current] + rest;
      } else {
        TokenSumSnoc(current, w);
        GroupWithinLimit(words[1..], current + [w], currentTokens + t, maxTokens);
      }
    }
  }

  /** The first chunk produced from a state extends that state's current words. */
  lemma {:induction false} GroupFirstExtends(words: seq<string>, current: seq<string>, currentTokens: int, maxTokens: int)
    requires current != []
    ensures var r := Group(words, current, currentTokens, maxTokens);
      r != [] && |r[0]| >= |current| && r[0][..|current|] == current
    decreases |words|
  {
    if words != [] {
      var w := words[0];
      var t := EstimateTokenCount(w);
      if !(currentTokens + t > maxTokens && current != []) {
        GroupFirstExtends(words[1..], current + [w], currentTokens + t, maxTokens);
        var r := Group(words[1..], current + [w], currentTokens + t, maxTokens);
        assert r[0][..|current|] == r[0][..|current| + 1][..|current|];
      }
    }
  }

  /** Chunk `a` could not take the first word of the chunk `b` that follows it. */
  predicate Full(a: seq<string>, b: seq<string>, maxTokens: int) {
    b != [] && TokenSum(a) + EstimateTokenCount(b[0]) > maxTokens
  }

  /** Every chunk but the last is full with respect to the chunk after it. */
  predicate Greedy(groups: seq<seq<string>>, maxTokens: int) {
    forall j :: 0 <= j < |groups| - 1 ==> Full(groups[j], groups[j + 1], maxTokens)
  }

  /** Chunks are as large as the rule allows: each chunk plus the first word of the next is over the limit. */
  lemma {:induction false} GroupGreedy(words: seq<string>, current: seq<string>, currentTokens: int, maxTokens: int)
    requires currentTokens == TokenSum(current)
    ensures Greedy(Group(words, current, currentTokens, maxTokens), maxTokens)
    decreases |words|
  {
    if words != [] {
      var w := words[0];
      var t := EstimateTokenCount(w);
      assert TokenSum([w]) == t by { assert [w][..0] == []; }
      if currentTokens + t > maxTokens && current != [] {
        var rest := Group(words[1..], [w], t, maxTokens);
        GroupGreedy(words[1..], [w], t, maxTokens);
        GroupFirstExtends(words[1..], [w], t, maxTokens);
        var r := [current] + rest;
        assert rest[0][..1] == [w];
        forall j | 0 <= j < |r| - 1
          ensures Full(r[j], r[j + 1], maxTokens)
        {
          if j == 0 {
            assert r[1] == rest[0] && r[1][0] == rest[0][..1][0] == w;
          } else {
            assert r[j] == rest[j - 1] && r[j + 1] == rest[j];
          }
        }
        assert Group(words, current, currentTokens, maxTokens) == r;
      } else {
        TokenSumSnoc(current, w);
        assert Group(words, current, currentTokens, maxTokens) == Group(words[1..], current + [w], currentTokens + t, maxTokens);
        GroupGreedy(words[1..], current + [w], currentTokens + t, maxTokens);
      }
    }
  }

  /** The chunk texts: each group of words joined with single spaces. */
  function JoinEach(groups: seq<seq<string>>): (texts: seq<string>)
    ensures |texts| == |groups|
    ensures forall k :: 0 <= k < |groups| ==> texts[k] == Join(groups[k], " ")
  {
    seq(|groups|, k requires 0 <= k < |groups| => Join(groups[k], " "))
  }

  /** `splitIntoChunks(text, maxTokens)`: the loop over the whitespace-separated words. */
  method SplitIntoChunks(text: string, maxTokens: int) returns (chunks: seq<string>)
    ensures chunks == JoinEach(Chunks(SplitWhitespace(text), maxTokens))
  {
    var words := SplitWhitespace(text);
    chunks := [];
    var current: seq<string> := [];
    var currentTokens := 0;
    var i := 0;
    while i < |words|
      invariant 0 <= i <= |words|
      invariant JoinEach(Chunks(words, maxTokens)) == chunks + JoinEach(Group(words[i..], current, currentTokens, maxTokens))
    {
      var word := words[i];
      var wordTokens := EstimateTokenCount(word);
      assert words[i..][0] == word && words[i..][1..] == words[i + 1..];
      if currentTokens + wordTokens > maxTokens && |current| > 0 {
        assert JoinEach([current] + Group(words[i + 1..], [word], wordTokens, maxTokens)) ==
          [Join(current, " ")] + JoinEach(Group(words[i + 1..], [word], wordTokens, maxTokens));
        chunks := chunks + [Join(current, " ")];
        current := [word];
        currentTokens := wordTokens;
      } else {
        current := current + [word];
        currentTokens := currentTokens + wordTokens;
      }
      i := i + 1;
    }
    assert words[i..] == [];
    if |current| > 0 {
      chunks := chunks + [Join(current, " ")];
    } else {
      assert JoinEach([]) == [];
    }
  }

  /** What the chunking promises about a document: at least one chunk (the whitespace split always
      yields a word, possibly empty), the words kept in order, no empty chunk, every chunk within the
      limit unless it is one over-long word, and each chunk as full as the rule allows. */
  lemma ChunkingProperties(text: string, maxTokens: int)
    ensures var groups := Chunks(SplitWhitespace(text), maxTokens);
      |groups| >= 1 &&
      Concat(groups) == SplitWhitespace(text) &&
      (forall k :: 0 <= k < |groups| ==> groups[k] != []) &&
      (forall k :: 0 <= k < |groups| ==> WithinLimit(groups[k], maxTokens)) &&
      Greedy(groups, maxTokens)
  {
    var words := SplitWhitespace(text);
    GroupFlattens(words, [], 0, maxTokens);
    GroupNonEmpty(words, [], 0, maxTokens);
    GroupWithinLimit(words, [], 0, maxTokens);
    GroupGreedy(words, [], 0, maxTokens);
  }

  // ---------------------------------------------------------------------------------------------
  // Hash and synthetic embedding

  const TwoTo31: int := 0x8000_0000
  const TwoTo32: int := 0x1_0000_0000

  /** ECMAScript ToInt32 on an integer: the value congruent to x modulo 2^32 in [-2^31, 2^31). */
  function ToInt32(x: int): (r: int)
    ensures -TwoTo31 <= r < TwoTo31
    ensures (x - r) % TwoTo32 == 0
  {
    (x + TwoTo31) % TwoTo32 - TwoTo31
  }

  lemma ToInt32Congruent(x: int, y: int, k: int)
    requires x == y + k * TwoTo32
    ensures ToInt32(x) == ToInt32(y)
  {
    assert (x + TwoTo31) % TwoTo32 == (y + TwoTo31) % TwoTo32 by {
      var a := y + TwoTo31;
      assert x + TwoTo31 == a + k * TwoTo32;
      assert (a + k * TwoTo32) % TwoTo32 == a % TwoTo32;
    }
  }

  /** `x << 5` on a number: ToInt32 of the operand, shifted, wrapped to 32 bits. */
  function ShiftLeft5(x: int): int {
    ToInt32(ToInt32(x) * 32)
  }

  /** `x & x` on a number: ToInt32 of x. */
  function AndSelf(x: int): int {
    ToInt32(x)
  }

  /** The 32-bit Java-style string hash: h := wrap32(31 * h + code) over the UTF-16 code units. */
  function HashFold(s: string): (h: int)
    ensures -TwoTo31 <= h < TwoTo31
  {
    if s == [] then 0 else ToInt32(31 * HashFold(s[..|s| - 1]) + s[|s| - 1] as int)
  }

  /** One step of the source's loop computes the 31-multiplier step of HashFold. */
  lemma HashStep(h: int, c: int)
    requires -TwoTo31 <= h < TwoTo31
    ensures AndSelf(ShiftLeft5(h) - h + c) == ToInt32(31 * h + c)
  {
    var shifted := ToInt32(h * 32);
    var k := (h * 32 - shifted) / TwoTo32;
    assert h * 32 - shifted == k * TwoTo32;
    ToInt32Congruent(31 * h + c, shifted - h + c, k);
  }

  /** `hashString(str)`: the absolute value of the 32-bit hash, so in [0, 2^31]. */
  method HashString(str: string) returns (h: int)
    ensures h == if HashFold(str) < 0 then -HashFold(str) else HashFold(str)
    ensures 0 <= h <= TwoTo31
  {
    var hash := 0;
    var i := 0;
    while i < |str|
      invariant 0 <= i <= |str|
      invariant hash == HashFold(str[..i])
    {
      var code := str[i] as int;
      assert str[..i + 1][..i] == str[..i];
      HashStep(hash, code);
      hash := ShiftLeft5(hash) - hash + code;
      hash := AndSelf(hash);
      i := i + 1;
    }
    assert str[..i] == str;
    h := if hash < 0 then -hash else hash;
  }

  /** The seed `generateSyntheticEmbedding` starts from: `hashString(text)`. */
  function InitialSeed(text: string): (seed: int)
    ensures 0 <= seed <= TwoTo31
  {
    if HashFold(text) < 0 then -HashFold(text) else HashFold(text)
  }

  const SeedModulus := 233280

  /** The linear congruential step. Seeds are never negative, so JavaScript's `%` agrees with Dafny's. */
  function NextSeed(seed: int): int {
    (seed * 9301 + 49297) % SeedModulus
  }

  /** The seed after n steps. */
  function SeedAfter(seed: int, n: nat): (r: int)
    ensures n > 0 ==> 0 <= r < SeedModulus
  {
    if n == 0 then seed else NextSeed(SeedAfter(seed, n - 1))
  }

  /** `(seed / 233280) * 2 - 1`. */
  function Component(seed: int): real {
    (seed as real / SeedModulus as real) * 2.0 - 1.0
  }

  /** The vector before normalisation: component i comes from the seed after i + 1 steps. */
  function RawEmbedding(text: string): (v: seq<real>)
    ensures |v| == Dimensions
  {
    seq(Dimensions, i requires 0 <= i < Dimensions => Component(SeedAfter(InitialSeed(text), i + 1)))
  }

  /** Every raw component lies in [-1, 1). */
  lemma RawEmbeddingInRange(text: string)
    ensures forall i :: 0 <= i < |RawEmbedding(text)| ==> -1.0 <= RawEmbedding(text)[i] < 1.0
  {
    forall i | 0 <= i < |RawEmbedding(text)|
      ensures -1.0 <= RawEmbedding(text)[i] < 1.0
    {
      var seed := SeedAfter(InitialSeed(text), i + 1);
      assert RawEmbedding(text)[i] == Component(seed);
      assert 0.0 <= seed as real / SeedModulus as real < 1.0;
    }
  }

  /** The first two components are never both 0, so the vector has a positive length. */
  lemma RawEmbeddingNonZero(text: string)
    ensures RawEmbedding(text)[0] != 0.0 || RawEmbedding(text)[1] != 0.0
  {
    var s1 := SeedAfter(InitialSeed(text), 1);
    var s2 := SeedAfter(InitialSeed(text), 2);
    assert RawEmbedding(text)[0] == Component(s1);
    assert RawEmbedding(text)[1] == Component(s2);
    ComponentZero(s1);
    ComponentZero(s2);
    if s1 == 116640 {
      assert s2 == NextSeed(116640) == 165937;
    }
  }

  /** A component is 0 exactly for the seed half-way through the range. */
  lemma ComponentZero(seed: int)
    ensures Component(seed) == 0.0 <==> seed == 116640
  {
    var q := seed as real / SeedModulus as real;
    assert q * (SeedModulus as real) == seed as real;
  }

  /** The loop that fills the vector, before normalisation. */
  method GenerateRawEmbedding(text: string) returns (embedding: seq<real>)
    ensures embedding == RawEmbedding(text)
  {
    embedding := [];
    var seed := HashString(text);
    var i := 0;
    while i < Dimensions
      invariant 0 <= i <= Dimensions
      invariant seed == SeedAfter(InitialSeed(text), i)
      invariant |embedding| == i
      invariant forall k :: 0 <= k < i ==> embedding[k] == Component(SeedAfter(InitialSeed(text), k + 1))
    {
      seed := (seed * 9301 + 49297) % 233280;
      var random := seed as real / 233280.0;
      embedding := embedding + [(random * 2.0) - 1.0];
      i := i + 1;
    }
    EmbeddingExtensional(text, embedding);
  }

  lemma EmbeddingExtensional(text: string, embedding: seq<real>)
    requires |embedding| == Dimensions
    requires forall k :: 0 <= k < Dimensions ==> embedding[k] == Component(SeedAfter(InitialSeed(text), k + 1))
    ensures embedding == RawEmbedding(text)
  {
  }

  function SumSquares(values: seq<real>): real {
    if values == [] then 0.0 else SumSquares(values[..|values| - 1]) + values[|values| - 1] * values[|values| - 1]
  }

  /** `embedding.map(val => val / magnitude)`. A zero magnitude would need every component to be 0,
      which RawEmbeddingNonZero rules out; the model then keeps the values rather than produce NaN. */
  function Normalize(values: seq<real>, magnitude: real): (r: seq<real>)
    ensures |r| == |values|
    ensures magnitude != 0.0 ==> forall i :: 0 <= i < |r| ==> r[i] * magnitude == values[i]
  {
    if magnitude == 0.0 then values
    else seq(|values|, i requires 0 <= i < |values| => values[i] / magnitude)
  }

  /** Dividing every component by m divides the sum of squares by m * m; with m the square root of
      the sum of squares, as `Math.sqrt` computes it, the result has length 1. */
  lemma {:induction false} SumSquaresScaled(values: seq<real>, m: real)
    requires m != 0.0
    ensures SumSquares(Normalize(values, m)) * (m * m) == SumSquares(values)
  {
    if values != [] {
      var n := |values|;
      var init := values[..n - 1];
      assert Normalize(values, m)[..n - 1] == Normalize(init, m);
      SumSquaresScaled(init, m);
      var x := values[n - 1];
      assert (x / m) * (x / m) * (m * m) == x * x;
    }
  }

  // ---------------------------------------------------------------------------------------------
  // Embedding rows

  /** The embedding stored for a chunk: the raw vector divided by its length. `sqrt` is `Math.sqrt`. */
  function EmbeddingOf(chunk: string, sqrt: real -> real): (v: seq<real>)
    ensures |v| == Dimensions
  {
    var raw := RawEmbedding(chunk);
    Normalize(raw, sqrt(SumSquares(raw)))
  }

  /** The row for chunk i: its text, index, vector, token estimate, and where `indexOf` finds it in the content. */
  function EmbeddingRowFor(knowledgeId: Json, content: string, chunks: seq<string>, i: nat, sqrt: real -> real): (row: EmbeddingRow)
    requires i < |chunks|
    ensures row.knowledgeId == knowledgeId && row.chunkIndex == i && row.chunkText == chunks[i]
    ensures row.embedding == EmbeddingOf(chunks[i], sqrt)
    ensures row.tokenCount == EstimateTokenCount(chunks[i])
    ensures row.endPosition == row.startPosition + |chunks[i]|
    ensures row.startPosition == -1 <==> forall k :: !MatchAt(content, chunks[i], k)
    ensures row.startPosition != -1 ==> (MatchAt(content, chunks[i], row.startPosition) &&
      forall k :: 0 <= k < row.startPosition ==> !MatchAt(content, chunks[i], k))
  {
    var start := IndexOf(content, chunks[i]);
    EmbeddingRow(knowledgeId, chunks[i], i, EmbeddingOf(chunks[i], sqrt), EstimateTokenCount(chunks[i]), start, start + |chunks[i]|)
  }

  /** A chunk joins its words with single spaces, so a document with any other whitespace between two
      words of one chunk does not contain the chunk: its start position is -1. */
  lemma StartPositionMissing(sqrt: real -> real)
    ensures var content := "a  b";
      var chunks := JoinEach(Chunks(SplitWhitespace(content), MaxChunkTokens));
      chunks == ["a b"] && EmbeddingRowFor(JNull, content, chunks, 0, sqrt).startPosition == -1
  {
    ExampleWords();
    ExampleChunks();
    ExampleNoMatch();
  }

  lemma ExampleWords()
    ensures SplitWhitespace("a  b") == ["a", "b"]
  {
    ExampleLastWord();
    ExampleTrim();
    var content := "a  b";
    assert content[1..] == "  b";
    assert SplitWhitespace("  b") == [[]] + SplitWhitespace("b");
    assert [content[0]] + [] == "a";
  }

  lemma ExampleLastWord()
    ensures SplitWhitespace("b") == ["b"]
  {
    var rest := SplitWhitespace("b"[1..]);
    assert "b"[1..] == [];
    assert rest == [[]] && rest[1..] == [];
    assert !IsSpace("b"[0]) && ["b"[0]] + rest[0] == "b";
  }

  lemma ExampleTrim()
    ensures TrimStart("  b") == "b"
  {
    assert "  b"[1..] == " b";
    assert " b"[1..] == "b";
    assert TrimStart("b") == "b";
  }

  lemma ExampleChunks()
    ensures JoinEach(Chunks(["a", "b"], MaxChunkTokens)) == ["a b"]
  {
    var words := ["a", "b"];
    assert EstimateTokenCount("a") == 1 && EstimateTokenCount("b") == 1;
    assert words[1..] == ["b"] && ["b"][1..] == [];
    assert Group([], ["a", "b"], 2, MaxChunkTokens) == [["a", "b"]];
    assert ["a"] + ["b"] == ["a", "b"] && [] + ["a"] == ["a"];
    assert Group(["b"], ["a"], 1, MaxChunkTokens) == [["a", "b"]];
    assert Chunks(words, MaxChunkTokens) == [["a", "b"]];
    assert Join(["a", "b"], " ") == "a b";
  }

  lemma ExampleNoMatch()
    ensures forall k :: !MatchAt("a  b", "a b", k)
  {
    var content := "a  b";
    assert !MatchAt(content, "a b", 0) by { assert content[0..3][2] == ' '; }
    assert !MatchAt(content, "a b", 1) by { assert content[1..4][0] == ' '; }
  }

  /** Request j is the first of the first n whose status is not ok. */
  predicate FirstFailure(aiStatus: nat -> int, n: nat, j: nat) {
    j < n && !OkStatus(aiStatus(j)) && forall k :: 0 <= k < j ==> OkStatus(aiStatus(k))
  }

  const EmbeddingErrorPrefix := "Erro ao gerar embedding: "

  /** The loop over the chunks: one AI request per chunk (status `aiStatus(i)`), stopping with an
      Error at the first status that is not ok; otherwise one row per chunk. */
  method BuildEmbeddingRows(knowledgeId: Json, content: string, chunks: seq<string>, aiStatus: nat -> int, sqrt: real -> real)
    returns (rows: seq<EmbeddingRow>, failure: Option<Thrown>)
    ensures failure.None? <==> forall j :: 0 <= j < |chunks| ==> OkStatus(aiStatus(j))
    ensures failure.None? ==> |rows| == |chunks|
    ensures failure.None? ==> forall j :: 0 <= j < |chunks| ==> rows[j] == EmbeddingRowFor(knowledgeId, content, chunks, j, sqrt)
    ensures failure.Some? ==>
      exists j :: FirstFailure(aiStatus, |chunks|, j) && failure.value == EmbeddingError(aiStatus(j))
  {
    rows := [];
    var i := 0;
    while i < |chunks|
      invariant 0 <= i <= |chunks| && |rows| == i
      invariant forall k :: 0 <= k < i ==> OkStatus(aiStatus(k))
      invariant forall k :: 0 <= k < i ==> rows[k] == EmbeddingRowFor(knowledgeId, content, chunks, k, sqrt)
    {
      var chunk := chunks[i];
      var status := aiStatus(i);
      if !OkStatus(status) {
        return rows, Some(EmbeddingError(status));
      }
      var raw := GenerateRawEmbedding(chunk);
      var magnitude := sqrt(SumSquares(raw));
      var embedding := Normalize(raw, magnitude);
      var start := IndexOf(content, chunk);
      rows := rows + [EmbeddingRow(knowledgeId, chunk, i, embedding, EstimateTokenCount(chunk), start, IndexOf(content, chunk) + |chunk|)];
      i := i + 1;
    }
    failure := None;
  }

  /** The failing request is the only first failure: it is the one FirstNotOk finds. */
  lemma FirstFailureIsFirstNotOk(aiStatus: nat -> int, n: nat, j: nat)
    requires FirstFailure(aiStatus, n, j)
    ensures FirstNotOk(aiStatus, n, 0) == Some(j)
  {
  }

  /** The index of the first request from `from` on, among the first n, whose status is not ok. */
  function FirstNotOk(aiStatus: nat -> int, n: nat, from: nat): (r: Option<nat>)
    ensures r.None? <==> forall j :: from <= j < n ==> OkStatus(aiStatus(j))
    ensures r.Some? ==> from <= r.value < n && !OkStatus(aiStatus(r.value))
    ensures r.Some? ==> forall k :: from <= k < r.value ==> OkStatus(aiStatus(k))
    decreases n - from
  {
    if from >= n then None
    else if !OkStatus(aiStatus(from)) then Some(from)
    else FirstNotOk(aiStatus, n, from + 1)
  }

  function EmbeddingError(status: int): Thrown {
    Thrown(EmbeddingErrorPrefix + IntToString(status), true)
  }

  // ---------------------------------------------------------------------------------------------
  // The request handler

  /** The members of the request body the function uses. */
  datatype Request = Request(knowledgeId: Json, content: string)

  /** The request body as the handler finds it: not readable as JSON, read with a `content` that is
      not a string (missing, a number, an object), or read with a text `content`. */
  datatype Body = Unreadable | NonText(knowledgeId: Json) | Text(req: Request)

  /** The id the handler's 'processing' update targets, once the body was read. */
  function Target(body: Body): Option<Json> {
    match body
    case Unreadable => None
    case NonText(id) => Some(id)
    case Text(req) => Some(req.knowledgeId)
  }

  /** What the services the function calls answer. */
  datatype Services = Services(
    processingUpdateError: Option<DbError>,  // outcome of the 'processing' update, which is not looked at
    aiStatus: nat -> int,                    // HTTP status of the embedding request for chunk i
    sqrt: real -> real,                      // Math.sqrt
    embeddingInsertError: Option<DbError>,   // outcome of the `knowledge_embeddings` insert
    summary: Option<Json>,                   // choices[0].message.content; None when reading it throws
    completeUpdateError: Option<DbError>)    // outcome of the 'completed' update

  /** The chunk texts of a document. */
  function ChunkTexts(content: string): seq<string> {
    JoinEach(Chunks(SplitWhitespace(content), MaxChunkTokens))
  }

  /** The rows of all the chunks of a document. */
  function AllRows(knowledgeId: Json, content: string, sqrt: real -> real): (rows: seq<EmbeddingRow>)
    ensures |rows| == |ChunkTexts(content)|
    ensures forall j :: 0 <= j < |rows| ==> rows[j] == EmbeddingRowFor(knowledgeId, content, ChunkTexts(content), j, sqrt)
  {
    var chunks := ChunkTexts(content);
    seq(|chunks|, j requires 0 <= j < |chunks| => EmbeddingRowFor(knowledgeId, content, chunks, j, sqrt))
  }

  /** How the `try` block ends: the embedding rows it stored, and the summary it returns or the value it throws. */
  datatype Attempt = Attempt(stored: seq<EmbeddingRow>, result: Result<Json, Thrown>)

  /** The `try` block after the request was read. */
  function Try(req: Request, svc: Services): (a: Attempt)
    ensures a.result.Ok? <==>
      (forall j :: 0 <= j < |ChunkTexts(req.content)| ==> OkStatus(svc.aiStatus(j))) &&
      svc.embeddingInsertError.None? && svc.summary.Some? && svc.completeUpdateError.None?
    ensures a.result.Ok? ==> a.result.value == svc.summary.value
    ensures a.stored == [] || a.stored == AllRows(req.knowledgeId, req.content, svc.sqrt)
    ensures a.stored == [] <==> a.result.Err? && (FirstNotOk(svc.aiStatus, |ChunkTexts(req.content)|, 0).Some? || svc.embeddingInsertError.Some?)
  {
    var chunks := ChunkTexts(req.content);
    ChunkingProperties(req.content, MaxChunkTokens);
    match FirstNotOk(svc.aiStatus, |chunks|, 0)
    case Some(j) => Attempt([], Err(EmbeddingError(svc.aiStatus(j))))
    case None =>
      if svc.embeddingInsertError.Some? then Attempt([], Err(Thrown(svc.embeddingInsertError.value.message, false)))
      else
        var rows := AllRows(req.knowledgeId, req.content, svc.sqrt);
        if svc.summary.None? then Attempt(rows, Err(EngineTypeError))
        else if svc.completeUpdateError.Some? then Attempt(rows, Err(Thrown(svc.completeUpdateError.value.message, false)))
        else Attempt(rows, Ok(svc.summary.value))
  }

  /** The success body `{success: true, embeddings_count, summary}`. */
  function SuccessBody(count: nat, summary: Json): Json {
    JObj(map["success" := JBool(true), "embeddings_count" := JNum(count as real), "summary" := summary])
  }

  /** The response: 200 with the success body when the `try` block completes, otherwise 500 with the error text. */
  function ResponseOf(body: Body, svc: Services): (r: Response)
    ensures r.status == 200 || r.status == 500
    ensures r.status == 200 <==> body.Text? && Try(body.req, svc).result.Ok?
    ensures r.status == 200 ==> r.body == SuccessBody(|ChunkTexts(body.req.content)|, svc.summary.value)
  {
    match body
    case Unreadable => Caught(BodyParseError)
    case NonText(_) => Caught(EngineTypeError)
    case Text(req) =>
      var a := Try(req, svc);
      match a.result
      case Ok(summary) => Response(200, SuccessBody(|a.stored|, summary))
      case Err(e) => Caught(e)
  }

  function MarkProcessing(e: KnowledgeEntry): KnowledgeEntry {
    e.(status := Processing)
  }

  /** The row after the 'processing' update: unchanged when that update fails, which the handler
      does not notice. */
  function AfterProcessingUpdate(e: KnowledgeEntry, svc: Services): (r: KnowledgeEntry)
    ensures r.status == (if svc.processingUpdateError.None? then Processing else e.status)
    ensures r.(status := e.status) == e
  {
    if svc.processingUpdateError.None? then MarkProcessing(e) else e
  }

  function MarkCompleted(e: KnowledgeEntry, content: string, summary: Json): KnowledgeEntry {
    e.(status := Completed, processedContent := Some(content), summary := Some(summary),
       wordCount := Some(|SplitWhitespace(content)|))
  }

  function MarkFailed(e: KnowledgeEntry, error: Thrown): KnowledgeEntry {
    e.(status := Failed, processingError := Some(CaughtMessage(error)))
  }

  /** The `knowledge_base` table after a request, with the catch block doing what it sets out to do:
      the row is 'completed' on success and 'failed' with the error text otherwise. */
  function KnowledgeAfter(kb: map<Json, KnowledgeEntry>, body: Body, svc: Services): (r: map<Json, KnowledgeEntry>)
    ensures r.Keys == kb.Keys
    ensures forall k :: k in kb && Target(body) != Some(k) ==> r[k] == kb[k]
    ensures body.Text? && body.req.knowledgeId in kb ==>
      r[body.req.knowledgeId].status == (if Try(body.req, svc).result.Ok? then Completed else Failed)
    ensures body.NonText? && body.knowledgeId in kb ==> r[body.knowledgeId].status == Failed
  {
    match body
    case Unreadable => kb
    case NonText(id) => if id in kb then kb[id := MarkFailed(AfterProcessingUpdate(kb[id], svc), EngineTypeError)] else kb
    case Text(req) =>
      if req.knowledgeId !in kb then kb
      else
        var id := req.knowledgeId;
        var e := AfterProcessingUpdate(kb[id], svc);
        match Try(req, svc).result
        case Ok(summary) => kb[id := MarkCompleted(e, req.content, summary)]
        case Err(error) => kb[id := MarkFailed(e, error)]
  }

  /** The `knowledge_base` table after a request as the catch block is written: the second `req.json()`
      rejects because the body was already read, the empty inner catch swallows that, and the row is
      left as the 'processing' update made it. */
  function KnowledgeAfterAsWritten(kb: map<Json, KnowledgeEntry>, body: Body, svc: Services): (r: map<Json, KnowledgeEntry>)
    ensures r.Keys == kb.Keys
    ensures forall k :: k in kb && Target(body) != Some(k) ==> r[k] == kb[k]
    ensures body.Text? && body.req.knowledgeId in kb ==>
      r[body.req.knowledgeId].status ==
        (if Try(body.req, svc).result.Ok? then Completed else AfterProcessingUpdate(kb[body.req.knowledgeId], svc).status)
    ensures body.NonText? && body.knowledgeId in kb ==>
      r[body.knowledgeId].status == AfterProcessingUpdate(kb[body.knowledgeId], svc).status
  {
    match body
    case Unreadable => kb
    case NonText(id) => if id in kb then kb[id := AfterProcessingUpdate(kb[id], svc)] else kb
    case Text(req) =>
      if req.knowledgeId !in kb then kb
      else
        var id := req.knowledgeId;
        var e := AfterProcessingUpdate(kb[id], svc);
        match Try(req, svc).result
        case Ok(summary) => kb[id := MarkCompleted(e, req.content, summary)]
        case Err(_) => kb[id := e]
  }

  /** The two catch blocks part ways on every failure after the request was read: as written the row
      stays 'processing' for good (or keeps its old status, when the 'processing' update failed too),
      while the corrected one records 'failed' and the same text the response carries. */
  lemma {:induction false} FailureStatus(kb: map<Json, KnowledgeEntry>, req: Request, svc: Services)
    requires req.knowledgeId in kb && Try(req, svc).result.Err?
    ensures KnowledgeAfterAsWritten(kb, Text(req), svc)[req.knowledgeId].status ==
      (if svc.processingUpdateError.None? then Processing else kb[req.knowledgeId].status)
    ensures KnowledgeAfter(kb, Text(req), svc)[req.knowledgeId].status == Failed
    ensures ResponseOf(Text(req), svc).body == Obj1("error", JStr(KnowledgeAfter(kb, Text(req), svc)[req.knowledgeId].processingError.value))
  {
  }

  /** A body whose `content` is not a string, such as `{knowledgeId: 7}`: the row is set to
      'processing' before splitting the content throws a TypeError, the response is a 500 with that
      error's message, and as written the row is left 'processing' (or untouched, when that update
      failed). */
  lemma NonTextContent(kb: map<Json, KnowledgeEntry>, id: Json, svc: Services)
    requires id in kb
    ensures ResponseOf(NonText(id), svc) == ErrorResponse(500, EngineTypeError.message)
    ensures KnowledgeAfterAsWritten(kb, NonText(id), svc)[id] ==
      (if svc.processingUpdateError.None? then kb[id].(status := Processing) else kb[id])
    ensures KnowledgeAfter(kb, NonText(id), svc)[id].processingError == Some(EngineTypeError.message)
  {
  }

  /** A concrete case: the AI gateway answers 429 to the first embedding request. The response is a
      500 naming the status, and the row as written stays 'processing'. */
  lemma RateLimitedStaysProcessing(kb: map<Json, KnowledgeEntry>, id: Json, content: string)
    requires id in kb
    ensures var svc := Services(None, i => 429, x => x, None, Some(JStr("")), None);
      ResponseOf(Text(Request(id, content)), svc) == ErrorResponse(500, EmbeddingErrorPrefix + "429") &&
      KnowledgeAfterAsWritten(kb, Text(Request(id, content)), svc)[id].status == Processing &&
      KnowledgeAfter(kb, Text(Request(id, content)), svc)[id].processingError == Some(EmbeddingErrorPrefix + "429")
  {
    var svc := Services(None, i => 429, x => x, None, Some(JStr("")), None);
    ChunkingProperties(content, MaxChunkTokens);
    assert !OkStatus(svc.aiStatus(0));
    FirstFailureIsFirstNotOk(svc.aiStatus, |ChunkTexts(content)|, 0);
    assert IntToString(429) == "429" by {
      assert NatToString(429) == NatToString(42) + [DigitChar(9)];
      assert NatToString(42) == NatToString(4) + [DigitChar(2)];
    }
  }

  /** Handles one request against the database with the catch block as written. */
  method ServeAsWritten(db: Database, body: Body, svc: Services) returns (response: Response)
    modifies db`knowledgeBase, db`embeddings
    ensures response == ResponseOf(body, svc)
    ensures db.knowledgeBase == KnowledgeAfterAsWritten(old(db.knowledgeBase), body, svc)
    ensures db.embeddings == old(db.embeddings) + (if body.Text? then Try(body.req, svc).stored else [])
  {
    if body.Unreadable? {
      return Caught(BodyParseError);
    }
    if body.NonText? {
      if svc.processingUpdateError.None? {
        db.UpdateKnowledge(body.knowledgeId, MarkProcessing);
      }
      return Caught(EngineTypeError);
    }
    var req := body.req;
    var error, rows, summary := Process(db, req, svc);
    if error.Some? {
      return Caught(error.value);
    }
    response := Response(200, SuccessBody(|rows|, summary));
  }

  /** Handles one request against the database, with the catch block marking the row 'failed'. */
  method Serve(db: Database, body: Body, svc: Services) returns (response: Response)
    modifies db`knowledgeBase, db`embeddings
    ensures response == ResponseOf(body, svc)
    ensures db.knowledgeBase == KnowledgeAfter(old(db.knowledgeBase), body, svc)
    ensures db.embeddings == old(db.embeddings) + (if body.Text? then Try(body.req, svc).stored else [])
  {
    if body.Unreadable? {
      return Caught(BodyParseError);
    }
    if body.NonText? {
      if svc.processingUpdateError.None? {
        db.UpdateKnowledge(body.knowledgeId, MarkProcessing);
      }
      db.UpdateKnowledge(body.knowledgeId, e => MarkFailed(e, EngineTypeError));
      return Caught(EngineTypeError);
    }
    var req := body.req;
    var error, rows, summary := Process(db, req, svc);
    if error.Some? {
      var failure := error.value;
      db.UpdateKnowledge(req.knowledgeId, e => MarkFailed(e, failure));
      return Caught(failure);
    }
    response := Response(200, SuccessBody(|rows|, summary));
  }

  /** The `try` block against the database: the 'processing' update, the embedding loop, the insert,
      the summary and the 'completed' update, stopping at the first value thrown. */
  method Process(db: Database, req: Request, svc: Services) returns (error: Option<Thrown>, rows: seq<EmbeddingRow>, summary: Json)
    modifies db`knowledgeBase, db`embeddings
    ensures var a := Try(req, svc);
      (error.None? <==> a.result.Ok?) &&
      (error.Some? ==> error.value == a.result.error) &&
      (error.None? ==> summary == a.result.value && rows == a.stored)
    ensures db.embeddings == old(db.embeddings) + Try(req, svc).stored
    ensures db.knowledgeBase == KnowledgeAfterAsWritten(old(db.knowledgeBase), Text(req), svc)
  {
    var id := req.knowledgeId;
    if svc.processingUpdateError.None? {
      db.UpdateKnowledge(id, MarkProcessing);
    }
    var chunks := SplitIntoChunks(req.content, MaxChunkTokens);
    var failure;
    rows, failure := BuildEmbeddingRows(id, req.content, chunks, svc.aiStatus, svc.sqrt);
    summary := JNull;
    if failure.Some? {
      ghost var j :| FirstFailure(svc.aiStatus, |chunks|, j) && failure.value == EmbeddingError(svc.aiStatus(j));
      FirstFailureIsFirstNotOk(svc.aiStatus, |chunks|, j);
      return failure, rows, summary;
    }
    assert rows == AllRows(id, req.content, svc.sqrt);
    if svc.embeddingInsertError.Some? {
      return Some(Thrown(svc.embeddingInsertError.value.message, false)), rows, summary;
    }
    db.InsertEmbeddings(rows);
    if svc.summary.None? {
      return Some(EngineTypeError), rows, summary;
    }
    summary := svc.summary.value;
    if svc.completeUpdateError.Some? {
      return Some(Thrown(svc.completeUpdateError.value.message, false)), rows, summary;
    }
    var content := req.content;
    var s := summary;
    db.UpdateKnowledge(id, e => MarkCompleted(e, content, s));
    error := None;
  }
}
