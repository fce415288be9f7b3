/** Calling the embedding model: batches, the order of the rows it returns, and the length checks. */
module Embeddings {
  import opened Wrappers

  /** The number of texts that a longer list is split into for a provider. */
  const BATCH_SIZE: nat := 64

  /** A vector is known by what it was computed from, and its length. */
  datatype Vector = Vector(model: string, text: string, dimension: nat)

  /** One row of a response: a vector, and the place in the batch of the text it is for. */
  datatype Row = Row(index: int, vector: Vector)

  datatype Response = Failed(code: string) | Rows(rows: seq<Row>)

  datatype Error = ProviderError(code: string) | Unreachable | Mismatch

  /** What the provider answers to each batch of a call, by the batch's number. */
  type Provider = (string, seq<string>, nat) -> Response

  // --- The order of the rows ---------------------------------------------------

  function Insert(row: Row, rows: seq<Row>): seq<Row> {
    if rows == [] || row.index <= rows[0].index then [row] + rows else [rows[0]] + Insert(row, rows[1..])
  }

  /** The rows by their index, rows of one index in the order they came. */
  function ByIndex(rows: seq<Row>): seq<Row> {
    if rows == [] then [] else Insert(rows[0], ByIndex(rows[1..]))
  }

  predicate Increasing(rows: seq<Row>) {
    forall i, j | 0 <= i < j < |rows| :: rows[i].index < rows[j].index
  }

  predicate Distinct(rows: seq<Row>) {
    forall i, j | 0 <= i < j < |rows| :: rows[i].index != rows[j].index
  }

  lemma {:induction false} InsertMembers(row: Row, rows: seq<Row>)
    ensures |Insert(row, rows)| == |rows| + 1
    ensures forall r :: r in Insert(row, rows) <==> r == row || r in rows
    decreases |rows|
  {
    if rows != [] {
      InsertMembers(row, rows[1..]);
      assert rows == [rows[0]] + rows[1..];
    }
  }

  lemma {:induction false} InsertKeeps(row: Row, rows: seq<Row>)
    requires Increasing(rows) && forall r | r in rows :: r.index != row.index
    ensures Increasing(Insert(row, rows))
    decreases |rows|
  {
    if rows != [] && rows[0].index < row.index {
      var rest := Insert(row, rows[1..]);
      InsertKeeps(row, rows[1..]);
      InsertMembers(row, rows[1..]);
      forall j | 0 <= j < |rest|
        ensures rows[0].index < rest[j].index
      {
        assert rest[j] in rest;
      }
    }
  }

  lemma {:induction false} ByIndexKeeps(rows: seq<Row>)
    requires Distinct(rows)
    ensures Increasing(ByIndex(rows)) && |ByIndex(rows)| == |rows|
    ensures forall r :: r in ByIndex(rows) <==> r in rows
    decreases |rows|
  {
    if rows != [] {
      ByIndexKeeps(rows[1..]);
      InsertKeeps(rows[0], ByIndex(rows[1..]));
      InsertMembers(rows[0], ByIndex(rows[1..]));
      assert rows == [rows[0]] + rows[1..];
    }
  }

  lemma {:induction false} AtLeast(rows: seq<Row>, i: nat)
    requires Increasing(rows) && i < |rows| && rows[0].index >= 0
    ensures rows[i].index >= i
  {
    if i > 0 {
      AtLeast(rows, i - 1);
    }
  }

  lemma {:induction false} AtMost(rows: seq<Row>, i: nat)
    requires Increasing(rows) && i < |rows| && rows[|rows| - 1].index < |rows|
    ensures rows[i].index <= i
    decreases |rows| - i
  {
    if i < |rows| - 1 {
      AtMost(rows, i + 1);
    }
  }

  /** An honest answer to a batch: every row, in whatever order, names a different
      text of the batch and holds the model's vector for that text. Rows may be missing. */
  predicate Honest(model: string, batch: seq<string>, rows: seq<Row>) {
    && Distinct(rows)
    && forall r | r in rows :: 0 <= r.index < |batch| && r.vector.model == model && r.vector.text == batch[r.index]
  }

  /** When no row is missing, sorting puts each vector at its own text. */
  lemma SortedRowsAlign(model: string, batch: seq<string>, rows: seq<Row>, i: nat)
    requires Honest(model, batch, rows) && |rows| == |batch| && i < |batch|
    ensures |ByIndex(rows)| == |batch|
    ensures ByIndex(rows)[i].vector.model == model && ByIndex(rows)[i].vector.text == batch[i]
  {
    ByIndexKeeps(rows);
    var sorted := ByIndex(rows);
    assert sorted[0] in sorted && sorted[|sorted| - 1] in sorted && sorted[i] in sorted;
    AtLeast(sorted, i);
    AtMost(sorted, i);
  }

  // --- The call ----------------------------------------------------------------

  /** Where the first batch of these texts ends. */
  function BatchEnd(texts: seq<string>): nat {
    Smaller(BATCH_SIZE, |texts|)
  }

  function VectorsOf(rows: seq<Row>): seq<Vector> {
    seq(|rows|, i requires 0 <= i < |rows| => rows[i].vector)
  }

  /** The vectors of these texts, sent from batch `number` on, or the first error met. */
  function Collected(provider: Provider, model: string, texts: seq<string>, number: nat): Result<seq<Vector>, Error>
    decreases |texts|
  {
    if texts == [] then Ok([])
    else
      match provider(model, texts[..BatchEnd(texts)], number)
      case Failed(code) => Err(ProviderError(code))
      case Rows(rows) =>
        if |ByIndex(rows)| != BatchEnd(texts) then Err(Unreachable)
        else After(VectorsOf(ByIndex(rows)), Collected(provider, model, texts[BatchEnd(texts)..], number + 1))
  }

  function After(vectors: seq<Vector>, rest: Result<seq<Vector>, Error>): Result<seq<Vector>, Error> {
    match rest case Err(e) => Err(e) case Ok(more) => Ok(vectors + more)
  }

  predicate OneLength(vectors: seq<Vector>) {
    vectors != [] && forall i | 0 <= i < |vectors| :: vectors[i].dimension == vectors[0].dimension
  }

  /** One vector per text, or an error. */
  function Embedded(provider: Provider, model: string, texts: seq<string>): Result<seq<Vector>, Error> {
    if texts == [] then Ok([])
    else
      match Collected(provider, model, texts, 0)
      case Err(e) => Err(e)
      case Ok(vectors) => if OneLength(vectors) then Ok(vectors) else Err(Mismatch)
  }

  method EmbedTexts(provider: Provider, model: string, texts: seq<string>) returns (result: Result<seq<Vector>, Error>)
    ensures result == Embedded(provider, model, texts)
  {
    if texts == [] {
      return Ok([]);
    }
    var vectors: seq<Vector> := [];
    var start, number := 0, 0;
    AfterNothing(Collected(provider, model, texts, 0));
    assert texts[0..] == texts;
    while start < |texts|
      invariant start <= |texts|
      invariant Collected(provider, model, texts, 0) ==
                After(vectors, Collected(provider, model, texts[start..], number))
    {
      var batch := texts[start..Smaller(start + BATCH_SIZE, |texts|)];
      assert batch == texts[start..][..BatchEnd(texts[start..])];
      assert texts[start..][BatchEnd(texts[start..])..] == texts[start + |batch|..];
      var response := provider(model, batch, number);
      if response.Failed? {
        return Err(ProviderError(response.code));
      }
      var rows := ByIndex(response.rows);
      if |rows| != |batch| {
        return Err(Unreachable);
      }
      AfterTwice(vectors, VectorsOf(rows), Collected(provider, model, texts[start + |batch|..], number + 1));
      vectors := vectors + VectorsOf(rows);
      start, number := start + |batch|, number + 1;
    }
    Assoc(vectors, [], []);
    result := if OneLength(vectors) then Ok(vectors) else Err(Mismatch);
  }

  lemma AfterNothing(rest: Result<seq<Vector>, Error>)
    ensures After([], rest) == rest
  {
    if rest.Ok? {
      assert [] + rest.value == rest.value;
    }
  }

  lemma AfterTwice(a: seq<Vector>, b: seq<Vector>, rest: Result<seq<Vector>, Error>)
    ensures After(a, After(b, rest)) == After(a + b, rest)
  {
    if rest.Ok? {
      Assoc(a, b, rest.value);
    }
  }

  // --- What a call gives -------------------------------------------------------

  /** The provider may fail and may leave rows out, but the rows it sends are honest. */
  ghost predicate HonestProvider(provider: Provider) {
    forall model, batch, number :: provider(model, batch, number).Rows? ==>
      Honest(model, batch, provider(model, batch, number).rows)
  }

  predicate Aligned(model: string, texts: seq<string>, vectors: seq<Vector>) {
    |vectors| == |texts| && forall i | 0 <= i < |texts| :: vectors[i].model == model && vectors[i].text == texts[i]
  }

  lemma BatchAligned(model: string, batch: seq<string>, rows: seq<Row>)
    requires Honest(model, batch, rows) && |ByIndex(rows)| == |batch|
    ensures Aligned(model, batch, VectorsOf(ByIndex(rows)))
  {
    ByIndexKeeps(rows);
    forall i: nat | i < |batch|
      ensures ByIndex(rows)[i].vector.model == model && ByIndex(rows)[i].vector.text == batch[i]
    {
      SortedRowsAlign(model, batch, rows, i);
    }
  }

  lemma AlignedAppend(model: string, a: seq<string>, v: seq<Vector>, b: seq<string>, w: seq<Vector>)
    requires Aligned(model, a, v) && Aligned(model, b, w)
    ensures Aligned(model, a + b, v + w)
  {
  }

  lemma {:induction false} CollectedAligned(provider: Provider, model: string, texts: seq<string>, number: nat)
    requires HonestProvider(provider)
    ensures Collected(provider, model, texts, number).Ok? ==>
              Aligned(model, texts, Collected(provider, model, texts, number).value)
    decreases |texts|
  {
    if texts != [] {
      var batch, rest := texts[..BatchEnd(texts)], texts[BatchEnd(texts)..];
      CollectedAligned(provider, model, rest, number + 1);
      match provider(model, batch, number)
      case Failed(_) =>
      case Rows(rows) =>
        assert Honest(model, batch, rows);
        if |ByIndex(rows)| == |batch| {
          OneMoreBatch(model, batch, rows, rest, Collected(provider, model, rest, number + 1));
          assert texts == batch + rest;
        }
    }
  }

  lemma OneMoreBatch(model: string, batch: seq<string>, rows: seq<Row>, rest: seq<string>,
                     collected: Result<seq<Vector>, Error>)
    requires Honest(model, batch, rows) && |ByIndex(rows)| == |batch|
    requires collected.Ok? ==> Aligned(model, rest, collected.value)
    ensures
      var all := After(VectorsOf(ByIndex(rows)), collected);
      all.Ok? ==> Aligned(model, batch + rest, all.value)
  {
    BatchAligned(model, batch, rows);
    if collected.Ok? {
      AlignedAppend(model, batch, VectorsOf(ByIndex(rows)), rest, collected.value);
    }
  }

  /** Over any number of batches, with the rows of each in any order: vector i is
      the model's for text i, and all have one length. Anything else is an error. */
  lemma EmbeddedAligned(provider: Provider, model: string, texts: seq<string>)
    requires HonestProvider(provider)
    ensures
      var result := Embedded(provider, model, texts);
      result.Ok? ==>
        && |result.value| == |texts|
        && forall i | 0 <= i < |texts| :: result.value[i] == Vector(model, texts[i], result.value[0].dimension)
  {
    CollectedAligned(provider, model, texts, 0);
  }

  // --- When a call works -------------------------------------------------------

  /** The k-th batch of the texts: the BATCH_SIZE of them from there on, or as many as are left. */
  function BatchAt(texts: seq<string>, k: nat): seq<string>
    requires k * BATCH_SIZE <= |texts|
  {
    texts[k * BATCH_SIZE..Smaller((k + 1) * BATCH_SIZE, |texts|)]
  }

  /** The provider answers this batch with a row for each text, and vectors of this length. */
  predicate AnswersBatch(provider: Provider, model: string, batch: seq<string>, k: nat, dimension: nat) {
    var response := provider(model, batch, k);
    && response.Rows? && |response.rows| == |batch|
    && forall r | r in response.rows :: r.vector.dimension == dimension
  }

  /** It answers every batch of the texts so. */
  ghost predicate AnswersAll(provider: Provider, model: string, texts: seq<string>, dimension: nat) {
    forall k: nat | k * BATCH_SIZE < |texts| :: AnswersBatch(provider, model, BatchAt(texts, k), k, dimension)
  }

  lemma {:induction false} ByIndexMembers(rows: seq<Row>)
    ensures |ByIndex(rows)| == |rows|
    ensures forall r :: r in ByIndex(rows) <==> r in rows
    decreases |rows|
  {
    if rows != [] {
      ByIndexMembers(rows[1..]);
      InsertMembers(rows[0], ByIndex(rows[1..]));
      assert rows == [rows[0]] + rows[1..];
    }
  }

  predicate AllOf(vectors: seq<Vector>, dimension: nat) {
    forall i | 0 <= i < |vectors| :: vectors[i].dimension == dimension
  }

  /** The texts from the k-th batch on. */
  function FromBatch(texts: seq<string>, k: nat): seq<string> {
    if k * BATCH_SIZE < |texts| then texts[k * BATCH_SIZE..] else []
  }

  lemma NextBatch(texts: seq<string>, k: nat)
    requires k * BATCH_SIZE < |texts|
    ensures var rest := FromBatch(texts, k);
            rest[..BatchEnd(rest)] == BatchAt(texts, k) && rest[BatchEnd(rest)..] == FromBatch(texts, k + 1)
  {
  }

  lemma RowsOfLength(rows: seq<Row>, dimension: nat)
    ensures AllOf(VectorsOf(ByIndex(rows)), dimension) <==> forall r | r in rows :: r.vector.dimension == dimension
  {
    ByIndexMembers(rows);
    var sorted := ByIndex(rows);
    forall r | r in rows && AllOf(VectorsOf(sorted), dimension)
      ensures r.vector.dimension == dimension
    {
      var i :| 0 <= i < |sorted| && sorted[i] == r;
      assert VectorsOf(sorted)[i] == r.vector;
    }
    forall i | 0 <= i < |sorted|
      ensures VectorsOf(sorted)[i].dimension == sorted[i].vector.dimension && sorted[i] in rows
    {
      assert sorted[i] in sorted;
    }
  }

  lemma AllOfJoin(a: seq<Vector>, b: seq<Vector>, dimension: nat)
    ensures AllOf(a + b, dimension) <==> AllOf(a, dimension) && AllOf(b, dimension)
  {
    assert forall i | 0 <= i < |a| :: (a + b)[i] == a[i];
    assert forall i | 0 <= i < |b| :: (a + b)[|a| + i] == b[i];
  }

  ghost predicate AnswersFrom(provider: Provider, model: string, texts: seq<string>, k: nat, dimension: nat) {
    forall j: nat | k <= j && j * BATCH_SIZE < |texts| :: AnswersBatch(provider, model, BatchAt(texts, j), j, dimension)
  }

  predicate CollectedOf(result: Result<seq<Vector>, Error>, dimension: nat) {
    result.Ok? && AllOf(result.value, dimension)
  }

  lemma {:induction false} CollectedExactly(provider: Provider, model: string, texts: seq<string>, k: nat,
                                            dimension: nat)
    ensures CollectedOf(Collected(provider, model, FromBatch(texts, k), k), dimension) <==>
              AnswersFrom(provider, model, texts, k, dimension)
    decreases |texts| - k * BATCH_SIZE
  {
    if k * BATCH_SIZE < |texts| {
      NextBatch(texts, k);
      CollectedExactly(provider, model, texts, k + 1, dimension);
      OneBatch(provider, model, FromBatch(texts, k), k, dimension);
      FirstBatchApart(provider, model, texts, k, dimension);
    }
  }

  lemma FirstBatchApart(provider: Provider, model: string, texts: seq<string>, k: nat, dimension: nat)
    requires k * BATCH_SIZE < |texts|
    ensures AnswersFrom(provider, model, texts, k, dimension) <==>
              && AnswersBatch(provider, model, BatchAt(texts, k), k, dimension)
              && AnswersFrom(provider, model, texts, k + 1, dimension)
  {
  }

  lemma OneBatch(provider: Provider, model: string, texts: seq<string>, k: nat, dimension: nat)
    requires texts != []
    ensures CollectedOf(Collected(provider, model, texts, k), dimension) <==>
              && AnswersBatch(provider, model, texts[..BatchEnd(texts)], k, dimension)
              && CollectedOf(Collected(provider, model, texts[BatchEnd(texts)..], k + 1), dimension)
  {
    var response := provider(model, texts[..BatchEnd(texts)], k);
    if response.Rows? {
      ByIndexMembers(response.rows);
      RowsOfLength(response.rows, dimension);
      var rest := Collected(provider, model, texts[BatchEnd(texts)..], k + 1);
      if rest.Ok? {
        AllOfJoin(VectorsOf(ByIndex(response.rows)), rest.value, dimension);
      }
    }
  }

  /** A call for some texts gives vectors of a length just when the provider answers every batch of
      them in full with vectors of that length. */
  lemma EmbeddedExactly(provider: Provider, model: string, texts: seq<string>, dimension: nat)
    requires texts != []
    ensures var result := Embedded(provider, model, texts);
            (result.Ok? && result.value != [] && result.value[0].dimension == dimension) <==>
              AnswersAll(provider, model, texts, dimension)
  {
    assert FromBatch(texts, 0) == texts;
    CollectedExactly(provider, model, texts, 0, dimension);
    CollectedSome(provider, model, texts);
  }

  lemma CollectedSome(provider: Provider, model: string, texts: seq<string>)
    requires texts != []
    ensures var result := Collected(provider, model, texts, 0); result.Ok? ==> result.value != []
  {
  }
}
