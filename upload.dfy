/**
  The bulk upload: the vacancy table read from CSV gets any missing column
  added as empty strings, each row becomes one document text, and the
  documents are embedded and upserted batch by batch, vector `j` of a batch
  paired with the batch's `j`-th row.
 */
module Upload {
  import opened Json
  import opened Batching

  /** A table cell as `pd.read_csv` gives it: text, or a missing value (NaN). */
  datatype Cell = Missing | Text(s: string)

  /** An embedding vector. */
  type Vector = seq<real>

  /** One point of an upsert: its vector and its payload. The random UUID id
      is not modelled. */
  datatype UploadPoint = UploadPoint(vector: Vector, payload: Payload)

  /** The columns the parser writes, which the upload makes sure exist. */
  const Title := "title"
  const Company := "company"
  const Experience := "experience"
  const Description := "description"
  const Url := "url"
  const Required: seq<string> := [Title, Company, Experience, Description, Url]

  /** `series.fillna("")` on one cell. */
  function FillNa(c: Cell): string {
    match c
    case Missing => ""
    case Text(s) => s
  }

  /** A cell as a payload value: its text, or the float NaN. */
  function CellJson(c: Cell): Json {
    match c
    case Missing => Num("nan", true)
    case Text(s) => Str(s)
  }

  /** The document text of one row: `title + ". " + description`. */
  function DocText(title: Cell, description: Cell): (r: string)
    ensures |r| == |FillNa(title)| + 2 + |FillNa(description)|
    ensures r[..|FillNa(title)|] == FillNa(title)
    ensures r[|FillNa(title)|..|FillNa(title)| + 2] == ". "
    ensures r[|FillNa(title)| + 2..] == FillNa(description)
  {
    FillNa(title) + ". " + FillNa(description)
  }

  /** Every column has one cell per row. */
  ghost predicate Table(cols: map<string, seq<Cell>>, rows: nat) {
    forall c :: c in cols ==> |cols[c]| == rows
  }

  /** All five parser columns are present. */
  predicate HasRequired(cols: map<string, seq<Cell>>) {
    Title in cols && Company in cols && Experience in cols && Description in cols && Url in cols
  }

  /** `docs`, one text per row. */
  function Docs(cols: map<string, seq<Cell>>, rows: nat): (r: seq<string>)
    requires Table(cols, rows) && HasRequired(cols)
    ensures |r| == rows
  {
    var title, description := cols[Title], cols[Description];
    seq(rows, i requires 0 <= i < |title| && i < |description| => DocText(title[i], description[i]))
  }

  /** The payload of row `i`: its five parser fields. */
  function RowPayload(cols: map<string, seq<Cell>>, rows: nat, i: nat): Payload
    requires Table(cols, rows) && HasRequired(cols) && i < rows
  {
    map[Title := CellJson(cols[Title][i]), Company := CellJson(cols[Company][i]), Experience := CellJson(cols[Experience][i]), Description := CellJson(cols[Description][i]), Url := CellJson(cols[Url][i])]
  }

  /** A row's payload holds exactly the five parser fields of that row. */
  lemma RowPayloadSpec(cols: map<string, seq<Cell>>, rows: nat, i: nat)
    requires Table(cols, rows) && HasRequired(cols) && i < rows
    ensures forall c :: c in RowPayload(cols, rows, i) <==> c in Required
    ensures forall c :: c in Required ==> c in cols && RowPayload(cols, rows, i)[c] == CellJson(cols[c][i])
  {
  }

  /** A column of empty strings, `df[col] = ""`. */
  function Blank(n: nat): (r: seq<Cell>)
    ensures |r| == n && forall i :: 0 <= i < n ==> r[i] == Text("")
  {
    seq(n, _ => Text(""))
  }

  /** What a complete upload sends, row by row. */
  function AllPoints(cols: map<string, seq<Cell>>, rows: nat, encode: string -> Vector): (r: seq<UploadPoint>)
    requires Table(cols, rows) && HasRequired(cols)
    ensures |r| == rows
  {
    var docs := Docs(cols, rows);
    seq(rows, i requires 0 <= i < rows && Table(cols, rows) && HasRequired(cols) =>
      UploadPoint(encode(docs[i]), RowPayload(cols, rows, i)))
  }

  /** Row `i` of a complete upload: its document's vector and its payload. */
  lemma AllPointsAt(cols: map<string, seq<Cell>>, rows: nat, encode: string -> Vector, i: nat)
    requires Table(cols, rows) && HasRequired(cols) && i < rows
    ensures AllPoints(cols, rows, encode)[i] == UploadPoint(encode(Docs(cols, rows)[i]), RowPayload(cols, rows, i))
  {
  }

  /** The `df` table: named columns of equal length. */
  class Frame {
    var columns: map<string, seq<Cell>>
    var rows: nat

    ghost predicate Valid()
      reads this
    {
      Table(columns, rows)
    }

    constructor(columns: map<string, seq<Cell>>, rows: nat)
      requires Table(columns, rows)
      ensures Valid() && this.columns == columns && this.rows == rows
    {
      this.columns := columns;
      this.rows := rows;
    }

    /** `for col in [...]: if col not in df.columns: df[col] = ""`. */
    method EnsureColumns()
      requires Valid()
      modifies this
      ensures Valid() && HasRequired(columns) && rows == old(rows)
      ensures forall c :: c in columns <==> c in old(columns) || c in Required
      ensures forall c :: c in old(columns) ==> columns[c] == old(columns)[c]
      ensures forall c :: c in columns && c !in old(columns) ==> columns[c] == Blank(rows)
    {
      var cols, n := columns, rows;
      var j := 0;
      while j < |Required|
        invariant j <= |Required|
        invariant Table(cols, n)
        invariant forall c :: c in cols <==> c in columns || c in Required[..j]
        invariant forall c :: c in columns ==> cols[c] == columns[c]
        invariant forall c :: c in cols && c !in columns ==> cols[c] == Blank(n)
      {
        var col := Required[j];
        if col !in cols {
          cols := cols[col := Blank(n)];
        }
        assert Required[..j + 1] == Required[..j] + [col];
        j := j + 1;
      }
      assert Required[..j] == Required;
      columns := cols;
    }

    /** `upsert_chunk(vectors, start_idx)`: the vector at `offset` is paired
        with row `start_idx + offset`. */
    method UpsertChunk(vectors: seq<Vector>, start: nat) returns (points: seq<UploadPoint>)
      requires Valid() && HasRequired(columns) && start + |vectors| <= rows
      ensures |points| == |vectors|
      ensures forall j :: 0 <= j < |vectors| ==> points[j] == UploadPoint(vectors[j], RowPayload(columns, rows, start + j))
    {
      points := [];
      var offset := 0;
      while offset < |vectors|
        invariant offset <= |vectors| && |points| == offset
        invariant forall j :: 0 <= j < offset ==> points[j] == UploadPoint(vectors[j], RowPayload(columns, rows, start + j))
      {
        points := points + [UploadPoint(vectors[offset], RowPayload(columns, rows, start + offset))];
        offset := offset + 1;
      }
    }

    /** The `for s in range(steps)` loop: batch `s` embeds `docs[a:b]` and
        upserts its points. Together the upserts send every row once, in
        order; there are `ceil(n / batch)` of them, each non-empty and at
        most `batch` points long. */
    method UploadRows(encode: string -> Vector, batch: nat) returns (upserts: seq<seq<UploadPoint>>)
      requires Valid() && HasRequired(columns) && batch >= 1
      ensures |upserts| == CeilDiv(rows, batch)
      ensures forall s :: 0 <= s < |upserts| ==> 1 <= |upserts[s]| <= batch
      ensures forall s :: 0 <= s < |upserts| ==>
        upserts[s] == Slice(AllPoints(columns, rows, encode), s * batch, (s + 1) * batch)
      ensures Concat(upserts) == AllPoints(columns, rows, encode)
    {
      var docs := Docs(columns, rows);
      var n := |docs|;
      var steps := CeilDiv(n, batch);
      upserts := [];
      var s := 0;
      ghost var all := AllPoints(columns, rows, encode);
      ghost var done: nat := 0;
      while s < steps
        invariant s <= steps && done <= n
        invariant Sent(all, batch, upserts, s, done)
      {
        var a := BatchStart(s, batch);
        var b := BatchEnd(s, batch, n);
        BatchesTile(n, batch, s);
        var points := UploadBatch(encode, docs, a, b);
        SentStep(all, batch, upserts, s, done, points);
        upserts := upserts + [points];
        done := b;
        s := s + 1;
      }
      SentAll(all, batch, upserts, done);
    }

    /** One batch: embed `docs[a:b]` and upsert the vectors from row `a` on;
        the points sent are the rows `a` to `b` of a complete upload. */
    method UploadBatch(encode: string -> Vector, docs: seq<string>, a: nat, b: nat) returns (points: seq<UploadPoint>)
      requires Valid() && HasRequired(columns) && docs == Docs(columns, rows) && a <= b <= rows
      ensures points == AllPoints(columns, rows, encode)[a..b]
    {
      var vecs := Encode(encode, docs[a..b]);
      points := UpsertChunk(vecs, a);
      ghost var all := AllPoints(columns, rows, encode);
      forall j | 0 <= j < |points| ensures points[j] == all[a + j] {
        AllPointsAt(columns, rows, encode, a + j);
      }
      SliceOf(all, a, b, points);
    }

    /** `main()` after reading the CSV: add the missing columns, then upload. */
    method Run(encode: string -> Vector, batch: nat) returns (upserts: seq<seq<UploadPoint>>)
      requires Valid() && batch >= 1
      modifies this
      ensures Valid() && HasRequired(columns) && rows == old(rows)
      ensures forall c :: c in columns <==> c in old(columns) || c in Required
      ensures forall c :: c in old(columns) ==> columns[c] == old(columns)[c]
      ensures forall c :: c in columns && c !in old(columns) ==> columns[c] == Blank(rows)
      ensures |upserts| == CeilDiv(rows, batch)
      ensures forall s :: 0 <= s < |upserts| ==>
        upserts[s] == Slice(AllPoints(columns, rows, encode), s * batch, (s + 1) * batch)
      ensures Concat(upserts) == AllPoints(columns, rows, encode)
    {
      EnsureColumns();
      upserts := UploadRows(encode, batch);
    }
  }

  /** The first `s` upserts of an upload of `all` in batches of `batch`:
      upsert `t` holds points `t*batch` to `(t+1)*batch` (clamped), it is
      non-empty and at most `batch` long, and together they send the first
      `done` points, where `done` is where batch `s` starts, or all of them
      once every batch is sent. */
  ghost predicate Sent(all: seq<UploadPoint>, batch: nat, upserts: seq<seq<UploadPoint>>, s: nat, done: nat)
    requires batch >= 1
  {
    && |upserts| == s && done <= |all|
    && (forall t :: 0 <= t < s ==> 1 <= |upserts[t]| <= batch)
    && (forall t :: 0 <= t < s ==> upserts[t] == Slice(all, t * batch, (t + 1) * batch))
    && (s < CeilDiv(|all|, batch) ==> done == BatchStart(s, batch))
    && (s == CeilDiv(|all|, batch) ==> done == |all|)
    && Concat(upserts) == all[..done]
  }

  /** Once every batch is sent, the upserts hold all the points. */
  lemma SentAll(all: seq<UploadPoint>, batch: nat, upserts: seq<seq<UploadPoint>>, done: nat)
    requires batch >= 1 && Sent(all, batch, upserts, CeilDiv(|all|, batch), done)
    ensures |upserts| == CeilDiv(|all|, batch)
    ensures forall s :: 0 <= s < |upserts| ==> 1 <= |upserts[s]| <= batch
    ensures forall s :: 0 <= s < |upserts| ==> upserts[s] == Slice(all, s * batch, (s + 1) * batch)
    ensures Concat(upserts) == all
  {
    assert all[..|all|] == all;
  }

  /** Sending batch `s` extends the upserts sent so far by one. */
  lemma SentStep(all: seq<UploadPoint>, batch: nat, upserts: seq<seq<UploadPoint>>, s: nat, done: nat,
                 points: seq<UploadPoint>)
    requires batch >= 1 && s < CeilDiv(|all|, batch) && Sent(all, batch, upserts, s, done)
    requires BatchEnd(s, batch, |all|) <= |all|
    requires points == all[BatchStart(s, batch)..BatchEnd(s, batch, |all|)]
    ensures Sent(all, batch, upserts + [points], s + 1, BatchEnd(s, batch, |all|))
  {
    var a, b := BatchStart(s, batch), BatchEnd(s, batch, |all|);
    BatchesTile(|all|, batch, s);
    ConcatAppend(upserts, points);
    PrefixExtends(all, a, b);
    BatchSlice(all, batch, s);
  }

  /** A run of elements that matches `xs` from index `a` on is the slice `xs[a:b]`. */
  lemma SliceOf<T>(xs: seq<T>, a: nat, b: nat, ys: seq<T>)
    requires a <= b <= |xs| && |ys| == b - a
    requires forall j :: 0 <= j < |ys| ==> ys[j] == xs[a + j]
    ensures ys == xs[a..b]
  {
  }

  /** A prefix followed by the next slice is the longer prefix. */
  lemma PrefixExtends<T>(xs: seq<T>, a: nat, b: nat)
    requires a <= b <= |xs|
    ensures xs[..a] + xs[a..b] == xs[..b]
  {
  }

  /** `model.encode(docs)`: one vector per document, each from its own text. */
  method Encode(encode: string -> Vector, docs: seq<string>) returns (vectors: seq<Vector>)
    ensures |vectors| == |docs|
    ensures forall i :: 0 <= i < |docs| ==> vectors[i] == encode(docs[i])
  {
    vectors := seq(|docs|, i requires 0 <= i < |docs| => encode(docs[i]));
  }

  /** The points of several upserts, one after the other. */
  function Concat(chunks: seq<seq<UploadPoint>>): seq<UploadPoint> {
    if chunks == [] then [] else Concat(chunks[..|chunks| - 1]) + chunks[|chunks| - 1]
  }

  lemma ConcatAppend(chunks: seq<seq<UploadPoint>>, c: seq<UploadPoint>)
    ensures Concat(chunks + [c]) == Concat(chunks) + c
  {
    assert (chunks + [c])[..|chunks|] == chunks;
  }
}
