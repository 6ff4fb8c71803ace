/**
 * The statement splitter of the schema migration (migrations/migrate.js:17-20):
 * the schema text is cut at every `;`, each piece is trimmed, and the pieces
 * that are empty or start with `--` are dropped. Reading the schema file and
 * running the statements are not modelled.
 */
module Migrate {
  import opened Text

  /** `s.length > 0 && !s.startsWith('--')` */
  predicate IsStatement(s: string)
  {
    |s| > 0 && !StartsWith(s, "--")
  }

  /** `.filter(IsStatement)`: the chunks that are statements, in their order. */
  function KeepStatements(chunks: seq<string>): (r: seq<string>)
    ensures |r| <= |chunks|
  {
    if chunks == [] then []
    else
      var last := chunks[|chunks| - 1];
      KeepStatements(chunks[..|chunks| - 1]) + if IsStatement(last) then [last] else []
  }

  /** The positions of the chunks `KeepStatements` keeps. */
  function KeptIndices(chunks: seq<string>): (ix: seq<nat>)
    ensures |ix| == |KeepStatements(chunks)|
  {
    if chunks == [] then []
    else
      var n := |chunks| - 1;
      KeptIndices(chunks[..n]) + if IsStatement(chunks[n]) then [n] else []
  }

  /** The `k`-th kept string is the chunk at the `k`-th kept position. */
  lemma {:induction false} KeptAt(chunks: seq<string>, k: nat)
    requires k < |KeptIndices(chunks)|
    ensures KeptIndices(chunks)[k] < |chunks| && KeepStatements(chunks)[k] == chunks[KeptIndices(chunks)[k]]
  {
    var n := |chunks| - 1;
    var init := chunks[..n];
    if k < |KeptIndices(init)| {
      KeptAt(init, k);
      assert KeptIndices(chunks)[k] == KeptIndices(init)[k];
      assert KeepStatements(chunks)[k] == KeepStatements(init)[k];
    }
  }

  /** Every kept position is below the length. */
  lemma {:induction false} KeptBelow(chunks: seq<string>, k: nat)
    requires k < |KeptIndices(chunks)|
    ensures KeptIndices(chunks)[k] < |chunks|
  {
    KeptAt(chunks, k);
  }

  /** The kept positions increase. */
  lemma {:induction false} KeptIncreasing(chunks: seq<string>, k: nat, l: nat)
    requires k < l < |KeptIndices(chunks)|
    ensures KeptIndices(chunks)[k] < KeptIndices(chunks)[l]
  {
    var n := |chunks| - 1;
    var init := chunks[..n];
    if l < |KeptIndices(init)| {
      KeptIncreasing(init, k, l);
    } else {
      KeptBelow(init, k);
    }
  }

  /** A position is kept exactly when its chunk is a statement. */
  lemma {:induction false} KeptIff(chunks: seq<string>, i: nat)
    requires i < |chunks|
    ensures i in KeptIndices(chunks) <==> IsStatement(chunks[i])
  {
    var n := |chunks| - 1;
    var init := chunks[..n];
    var tail: seq<nat> := if IsStatement(chunks[n]) then [n] else [];
    assert KeptIndices(chunks) == KeptIndices(init) + tail;
    if i < n {
      KeptIff(init, i);
      assert init[i] == chunks[i];
      assert i !in tail;
    } else if n in KeptIndices(init) {
      var k :| 0 <= k < |KeptIndices(init)| && KeptIndices(init)[k] == n;
      KeptBelow(init, k);
    }
  }

  /** Every kept string is one of the chunks and is a statement. */
  lemma KeptAreStatements(chunks: seq<string>, k: nat)
    requires k < |KeepStatements(chunks)|
    ensures IsStatement(KeepStatements(chunks)[k])
    ensures KeepStatements(chunks)[k] in chunks
  {
    KeptAt(chunks, k);
    KeptIff(chunks, KeptIndices(chunks)[k]);
  }

  /** The `';'`-separated chunks of the schema, trimmed. */
  function Chunks(schema: string): (cs: seq<string>)
    ensures |cs| >= 1
  {
    MapTrim(Split(schema, {';'}))
  }

  /** `schema.split(';').map(s => s.trim()).filter(...)` */
  function Statements(schema: string): seq<string>
  {
    KeepStatements(Chunks(schema))
  }

  /** The `';'`-chunk each statement comes from. */
  function StatementChunks(schema: string): seq<nat>
  {
    KeptIndices(Chunks(schema))
  }

  /** A chunk holds no `;` and is trimmed. */
  lemma ChunkShape(schema: string, i: nat)
    requires i < |Chunks(schema)|
    ensures IsTrimmed(Chunks(schema)[i]) && ';' !in Chunks(schema)[i]
  {
    var pieces := Split(schema, {';'});
    assert ';' !in pieces[i];
    TrimKeepsOut(pieces[i], ';');
  }

  /**
   * Every statement is trimmed, not empty, holds no `;` and does not start
   * with `--`.
   */
  lemma StatementShape(schema: string, k: nat)
    requires k < |Statements(schema)|
    ensures var s := Statements(schema)[k];
      IsTrimmed(s) && s != "" && ';' !in s && !StartsWith(s, "--")
  {
    KeptAreStatements(Chunks(schema), k);
    KeptAt(Chunks(schema), k);
    ChunkShape(schema, StatementChunks(schema)[k]);
  }

  /**
   * The statements keep the order of the schema: the `k`-th statement is the
   * trimmed `j`-th `';'`-piece for increasing `j`, and a piece gives a
   * statement exactly when, trimmed, it is not empty and does not start with
   * `--` (so a piece that starts with a comment is dropped whole).
   */
  lemma StatementsOrder(schema: string)
    ensures |StatementChunks(schema)| == |Statements(schema)|
    ensures forall k :: 0 <= k < |Statements(schema)| ==>
      StatementChunks(schema)[k] < |Split(schema, {';'})| &&
      Statements(schema)[k] == Trim(Split(schema, {';'})[StatementChunks(schema)[k]])
    ensures forall k, l :: 0 <= k < l < |StatementChunks(schema)| ==>
      StatementChunks(schema)[k] < StatementChunks(schema)[l]
    ensures forall j :: 0 <= j < |Split(schema, {';'})| ==>
      (j in StatementChunks(schema) <==> IsStatement(Trim(Split(schema, {';'})[j])))
  {
    var cs := Chunks(schema);
    var pieces := Split(schema, {';'});
    forall k | 0 <= k < |Statements(schema)|
      ensures StatementChunks(schema)[k] < |pieces| && Statements(schema)[k] == Trim(pieces[StatementChunks(schema)[k]])
    {
      KeptAt(cs, k);
    }
    forall k, l | 0 <= k < l < |StatementChunks(schema)|
      ensures StatementChunks(schema)[k] < StatementChunks(schema)[l]
    {
      KeptIncreasing(cs, k, l);
    }
    forall j | 0 <= j < |pieces|
      ensures j in StatementChunks(schema) <==> IsStatement(Trim(pieces[j]))
    {
      KeptIff(cs, j);
    }
  }

  /** A schema without `;` is one chunk, so it gives at most one statement. */
  lemma NoSemicolonOneStatement(schema: string)
    requires ';' !in schema
    ensures |Statements(schema)| <= 1
  {
    SplitCount(schema, ';');
  }
}
