/** The result materialiser: DefaultResultSetImpl's constructor, which fixes up
    the engine's document list in place so that COUNT pseudo-columns behave as
    in SQL (one row over an empty result, the same count on every row). */
module ResultSets {
  import opened SolrTypes

  /** The engine's answer to a search (a SolrDocumentList): the returned page
      of documents and the engine's total number of matches, which may exceed
      the page length. The object is shared: the result set built over it
      changes the caller's list. */
  class DocumentList {
    var docs: seq<Document>
    var numFound: nat

    constructor (docs: seq<Document>, numFound: nat)
      ensures this.docs == docs && this.numFound == numFound
    {
      this.docs := docs;
      this.numFound := numFound;
    }

    /** docList.add(new SolrDocument()) */
    method AddEmpty()
      modifies this
      ensures docs == old(docs) + [map[]] && numFound == old(numFound)
    {
      docs := docs + [map[]];
    }

    /** The inner loop: setField(name, v) on document `i` for each name. */
    method SetFieldsAt(i: nat, names: seq<string>, v: Value)
      requires i < |docs|
      modifies this
      ensures numFound == old(numFound) && |docs| == |old(docs)|
      ensures docs == old(docs)[i := SetFields(old(docs)[i], names, v)]
    {
      var j := 0;
      while j < |names|
        invariant numFound == old(numFound)
        invariant 0 <= j <= |names|
        invariant docs == old(docs)[i := SetFields(old(docs)[i], names[..j], v)]
      {
        assert names[..j + 1][..j] == names[..j];
        docs := docs[i := docs[i][names[j] := v]];
        j := j + 1;
      }
      assert names[..j] == names;
    }

    /** The outer loop: every document gets every name set to `v`. */
    method StampAll(names: seq<string>, v: Value)
      modifies this
      ensures numFound == old(numFound) && |docs| == |old(docs)|
      ensures forall k :: 0 <= k < |docs| ==> docs[k] == SetFields(old(docs)[k], names, v)
    {
      var i := 0;
      while i < |docs|
        invariant numFound == old(numFound) && |docs| == |old(docs)|
        invariant 0 <= i <= |docs|
        invariant forall k :: 0 <= k < i ==> docs[k] == SetFields(old(docs)[k], names, v)
        invariant docs[i..] == old(docs)[i..]
      {
        SetFieldsAt(i, names, v);
        i := i + 1;
      }
    }
  }

  /** `doc` after `setField(name, v)` for each name of `names` in turn. */
  function SetFields(doc: Document, names: seq<string>, v: Value): (r: Document)
    ensures r.Keys == doc.Keys + set c | c in names
    ensures forall c :: c in names ==> r[c] == v
    ensures forall f :: f in doc && f !in names ==> r[f] == doc[f]
    decreases |names|
  {
    if names == [] then doc
    else
      var init := names[..|names| - 1];
      assert names == init + [names[|names| - 1]];
      SetFields(doc, init, v)[names[|names| - 1] := v]
  }

  /** The rows the stamping loop works on: the engine's documents, or one
      empty document when a count column is asked for and there are none. */
  function Padded(docs: seq<Document>, countColumns: seq<string>): (r: seq<Document>)
  {
    if |countColumns| > 0 && |docs| == 0 then [map[]] else docs
  }

  /** The document list after DefaultResultSetImpl's constructor, given the
      count columns' result names and the engine's total-match count. */
  function Materialized(docs: seq<Document>, countColumns: seq<string>, numFound: nat): (r: seq<Document>)
  {
    if |countColumns| == 0 then docs
    else
      var rows := Padded(docs, countColumns);
      seq(|rows|, k requires 0 <= k < |rows| => SetFields(rows[k], countColumns, Long(numFound)))
  }

  /** A result set over an engine answer; `countColumns` stands for
      metaData.getCountColumnList(), by result name. */
  class DefaultResultSet {
    var docList: DocumentList
    const countColumns: seq<string>

    constructor (solrResult: DocumentList, countColumns: seq<string>)
      modifies solrResult
      ensures docList == solrResult && this.countColumns == countColumns
      ensures solrResult.numFound == old(solrResult.numFound)
      ensures solrResult.docs == Materialized(old(solrResult.docs), countColumns, old(solrResult.numFound))
    {
      docList := solrResult;
      this.countColumns := countColumns;
      new;
      if |countColumns| > 0 {
        if |solrResult.docs| == 0 {
          solrResult.AddEmpty();
        }
        solrResult.StampAll(countColumns, Long(solrResult.numFound));
      }
    }
  }

  /** The number of rows: one more than the engine returned exactly when a
      count column is asked for over an empty answer, otherwise unchanged. */
  lemma RowCount(docs: seq<Document>, countColumns: seq<string>, numFound: nat)
    ensures |Materialized(docs, countColumns, numFound)| ==
            if |countColumns| > 0 && |docs| == 0 then 1 else |docs|
    ensures |docs| <= |Materialized(docs, countColumns, numFound)| <= |docs| + 1
    ensures |countColumns| > 0 ==> |Materialized(docs, countColumns, numFound)| >= 1
  {
  }

  /** Without count columns the document list is left exactly as it was. */
  lemma NoCountColumnsNoChange(docs: seq<Document>, numFound: nat)
    ensures Materialized(docs, [], numFound) == docs
  {
  }

  /** Every row maps every count column to the engine's total-match count,
      whatever the number of rows returned. */
  lemma EveryRowCarriesNumFound(docs: seq<Document>, countColumns: seq<string>, numFound: nat, i: int, c: string)
    requires 0 <= i < |Materialized(docs, countColumns, numFound)|
    requires c in countColumns
    ensures c in Materialized(docs, countColumns, numFound)[i]
    ensures Materialized(docs, countColumns, numFound)[i][c] == Long(numFound)
  {
  }

  /** Any two rows agree on every count column. */
  lemma RowsAgreeOnCounts(docs: seq<Document>, countColumns: seq<string>, numFound: nat, i: int, j: int, c: string)
    requires 0 <= i < |Materialized(docs, countColumns, numFound)|
    requires 0 <= j < |Materialized(docs, countColumns, numFound)|
    requires c in countColumns
    ensures Materialized(docs, countColumns, numFound)[i][c] == Materialized(docs, countColumns, numFound)[j][c]
  {
  }

  /** The documents keep their order, and every field that is not a count
      column keeps its presence and its value. */
  lemma OtherFieldsUnchanged(docs: seq<Document>, countColumns: seq<string>, numFound: nat, i: int, f: string)
    requires 0 <= i < |docs|
    requires f !in countColumns
    ensures i < |Materialized(docs, countColumns, numFound)|
    ensures f in Materialized(docs, countColumns, numFound)[i] <==> f in docs[i]
    ensures f in docs[i] ==> Materialized(docs, countColumns, numFound)[i][f] == docs[i][f]
  {
  }

  /** Over an empty answer the one synthesised row holds the count columns
      and nothing else, each set to the total-match count. */
  lemma PaddingRowHoldsOnlyCounts(countColumns: seq<string>, numFound: nat)
    requires |countColumns| > 0
    ensures Materialized([], countColumns, numFound) == [map c | c in countColumns :: Long(numFound)]
  {
    var r := Materialized([], countColumns, numFound);
    var m := map c | c in countColumns :: Long(numFound);
    assert r[0].Keys == m.Keys;
    assert r[0] == m;
  }

  /** SELECT COUNT(*) AS n over no matches yields exactly one row, n = 0. */
  lemma CountOverNoMatches()
    ensures Materialized([], ["n"], 0) == [map["n" := Long(0)]]
  {
  }

  /** SELECT a, COUNT(*) AS n over a page of three documents out of seven
      matches gives three rows with n = 7 and each document's own a. */
  lemma CountOverPartialPage(x: Value, y: Value, z: Value)
    ensures Materialized([map["a" := x], map["a" := y], map["a" := z]], ["n"], 7) ==
            [map["a" := x, "n" := Long(7)], map["a" := y, "n" := Long(7)], map["a" := z, "n" := Long(7)]]
  {
  }
}
