/** A retrieved document as the prompt builders and chat front ends see it: a
    dictionary whose `content`, `metadata.source` and `similarity_score` keys may be
    missing, each read with a default. */
module ContextDocs {
  import opened Wrappers

  datatype ContextDoc = ContextDoc(content: Option<string>, source: Option<string>, similarity: Option<real>)

  /** `not context_docs`: no list was given, or it is empty. */
  predicate NoContext(docs: Option<seq<ContextDoc>>) {
    docs.None? || docs.value == []
  }

  /** `doc.get("content", "")` */
  function ContentOf(doc: ContextDoc): string {
    doc.content.GetOr("")
  }

  /** `doc.get("metadata", {}).get("source", "Unknown")` */
  function SourceOf(doc: ContextDoc): string {
    doc.source.GetOr("Unknown")
  }

  /** `doc.get("similarity_score", 0)` */
  function SimilarityOf(doc: ContextDoc): real {
    doc.similarity.GetOr(0.0)
  }

  /** `list(set(SourceOf(d) for d in docs))`, kept as a set: its order is unspecified. */
  function Sources(docs: seq<ContextDoc>): (r: set<string>)
    ensures |r| <= |docs|
    ensures forall k :: 0 <= k < |docs| ==> SourceOf(docs[k]) in r
    ensures forall s :: s in r ==> exists k :: 0 <= k < |docs| && SourceOf(docs[k]) == s
  {
    if docs == [] then {}
    else Sources(docs[..|docs| - 1]) + {SourceOf(docs[|docs| - 1])}
  }

  /** `"Unknown"` is among the sources exactly when some document has no source, or
      names its source "Unknown". */
  lemma UnknownSource(docs: seq<ContextDoc>)
    ensures "Unknown" in Sources(docs)
      <==> exists k :: 0 <= k < |docs| && (docs[k].source.None? || docs[k].source == Some("Unknown"))
  {
    if "Unknown" in Sources(docs) {
      var k :| 0 <= k < |docs| && SourceOf(docs[k]) == "Unknown";
      assert docs[k].source.None? || docs[k].source == Some("Unknown");
    }
  }
}
