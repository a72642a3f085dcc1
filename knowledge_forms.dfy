/** What the two knowledge-base dialogs share (src/components/knowledge/UploadKnowledgeDialog.tsx and
    src/components/knowledge/AddArticleDialog.tsx): the topic list typed as comma-separated text,
    the row they insert, and the processing request they send after it. */
module KnowledgeForms {
  import opened Wrappers
  import opened Json
  import opened Strings

  const Pending := "pending"

  /** The `knowledge_base` row a dialog inserts. */
  datatype KnowledgeInsert = KnowledgeInsert(title: string, contentType: string, originalContent: string,
                                             sourceUrl: Option<string>, topics: seq<string>, processingStatus: string)

  /** The body of the `process-knowledge` invocation that follows a successful insert. */
  datatype ProcessInvocation = ProcessInvocation(knowledgeId: Json, content: string, title: string, contentType: string)

  function TrimAll(pieces: seq<string>): (r: seq<string>)
    ensures |r| == |pieces| && forall i :: 0 <= i < |pieces| ==> r[i] == Trim(pieces[i])
  {
    seq(|pieces|, i requires 0 <= i < |pieces| => Trim(pieces[i]))
  }

  /** `topics ? topics.split(',').map(t => t.trim()) : []`: no topics for empty text; otherwise one
      topic per comma-separated piece, trimmed, empty pieces kept. */
  function TopicsOf(topics: string): (r: seq<string>)
    ensures topics == "" ==> r == []
    ensures topics != "" ==> r == TrimAll(Split(topics, ','))
  {
    if topics == "" then [] else TrimAll(Split(topics, ','))
  }

  /** A topic as stored: no comma, and no whitespace at either end. */
  predicate CleanTopic(t: string) {
    ',' !in t && (t == [] || (!IsSpace(t[0]) && !IsSpace(t[|t| - 1])))
  }

  lemma TrimmedPieceClean(piece: string)
    requires ',' !in piece
    ensures CleanTopic(Trim(piece))
  {
    TrimIsSlice(piece);
    var a, b :| 0 <= a <= b <= |piece| && Trim(piece) == piece[a..b];
    assert forall k :: 0 <= k < b - a ==> Trim(piece)[k] == piece[a + k];
  }

  /** Every topic is free of commas and of surrounding whitespace. */
  lemma TopicsAreClean(topics: string)
    ensures forall i :: 0 <= i < |TopicsOf(topics)| ==> CleanTopic(TopicsOf(topics)[i])
  {
    if topics != "" {
      var pieces := Split(topics, ',');
      forall i | 0 <= i < |pieces|
        ensures CleanTopic(Trim(pieces[i]))
      {
        TrimmedPieceClean(pieces[i]);
      }
    }
  }

  /** Text whose pieces carry no surrounding whitespace comes back from its topics joined with ','. */
  lemma TopicsRoundTrip(topics: string)
    requires topics != ""
    requires forall i :: 0 <= i < |Split(topics, ',')| ==> Trim(Split(topics, ',')[i]) == Split(topics, ',')[i]
    ensures Join(TopicsOf(topics), ",") == topics
  {
    assert TopicsOf(topics) == Split(topics, ',');
    JoinSplit(topics, ',');
  }
}
