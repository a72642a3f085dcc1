/** The article dialog (src/components/knowledge/AddArticleDialog.tsx): inserts a typed article as a
    pending knowledge-base entry and asks for it to be processed. */
module AddArticleDialog {
  import opened Wrappers
  import opened Json
  import opened Toasts
  import opened KnowledgeForms

  const MissingToast := Failure("Erro", "Por favor, preencha título e conteúdo")
  const SavedToast := Info("Sucesso!", "Artigo adicionado e será processado em breve")
  const SaveFailedToast := Failure("Erro", "Não foi possível salvar o artigo")

  /** `sourceUrl || null`: an empty URL is stored as null. */
  function UrlOrNull(url: string): (r: Option<string>)
    ensures r.None? <==> url == ""
    ensures r.Some? ==> r.value == url
  {
    if url == "" then None else Some(url)
  }

  /** The row `handleSave` inserts: title and content as typed, untrimmed. */
  function ArticleRow(title: string, content: string, sourceUrl: string, contentType: string, topics: string): (row: KnowledgeInsert)
    ensures row.title == title && row.originalContent == content && row.contentType == contentType
    ensures row.sourceUrl == UrlOrNull(sourceUrl) && row.topics == TopicsOf(topics) && row.processingStatus == Pending
  {
    KnowledgeInsert(title, contentType, content, UrlOrNull(sourceUrl), TopicsOf(topics), Pending)
  }

  class Dialog {
    var open: bool
    var saving: bool
    var title: string
    var content: string
    var sourceUrl: string
    var contentType: string
    var topics: string
    var toasts: seq<Toast>
    var inserts: seq<KnowledgeInsert>
    var invocations: seq<ProcessInvocation>

    constructor ()
      ensures !open && !saving && title == "" && content == "" && sourceUrl == "" && contentType == "article" && topics == ""
      ensures toasts == [] && inserts == [] && invocations == []
    {
      open, saving, title, content, sourceUrl, contentType, topics := false, false, "", "", "", "article", "";
      toasts, inserts, invocations := [], [], [];
    }

    /** The row the form's fields make. */
    function Row(): (row: KnowledgeInsert)
      reads this`title, this`content, this`sourceUrl, this`contentType, this`topics
    {
      ArticleRow(title, content, sourceUrl, contentType, topics)
    }

    /** The guard of `handleSave`: a missing title or content. */
    predicate Incomplete()
      reads this`title, this`content
    {
      title == "" || content == ""
    }

    /** The form after a successful save: every text field empty again. */
    predicate Cleared()
      reads this`title, this`content, this`sourceUrl, this`topics
    {
      title == "" && content == "" && sourceUrl == "" && topics == ""
    }

    /** `handleSave`: refused when the title or the content is empty (whitespace counts as content);
        otherwise inserts the row. When the insert returns the new id, the processing request follows
        (its failure is only logged) and the form resets. */
    method HandleSave(inserted: Result<Json, string>)
      modifies this`open, this`saving, this`title, this`content, this`sourceUrl, this`topics, this`toasts, this`inserts, this`invocations
      ensures old(Incomplete()) ==>
        inserts == old(inserts) && invocations == old(invocations) && toasts == old(toasts) + [MissingToast] &&
        title == old(title) && content == old(content)
      ensures old(!Incomplete()) ==>
        inserts == old(inserts) + [old(Row())]
      ensures old(!Incomplete()) && inserted.Ok? ==>
        invocations == old(invocations) + [ProcessInvocation(inserted.value, old(content), old(title), old(contentType))]
      ensures old(!Incomplete()) && inserted.Ok? ==>
        toasts == old(toasts) + [SavedToast] && !open
      ensures old(!Incomplete()) && inserted.Ok? ==> Cleared()
      ensures old(!Incomplete()) && inserted.Err? ==>
        invocations == old(invocations) && toasts == old(toasts) + [SaveFailedToast] &&
        title == old(title) && content == old(content) && sourceUrl == old(sourceUrl) && topics == old(topics)
    {
      if Incomplete() {
        toasts := toasts + [MissingToast];
        return;
      }
      saving := true;
      inserts := inserts + [Row()];
      if inserted.Err? {
        toasts := toasts + [SaveFailedToast];
      } else {
        invocations := invocations + [ProcessInvocation(inserted.value, content, title, contentType)];
        toasts := toasts + [SavedToast];
        open, title, content, sourceUrl, topics := false, [], [], [], [];
      }
      saving := false;
    }
  }
}
