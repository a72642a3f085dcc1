/** The PDF upload dialog (src/components/knowledge/UploadKnowledgeDialog.tsx): picks a PDF, inserts
    its text as a pending knowledge-base entry and asks for it to be processed. */
module UploadKnowledgeDialog {
  import opened Wrappers
  import opened Json
  import opened Strings
  import opened Toasts
  import opened KnowledgeForms

  const PdfType := "application/pdf"

  /** A chosen file: its name, MIME type and text (`file.text()`). */
  datatype File = File(name: string, mimeType: string, text: string)

  const NotPdfToast := Failure("Erro", "Por favor, selecione um arquivo PDF")
  const MissingToast := Failure("Erro", "Por favor, selecione um arquivo e forneça um título")
  const UploadedToast := Info("Sucesso!", "Documento adicionado e será processado em breve")
  const UploadFailedToast := Failure("Erro", "Não foi possível fazer upload do documento")

  /** The title taken from a file name: the name with its first ".pdf" removed. */
  function TitleFromName(name: string): (t: string)
    ensures IndexOf(name, ".pdf") == -1 ==> t == name
    ensures IndexOf(name, ".pdf") != -1 ==>
      t == name[..IndexOf(name, ".pdf")] + name[IndexOf(name, ".pdf") + 4..]
  {
    ReplaceFirst(name, ".pdf", "")
  }

  /** The dialog's state, with the rows it inserted and the processing requests it sent. */
  class Dialog {
    var open: bool
    var uploading: bool
    var file: Option<File>
    var title: string
    var contentType: string
    var topics: string
    var toasts: seq<Toast>
    var inserts: seq<KnowledgeInsert>
    var invocations: seq<ProcessInvocation>

    constructor ()
      ensures !open && !uploading && file.None? && title == "" && contentType == "scientific_paper" && topics == ""
      ensures toasts == [] && inserts == [] && invocations == []
    {
      open, uploading, file, title, contentType, topics := false, false, None, "", "scientific_paper", "";
      toasts, inserts, invocations := [], [], [];
    }

    /** `handleFileChange`: only the first chosen file counts; a file that is not a PDF is refused and
        the selection is unchanged; a PDF becomes the file, and names the title when it is empty. */
    method HandleFileChange(files: seq<File>)
      modifies this`file, this`title, this`toasts
      ensures files == [] ==> file == old(file) && title == old(title) && toasts == old(toasts)
      ensures files != [] && files[0].mimeType != PdfType ==>
        file == old(file) && title == old(title) && toasts == old(toasts) + [NotPdfToast]
      ensures files != [] && files[0].mimeType == PdfType ==>
        file == Some(files[0]) && toasts == old(toasts) &&
        title == (if old(title) == "" then TitleFromName(files[0].name) else old(title))
    {
      if files == [] {
        return;
      }
      var selected := files[0];
      if selected.mimeType != PdfType {
        toasts := toasts + [NotPdfToast];
        return;
      }
      file := Some(selected);
      if title == "" {
        title := TitleFromName(selected.name);
      }
    }

    /** The row `handleUpload` inserts for the current form. */
    function Row(f: File): (row: KnowledgeInsert)
      reads this`title, this`contentType, this`topics
      ensures row.title == title && row.contentType == contentType && row.originalContent == f.text
      ensures row.sourceUrl.None? && row.topics == TopicsOf(topics) && row.processingStatus == Pending
    {
      KnowledgeInsert(title, contentType, f.text, None, TopicsOf(topics), Pending)
    }

    /** `handleUpload`: refused without a file or a title; otherwise inserts the row. When the insert
        returns the new id, the processing request follows (its failure is only logged), and the
        dialog closes with file, title and topics reset; the content type is kept. */
    method HandleUpload(inserted: Result<Json, string>)
      modifies this`open, this`uploading, this`file, this`title, this`topics, this`toasts, this`inserts, this`invocations
      ensures old(file.None? || title == "") ==>
        inserts == old(inserts) && invocations == old(invocations) && toasts == old(toasts) + [MissingToast] &&
        open == old(open) && file == old(file) && title == old(title)
      ensures old(file.Some? && title != "") ==> inserts == old(inserts) + [old(Row(file.value))]
      ensures old(file.Some? && title != "") && inserted.Ok? ==>
        invocations == old(invocations) + [ProcessInvocation(inserted.value, old(file.value.text), old(title), old(contentType))] &&
        toasts == old(toasts) + [UploadedToast] && !open && file.None? && title == "" && topics == "" &&
        contentType == old(contentType)
      ensures old(file.Some? && title != "") && inserted.Err? ==>
        invocations == old(invocations) && toasts == old(toasts) + [UploadFailedToast] &&
        open == old(open) && file == old(file) && title == old(title) && topics == old(topics)
    {
      if file.None? || title == "" {
        toasts := toasts + [MissingToast];
        return;
      }
      uploading := true;
      var f := file.value;
      inserts := inserts + [Row(f)];
      if inserted.Err? {
        toasts := toasts + [UploadFailedToast];
      } else {
        invocations := invocations + [ProcessInvocation(inserted.value, f.text, title, contentType)];
        toasts := toasts + [UploadedToast];
        open, file, title, topics := false, None, "", "";
      }
      uploading := false;
    }
  }
}
