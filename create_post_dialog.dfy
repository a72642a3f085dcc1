/** The forum post dialog (src/components/community/CreatePostDialog.tsx): validates a post, inserts it
    trimmed into `forum_posts` and clears the form. */
module CreatePostDialog {
  import opened Wrappers
  import opened Strings
  import opened Toasts
  import opened Accounts

  /** The row inserted into `forum_posts`. */
  datatype PostRow = PostRow(userId: string, title: string, content: string, isAnonymous: bool)

  const SignInToast := Failure("Erro", "Você precisa estar autenticado")
  const MissingToast := Failure("Campos obrigatórios", "Preencha título e conteúdo")
  const PostedToast := Info("Publicação criada!", "Sua publicação foi compartilhada com a comunidade.")

  function PostFailedToast(message: string): Toast {
    Failure("Erro ao criar publicação", message)
  }

  /** The row `handleSubmit` inserts: title and content trimmed, the anonymity flag as toggled. */
  function Post(userId: string, title: string, content: string, isAnonymous: bool): PostRow {
    PostRow(userId, Trim(title), Trim(content), isAnonymous)
  }

  /** A post that passes the guard is stored with a non-empty title and content that trimming leaves
      unchanged. */
  lemma PostIsClean(userId: string, title: string, content: string, isAnonymous: bool)
    requires !Blank(title) && !Blank(content)
    ensures var row := Post(userId, title, content, isAnonymous);
      Clean(row.title) && Clean(row.content) && row.isAnonymous == isAnonymous
  {
    TrimIdempotent(title);
    TrimIdempotent(content);
  }

  /** The dialog's state, with the posts it asked the database to insert. */
  class Dialog {
    var open: bool
    var loading: bool
    var title: string
    var content: string
    var isAnonymous: bool
    var toasts: seq<Toast>
    var inserts: seq<PostRow>

    constructor (open: bool)
      ensures this.open == open && !loading && title == "" && content == "" && !isAnonymous
      ensures toasts == [] && inserts == []
    {
      this.open, loading, title, content, isAnonymous := open, false, "", "", false;
      toasts, inserts := [], [];
    }

    /** The guard of `handleSubmit`: a title or a content that is blank after trimming. */
    predicate Incomplete()
      reads this`title, this`content
    {
      Blank(title) || Blank(content)
    }

    /** `handleSubmit`: refused without a signed-in user, then refused when the title or the content
        is blank; otherwise the trimmed post is inserted. On success the form clears and the dialog
        closes; on an error its message is shown and the form is kept. */
    method HandleSubmit(userId: Option<string>, insertError: Option<string>)
      modifies this`open, this`loading, this`title, this`content, this`isAnonymous, this`toasts, this`inserts
      ensures !SignedIn(userId) ==>
        inserts == old(inserts) && title == old(title) && content == old(content) && toasts == old(toasts) + [SignInToast]
      ensures SignedIn(userId) && old(Incomplete()) ==>
        inserts == old(inserts) && title == old(title) && content == old(content) && toasts == old(toasts) + [MissingToast]
      ensures SignedIn(userId) && old(!Incomplete()) ==>
        inserts == old(inserts) + [Post(userId.value, old(title), old(content), old(isAnonymous))] && !loading
      ensures SignedIn(userId) && old(!Incomplete()) && insertError.None? ==>
        title == "" && content == "" && !isAnonymous && !open && toasts == old(toasts) + [PostedToast]
      ensures SignedIn(userId) && old(!Incomplete()) && insertError.Some? ==>
        title == old(title) && content == old(content) && isAnonymous == old(isAnonymous) && open == old(open) &&
        toasts == old(toasts) + [PostFailedToast(insertError.value)]
    {
      if !SignedIn(userId) {
        toasts := toasts + [SignInToast];
        return;
      }
      if Incomplete() {
        toasts := toasts + [MissingToast];
        return;
      }
      loading := true;
      inserts := inserts + [Post(userId.value, title, content, isAnonymous)];
      if insertError.Some? {
        toasts := toasts + [PostFailedToast(insertError.value)];
      } else {
        toasts := toasts + [PostedToast];
        title, content, isAnonymous := "", "", false;
        open := false;
      }
      loading := false;
    }
  }
}
