/** The plant registration dialog (src/components/plants/CreatePlantDialog.tsx): validates the form,
    inserts a new plant in the `germinating` status and resets the form. */
module CreatePlantDialog {
  import opened Wrappers
  import opened Strings
  import opened Toasts
  import opened PlantSchema
  import opened Accounts

  /** The dialog's form. The germination date is held as the ISO text `toISOString()` gives for it. */
  datatype PlantForm = PlantForm(
    nickname: string, species: string, genetics: string, origin: Origin,
    registrationNumber: string, germinationDate: Option<string>, generalNotes: string,
    nutrientsType: string, substrateType: string, lightCycle: string)

  /** The row inserted into `plants`; `None` is SQL null. */
  datatype PlantRow = PlantRow(
    userId: string, nickname: string, species: Option<string>, genetics: Option<string>, origin: Origin,
    registrationNumber: Option<string>, germinationDate: Option<string>, generalNotes: Option<string>,
    nutrientsType: Option<string>, substrateType: Option<string>, lightCycle: Option<string>,
    status: PlantStatus)

  /** The empty form the dialog starts with and returns to, with origin `seed`. */
  const InitialForm := PlantForm("", "", "", Seed, "", None, "", "", "", "")

  const SignInToast := Failure("Erro", "Você precisa estar autenticado")
  const NicknameToast := Failure("Campo obrigatório", "Informe um apelido para a planta")
  const RegisteredToast := Info("Planta registrada!", "A planta foi adicionada ao seu histórico.")

  function InsertFailedToast(message: string): Toast {
    Failure("Erro ao registrar planta", message)
  }

  /** `s.trim() || null`: the trimmed text, or null when nothing but whitespace is left. */
  function TrimOrNull(s: string): (r: Option<string>)
    ensures r.None? <==> Blank(s)
    ensures r.Some? ==> r.value == Trim(s)
  {
    if Trim(s) == "" then None else Some(Trim(s))
  }

  /** `date?.toISOString().split('T')[0] || null`: the date part of the ISO text, or null. */
  function DatePart(iso: Option<string>): (r: Option<string>)
  {
    if iso.None? then None
    else
      var day := Split(iso.value, 'T')[0];
      if day == "" then None else Some(day)
  }

  /** The date part is a non-empty prefix of the ISO text without 'T', ending where the first 'T' is. */
  lemma DatePartIsPrefix(iso: string)
    ensures DatePart(Some(iso)).Some? ==>
      var day := DatePart(Some(iso)).value;
      day != "" && 'T' !in day && |day| <= |iso| && day == iso[..|day|] && (|day| == |iso| || iso[|day|] == 'T')
    ensures DatePart(Some(iso)).None? <==> iso == "" || iso[0] == 'T'
  {
    SplitHead(iso, 'T');
  }

  /** The row `handleSubmit` inserts for a signed-in user and the current form. */
  function Row(userId: string, form: PlantForm): PlantRow {
    PlantRow(userId, Trim(form.nickname), TrimOrNull(form.species), TrimOrNull(form.genetics), form.origin,
             TrimOrNull(form.registrationNumber), DatePart(form.germinationDate), TrimOrNull(form.generalNotes),
             TrimOrNull(form.nutrientsType), TrimOrNull(form.substrateType), TrimOrNull(form.lightCycle),
             Germinating)
  }

  predicate CleanOrNull(v: Option<string>) {
    v.Some? ==> Clean(v.value)
  }

  lemma TrimOrNullClean(s: string)
    ensures CleanOrNull(TrimOrNull(s))
  {
    TrimIdempotent(s);
  }

  /** Every text field of an inserted row is stored clean: the nickname of a form that passes the
      guard, and each optional field either null or clean. */
  lemma RowIsClean(userId: string, form: PlantForm)
    requires !Blank(form.nickname)
    ensures Clean(Row(userId, form).nickname)
    ensures var row := Row(userId, form);
      CleanOrNull(row.species) && CleanOrNull(row.genetics) && CleanOrNull(row.registrationNumber) &&
      CleanOrNull(row.generalNotes) && CleanOrNull(row.nutrientsType) && CleanOrNull(row.substrateType) &&
      CleanOrNull(row.lightCycle)
  {
    TrimIdempotent(form.nickname);
    TrimOrNullClean(form.species);
    TrimOrNullClean(form.genetics);
    TrimOrNullClean(form.registrationNumber);
    TrimOrNullClean(form.generalNotes);
    TrimOrNullClean(form.nutrientsType);
    TrimOrNullClean(form.substrateType);
    TrimOrNullClean(form.lightCycle);
  }

  /** The dialog's state, with the rows it asked the database to insert. */
  class Dialog {
    var open: bool
    var loading: bool
    var form: PlantForm
    var toasts: seq<Toast>
    var inserts: seq<PlantRow>

    constructor (open: bool)
      ensures this.open == open && !loading && form == InitialForm && toasts == [] && inserts == []
    {
      this.open, loading, form, toasts, inserts := open, false, InitialForm, [], [];
    }

    /** `handleSubmit`: refused without a signed-in user, then refused when the nickname is blank;
        otherwise the row is inserted. On success the form resets and the dialog closes; on an error
        its message is shown and the form is kept. */
    method HandleSubmit(userId: Option<string>, insertError: Option<string>)
      modifies this`open, this`loading, this`form, this`toasts, this`inserts
      ensures !SignedIn(userId) ==>
        inserts == old(inserts) && form == old(form) && open == old(open) && toasts == old(toasts) + [SignInToast]
      ensures SignedIn(userId) && Blank(old(form).nickname) ==>
        inserts == old(inserts) && form == old(form) && open == old(open) && toasts == old(toasts) + [NicknameToast]
      ensures SignedIn(userId) && !Blank(old(form).nickname) ==>
        inserts == old(inserts) + [Row(userId.value, old(form))] && !loading
      ensures SignedIn(userId) && !Blank(old(form).nickname) && insertError.None? ==>
        form == InitialForm && !open && toasts == old(toasts) + [RegisteredToast]
      ensures SignedIn(userId) && !Blank(old(form).nickname) && insertError.Some? ==>
        form == old(form) && open == old(open) && toasts == old(toasts) + [InsertFailedToast(insertError.value)]
    {
      if !SignedIn(userId) {
        toasts := toasts + [SignInToast];
      } else if Blank(form.nickname) {
        toasts := toasts + [NicknameToast];
      } else {
        loading := true;
        var row := Row(userId.value, form);
        inserts := inserts + [row];
        if insertError.Some? {
          toasts := toasts + [InsertFailedToast(insertError.value)];
        } else {
          toasts := toasts + [RegisteredToast];
          form := InitialForm;
          open := false;
        }
        loading := false;
      }
    }
  }
}
