/**
 * The screen's state and the transitions the report engine performs on it:
 * saving the form (`handleSubmit`), opening, confirming and cancelling the
 * daily send (`handleEnviarWhatsApp`, `confirmarEnvioWhatsApp`,
 * `cancelarEnvioWhatsApp`). The environment comes in as parameters: today's
 * date and whether the POST to `/api/reportes` succeeded.
 */
module App {
  import opened Wrappers
  import opened TimeCodec
  import opened Reports
  import opened Validator
  import opened Daily

  /** Everything the component keeps in state. */
  datatype State = State(
    form: Form,
    errores: map<Field, string>,
    mensaje: string,
    reportesDiarios: seq<Report>,
    mostrarConfirmacion: bool,
    novedad: string
  )

  const MsgGuardado: string := "✅ Registro guardado con éxito!"
  const MsgErrorGuardar: string := "❌ Error al guardar registro."

  /**
   * The state after mounting: today's date and the stored technician in an
   * otherwise default form, the stored list of the day, nothing else set.
   */
  function Init(today: string, tecnicoGuardado: string, reportesGuardados: seq<Report>): (s: State)
    ensures s.form == ResetForm(today, tecnicoGuardado)
    ensures s.reportesDiarios == reportesGuardados
    ensures s.errores == map[] && s.mensaje == "" && !s.mostrarConfirmacion && s.novedad == ""
  {
    State(ResetForm(today, tecnicoGuardado), map[], "", reportesGuardados, false, "")
  }

  // ---------------------------------------------------------------------------
  // Saving a report

  /**
   * `nuevoReporte`: the form's fields plus the time of its hour and minute
   * fields, which for a form that passed the check is 1..47 half hours.
   */
  function NuevoReporte(f: Form): (r: Report)
    requires Validar(f) == map[]
    ensures r.form == f
    ensures f.tiempoHoras.Some? && f.tiempoMinutos.Some?
    ensures r.tiempo == TiempoDecimal(f.tiempoHoras.value, f.tiempoMinutos.value)
    ensures 1 <= r.tiempo <= 47
  {
    ValidTiempoBounds(f);
    Report(f, TiempoDecimal(f.tiempoHoras.value, f.tiempoMinutos.value))
  }

  /** What a save attempt leaves behind: the new state and the report sent to the server, if any. */
  datatype SubmitOutcome = SubmitOutcome(state: State, posted: Option<Report>)

  /**
   * `handleSubmit`. A form that fails the check is not sent: only the errors
   * and the message change. Otherwise the report is posted; if the post
   * throws, only the message changes; if it succeeds, the report is appended,
   * the form reset (technician kept, date today) and the errors cleared.
   */
  function HandleSubmit(s: State, today: string, postOk: bool): (o: SubmitOutcome)
    // validation failed: nothing posted, list and form unchanged
    ensures Validar(s.form) != map[] ==>
      && o.posted == None
      && o.state.errores == Validar(s.form) && o.state.mensaje == ""
      && o.state.form == s.form && o.state.reportesDiarios == s.reportesDiarios
      && o.state.mostrarConfirmacion == s.mostrarConfirmacion && o.state.novedad == s.novedad
    // validation passed: the posted report is the form with its time
    ensures Validar(s.form) == map[] ==>
      && o.posted.Some? && o.posted.value.form == s.form
      && s.form.tiempoHoras.Some? && s.form.tiempoMinutos.Some?
      && o.posted.value.tiempo == TiempoDecimal(s.form.tiempoHoras.value, s.form.tiempoMinutos.value)
    // the post threw: only the message changes
    ensures Validar(s.form) == map[] && !postOk ==>
      && o.state.mensaje == MsgErrorGuardar
      && o.state.form == s.form && o.state.reportesDiarios == s.reportesDiarios
      && o.state.errores == s.errores
      && o.state.mostrarConfirmacion == s.mostrarConfirmacion && o.state.novedad == s.novedad
    // the post succeeded: one report appended, form reset, errors cleared
    ensures Validar(s.form) == map[] && postOk ==>
      && |o.state.reportesDiarios| == |s.reportesDiarios| + 1
      && o.state.reportesDiarios[..|s.reportesDiarios|] == s.reportesDiarios
      && o.state.reportesDiarios[|s.reportesDiarios|] == o.posted.value
      && o.state.form == ResetForm(today, s.form.tecnico)
      && o.state.errores == map[] && o.state.mensaje == MsgGuardado
      && o.state.mostrarConfirmacion == s.mostrarConfirmacion && o.state.novedad == s.novedad
  {
    var errs := Validar(s.form);
    if errs != map[] then
      SubmitOutcome(s.(errores := errs, mensaje := ""), None)
    else
      var r := NuevoReporte(s.form);
      if !postOk then
        SubmitOutcome(s.(mensaje := MsgErrorGuardar), Some(r))
      else
        SubmitOutcome(
          s.(reportesDiarios := s.reportesDiarios + [r],
             mensaje := MsgGuardado,
             form := ResetForm(today, s.form.tecnico),
             errores := map[]),
          Some(r))
  }

  /** A successful save adds exactly the new report's time to the day's total. */
  lemma SubmitAddsToTotal(s: State, today: string)
    requires Validar(s.form) == map[]
    ensures var o := HandleSubmit(s, today, true);
      && Total(o.state.reportesDiarios) == Total(s.reportesDiarios) + o.posted.value.tiempo
      && Total(s.reportesDiarios) < Total(o.state.reportesDiarios) <= Total(s.reportesDiarios) + 47
  {
    var o := HandleSubmit(s, today, true);
    assert o.state.reportesDiarios == s.reportesDiarios + [o.posted.value];
    TotalAppend(s.reportesDiarios, o.posted.value);
  }

  /**
   * Once a save has completed, submitting again without touching the form
   * saves nothing: the reset form fails the check, so the second attempt posts
   * nothing and leaves the list as the first one left it.
   */
  lemma ResubmitAfterSaveRejected(s: State, today1: string, today2: string, ok1: bool, ok2: bool)
    requires Validar(s.form) == map[]
    ensures var o1 := HandleSubmit(s, today1, ok1);
      var o2 := HandleSubmit(o1.state, today2, ok2);
      ok1 ==> o2.posted == None && o2.state.reportesDiarios == o1.state.reportesDiarios
  {
    ResetFormRejected(today1, s.form.tecnico);
  }

  // ---------------------------------------------------------------------------
  // Sending the day's list

  /**
   * `handleEnviarWhatsApp` behind its button: the button is disabled while
   * the list is empty, otherwise it shows the confirmation.
   */
  function AbrirConfirmacion(s: State): (r: State)
    ensures r.mostrarConfirmacion <==> s.mostrarConfirmacion || s.reportesDiarios != []
    ensures r.(mostrarConfirmacion := s.mostrarConfirmacion) == s
  {
    if s.reportesDiarios == [] then s else s.(mostrarConfirmacion := true)
  }

  /** `cancelarEnvioWhatsApp`: hides the confirmation and changes nothing else. */
  function CancelarEnvio(s: State): (r: State)
    ensures !r.mostrarConfirmacion
    ensures r.form == s.form && r.errores == s.errores && r.mensaje == s.mensaje
    ensures r.reportesDiarios == s.reportesDiarios && r.novedad == s.novedad
  {
    s.(mostrarConfirmacion := false)
  }

  /** Opening the confirmation and cancelling it gives back the state it was opened from. */
  lemma CancelUndoesOpen(s: State)
    requires !s.mostrarConfirmacion
    ensures CancelarEnvio(AbrirConfirmacion(s)) == s
  {
  }

  /** What confirming the send leaves behind: the new state and the text handed to `wa.me`. */
  datatype SendOutcome = SendOutcome(state: State, texto: string)

  /**
   * `confirmarEnvioWhatsApp`: the message is built from the list and note as
   * they were, then the list and the note are emptied, the form reset
   * (technician kept, date today) and the confirmation hidden.
   */
  function ConfirmarEnvio(s: State, today: string): (o: SendOutcome)
    ensures o.texto == GenerarMensaje(today, s.reportesDiarios, s.novedad)
    ensures o.state.reportesDiarios == [] && o.state.novedad == ""
    ensures o.state.form == ResetForm(today, s.form.tecnico)
    ensures !o.state.mostrarConfirmacion
    ensures o.state.errores == s.errores && o.state.mensaje == s.mensaje
  {
    var texto := GenerarMensaje(today, s.reportesDiarios, s.novedad);
    SendOutcome(
      s.(reportesDiarios := [], form := ResetForm(today, s.form.tecnico), novedad := "",
         mostrarConfirmacion := false),
      texto)
  }

  /**
   * Confirming sends every report of the day: each one's line is in the sent
   * text, in list order, and the day's total starts again from 0.
   */
  lemma ConfirmSendsEveryReport(s: State, today: string, i: nat)
    requires i < |s.reportesDiarios|
    ensures var o := ConfirmarEnvio(s, today);
      var p := |Header(today, Total(s.reportesDiarios))| + |Lines(s.reportesDiarios[..i])|;
      var line := Line(s.reportesDiarios[i]);
      && p + |line| <= |o.texto| && o.texto[p..p + |line|] == line
      && Total(o.state.reportesDiarios) == 0
  {
    MessageHasLine(today, s.reportesDiarios, s.novedad, i);
  }

  // ---------------------------------------------------------------------------
  // What every reachable state satisfies

  /** The user's actions, with the environment each one reads. */
  datatype Event =
    | Submit(today: string, postOk: bool)
    | EditForm(form: Form)
    | Open
    | Cancel
    | EditNovedad(text: string)
    | Confirm(today: string)

  /**
   * One action. Editing a field (`handleChange`) or the note replaces it
   * wholesale; the others are the transitions above.
   */
  function Step(s: State, e: Event): State {
    match e
    case Submit(today, postOk) => HandleSubmit(s, today, postOk).state
    case EditForm(f) => s.(form := f)
    case Open => AbrirConfirmacion(s)
    case Cancel => CancelarEnvio(s)
    case EditNovedad(text) => s.(novedad := text)
    case Confirm(today) => ConfirmarEnvio(s, today).state
  }

  /** A report as a save creates it: a form that passed the check, and its time. */
  predicate Saved(r: Report) {
    && Validar(r.form) == map[]
    && r.form.tiempoHoras.Some? && r.form.tiempoMinutos.Some?
    && r.tiempo == TiempoDecimal(r.form.tiempoHoras.value, r.form.tiempoMinutos.value)
  }

  /**
   * The confirmation is only ever shown over a non-empty list, and every
   * report in the list is one a save created.
   */
  predicate Inv(s: State) {
    && (s.mostrarConfirmacion ==> s.reportesDiarios != [])
    && forall i :: 0 <= i < |s.reportesDiarios| ==> Saved(s.reportesDiarios[i])
  }

  /** Mounting with a list this screen stored itself starts in a good state. */
  lemma InitInv(today: string, tecnico: string, saved: seq<Report>)
    requires forall i :: 0 <= i < |saved| ==> Saved(saved[i])
    ensures Inv(Init(today, tecnico, saved))
  {
  }

  /** Every action keeps the invariant. */
  lemma StepInv(s: State, e: Event)
    requires Inv(s)
    ensures Inv(Step(s, e))
  {
    match e
    case Submit(today, postOk) => SubmitInv(s, today, postOk);
    case EditForm(f) =>
    case Open =>
    case Cancel =>
    case EditNovedad(text) =>
    case Confirm(today) =>
  }

  /** A save keeps the invariant: the one report it appends is one a save created. */
  lemma SubmitInv(s: State, today: string, postOk: bool)
    requires Inv(s)
    ensures Inv(HandleSubmit(s, today, postOk).state)
  {
    var o := HandleSubmit(s, today, postOk);
    if Validar(s.form) == map[] && postOk {
      var rs := o.state.reportesDiarios;
      var n := |s.reportesDiarios|;
      assert rs[n] == o.posted.value;
      forall i | 0 <= i < |rs|
        ensures Saved(rs[i])
      {
        if i < n {
          assert rs[i] == rs[..n][i] == s.reportesDiarios[i];
        }
      }
    }
  }

  /** The state after a sequence of actions, applied in order. */
  function Run(s: State, es: seq<Event>): State
    decreases |es|
  {
    if es == [] then s else Run(Step(s, es[0]), es[1..])
  }

  /** Every state a run of actions reaches from a good state is good. */
  lemma {:induction false} RunInv(s: State, es: seq<Event>)
    requires Inv(s)
    ensures Inv(Run(s, es))
    decreases |es|
  {
    if es != [] {
      StepInv(s, es[0]);
      RunInv(Step(s, es[0]), es[1..]);
    }
  }

  /** Every report of a good state takes 1..47 half hours, so the day's total is bounded by them. */
  lemma InvTotalBounds(s: State)
    requires Inv(s)
    ensures |s.reportesDiarios| <= Total(s.reportesDiarios) <= 47 * |s.reportesDiarios|
  {
    SavedTotalBounds(s.reportesDiarios);
  }

  /** A list of saved reports totals between 1 and 47 half hours per report. */
  lemma {:induction false} SavedTotalBounds(rs: seq<Report>)
    requires forall i :: 0 <= i < |rs| ==> Saved(rs[i])
    ensures |rs| <= Total(rs) <= 47 * |rs|
    decreases |rs|
  {
    if rs != [] {
      ValidTiempoBounds(rs[0].form);
      SavedTotalBounds(rs[1..]);
    }
  }
}
