/**
 * `validar`: the form check run before every save. Each field is checked on
 * its own and every failing field gets one message; an empty map means the
 * form may be saved.
 */
module Validator {
  import opened Wrappers
  import opened Text
  import opened TimeCodec
  import opened Reports

  /** The keys of the error map, one per checked field. */
  datatype Field = Tecnico | Planta | Equipo | Reporte | Tiempo

  const MsgTecnico: string := "Selecciona un técnico."
  const MsgPlanta: string := "Selecciona una planta."
  const MsgEquipo: string := "El equipo debe tener al menos 3 caracteres."
  const MsgReporte: string := "El reporte debe tener al menos 10 caracteres."
  const MsgTiempoInvalido: string := "El tiempo debe ser válido y los minutos solo 00 o 30."
  const MsgTiempoCero: string := "El tiempo debe ser mayor que cero."

  const MaxHoras: int := 23
  const MinEquipo: nat := 3
  const MinReporte: nat := 10

  /** The hour value is a number between 0 and the cap. */
  predicate HorasEnRango(h: Option<int>) {
    h.Some? && 0 <= h.value <= MaxHoras
  }

  /** The minute value is one of the two choices, 0 or 30. */
  predicate MinutosPermitidos(m: Option<int>) {
    m == Some(0) || m == Some(30)
  }

  /**
   * The time check: the "invalid" message when the hours are out of range or
   * the minutes are not 0/30, otherwise the "greater than zero" message when
   * both are 0, otherwise no message. At most one message, never both.
   */
  function TimeError(h: Option<int>, m: Option<int>): (e: Option<string>)
    ensures e == Some(MsgTiempoInvalido) <==> !(HorasEnRango(h) && MinutosPermitidos(m))
    ensures e == Some(MsgTiempoCero) <==> (h == Some(0) && m == Some(0))
    ensures e == None <==> (HorasEnRango(h) && MinutosPermitidos(m) && !(h == Some(0) && m == Some(0)))
  {
    if h.None? || h.value < 0 || h.value > MaxHoras || m.None? || (m.value != 0 && m.value != 30) then
      Some(MsgTiempoInvalido)
    else if h.value == 0 && m.value == 0 then
      Some(MsgTiempoCero)
    else
      None
  }

  /** The equipment check: `!equipo || equipo.trim().length < 3`, in UTF-16 code units. */
  predicate EquipoCorto(equipo: string) {
    equipo == "" || Utf16Length(Trim(equipo)) < MinEquipo
  }

  /** The description check: `!reporte || reporte.trim().length < 10`, in UTF-16 code units. */
  predicate ReporteCorto(reporte: string) {
    reporte == "" || Utf16Length(Trim(reporte)) < MinReporte
  }

  /**
   * `validar()`: each key is present exactly when its own field fails its own
   * check, with that check's message; no key depends on another field.
   */
  function Validar(f: Form): (errs: map<Field, string>)
    ensures errs.Keys <= AllFields
    ensures Tecnico in errs <==> f.tecnico == ""
    ensures Planta in errs <==> f.planta == ""
    ensures Equipo in errs <==> Utf16Length(Trim(f.equipo)) < MinEquipo
    ensures Reporte in errs <==> Utf16Length(Trim(f.reporte)) < MinReporte
    ensures Tiempo in errs <==> !(HorasEnRango(f.tiempoHoras) && MinutosPermitidos(f.tiempoMinutos))
                                || (f.tiempoHoras == Some(0) && f.tiempoMinutos == Some(0))
    ensures Tecnico in errs ==> errs[Tecnico] == MsgTecnico
    ensures Planta in errs ==> errs[Planta] == MsgPlanta
    ensures Equipo in errs ==> errs[Equipo] == MsgEquipo
    ensures Reporte in errs ==> errs[Reporte] == MsgReporte
    ensures Tiempo in errs ==> Some(errs[Tiempo]) == TimeError(f.tiempoHoras, f.tiempoMinutos)
  {
    EmptyIsShort(f.equipo, MinEquipo);
    EmptyIsShort(f.reporte, MinReporte);
    map k | k in AllFields && FieldError(f, k).Some? :: FieldError(f, k).value
  }

  /** The `!s ||` guard in front of a length check adds nothing: the empty string is short anyway. */
  lemma EmptyIsShort(s: string, n: nat)
    requires n > 0
    ensures s == "" || Utf16Length(Trim(s)) < n <==> Utf16Length(Trim(s)) < n
  {
    if s == "" {
      assert Trim(s) == "";
    }
  }

  const AllFields: set<Field> := {Tecnico, Planta, Equipo, Reporte, Tiempo}

  /** The one check of field `k`: its message when it fails, None when it passes. */
  function FieldError(f: Form, k: Field): Option<string> {
    match k
    case Tecnico => if f.tecnico == "" then Some(MsgTecnico) else None
    case Planta => if f.planta == "" then Some(MsgPlanta) else None
    case Equipo => if EquipoCorto(f.equipo) then Some(MsgEquipo) else None
    case Reporte => if ReporteCorto(f.reporte) then Some(MsgReporte) else None
    case Tiempo => TimeError(f.tiempoHoras, f.tiempoMinutos)
  }

  /**
   * A form that may be saved, stated field by field: technician and plant
   * chosen, equipment of at least 3 and description of at least 10 UTF-16
   * code units once trimmed, hours 0..23, minutes 0 or 30, and not 0 h 0 min.
   */
  predicate Valid(f: Form) {
    && f.tecnico != ""
    && f.planta != ""
    && Utf16Length(Trim(f.equipo)) >= MinEquipo
    && Utf16Length(Trim(f.reporte)) >= MinReporte
    && f.tiempoHoras.Some? && 0 <= f.tiempoHoras.value <= MaxHoras
    && (f.tiempoMinutos == Some(0) || f.tiempoMinutos == Some(30))
    && !(f.tiempoHoras.value == 0 && f.tiempoMinutos.value == 0)
  }

  /** `validar` returns no error at all exactly for the forms that satisfy every rule. */
  lemma ValidarEmptyIffValid(f: Form)
    ensures Validar(f) == map[] <==> Valid(f)
  {
    var errs := Validar(f);
    var ok := Tecnico !in errs && Planta !in errs && Equipo !in errs && Reporte !in errs && Tiempo !in errs;
    assert ok <==> Valid(f);
    if ok {
      NoKeyNoErrors(errs);
    }
  }

  /** An error map with none of the five keys is empty. */
  lemma NoKeyNoErrors(errs: map<Field, string>)
    requires Tecnico !in errs && Planta !in errs && Equipo !in errs && Reporte !in errs && Tiempo !in errs
    ensures errs == map[]
  {
    forall k: Field
      ensures k !in errs
    {
      match k
      case Tecnico =>
      case Planta =>
      case Equipo =>
      case Reporte =>
      case Tiempo =>
    }
    assert errs.Keys == {};
  }

  /**
   * The time field gets one message at most, and the "greater than zero"
   * message only when the range and minute checks passed and both values are 0.
   */
  lemma TiempoMessages(f: Form)
    ensures Tiempo in Validar(f) ==>
              Validar(f)[Tiempo] == MsgTiempoInvalido || Validar(f)[Tiempo] == MsgTiempoCero
    ensures Tiempo in Validar(f) && Validar(f)[Tiempo] == MsgTiempoCero <==>
              HorasEnRango(f.tiempoHoras) && MinutosPermitidos(f.tiempoMinutos)
              && f.tiempoHoras.value == 0 && f.tiempoMinutos.value == 0
  {
  }

  /**
   * Every form that passes the check encodes to a strictly positive duration
   * of at most 23 h 30 min (47 half hours).
   */
  lemma ValidTiempoBounds(f: Form)
    requires Validar(f) == map[]
    ensures f.tiempoHoras.Some? && f.tiempoMinutos.Some?
    ensures 1 <= TiempoDecimal(f.tiempoHoras.value, f.tiempoMinutos.value) <= 47
  {
    ValidarEmptyIffValid(f);
  }

  /**
   * A form freshly reset after a save cannot be saved again as it is: plant,
   * equipment, description and time (0 h 0 min) all fail.
   */
  lemma ResetFormRejected(today: string, tecnico: string)
    ensures var errs := Validar(ResetForm(today, tecnico));
      && Planta in errs && Equipo in errs && Reporte in errs
      && Tiempo in errs && errs[Tiempo] == MsgTiempoCero
      && (Tecnico in errs <==> tecnico == "")
  {
    assert Trim("") == "";
  }

  /**
   * Nothing chosen, equipment and description too short, 0 h 0 min: every
   * one of the five fields gets its message.
   */
  lemma AllFieldsWrong(f: Form)
    requires f.tecnico == "" && f.planta == ""
    requires Utf16Length(f.equipo) < MinEquipo && Utf16Length(f.reporte) < MinReporte
    requires f.tiempoHoras == Some(0) && f.tiempoMinutos == Some(0)
    ensures forall k: Field :: k in Validar(f)
  {
    TrimUtf16Length(f.equipo);
    TrimUtf16Length(f.reporte);
    var errs := Validar(f);
    forall k: Field
      ensures k in errs
    {
      match k
      case Tecnico =>
      case Planta =>
      case Equipo =>
      case Reporte =>
      case Tiempo =>
    }
  }

  /**
   * Lengths are counted the way JavaScript counts them: two emoji outside the
   * Basic Multilingual Plane are four code units, enough for the equipment,
   * although they are only two characters.
   */
  lemma EquipoCountsCodeUnits(f: Form)
    requires f.equipo == "\U{1F600}\U{1F600}"
    ensures |f.equipo| == 2
    ensures Equipo !in Validar(f)
  {
    TrimKeepsTrimmed(f.equipo);
    assert f.equipo[1..][1..] == [];
  }
}
