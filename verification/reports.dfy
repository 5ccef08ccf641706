/**
 * The records the daily-report screen works on: the form being filled in
 * and the reports already saved today.
 */
module Reports {
  import opened Wrappers

  /**
   * The form. The hour and minute fields hold the value `Number()` reads from
   * the two drop-downs (`"00"`..`"23"` and `"00"`/`"30"`); None stands for NaN.
   */
  datatype Form = Form(
    fechaReporte: string,
    tecnico: string,
    planta: string,
    equipo: string,
    reporte: string,
    tiempoHoras: Option<int>,
    tiempoMinutos: Option<int>,
    terminado: bool
  )

  /**
   * A saved report: every field of the form it was made from, plus `tiempo`,
   * its duration in half hours.
   */
  datatype Report = Report(form: Form, tiempo: nat)

  /**
   * The form as the screen puts it back after a save or a send: today's date,
   * the technician kept, every other field at its default (`"00"` hours and minutes).
   */
  function ResetForm(today: string, tecnico: string): (f: Form)
    ensures f.fechaReporte == today && f.tecnico == tecnico
    ensures f.planta == "" && f.equipo == "" && f.reporte == ""
    ensures f.tiempoHoras == Some(0) && f.tiempoMinutos == Some(0)
    ensures !f.terminado
  {
    Form(today, tecnico, "", "", "", Some(0), Some(0), false)
  }
}
