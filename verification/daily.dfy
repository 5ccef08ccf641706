/**
 * The day's list of saved reports: its total time (`calcularTiempoTotal`)
 * and the text of the message that sends it (`generarMensajeWhatsApp`,
 * before URI encoding).
 */
module Daily {
  import opened Wrappers
  import opened Text
  import opened TimeCodec
  import opened Reports

  // ---------------------------------------------------------------------------
  // Total time

  /** The sum of `tiempo` over the list, in half hours. */
  function Total(rs: seq<Report>): nat {
    if rs == [] then 0 else rs[0].tiempo + Total(rs[1..])
  }

  /** Adding a report at the end adds exactly its time to the total. */
  lemma {:induction false} TotalAppend(rs: seq<Report>, r: Report)
    ensures Total(rs + [r]) == Total(rs) + r.tiempo
    decreases |rs|
  {
    if rs == [] {
      assert rs + [r] == [r];
    } else {
      assert (rs + [r])[1..] == rs[1..] + [r];
      TotalAppend(rs[1..], r);
    }
  }

  /** The total of two lists one after the other is the sum of their totals. */
  lemma {:induction false} TotalConcat(a: seq<Report>, b: seq<Report>)
    ensures Total(a + b) == Total(a) + Total(b)
    decreases |a|
  {
    if a == [] {
      assert a + b == b;
    } else {
      assert (a + b)[1..] == a[1..] + b;
      TotalConcat(a[1..], b);
    }
  }

  /** Every report's time is part of the total. */
  lemma {:induction false} TotalBoundsEach(rs: seq<Report>, i: nat)
    requires i < |rs|
    ensures rs[i].tiempo <= Total(rs)
    decreases i
  {
    if i > 0 {
      TotalBoundsEach(rs[1..], i - 1);
    }
  }

  /**
   * `calcularTiempoTotal()`: `reduce((total, r) => total + r.tiempo, 0)` —
   * left to right from 0, which is the sum of the times (0 on an empty list).
   */
  method CalcularTiempoTotal(rs: seq<Report>) returns (total: nat)
    ensures total == Total(rs)
    ensures rs == [] ==> total == 0
  {
    total := 0;
    var i := 0;
    while i < |rs|
      invariant 0 <= i <= |rs|
      invariant total == Total(rs[..i])
    {
      assert rs[..i + 1] == rs[..i] + [rs[i]];
      TotalAppend(rs[..i], rs[i]);
      total := total + rs[i].tiempo;
      i := i + 1;
    }
    assert rs[..i] == rs;
  }

  // ---------------------------------------------------------------------------
  // Message text

  /** The first header line with the date, and the label in front of the formatted total. */
  function TotalLabel(fecha: string): string {
    "Reporte " + fecha + "\nTiempo total: "
  }

  /** The two header lines and the blank line after them. */
  function Header(fecha: string, total: nat): string {
    TotalLabel(fecha) + FormatTime(total) + "\n\n"
  }

  /** `- {reporte} ({planta}) - {time}` and a line break, for one report. */
  function Line(r: Report): string {
    "- " + r.form.reporte + " (" + r.form.planta + ") - " + FormatTime(r.tiempo) + "\n"
  }

  /** The pieces one after the other, appended left to right. */
  function Join(parts: seq<string>): string {
    if parts == [] then "" else Join(parts[..|parts| - 1]) + parts[|parts| - 1]
  }

  /** The report lines in list order (one `forEach` step each). */
  function LineTexts(rs: seq<Report>): (ls: seq<string>)
    ensures |ls| == |rs|
    ensures forall i :: 0 <= i < |rs| ==> ls[i] == Line(rs[i])
  {
    seq(|rs|, i requires 0 <= i < |rs| => Line(rs[i]))
  }

  /** The message body: the report lines appended one by one in list order. */
  function Lines(rs: seq<Report>): string {
    Join(LineTexts(rs))
  }

  /** The closing section, present only when there is a note. */
  function NovedadesSection(novedad: string): string {
    if novedad != "" then "\nNovedades:\n" + novedad else ""
  }

  /** `generarMensajeWhatsApp()` before `encodeURIComponent`. */
  function GenerarMensaje(fecha: string, rs: seq<Report>, novedad: string): string {
    Header(fecha, Total(rs)) + Lines(rs) + NovedadesSection(novedad)
  }

  /** Joining two lists of pieces is joining each and appending the results. */
  lemma {:induction false} JoinConcat(a: seq<string>, b: seq<string>)
    ensures Join(a + b) == Join(a) + Join(b)
    decreases |b|
  {
    if b == [] {
      assert a + b == a;
    } else {
      var c := a + b;
      var b' := b[..|b| - 1];
      assert c[..|c| - 1] == a + b';
      assert c[|c| - 1] == b[|b| - 1];
      JoinConcat(a, b');
    }
  }

  lemma JoinOne(x: string)
    ensures Join([x]) == x
  {
    assert [x][..0] == [];
  }

  /** The lines of two lists one after the other are the lines of each, in that order. */
  lemma LinesConcat(a: seq<Report>, b: seq<Report>)
    ensures Lines(a + b) == Lines(a) + Lines(b)
  {
    assert LineTexts(a + b) == LineTexts(a) + LineTexts(b);
    JoinConcat(LineTexts(a), LineTexts(b));
  }

  /** The lines of a list are those before report `i`, its own line, and those after it. */
  lemma LinesSplit(rs: seq<Report>, i: nat)
    requires i < |rs|
    ensures Lines(rs) == Lines(rs[..i]) + Line(rs[i]) + Lines(rs[i + 1..])
  {
    assert rs == rs[..i] + [rs[i]] + rs[i + 1..];
    LinesConcat(rs[..i] + [rs[i]], rs[i + 1..]);
    LinesConcat(rs[..i], [rs[i]]);
    assert LineTexts([rs[i]]) == [Line(rs[i])];
    JoinOne(Line(rs[i]));
  }

  lemma Rebracket(a: string, b: string, c: string, d: string)
    ensures a + b + c + d == a + (b + c + d)
  {
  }

  lemma Regroup(a: string, b: string, c: string, d: string, e: string)
    ensures a + (b + c + d) + e == (a + b) + c + (d + e)
  {
  }

  /** Of three appended strings, the first is the prefix and the middle one sits right after it. */
  lemma MiddleOfThree(x: string, y: string, z: string)
    ensures |x| + |y| <= |x + y + z| && (x + y + z)[..|x|] == x && (x + y + z)[|x|..|x| + |y|] == y
  {
  }

  /**
   * Report `i` has its own line in the message, right after the lines of the
   * reports before it: one line per report, in list order.
   */
  lemma MessageHasLine(fecha: string, rs: seq<Report>, novedad: string, i: nat)
    requires i < |rs|
    ensures var m := GenerarMensaje(fecha, rs, novedad);
      var p := |Header(fecha, Total(rs))| + |Lines(rs[..i])|;
      p + |Line(rs[i])| <= |m| && m[p..p + |Line(rs[i])|] == Line(rs[i])
  {
    var h := Header(fecha, Total(rs));
    var rest := rs[i + 1..];
    LinesSplit(rs, i);
    var x, y, z := h + Lines(rs[..i]), Line(rs[i]), Lines(rest) + NovedadesSection(novedad);
    Regroup(h, Lines(rs[..i]), Line(rs[i]), Lines(rest), NovedadesSection(novedad));
    MiddleOfThree(x, y, z);
  }

  /**
   * The header shows the date and the total: the message opens with
   * `Reporte {fecha}` and the total's label, and the text after the label
   * reads back as the sum of the times.
   */
  lemma MessageShowsTotal(fecha: string, rs: seq<Report>, novedad: string)
    ensures var m := GenerarMensaje(fecha, rs, novedad);
      var p := |TotalLabel(fecha)|;
      var q := p + |FormatTime(Total(rs))|;
      && q <= |m|
      && m[..p] == TotalLabel(fecha)
      && ParseTime(m[p..q]) == Some(Total(rs))
  {
    var x, y := TotalLabel(fecha), FormatTime(Total(rs));
    var w, l, n := "\n\n", Lines(rs), NovedadesSection(novedad);
    var m := GenerarMensaje(fecha, rs, novedad);
    assert m == x + y + w + l + n;
    Rebracket(x + y, w, l, n);
    MiddleOfThree(x, y, w + l + n);
    FormatTimeReadsBack(Total(rs));
  }

  /**
   * The note only ever adds a closing section: without a note the message
   * stops after the last report line; with one it is the note-less message
   * followed by `Novedades:` and the note.
   */
  lemma MessageNovedades(fecha: string, rs: seq<Report>, novedad: string)
    ensures novedad == "" ==> GenerarMensaje(fecha, rs, novedad) == Header(fecha, Total(rs)) + Lines(rs)
    ensures novedad != "" ==>
      GenerarMensaje(fecha, rs, novedad) == GenerarMensaje(fecha, rs, "") + "\nNovedades:\n" + novedad
  {
  }
}
