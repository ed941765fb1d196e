/** The sensor screen of the desktop CRUD application: the text line each
    sensor is listed as, the parser that reads a selected line back into
    the form, the status combo decoder, the field checks made before a
    sensor is saved, and the loops that fill the station maps and the
    sensor list. The database is not modelled: what a query returns is a
    parameter, and what an insert stores is recorded in a list. Widgets are
    the fields of `AppCrud`. */
module IndexDb {
  import opened Wrappers
  import opened Text

  /** One row of the sensor listing query. The float columns (precision and
      the two range bounds) are kept as the text `str()` gives them, `None`
      included. */
  datatype SensorRow = SensorRow(
    id: int, tipo: string, unidad: string, precision: string,
    rangoMin: string, rangoMax: string, estado: int, estacionId: int, estacion: string)

  /** One `key=value` field of a listing line. */
  function Field(key: string, value: string): string
  {
    key + "=" + value
  }

  /** The keys of a listing line, in order. */
  const LineKeys: seq<string> := ["ID", "tipo", "unidad", "prec", "rango", "estado", "estacion_id"]

  /** The values of a listing line, in the order of `LineKeys`. */
  function LineValues(r: SensorRow): seq<string>
  {
    [IntToString(r.id), r.tipo, r.unidad, r.precision, "(" + r.rangoMin + "," + r.rangoMax + ")",
     IntToString(r.estado), IntToString(r.estacionId) + " (" + r.estacion + ")"]
  }

  /** The fields of a listing line, in order. */
  function Fields(r: SensorRow): seq<string>
  {
    var v := LineValues(r);
    [Field("ID", v[0]), Field("tipo", v[1]), Field("unidad", v[2]), Field("prec", v[3]),
     Field("rango", v[4]), Field("estado", v[5]), Field("estacion_id", v[6])]
  }

  /** A listing line: the fields separated by `" | "`. */
  function LoadLine(r: SensorRow): string
  {
    Join(Fields(r), " | ")
  }

  /** The segments splitting a `" | "`-joined line at `|` gives: each part
      with the blank on either side of its bars. */
  function Spaced(parts: seq<string>, lead: string): seq<string>
    requires |parts| >= 1
    decreases |parts|
  {
    if |parts| == 1 then [lead + parts[0]] else [lead + parts[0] + " "] + Spaced(parts[1..], " ")
  }

  lemma {:induction false} SplitSpaced(parts: seq<string>, lead: string)
    requires |parts| >= 1 && '|' !in lead
    requires forall i :: 0 <= i < |parts| ==> '|' !in parts[i]
    ensures Split(lead + Join(parts, " | "), '|') == Spaced(parts, lead)
    decreases |parts|
  {
    if |parts| == 1 {
      SplitNoSeparator(lead + parts[0], '|');
    } else {
      var j := Join(parts[1..], " | ");
      assert lead + Join(parts, " | ") == (lead + parts[0] + " ") + ['|'] + (" " + j);
      SplitAppend(lead + parts[0] + " ", " " + j, '|');
      SplitNoSeparator(lead + parts[0] + " ", '|');
      SplitSpaced(parts[1..], " ");
    }
  }

  lemma {:induction false} JoinLast(parts: seq<string>, sep: string)
    requires |parts| >= 2
    ensures Join(parts, sep) == Join(parts[..|parts| - 1], sep) + sep + parts[|parts| - 1]
    decreases |parts|
  {
    if |parts| > 2 {
      JoinLast(parts[1..], sep);
      assert parts[1..][..|parts| - 2] == parts[..|parts| - 1][1..];
    }
  }

  /** One key/value pair of the parser's dictionary, from one `|` segment:
      the segment is stripped and, when it holds a `=`, the key is the
      stripped text before the first `=` and the value the stripped text
      between the first and the second. */
  function SegmentEntry(seg: string): Option<(string, string)>
  {
    var kv := Strip(seg);
    if '=' in kv then
      SplitSeparator(kv, '=');
      var pieces := Split(kv, '=');
      Some((Strip(pieces[0]), Strip(pieces[1])))
    else None
  }

  /** The dictionary built from the segments in order: a later key
      overrides an earlier one. */
  function Entries(segs: seq<string>): map<string, string>
  {
    if segs == [] then map[]
    else
      var m := Entries(segs[..|segs| - 1]);
      var e := SegmentEntry(segs[|segs| - 1]);
      if e.Some? then m[e.value.0 := e.value.1] else m
  }

  /** The parser's dictionary of a listing line. */
  function ParseParts(line: string): map<string, string>
  {
    Entries(Split(line, '|'))
  }

  /** A key maps to the value of the last segment that carries it. */
  lemma {:induction false} EntriesLast(segs: seq<string>, i: nat, k: string, v: string)
    requires i < |segs| && SegmentEntry(segs[i]) == Some((k, v))
    requires forall j :: i < j < |segs| ==> SegmentEntry(segs[j]).None? || SegmentEntry(segs[j]).value.0 != k
    ensures k in Entries(segs) && Entries(segs)[k] == v
  {
    var init := segs[..|segs| - 1];
    if i < |segs| - 1 {
      assert init[i] == segs[i];
      forall j | i < j < |init| ensures SegmentEntry(init[j]).None? || SegmentEntry(init[j]).value.0 != k {
        assert init[j] == segs[j];
      }
      EntriesLast(init, i, k, v);
    }
  }

  /** With distinct keys, each segment's value is found under its key. */
  lemma EntriesDistinct(segs: seq<string>, keys: seq<string>, vals: seq<string>)
    requires |keys| == |segs| && |vals| == |segs|
    requires forall i :: 0 <= i < |segs| ==> SegmentEntry(segs[i]) == Some((keys[i], vals[i]))
    requires forall i, j :: 0 <= i < j < |keys| ==> keys[i] != keys[j]
    ensures forall i :: 0 <= i < |segs| ==> keys[i] in Entries(segs) && Entries(segs)[keys[i]] == vals[i]
  {
    forall i | 0 <= i < |segs| ensures keys[i] in Entries(segs) && Entries(segs)[keys[i]] == vals[i] {
      EntriesLast(segs, i, keys[i], vals[i]);
    }
  }

  /** The form fields `_on_select` writes. */
  datatype Form = Form(
    selectedId: Option<int>, tipo: string, unidad: string, precision: string,
    rmin: string, rmax: string, estadoIndex: int, estacion: string)

  /** The text of the range entry once its default, its surrounding blanks
      and its parentheses are gone. */
  function RangeText(parts: map<string, string>): string
  {
    StripParens(Strip(if "rango" in parts then parts["rango"] else "(,)"))
  }

  /** A line without a `rango` entry reads as two blank bounds, through the
      default `"(,)"`. */
  lemma RangeDefault(parts: map<string, string>)
    requires "rango" !in parts
    ensures Split(RangeText(parts), ',') == ["", ""]
  {
    StrippedFixed("(,)");
    StripByPadded("(", ",", ")", IsParen);
    assert "(" + "," + ")" == "(,)";
    assert Split(",", ',') == [""] + Split("", ',');
  }

  /** The station name: the text between the last `(` and the last `)` of
      the line, when it holds both. */
  function StationName(line: string): Option<string>
  {
    var open := RFind(line, '(');
    var close := RFind(line, ')');
    if open.Some? && close.Some? then Some(Slice(line, open.value + 1, close.value)) else None
  }

  /** `_on_select` on the selected line: each step writes its field, and
      the first step that raises (a missing key, a bad integer, a range that
      is not two comma-separated parts) skips all later ones while the
      earlier writes stay. */
  function ApplySelect(f: Form, line: string): Form
  {
    FillForm(f, ParseParts(line), StationName(line))
  }

  /** The steps up to the precision, on the parsed dictionary. */
  function FillForm(f: Form, parts: map<string, string>, name: Option<string>): Form
  {
    if "ID" !in parts || ParseInt(parts["ID"]).None? then f
    else
      var f1 := f.(selectedId := Some(ParseInt(parts["ID"]).value));
      if "tipo" !in parts then f1
      else
        var f2 := f1.(tipo := parts["tipo"]);
        if "unidad" !in parts then f2
        else
          var f3 := f2.(unidad := parts["unidad"]);
          if "prec" !in parts then f3.(precision := "")
          else FillRange(f3.(precision := parts["prec"]), parts, name)
  }

  /** The steps from the range on. */
  function FillRange(f: Form, parts: map<string, string>, name: Option<string>): Form
  {
    var bounds := Split(RangeText(parts), ',');
    if |bounds| != 2 then f
    else
      var f5 := f.(rmin := Strip(bounds[0]), rmax := Strip(bounds[1]));
      if "estado" !in parts then f5
      else
        var f6 := f5.(estadoIndex := if parts["estado"] == "1" then 0 else 1);
        if name.Some? then f6.(estacion := name.value) else f6
  }

  /** A value the listing can carry through the parser unchanged: no
      surrounding whitespace and none of the characters the line format
      uses as delimiters. */
  predicate CleanValue(s: string)
  {
    Stripped(s) && forall i :: 0 <= i < |s| ==> s[i] !in "|=(),"
  }

  /** A station name the parser can recover: no `|`, `=` or parenthesis. */
  predicate CleanName(s: string)
  {
    forall i :: 0 <= i < |s| ==> s[i] !in "|=()"
  }

  predicate CleanRow(r: SensorRow)
  {
    CleanValue(r.tipo) && CleanValue(r.unidad) && CleanValue(r.precision) &&
    CleanValue(r.rangoMin) && CleanValue(r.rangoMax) && CleanName(r.estacion)
  }

  /** The form a row's listing line should fill. */
  function RowForm(r: SensorRow): Form
  {
    Form(Some(r.id), r.tipo, r.unidad, r.precision, r.rangoMin, r.rangoMax,
      if r.estado == 1 then 0 else 1, r.estacion)
  }

  /** Reading back a line the listing wrote gives the row's own values, as
      long as they are clean. */
  lemma SelectRoundTrip(f: Form, r: SensorRow)
    requires CleanRow(r)
    ensures ApplySelect(f, LoadLine(r)) == RowForm(r)
  {
    var line := LoadLine(r);
    var parts := ParseParts(line);
    PartsOfLine(r);
    ParseIntToString(r.id);
    RangeOfLine(r);
    EstadoText(r.estado);
    StationOfLine(r);
  }

  lemma PartsOfLine(r: SensorRow)
    requires CleanRow(r)
    ensures var parts := ParseParts(LoadLine(r));
      "ID" in parts && parts["ID"] == IntToString(r.id) &&
      "tipo" in parts && parts["tipo"] == r.tipo &&
      "unidad" in parts && parts["unidad"] == r.unidad &&
      "prec" in parts && parts["prec"] == r.precision &&
      "rango" in parts && parts["rango"] == "(" + r.rangoMin + "," + r.rangoMax + ")" &&
      "estado" in parts && parts["estado"] == IntToString(r.estado)
  {
    var segs := LineSegments(r);
    var vals := LineValues(r);
    SegmentEntries(r, segs);
    KeysDistinct();
    EntriesDistinct(segs, LineKeys, vals);
  }

  lemma KeysDistinct()
    ensures forall i, j :: 0 <= i < j < |LineKeys| ==> LineKeys[i] != LineKeys[j]
  {
  }

  /** How a listing line splits at `|`. */
  lemma LineSegments(r: SensorRow) returns (segs: seq<string>)
    requires CleanRow(r)
    ensures Split(LoadLine(r), '|') == segs
    ensures segs == Spaced(Fields(r), "")
  {
    var fs := Fields(r);
    forall i | 0 <= i < |fs| ensures '|' !in fs[i] {
      FieldsNoBar(r, i);
    }
    assert "" + LoadLine(r) == LoadLine(r);
    SplitSpaced(fs, "");
    segs := Spaced(fs, "");
  }

  lemma FieldsNoBar(r: SensorRow, i: nat)
    requires CleanRow(r) && i < 7
    ensures '|' !in Fields(r)[i]
  {
    ValuesClean(r);
    FieldsKeyed(r);
    FieldNoBar(LineKeys[i], LineValues(r)[i]);
  }

  lemma FieldsKeyed(r: SensorRow)
    ensures |Fields(r)| == 7
    ensures forall i :: 0 <= i < 7 ==> Fields(r)[i] == Field(LineKeys[i], LineValues(r)[i]) && '|' !in LineKeys[i]
  {
  }

  lemma FieldNoBar(key: string, value: string)
    requires '|' !in key && '|' !in value
    ensures '|' !in Field(key, value)
  {
  }

  /** The text of an integer is clean. */
  lemma IntToStringClean(i: int)
    ensures CleanValue(IntToString(i))
  {
    var s := IntToString(i);
    var d := NatToString(if i < 0 then -i else i);
    assert forall j :: 0 <= j < |d| ==> IsDigit(d[j]);
    forall j | 0 <= j < |s| ensures s[j] !in "|=()," {
      if i < 0 {
        if j > 0 { assert s[j] == d[j - 1]; }
      } else {
        assert s[j] == d[j];
      }
    }
  }

  lemma SegmentEntries(r: SensorRow, segs: seq<string>)
    requires CleanRow(r) && segs == Spaced(Fields(r), "")
    ensures |segs| == 7
    ensures forall i :: 0 <= i < 7 ==> SegmentEntry(segs[i]) == Some((LineKeys[i], LineValues(r)[i]))
  {
    ValuesClean(r);
    FieldsKeyed(r);
    KeysPlain();
    var k := LineKeys;
    var v := LineValues(r);
    assert Fields(r) == [Field(k[0], v[0]), Field(k[1], v[1]), Field(k[2], v[2]), Field(k[3], v[3]),
      Field(k[4], v[4]), Field(k[5], v[5]), Field(k[6], v[6])];
    SevenEntries(k, v, segs);
  }

  lemma KeysPlain()
    ensures forall i :: 0 <= i < 7 ==> |LineKeys[i]| > 0 && Stripped(LineKeys[i]) && '=' !in LineKeys[i]
  {
  }

  lemma SevenEntries(k: seq<string>, v: seq<string>, segs: seq<string>)
    requires |k| == 7 && |v| == 7
    requires forall i :: 0 <= i < 7 ==> |k[i]| > 0 && Stripped(k[i]) && '=' !in k[i]
    requires forall i :: 0 <= i < 7 ==> Stripped(v[i]) && '=' !in v[i]
    requires segs == Spaced([Field(k[0], v[0]), Field(k[1], v[1]), Field(k[2], v[2]), Field(k[3], v[3]),
      Field(k[4], v[4]), Field(k[5], v[5]), Field(k[6], v[6])], "")
    ensures |segs| == 7
    ensures forall i :: 0 <= i < 7 ==> SegmentEntry(segs[i]) == Some((k[i], v[i]))
  {
    SpacedSeven(Field(k[0], v[0]), Field(k[1], v[1]), Field(k[2], v[2]), Field(k[3], v[3]),
      Field(k[4], v[4]), Field(k[5], v[5]), Field(k[6], v[6]));
    SegmentOf("", k[0], v[0], " ", segs[0]);
    SegmentOf(" ", k[1], v[1], " ", segs[1]);
    SegmentOf(" ", k[2], v[2], " ", segs[2]);
    SegmentOf(" ", k[3], v[3], " ", segs[3]);
    SegmentOf(" ", k[4], v[4], " ", segs[4]);
    SegmentOf(" ", k[5], v[5], " ", segs[5]);
    SegmentOf(" ", k[6], v[6], "", segs[6]);
  }

  lemma ValuesClean(r: SensorRow)
    requires CleanRow(r)
    ensures forall i :: 0 <= i < 7 ==> Stripped(LineValues(r)[i]) && '=' !in LineValues(r)[i] && '|' !in LineValues(r)[i]
  {
    IntToStringClean(r.id);
    IntToStringClean(r.estado);
    IntToStringClean(r.estacionId);
    RangeClean(r);
    StationClean(r);
  }

  lemma SpacedSeven(a: string, b: string, c: string, d: string, e: string, f: string, g: string)
    ensures Spaced([a, b, c, d, e, f, g], "") == ["" + a + " ", " " + b + " ", " " + c + " ", " " + d + " ",
      " " + e + " ", " " + f + " ", " " + g]
  {
    var s6 := Spaced([g], " ");
    assert s6 == [" " + g];
    var s5 := Spaced([f, g], " ");
    assert [f, g][1..] == [g];
    assert s5 == [" " + f + " "] + s6;
    assert [e, f, g][1..] == [f, g];
    var s4 := Spaced([e, f, g], " ");
    assert s4 == [" " + e + " "] + s5;
    assert [d, e, f, g][1..] == [e, f, g];
    var s3 := Spaced([d, e, f, g], " ");
    assert s3 == [" " + d + " "] + s4;
    assert [c, d, e, f, g][1..] == [d, e, f, g];
    var s2 := Spaced([c, d, e, f, g], " ");
    assert s2 == [" " + c + " "] + s3;
    assert [b, c, d, e, f, g][1..] == [c, d, e, f, g];
    var s1 := Spaced([b, c, d, e, f, g], " ");
    assert s1 == [" " + b + " "] + s2;
    assert [a, b, c, d, e, f, g][1..] == [b, c, d, e, f, g];
  }

  lemma StationClean(r: SensorRow)
    requires CleanRow(r) && CleanValue(IntToString(r.estacionId))
    ensures var v := IntToString(r.estacionId) + " (" + r.estacion + ")"; Stripped(v) && '=' !in v && '|' !in v
  {
  }

  lemma RangeClean(r: SensorRow)
    requires CleanRow(r)
    ensures var v := "(" + r.rangoMin + "," + r.rangoMax + ")"; Stripped(v) && '=' !in v && '|' !in v
  {
  }

  /** A segment `key=value` padded with blanks reads as `(key, value)`. */
  lemma SegmentOf(lead: string, key: string, value: string, tail: string, seg: string)
    requires lead == "" || lead == " "
    requires tail == "" || tail == " "
    requires seg == lead + Field(key, value) + tail
    requires |key| > 0 && Stripped(key) && '=' !in key
    requires Stripped(value) && '=' !in value
    ensures SegmentEntry(seg) == Some((key, value))
  {
    var kv := key + "=" + value;
    StripPadded(lead, kv, tail);
    assert Join([key, value], "=") == kv;
    SplitJoin([key, value], '=');
    assert '=' in kv by { assert kv[|key|] == '='; }
    StripPadded("", key, "");
    StripPadded("", value, "");
    assert "" + key + "" == key && "" + value + "" == value;
  }

  lemma RangeOfLine(r: SensorRow)
    requires CleanRow(r)
    ensures var bounds := Split(StripParens(Strip("(" + r.rangoMin + "," + r.rangoMax + ")")), ',');
      |bounds| == 2 && Strip(bounds[0]) == r.rangoMin && Strip(bounds[1]) == r.rangoMax
  {
    var lo, hi := r.rangoMin, r.rangoMax;
    var inner := lo + "," + hi;
    var text := "(" + lo + "," + hi + ")";
    assert text == "(" + inner + ")";
    assert text == "" + text + "";
    StripPadded("", text, "");
    assert inner[|lo|] == ',';
    StripByPadded("(", inner, ")", IsParen);
    assert StripParens(Strip(text)) == inner;
    assert Join([lo, hi], ",") == inner;
    SplitJoin([lo, hi], ',');
    StripPadded("", lo, "");
    StripPadded("", hi, "");
    assert "" + lo + "" == lo && "" + hi + "" == hi;
  }

  /** The state text is `"1"` exactly for state 1. */
  lemma EstadoText(e: int)
    ensures IntToString(e) == "1" <==> e == 1
  {
    ParseIntToString(e);
    ParseIntToString(1);
    assert IntToString(1) == "1";
  }

  lemma StationOfLine(r: SensorRow)
    requires CleanRow(r)
    ensures StationName(LoadLine(r)) == Some(r.estacion)
  {
    var fs := Fields(r);
    JoinLast(fs, " | ");
    assert fs[..6] == fs[..|fs| - 1];
    LastParens(Join(fs[..6], " | "), " | ", "estacion_id", IntToString(r.estacionId), r.estacion);
  }

  /** A line ending in `"(" + name + ")"` names `name` when `name` holds no
      parenthesis. */
  lemma LastParens(j: string, sep: string, key: string, mid: string, name: string)
    requires '(' !in name && ')' !in name
    ensures StationName(j + sep + Field(key, mid + " (" + name + ")")) == Some(name)
  {
    var line := j + sep + Field(key, mid + " (" + name + ")");
    var x := j + sep + key + "=" + mid + " ";
    assert line == x + ['('] + (name + ")");
    RFindLast(x, name + ")", '(');
    assert line == (x + "(" + name) + [')'] + "";
    RFindLast(x + "(" + name, "", ')');
    assert line[|x| + 1..|line| - 1] == name;
  }

  /** The choices of the status combo, in order. */
  const EstadoValues: seq<string> := ["Activo (1)", "Inactivo (0)"]

  /** The choices of the type and unit combos, in order. */
  const TipoValues: seq<string> := ["temperatura", "humedad", "precipitacion", "viento"]
  const UnidadValues: seq<string> := ["°C", "%", "mm", "km/h"]

  /** `_leer_estado_cb`: 1 when the combo text holds `Activo`, else 0. */
  function LeerEstado(sel: string): (r: int)
    ensures r == 0 || r == 1
  {
    if Contains(sel, "Activo") then 1 else 0
  }

  /** The combo's first choice reads as active and the second as inactive:
      "Inactivo" does not hold "Activo", whose capital A it lacks. */
  lemma LeerEstadoChoices(i: int)
    requires 0 <= i < |EstadoValues|
    ensures LeerEstado(EstadoValues[i]) == 1 - i
  {
    if i == 0 {
      assert "Activo" <= EstadoValues[0];
    } else {
      NotContains(EstadoValues[1], "Activo");
    }
  }

  lemma {:induction false} NotContains(s: string, sub: string)
    requires sub != [] && forall i :: 0 <= i < |s| ==> s[i] != sub[0]
    ensures !Contains(s, sub)
  {
    if s != [] {
      assert s[1..] == s[|s| - |s[1..]|..];
      forall i | 0 <= i < |s[1..]| ensures s[1..][i] != sub[0] {
        assert s[1..][i] == s[i + 1];
      }
      NotContains(s[1..], sub);
      assert !(sub <= s) by { assert s[0] != sub[0]; }
    }
  }

  /** Selecting a listed sensor and reading the status combo back gives 1
      exactly for an active sensor. */
  lemma EstadoRoundTrip(f: Form, r: SensorRow)
    requires CleanRow(r)
    ensures 0 <= ApplySelect(f, LoadLine(r)).estadoIndex < |EstadoValues|
    ensures LeerEstado(EstadoValues[ApplySelect(f, LoadLine(r)).estadoIndex]) == (if r.estado == 1 then 1 else 0)
  {
    SelectRoundTrip(f, r);
    LeerEstadoChoices(RowForm(r).estadoIndex);
  }

  function Pow10(n: nat): (r: nat)
    ensures r >= 1
  {
    if n == 0 then 1 else 10 * Pow10(n - 1)
  }

  /** `float(s)` on decimal text: surrounding whitespace, an optional sign,
      digits with at most one point and at least one digit; anything else
      raises `ValueError` (`None`). */
  function ParseDecimal(s: string): Option<real>
  {
    var t := Strip(s);
    var negative := |t| > 0 && t[0] == '-';
    var body := if |t| > 0 && (t[0] == '-' || t[0] == '+') then t[1..] else t;
    var pieces := Split(body, '.');
    if |pieces| > 2 then None
    else
      var whole := pieces[0];
      var frac := if |pieces| == 2 then pieces[1] else "";
      if |whole| + |frac| > 0 && AllDigits(whole) && AllDigits(frac) then
        var v := DigitsValue(whole) as real + DigitsValue(frac) as real / Pow10(|frac|) as real;
        Some(if negative then -v else v)
      else None
  }

  /** Every text `int()` accepts, `float()` accepts with the same value. */
  lemma ParseDecimalInt(s: string)
    requires ParseInt(s).Some?
    ensures ParseDecimal(s) == Some(ParseInt(s).value as real)
  {
    var t := Strip(s);
    var digits := if |t| > 0 && (t[0] == '-' || t[0] == '+') then t[1..] else t;
    assert forall i :: 0 <= i < |digits| ==> digits[i] != '.';
    SplitNoSeparator(digits, '.');
    assert AllDigits("");
  }

  /** Blank text is never a number. */
  lemma ParseDecimalBlank(s: string)
    requires Strip(s) == ""
    ensures ParseDecimal(s).None?
  {
  }

  /** Why a save is refused, in the order the checks run. */
  datatype SaveError = NumericFields | NoStation | MissingFields

  /** The row handed to the database by a save. */
  datatype NewSensor = NewSensor(
    tipo: string, unidad: string, precision: real, rangoMin: Option<real>, rangoMax: Option<real>,
    estado: int, estacionId: Option<int>)

  /** An optional range bound: blank means no bound, otherwise it must be a
      number. */
  function Bound(text: string): Option<Option<real>>
  {
    var t := Strip(text);
    if t == "" then Some(None)
    else
      var v := ParseDecimal(t);
      if v.Some? then Some(Some(v.value)) else None
  }

  /** The checks `_guardar` makes on the form before inserting: the numbers
      first (all parsed before anything else is looked at), then a station
      must be chosen, then type and unit must be non-blank. The station id
      is looked up by name and may be missing. */
  function SaveCheck(
    tipoText: string, unidadText: string, precisionText: string, rminText: string, rmaxText: string,
    estadoText: string, estacionText: string, stations: map<string, int>): (r: Result<NewSensor, SaveError>)
    ensures r == Err(NumericFields) <==>
      ParseDecimal(precisionText).None? || Bound(rminText).None? || Bound(rmaxText).None?
    ensures r == Err(NoStation) <==>
      ParseDecimal(precisionText).Some? && Bound(rminText).Some? && Bound(rmaxText).Some? && estacionText == ""
    ensures r == Err(MissingFields) <==>
      ParseDecimal(precisionText).Some? && Bound(rminText).Some? && Bound(rmaxText).Some? &&
      estacionText != "" && (Strip(tipoText) == "" || Strip(unidadText) == "")
    ensures r.Ok? <==>
      ParseDecimal(precisionText).Some? && Bound(rminText).Some? && Bound(rmaxText).Some? &&
      estacionText != "" && Strip(tipoText) != "" && Strip(unidadText) != ""
    ensures r.Ok? ==> r.value.tipo == Strip(tipoText) && r.value.unidad == Strip(unidadText)
    ensures r.Ok? ==> Some(r.value.precision) == ParseDecimal(precisionText)
    ensures r.Ok? ==> Some(r.value.rangoMin) == Bound(rminText) && Some(r.value.rangoMax) == Bound(rmaxText)
    ensures r.Ok? ==> r.value.estado == LeerEstado(estadoText)
    ensures r.Ok? ==> r.value.estacionId == (if estacionText in stations then Some(stations[estacionText]) else None)
  {
    var tipo := Strip(tipoText);
    var unidad := Strip(unidadText);
    var precision := ParseDecimal(precisionText);
    var rmin := Bound(rminText);
    var rmax := Bound(rmaxText);
    if precision.None? || rmin.None? || rmax.None? then Err(NumericFields)
    else if estacionText == "" then Err(NoStation)
    else
      var estacionId := if estacionText in stations then Some(stations[estacionText]) else None;
      if tipo == "" || unidad == "" then Err(MissingFields)
      else Ok(NewSensor(tipo, unidad, precision.value, rmin.value, rmax.value, LeerEstado(estadoText), estacionId))
  }

  /** A station as the listing query returns it: id and name. */
  type Station = (int, string)

  /** The name of the station created when the table is empty. */
  const DefaultStation: string := "Estación Centro"

  function Names(estaciones: seq<Station>): (r: seq<string>)
    ensures |r| == |estaciones|
    ensures forall i :: 0 <= i < |r| ==> r[i] == estaciones[i].1
  {
    if estaciones == [] then [] else Names(estaciones[..|estaciones| - 1]) + [estaciones[|estaciones| - 1].1]
  }

  /** `_estaciones_map` after the loop: name to id, a later station
      overriding an earlier one of the same name. */
  function NameMap(estaciones: seq<Station>): map<string, int>
  {
    if estaciones == [] then map[]
    else
      var last := estaciones[|estaciones| - 1];
      NameMap(estaciones[..|estaciones| - 1])[last.1 := last.0]
  }

  /** `_estaciones_rev` after the loop: id to name. */
  function IdMap(estaciones: seq<Station>): map<int, string>
  {
    if estaciones == [] then map[]
    else
      var last := estaciones[|estaciones| - 1];
      IdMap(estaciones[..|estaciones| - 1])[last.0 := last.1]
  }

  /** Every listed name, and only those, can be looked up. */
  lemma {:induction false} NameMapDomain(estaciones: seq<Station>, name: string)
    ensures name in NameMap(estaciones) <==> exists i :: 0 <= i < |estaciones| && estaciones[i].1 == name
  {
    if estaciones != [] {
      var init := estaciones[..|estaciones| - 1];
      NameMapDomain(init, name);
      if exists i :: 0 <= i < |init| && init[i].1 == name {
        var i :| 0 <= i < |init| && init[i].1 == name;
        assert estaciones[i] == init[i];
      }
      if exists i :: 0 <= i < |estaciones| && estaciones[i].1 == name {
        var i :| 0 <= i < |estaciones| && estaciones[i].1 == name;
        if i < |init| {
          assert init[i] == estaciones[i];
        }
      }
    }
  }

  /** A name maps to the id of the last station listed under it. */
  lemma {:induction false} NameMapLast(estaciones: seq<Station>, i: nat)
    requires i < |estaciones|
    requires forall j :: i < j < |estaciones| ==> estaciones[j].1 != estaciones[i].1
    ensures estaciones[i].1 in NameMap(estaciones) && NameMap(estaciones)[estaciones[i].1] == estaciones[i].0
  {
    var init := estaciones[..|estaciones| - 1];
    if i < |init| {
      assert init[i] == estaciones[i];
      forall j | i < j < |init| ensures init[j].1 != init[i].1 {
        assert init[j] == estaciones[j];
      }
      NameMapLast(init, i);
    }
  }

  /** An id maps to the name it was listed with, ids being unique. */
  lemma {:induction false} IdMapListed(estaciones: seq<Station>, i: nat)
    requires i < |estaciones|
    requires forall j, k :: 0 <= j < k < |estaciones| ==> estaciones[j].0 != estaciones[k].0
    ensures estaciones[i].0 in IdMap(estaciones) && IdMap(estaciones)[estaciones[i].0] == estaciones[i].1
  {
    var init := estaciones[..|estaciones| - 1];
    if i < |init| {
      assert init[i] == estaciones[i];
      forall j, k | 0 <= j < k < |init| ensures init[j].0 != init[k].0 {
        assert init[j] == estaciones[j] && init[k] == estaciones[k];
      }
      IdMapListed(init, i);
    }
  }

  /** With unique ids, looking a name up and then its id gives the name
      back: the two maps agree. */
  lemma MapsAgree(estaciones: seq<Station>, name: string)
    requires forall j, k :: 0 <= j < k < |estaciones| ==> estaciones[j].0 != estaciones[k].0
    requires name in NameMap(estaciones)
    ensures NameMap(estaciones)[name] in IdMap(estaciones) && IdMap(estaciones)[NameMap(estaciones)[name]] == name
  {
    NameMapDomain(estaciones, name);
    var i :| 0 <= i < |estaciones| && estaciones[i].1 == name;
    while exists j :: i < j < |estaciones| && estaciones[j].1 == name
      invariant 0 <= i < |estaciones| && estaciones[i].1 == name
      decreases |estaciones| - i
    {
      var j :| i < j < |estaciones| && estaciones[j].1 == name;
      i := j;
    }
    NameMapLast(estaciones, i);
    IdMapListed(estaciones, i);
  }

  /** The lines `_load_sensores` lists, one per row in order. */
  function Listing(rows: seq<SensorRow>): (r: seq<string>)
    ensures |r| == |rows|
    ensures forall i :: 0 <= i < |rows| ==> r[i] == LoadLine(rows[i])
  {
    seq(|rows|, i requires 0 <= i < |rows| => LoadLine(rows[i]))
  }

  lemma ListingStep(rows: seq<SensorRow>, k: nat)
    requires k < |rows|
    ensures Listing(rows[..k + 1]) == Listing(rows[..k]) + [LoadLine(rows[k])]
  {
    assert rows[..k + 1][..k] == rows[..k];
  }

  lemma StationsStep(es: seq<Station>, k: nat)
    requires k < |es|
    ensures Names(es[..k + 1]) == Names(es[..k]) + [es[k].1]
    ensures NameMap(es[..k + 1]) == NameMap(es[..k])[es[k].1 := es[k].0]
    ensures IdMap(es[..k + 1]) == IdMap(es[..k])[es[k].0 := es[k].1]
  {
    assert es[..k + 1][..k] == es[..k];
  }

  /** What the status bar says: ready at start, then the number of
      sensors the last load listed. */
  datatype Status = Ready | Loaded(count: nat)

  function StatusText(st: Status): string
  {
    match st
    case Ready => "Listo"
    case Loaded(count) => "Sensores cargados: " + NatToString(count)
  }

  /** The count in the status text reads back as the number of rows. */
  lemma LoadedStatusCount(count: nat)
    ensures ParseInt(StatusText(Loaded(count))[|"Sensores cargados: "|..]) == Some(count)
  {
    assert StatusText(Loaded(count))[|"Sensores cargados: "|..] == NatToString(count);
    ParseIntToString(count);
  }

  /** The message boxes the screen shows. */
  datatype Dialog = ShowError(text: string) | ShowInfo(text: string)

  function SaveErrorText(e: SaveError): string
  {
    match e
    case NumericFields => "Revise los campos numéricos (precisión, rangos)."
    case NoStation => "Seleccione una estación."
    case MissingFields => "Tipo y unidad son obligatorios."
  }

  const SavedText: string := "Sensor guardado."

  /** The form `_limpiar` leaves: no selection, the first type, unit and
      status choices, blank numbers, and the first station when there is
      one. */
  function ClearedForm(estacionValues: seq<string>, estacion: string): Form
  {
    Form(None, TipoValues[0], UnidadValues[0], "", "", "", 0,
      if estacionValues != [] then estacionValues[0] else estacion)
  }

  /** Saving a cleared form is refused for its blank precision. */
  lemma ClearedFormRefused(estacionValues: seq<string>, estacion: string, stations: map<string, int>)
    ensures var g := ClearedForm(estacionValues, estacion);
      SaveCheck(g.tipo, g.unidad, g.precision, g.rmin, g.rmax, EstadoValues[g.estadoIndex], g.estacion, stations)
        == Err(NumericFields)
  {
    ParseDecimalBlank("");
  }

  /** Selecting a listed sensor and saving the form again hands over that
      sensor's own type, unit and state, and the id its station name has. */
  lemma SelectThenSave(f: Form, r: SensorRow, stations: map<string, int>)
    requires CleanRow(r) && r.tipo != "" && r.unidad != "" && r.estacion != ""
    requires ParseDecimal(r.precision).Some? && Bound(r.rangoMin).Some? && Bound(r.rangoMax).Some?
    ensures var g := ApplySelect(f, LoadLine(r));
      0 <= g.estadoIndex < |EstadoValues| &&
      var c := SaveCheck(g.tipo, g.unidad, g.precision, g.rmin, g.rmax, EstadoValues[g.estadoIndex], g.estacion, stations);
      c.Ok? && c.value.tipo == r.tipo && c.value.unidad == r.unidad &&
      Some(c.value.precision) == ParseDecimal(r.precision) &&
      c.value.estado == (if r.estado == 1 then 1 else 0) &&
      c.value.estacionId == (if r.estacion in stations then Some(stations[r.estacion]) else None)
  {
    SelectRoundTrip(f, r);
    var g := RowForm(r);
    LeerEstadoChoices(g.estadoIndex);
    StrippedFixed(r.tipo);
    StrippedFixed(r.unidad);
    var c := SaveCheck(g.tipo, g.unidad, g.precision, g.rmin, g.rmax, EstadoValues[g.estadoIndex], g.estacion, stations);
    assert c.Ok?;
  }

  lemma StrippedFixed(s: string)
    requires Stripped(s)
    ensures Strip(s) == s
  {
    StripPadded("", s, "");
    assert "" + s + "" == s;
  }

  /** A sensor stored without a range is listed as `rango=(None,None)`:
      selecting it puts `None` in the range entries, and saving that form
      is refused as a bad number. */
  lemma NoRangeNotResavable(f: Form, r: SensorRow, stations: map<string, int>)
    requires CleanRow(r) && r.rangoMin == "None"
    ensures var g := ApplySelect(f, LoadLine(r));
      0 <= g.estadoIndex < |EstadoValues| &&
      SaveCheck(g.tipo, g.unidad, g.precision, g.rmin, g.rmax, EstadoValues[g.estadoIndex], g.estacion, stations)
        == Err(NumericFields)
  {
    SelectRoundTrip(f, r);
    StripPadded("", "None", "");
    assert "" + "None" + "" == "None";
    SplitNoSeparator("None", '.');
    assert !IsDigit("None"[0]);
  }

  /** The sensor screen: the form's widgets, the station combo and its
      maps, the sensor list and the status bar, plus what was handed to the
      database and the message boxes shown. */
  class AppCrud {
    var tipoText: string
    var unidadText: string
    var precisionText: string
    var rminText: string
    var rmaxText: string
    var estadoIndex: int
    var estacionText: string
    var estacionValues: seq<string>
    var estacionesMap: map<string, int>
    var estacionesRev: map<int, string>
    var selectedId: Option<int>
    var sensorList: seq<string>
    var selection: Option<nat>
    var status: Status
    var createdStations: seq<string>
    var inserted: seq<NewSensor>
    var dialogs: seq<Dialog>

    ghost predicate Valid()
      reads this
    {
      0 <= estadoIndex < |EstadoValues| && (selection.Some? ==> selection.value < |sensorList|)
    }

    /** The form fields as one value. */
    function FormState(): Form
      reads this
    {
      Form(selectedId, tipoText, unidadText, precisionText, rminText, rmaxText, estadoIndex, estacionText)
    }

    /** Builds the widgets, then loads the stations and the sensors. The
        stations listed at start are `listed`; when there are none, the
        default station is created and `relisted` is what the second
        listing returns. */
    constructor (listed: seq<Station>, relisted: seq<Station>, rows: seq<SensorRow>)
      ensures Valid()
      ensures var es := if listed == [] then relisted else listed;
        estacionValues == Names(es) && estacionesMap == NameMap(es) && estacionesRev == IdMap(es) &&
        createdStations == (if listed == [] then [DefaultStation] else [])
      ensures sensorList == Listing(rows) && status == Loaded(|rows|) && selection == None
      ensures tipoText == TipoValues[0] && unidadText == UnidadValues[0] && estadoIndex == 0 && selectedId == None
      ensures precisionText == "" && rminText == "" && rmaxText == ""
      ensures var es := if listed == [] then relisted else listed;
        estacionText == (if es != [] then es[0].1 else "")
      ensures inserted == [] && dialogs == []
    {
      tipoText := TipoValues[0];
      unidadText := UnidadValues[0];
      precisionText := "";
      rminText := "";
      rmaxText := "";
      estadoIndex := 0;
      estacionText := "";
      estacionValues := [];
      estacionesMap := map[];
      estacionesRev := map[];
      selectedId := None;
      sensorList := [];
      selection := None;
      status := Ready;
      createdStations := [];
      inserted := [];
      dialogs := [];
      new;
      LoadEstaciones(listed, relisted);
      assert inserted == [] && dialogs == [] && estadoIndex == 0;
      LoadSensores(rows);
      assert inserted == [] && dialogs == [] && estadoIndex == 0;
    }

    /** `_load_estaciones` */
    method LoadEstaciones(listed: seq<Station>, relisted: seq<Station>)
      modifies this`estacionValues, this`estacionesMap, this`estacionesRev, this`estacionText, this`createdStations
      ensures var es := if listed == [] then relisted else listed;
        estacionValues == Names(es) && estacionesMap == NameMap(es) && estacionesRev == IdMap(es) &&
        estacionText == (if es != [] then es[0].1 else old(estacionText))
      ensures createdStations == old(createdStations) + (if listed == [] then [DefaultStation] else [])
    {
      var es := listed;
      if listed == [] {
        createdStations := createdStations + [DefaultStation];
        es := relisted;
      }
      var nombres: seq<string> := [];
      estacionesMap := map[];
      estacionesRev := map[];
      var k := 0;
      while k < |es|
        invariant 0 <= k <= |es|
        invariant nombres == Names(es[..k])
        invariant estacionesMap == NameMap(es[..k]) && estacionesRev == IdMap(es[..k])
        invariant estacionText == old(estacionText) && createdStations == old(createdStations) + (if listed == [] then [DefaultStation] else [])
      {
        var (eid, nombre) := es[k];
        StationsStep(es, k);
        nombres := nombres + [nombre];
        estacionesMap := estacionesMap[nombre := eid];
        estacionesRev := estacionesRev[eid := nombre];
        k := k + 1;
      }
      assert es[..k] == es;
      estacionValues := nombres;
      if nombres != [] {
        estacionText := nombres[0];
      }
    }

    /** `_load_sensores`: the list is emptied, which also drops the
        selection, then refilled from the query's rows. */
    method LoadSensores(rows: seq<SensorRow>)
      modifies this`sensorList, this`selection, this`status
      ensures sensorList == Listing(rows) && selection == None && status == Loaded(|rows|)
    {
      sensorList := [];
      selection := None;
      var k := 0;
      while k < |rows|
        invariant 0 <= k <= |rows|
        invariant sensorList == Listing(rows[..k]) && selection == None
      {
        ListingStep(rows, k);
        sensorList := sensorList + [LoadLine(rows[k])];
        k := k + 1;
      }
      assert rows[..k] == rows;
      status := Loaded(|rows|);
    }

    /** `_leer_estado_cb` */
    method LeerEstadoCb() returns (estado: int)
      requires Valid()
      ensures estado == LeerEstado(EstadoValues[estadoIndex]) && estado == 1 - estadoIndex
    {
      LeerEstadoChoices(estadoIndex);
      estado := LeerEstado(EstadoValues[estadoIndex]);
    }

    /** `_limpiar` */
    method Limpiar()
      modifies this`selectedId, this`tipoText, this`unidadText, this`precisionText, this`rminText,
        this`rmaxText, this`estadoIndex, this`estacionText, this`selection
      ensures FormState() == ClearedForm(estacionValues, old(estacionText)) && selection == None
    {
      selectedId := None;
      tipoText := TipoValues[0];
      unidadText := UnidadValues[0];
      precisionText := "";
      rminText := "";
      rmaxText := "";
      estadoIndex := 0;
      if estacionValues != [] {
        estacionText := estacionValues[0];
      }
      selection := None;
    }

    /** `_on_select`: nothing happens without a selection; otherwise the
        selected line is parsed and the form filled step by step, a failing
        step ending the handler with the earlier steps kept. */
    method OnSelect()
      requires Valid()
      modifies this`selectedId, this`tipoText, this`unidadText, this`precisionText, this`rminText,
        this`rmaxText, this`estadoIndex, this`estacionText
      ensures Valid()
      ensures selection.None? ==> FormState() == old(FormState())
      ensures selection.Some? ==> FormState() == ApplySelect(old(FormState()), sensorList[selection.value])
    {
      if selection.None? {
        return;
      }
      var line := sensorList[selection.value];
      var parts := ParseParts(line);
      if "ID" !in parts {
        return;
      }
      var id := ParseInt(parts["ID"]);
      if id.None? {
        return;
      }
      selectedId := Some(id.value);
      if "tipo" !in parts {
        return;
      }
      tipoText := parts["tipo"];
      if "unidad" !in parts {
        return;
      }
      unidadText := parts["unidad"];
      precisionText := "";
      if "prec" !in parts {
        return;
      }
      precisionText := parts["prec"];
      FillRangeFields(line, parts);
    }

    /** The range, status and station steps of `_on_select`. */
    method FillRangeFields(line: string, parts: map<string, string>)
      requires 0 <= estadoIndex < |EstadoValues|
      modifies this`rminText, this`rmaxText, this`estadoIndex, this`estacionText
      ensures 0 <= estadoIndex < |EstadoValues|
      ensures FormState() == FillRange(old(FormState()), parts, StationName(line))
    {
      var bounds := Split(RangeText(parts), ',');
      if |bounds| != 2 {
        return;
      }
      rminText := Strip(bounds[0]);
      rmaxText := Strip(bounds[1]);
      if "estado" !in parts {
        return;
      }
      estadoIndex := if parts["estado"] == "1" then 0 else 1;
      var name := StationName(line);
      if name.Some? {
        estacionText := name.value;
      }
    }

    /** What a save of the current form would hand over, or why it would
        be refused. */
    function PendingSave(): Result<NewSensor, SaveError>
      requires Valid()
      reads this
    {
      SaveCheck(tipoText, unidadText, precisionText, rminText, rmaxText,
        EstadoValues[estadoIndex], estacionText, estacionesMap)
    }

    /** The reading and checking part of `_guardar`: the numbers are
        parsed (any `ValueError` refuses the save), then the station and the
        required fields are checked and the station id looked up. */
    method ReadForm() returns (outcome: Result<NewSensor, SaveError>)
      requires Valid()
      ensures outcome == PendingSave()
    {
      ghost var expected := SaveCheck(tipoText, unidadText, precisionText, rminText, rmaxText,
        EstadoValues[estadoIndex], estacionText, estacionesMap);
      var tipo := Strip(tipoText);
      var unidad := Strip(unidadText);
      var precision := ParseDecimal(precisionText);
      if precision.None? {
        assert expected == Err(NumericFields);
        return Err(NumericFields);
      }
      var rmin := Bound(rminText);
      var rmax := Bound(rmaxText);
      if rmin.None? || rmax.None? {
        assert expected == Err(NumericFields);
        return Err(NumericFields);
      }
      var estado := LeerEstadoCb();
      if estacionText == "" {
        assert expected == Err(NoStation);
        return Err(NoStation);
      }
      var estacionId := if estacionText in estacionesMap then Some(estacionesMap[estacionText]) else None;
      if tipo == "" || unidad == "" {
        assert expected == Err(MissingFields);
        return Err(MissingFields);
      }
      outcome := Ok(NewSensor(tipo, unidad, precision.value, rmin.value, rmax.value, estado, estacionId));
    }

    /** `_guardar`: a refusal shows its message and changes nothing else; a
        save inserts the row, clears the form and reloads the list from
        `reloaded`, the rows the listing query then returns. */
    method Guardar(reloaded: seq<SensorRow>)
      requires Valid()
      modifies this`selectedId, this`tipoText, this`unidadText, this`precisionText, this`rminText,
        this`rmaxText, this`estadoIndex, this`estacionText, this`selection, this`sensorList, this`status,
        this`inserted, this`dialogs
      ensures Valid()
      ensures var c := old(PendingSave());
        if c.Err? then
          dialogs == old(dialogs) + [ShowError(SaveErrorText(c.error))] && inserted == old(inserted) &&
          FormState() == old(FormState()) && selection == old(selection) &&
          sensorList == old(sensorList) && status == old(status)
        else
          dialogs == old(dialogs) + [ShowInfo(SavedText)] && inserted == old(inserted) + [c.value] &&
          FormState() == ClearedForm(estacionValues, old(estacionText)) &&
          sensorList == Listing(reloaded) && selection == None && status == Loaded(|reloaded|)
    {
      var outcome := ReadForm();
      if outcome.Err? {
        dialogs := dialogs + [ShowError(SaveErrorText(outcome.error))];
        return;
      }
      Commit(outcome.value, reloaded);
    }

    /** The success path of `_guardar`: the row is inserted, the success
        message shown, the form cleared and the list reloaded. */
    method Commit(row: NewSensor, reloaded: seq<SensorRow>)
      modifies this`selectedId, this`tipoText, this`unidadText, this`precisionText, this`rminText,
        this`rmaxText, this`estadoIndex, this`estacionText, this`selection, this`sensorList, this`status,
        this`inserted, this`dialogs
      ensures Valid()
      ensures dialogs == old(dialogs) + [ShowInfo(SavedText)] && inserted == old(inserted) + [row]
      ensures FormState() == ClearedForm(estacionValues, old(estacionText))
      ensures sensorList == Listing(reloaded) && selection == None && status == Loaded(|reloaded|)
    {
      inserted := inserted + [row];
      dialogs := dialogs + [ShowInfo(SavedText)];
      Limpiar();
      LoadSensores(reloaded);
    }
  }
}
