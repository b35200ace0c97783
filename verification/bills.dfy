/**
 * Bills ("recibos") and their charge dates ("fechas_cargo"): the query
 * built from the search filters, the checks and normalisation of a bill
 * before it is written, and the decision whether deleting charges deletes
 * the bill itself.
 *
 * Request values keep their JavaScript kind: `undefined`, `null`, booleans,
 * numbers (integers here) and strings. Query text is a sequence of pieces,
 * fixed SQL words or a `?` placeholder, so that the parameters can be
 * matched with the placeholders.
 */
module Bills {
  import opened Common
  import opened Text

  datatype Value = Undefined | Null | Bool(b: bool) | Num(n: int) | Str(s: string)

  /** JavaScript truthiness (`NaN` is not modelled). */
  predicate Truthy(v: Value)
  {
    match v
    case Undefined => false
    case Null => false
    case Bool(b) => b
    case Num(n) => n != 0
    case Str(s) => s != ""
  }

  /** The errors the operations throw; `Message` gives their text. */
  datatype Error =
    | InvalidFilter(key: string)
    | NotText
    | MissingFields
    | NoFirstCargo
    | BadConcepto
    | BadPeriodicidad(valid: seq<string>)
    | BadImporte
    | BadCategoria(valid: seq<string>)
    | BadFecha
    | BadEstado(valid: seq<string>)
    | NotFound

  datatype Outcome<+T> = Ok(value: T) | Err(error: Error)

  /** `list.join(', ')` */
  function Listed(xs: seq<string>): string
  {
    if xs == [] then "" else if |xs| == 1 then xs[0] else xs[0] + ", " + Listed(xs[1..])
  }

  function Message(e: Error): string
  {
    match e
    case InvalidFilter(key) => "API. Filtro no válido: " + key + ". Filtros válidos: " + Listed(ValidFilters)
    case NotText => "TypeError: value.includes is not a function"
    case MissingFields => "API. Los campos concepto, periodicidad, importe, categoria y cargo son obligatorios."
    case NoFirstCargo => "TypeError: Cannot read properties of undefined (reading 'activo')"
    case BadConcepto => "API. El concepto debe ser una cadena de texto de máximo 30 caracteres."
    case BadPeriodicidad(valid) => "API. La periodicidad debe ser una de las siguientes: " + Listed(valid) + "."
    case BadImporte => "API. El importe debe ser un número positivo."
    case BadCategoria(valid) => "API. La categoría debe ser una de las siguientes: " + Listed(valid) + "."
    case BadFecha => "API. La fecha debe estar en el formato YYYY-MM-DD."
    case BadEstado(valid) => "API. El estado del cargo debe ser uno de los siguientes: " + Listed(valid) + "."
    case NotFound => "API. El recibo con el ID especificado no existe."
  }

  // ---------------------------------------------------------------------------
  // getRecibos: filters to query text and parameters

  /** The filters a search may use. */
  const ValidFilters: seq<string> := ["periodicidad", "fecha", "año", "concepto", "categoria", "estado", "activo"]

  /** A parameter the development browser adds to every request; it is dropped. */
  const ReqIdKey: string := "vscodeBrowserReqId"

  datatype Piece = Words(text: string) | Placeholder

  /** The conditions appended after `WHERE 1=1`, and the values bound to their placeholders in order. */
  datatype Query = Query(pieces: seq<Piece>, params: seq<Value>)

  /** The number of placeholders. */
  function Holes(ps: seq<Piece>): (n: nat)
    ensures n <= |ps|
  {
    if ps == [] then 0 else Holes(ps[..|ps| - 1]) + (if ps[|ps| - 1] == Placeholder then 1 else 0)
  }

  lemma {:induction false} HolesConcat(a: seq<Piece>, b: seq<Piece>)
    ensures Holes(a + b) == Holes(a) + Holes(b)
    decreases |b|
  {
    if b == [] {
      assert a + b == a;
    } else {
      assert (a + b)[..|a + b| - 1] == a + b[..|b| - 1];
      HolesConcat(a, b[..|b| - 1]);
    }
  }

  /** The query text, a `?` for each placeholder. */
  function Render(ps: seq<Piece>): string
  {
    if ps == [] then "" else Render(ps[..|ps| - 1]) + (match ps[|ps| - 1] case Words(t) => t case Placeholder => "?")
  }

  /** When the fixed words hold no `?`, the text has exactly one `?` per placeholder. */
  lemma {:induction false} RenderHoles(ps: seq<Piece>)
    requires forall i :: 0 <= i < |ps| && ps[i].Words? ==> '?' !in ps[i].text
    ensures Count(Render(ps), '?') == Holes(ps)
  {
    if ps != [] {
      var last := ps[|ps| - 1];
      var t := match last case Words(t) => t case Placeholder => "?";
      RenderHoles(ps[..|ps| - 1]);
      CountConcat(Render(ps[..|ps| - 1]), t, '?');
      if last == Placeholder {
        assert Count(t, '?') == 1 by { assert t[1..] == ""; }
      }
    }
  }

  /** The filters, in the order of the object's keys, without the entries named `key`. */
  function RemoveKey(f: seq<(string, Value)>, key: string): (r: seq<(string, Value)>)
    ensures forall e :: e in r <==> e in f && e.0 != key
    ensures |r| <= |f|
  {
    if f == [] then []
    else RemoveKey(f[..|f| - 1], key) + (if f[|f| - 1].0 == key then [] else [f[|f| - 1]])
  }

  /** The first key that is not a valid filter. */
  function FirstInvalid(f: seq<(string, Value)>): (r: Option<string>)
    ensures r.None? <==> forall i :: 0 <= i < |f| ==> f[i].0 in ValidFilters
    ensures r.Some? ==> r.value !in ValidFilters
    ensures r.Some? ==> exists i :: 0 <= i < |f| && f[i].0 == r.value && forall j :: 0 <= j < i ==> f[j].0 in ValidFilters
  {
    if f == [] then None
    else match FirstInvalid(f[..|f| - 1])
      case Some(k) => Some(k)
      case None => if f[|f| - 1].0 in ValidFilters then None else Some(f[|f| - 1].0)
  }

  /** `activo` is 1 for `true`, `'true'`, `1` and `'1'`, and 0 for anything else. */
  function ActivoFlag(v: Value): (n: int)
    ensures n == 1 <==> v == Bool(true) || v == Str("true") || v == Num(1) || v == Str("1")
    ensures n == 0 || n == 1
  {
    if v == Bool(true) || v == Str("true") || v == Num(1) || v == Str("1") then 1 else 0
  }

  /** `AND <column> = ?` */
  function Equals(column: string, v: Value): Query
  {
    Query([Words(" AND " + column + " = "), Placeholder], [v])
  }

  /** `AND fc.fecha BETWEEN ? AND ?` */
  function Between(from: string, to: string): (q: Query)
    ensures Holes(q.pieces) == |q.params| == 2
  {
    var ps := [Words(" AND fc.fecha BETWEEN "), Placeholder, Words(" AND "), Placeholder];
    assert ps[..3][..2][..1] == [Words(" AND fc.fecha BETWEEN ")] && ps[..3][..2] == ps[..2];
    assert Holes(ps[..2]) == 1;
    Query(ps, [Str(from), Str(to)])
  }

  /** The clause one filter adds, if any; a `fecha` that is not text cannot be searched for `'a'`. */
  function ClauseFor(key: string, value: Value): (r: Outcome<Option<Query>>)
    ensures value == Undefined || value == Null ==> r == Ok(None)
    ensures r.Err? <==> key == "fecha" && value != Undefined && value != Null && !value.Str?
    ensures r.Ok? && r.value.Some? ==> Holes(r.value.value.pieces) == |r.value.value.params|
  {
    if value == Undefined || value == Null then Ok(None)
    else if key == "año" then Ok(Some(Equals("YEAR(fc.fecha)", value)))
    else if key == "fecha" && !value.Str? then Err(NotText)
    else if key == "fecha" && 'a' in value.s then
      var pieces := Split(value.s, 'a');
      assert |pieces| >= 2 by {
        if |pieces| == 1 {
          JoinSplit(value.s, 'a');
        }
      }
      Ok(Some(Between(pieces[0], pieces[1])))
    else if key == "activo" then Ok(Some(Equals("fc.activo", Num(ActivoFlag(value)))))
    else if key in ValidFilters then Ok(Some(Equals((if key == "estado" then "fc." else "r.") + key, value)))
    else Ok(None)
  }

  /** The clauses of the filters, in order; the first failing clause aborts. */
  function Build(f: seq<(string, Value)>): (r: Outcome<Query>)
    ensures r.Ok? ==> Holes(r.value.pieces) == |r.value.params|
  {
    if f == [] then Ok(Query([], []))
    else match Build(f[..|f| - 1])
      case Err(e) => Err(e)
      case Ok(q) =>
        match ClauseFor(f[|f| - 1].0, f[|f| - 1].1)
        case Err(e) => Err(e)
        case Ok(None) => Ok(q)
        case Ok(Some(c)) =>
          HolesConcat(q.pieces, c.pieces);
          Ok(Query(q.pieces + c.pieces, q.params + c.params))
  }

  /** `getRecibos` up to the database call: the conditions and their parameters, or the error. */
  function Search(filters: seq<(string, Value)>): (r: Outcome<Query>)
    ensures r.Ok? ==> Holes(r.value.pieces) == |r.value.params|
  {
    var f := RemoveKey(filters, ReqIdKey);
    match FirstInvalid(f)
    case Some(k) => Err(InvalidFilter(k))
    case None => Build(f)
  }

  /** A search fails as invalid exactly when some key other than the request id is not a valid filter. */
  lemma SearchInvalidIff(filters: seq<(string, Value)>)
    ensures Search(filters).Err? && Search(filters).error.InvalidFilter? <==>
            exists i :: 0 <= i < |filters| && filters[i].0 != ReqIdKey && filters[i].0 !in ValidFilters
  {
    var f := RemoveKey(filters, ReqIdKey);
    if exists i :: 0 <= i < |filters| && filters[i].0 != ReqIdKey && filters[i].0 !in ValidFilters {
      var i :| 0 <= i < |filters| && filters[i].0 != ReqIdKey && filters[i].0 !in ValidFilters;
      assert filters[i] in f;
    } else {
      forall j | 0 <= j < |f| ensures f[j].0 in ValidFilters {
        assert f[j] in filters;
      }
      BuildErrors(f);
    }
  }

  /** The only error a list of valid filters can give is a `fecha` that is not text. */
  lemma {:induction false} BuildErrors(f: seq<(string, Value)>)
    ensures Build(f).Err? ==> Build(f).error == NotText
  {
    if f != [] {
      BuildErrors(f[..|f| - 1]);
    }
  }

  /** A filter whose value is `undefined` or `null` adds neither words nor parameters. */
  lemma NullFilterAddsNothing(f: seq<(string, Value)>, key: string, v: Value)
    requires v == Undefined || v == Null
    ensures Build(f + [(key, v)]) == Build(f)
  {
    assert (f + [(key, v)])[..|f|] == f;
  }

  /** The request id parameter makes no difference. */
  lemma RequestIdIgnored(filters: seq<(string, Value)>, v: Value)
    ensures Search(filters + [(ReqIdKey, v)]) == Search(filters)
  {
    assert (filters + [(ReqIdKey, v)])[..|filters|] == filters;
    assert RemoveKey(filters + [(ReqIdKey, v)], ReqIdKey) == RemoveKey(filters, ReqIdKey);
  }

  /** The year, status and other columns; `estado` belongs to the charge, the rest to the bill. */
  lemma ColumnClauses(key: string, v: Value)
    requires v != Undefined && v != Null
    requires key in ValidFilters && key != "fecha" && key != "activo"
    ensures key == "año" ==> ClauseFor(key, v) == Ok(Some(Equals("YEAR(fc.fecha)", v)))
    ensures key == "estado" ==> ClauseFor(key, v) == Ok(Some(Equals("fc." + key, v)))
    ensures key != "año" && key != "estado" ==> ClauseFor(key, v) == Ok(Some(Equals("r." + key, v)))
  {
  }

  /** A date with an `'a'` is a range of its first two pieces; without one it is compared whole. */
  lemma FechaClauses(s: string)
    ensures 'a' in s ==> |Split(s, 'a')| >= 2
    ensures 'a' in s ==> ClauseFor("fecha", Str(s)) == Ok(Some(Between(Split(s, 'a')[0], Split(s, 'a')[1])))
    ensures 'a' !in s ==> ClauseFor("fecha", Str(s)) == Ok(Some(Equals("r." + "fecha", Str(s))))
  {
    if 'a' in s && |Split(s, 'a')| == 1 {
      JoinSplit(s, 'a');
    }
  }

  /** A range such as `2024-09-01a2024-12-01` binds the date before the `'a'` and the date after it. */
  lemma FechaRange(from: string, to: string)
    requires 'a' !in from && 'a' !in to
    ensures ClauseFor("fecha", Str(from + "a" + to)) == Ok(Some(Between(from, to)))
  {
    var s := from + "a" + to;
    assert s == from + ("a" + to);
    SplitPrefix(from, "a" + to, 'a');
    assert ("a" + to)[0] == 'a' && ("a" + to)[1..] == to;
    assert Split("a" + to, 'a') == [""] + Split(to, 'a');
    SplitPrefix(to, "", 'a');
    assert to + "" == to;
    assert Split("", 'a') == [""];
    assert Split(to, 'a') == [to];
    assert Split(s, 'a') == [from + ""] + [to];
    assert from + "" == from;
    assert s[|from|] == 'a';
  }

  /** Once a prefix of the filters fails, the whole list fails the same way. */
  lemma {:induction false} BuildErrStays(f: seq<(string, Value)>, i: nat)
    requires i <= |f| && Build(f[..i]).Err?
    ensures Build(f) == Build(f[..i])
    decreases |f| - i
  {
    if i < |f| {
      assert f[..i + 1][..i] == f[..i];
      BuildErrStays(f, i + 1);
    } else {
      assert f[..i] == f;
    }
  }

  lemma {:induction false} FirstInvalidStays(f: seq<(string, Value)>, i: nat)
    requires i <= |f| && FirstInvalid(f[..i]).Some?
    ensures FirstInvalid(f) == FirstInvalid(f[..i])
    decreases |f| - i
  {
    if i < |f| {
      assert f[..i + 1][..i] == f[..i];
      FirstInvalidStays(f, i + 1);
    } else {
      assert f[..i] == f;
    }
  }

  /**
   * `getRecibos`: the request id is dropped, every key is checked, then the
   * query and the parameter list grow one filter at a time.
   */
  method GetRecibos(filters: seq<(string, Value)>) returns (r: Outcome<Query>)
    ensures r == Search(filters)
  {
    var f := RemoveKey(filters, ReqIdKey);
    for i := 0 to |f|
      invariant FirstInvalid(f[..i]).None?
    {
      assert f[..i + 1][..i] == f[..i];
      if f[i].0 !in ValidFilters {
        FirstInvalidStays(f, i + 1);
        return Err(InvalidFilter(f[i].0));
      }
    }
    assert f[..|f|] == f;
    var query := [];
    var params := [];
    for i := 0 to |f|
      invariant Build(f[..i]) == Ok(Query(query, params))
    {
      assert f[..i + 1][..i] == f[..i];
      var clause := ClauseFor(f[i].0, f[i].1);
      if clause.Err? {
        BuildErrStays(f, i + 1);
        return Err(clause.error);
      }
      if clause.value.Some? {
        query := query + clause.value.value.pieces;
        params := params + clause.value.value.params;
      }
    }
    assert f[..|f|] == f;
    r := Ok(Query(query, params));
  }

  // ---------------------------------------------------------------------------
  // pushRecibo: checks and normalisation of the charges

  /** One entry of the `cargo` array. */
  datatype Cargo = Cargo(id: Value, fecha: Value, estado: Value, comentario: Value, activo: Value)

  /** The `cargo` argument: an array, or anything else. */
  datatype CargoArg = NotArray(v: Value) | Items(items: seq<Cargo>)

  /** Every required field is truthy (so an `importe` of 0 is missing) and `cargo` is an array. */
  predicate Required(concepto: Value, periodicidad: Value, importe: Value, categoria: Value, cargo: CargoArg)
  {
    Truthy(concepto) && Truthy(periodicidad) && Truthy(importe) && Truthy(categoria) && cargo.Items?
  }

  /** `cargo.filter((c) => c.fecha !== null)`: only a strict `null` date is dropped. */
  function DropNullFechas(cs: seq<Cargo>): (r: seq<Cargo>)
    ensures forall c :: c in r <==> c in cs && c.fecha != Null
    ensures |r| <= |cs|
  {
    if cs == [] then [] else DropNullFechas(cs[..|cs| - 1]) + (if cs[|cs| - 1].fecha == Null then [] else [cs[|cs| - 1]])
  }

  /** A monthly bill keeps only its first charge; the others lose the charges without a date. */
  function FilterCargo(periodicidad: Value, cs: seq<Cargo>): seq<Cargo>
    requires |cs| > 0
  {
    if periodicidad != Str("mensual") then DropNullFechas(cs) else [cs[0]]
  }

  /** The field checks, in the order the source makes them; the lists of valid values come from the database. */
  function FieldError(concepto: Value, periodicidad: Value, importe: Value, categoria: Value,
                      periodicidades: seq<string>, categorias: seq<string>): (r: Option<Error>)
    ensures r == None <==>
      concepto.Str? && |concepto.s| <= 30 && periodicidad.Str? && periodicidad.s in periodicidades &&
      importe.Num? && importe.n >= 0 && categoria.Str? && categoria.s in categorias
  {
    if !concepto.Str? || |concepto.s| > 30 then Some(BadConcepto)
    else if !(periodicidad.Str? && periodicidad.s in periodicidades) then Some(BadPeriodicidad(periodicidades))
    else if !importe.Num? || importe.n < 0 then Some(BadImporte)
    else if !(categoria.Str? && categoria.s in categorias) then Some(BadCategoria(categorias))
    else None
  }

  /** `activo` defaults to 1 when `undefined` or `null`, and is otherwise its truthiness as 1 or 0. */
  function NormalActivo(v: Value): (n: int)
    ensures n == 0 || n == 1
    ensures n == 0 <==> v == Bool(false) || v == Num(0) || v == Str("")
  {
    if v == Undefined || v == Null then 1 else if Truthy(v) then 1 else 0
  }

  /**
   * One charge: a truthy date must convert to `YYYY-MM-DD` (`dateOk`, the
   * `Date` conversion, is outside this model), the status must be a valid
   * one, and `activo` is normalised.
   */
  function CheckCargo(c: Cargo, dateOk: Value -> bool, estados: seq<string>): (r: Outcome<Cargo>)
    ensures r.Ok? <==> (!Truthy(c.fecha) || dateOk(c.fecha)) && c.estado.Str? && c.estado.s in estados
    ensures r.Ok? ==> r.value == c.(activo := Num(NormalActivo(c.activo)))
  {
    if Truthy(c.fecha) && !dateOk(c.fecha) then Err(BadFecha)
    else if !(c.estado.Str? && c.estado.s in estados) then Err(BadEstado(estados))
    else Ok(c.(activo := Num(NormalActivo(c.activo))))
  }

  /** The charges checked in order; the first failing one decides the error. */
  function CheckCargos(cs: seq<Cargo>, dateOk: Value -> bool, estados: seq<string>): (r: Outcome<seq<Cargo>>)
    ensures r.Ok? <==> forall i :: 0 <= i < |cs| ==> CheckCargo(cs[i], dateOk, estados).Ok?
    ensures r.Ok? ==> |r.value| == |cs|
    ensures r.Ok? ==> forall i :: 0 <= i < |cs| ==> r.value[i] == cs[i].(activo := Num(NormalActivo(cs[i].activo)))
  {
    if cs == [] then Ok([])
    else
      var init := cs[..|cs| - 1];
      match CheckCargos(init, dateOk, estados)
      case Err(e) => Err(e)
      case Ok(done) =>
        match CheckCargo(cs[|cs| - 1], dateOk, estados)
        case Err(e) => Err(e)
        case Ok(c) => Ok(done + [c])
  }

  /** The error is that of the first charge that fails, at position `i`. */
  lemma {:induction false} CheckCargosFirstError(cs: seq<Cargo>, dateOk: Value -> bool, estados: seq<string>) returns (i: nat)
    requires CheckCargos(cs, dateOk, estados).Err?
    ensures i < |cs| && CheckCargo(cs[i], dateOk, estados) == Err(CheckCargos(cs, dateOk, estados).error)
    ensures forall j :: 0 <= j < i ==> CheckCargo(cs[j], dateOk, estados).Ok?
  {
    var init := cs[..|cs| - 1];
    if CheckCargos(init, dateOk, estados).Err? {
      i := CheckCargosFirstError(init, dateOk, estados);
      assert cs[i] == init[i];
      assert forall j :: 0 <= j < i ==> cs[j] == init[j];
    } else {
      i := |cs| - 1;
      assert forall j :: 0 <= j < i ==> cs[j] == init[j];
    }
  }

  /**
   * `pushRecibo` up to the database writes: the required fields, the first
   * charge (read before the filter, so an empty array is a `TypeError`),
   * the filter, the field checks and the charge checks. On success, the
   * charges to write.
   */
  function ValidateRecibo(concepto: Value, periodicidad: Value, importe: Value, categoria: Value, cargo: CargoArg,
                          periodicidades: seq<string>, categorias: seq<string>, estados: seq<string>,
                          dateOk: Value -> bool): (r: Outcome<seq<Cargo>>)
    ensures r.Ok? ==> Required(concepto, periodicidad, importe, categoria, cargo) && |cargo.items| > 0
    ensures r.Ok? ==> FieldError(concepto, periodicidad, importe, categoria, periodicidades, categorias) == None
    ensures r.Ok? ==> forall i :: 0 <= i < |r.value| ==> r.value[i].activo == Num(0) || r.value[i].activo == Num(1)
  {
    if !Required(concepto, periodicidad, importe, categoria, cargo) then Err(MissingFields)
    else if cargo.items == [] then Err(NoFirstCargo)
    else
      var kept := FilterCargo(periodicidad, cargo.items);
      match FieldError(concepto, periodicidad, importe, categoria, periodicidades, categorias)
      case Some(e) => Err(e)
      case None => CheckCargos(kept, dateOk, estados)
  }

  /** The "required fields" error is raised exactly when a field is falsy or `cargo` is not an array. */
  lemma RequiredIff(concepto: Value, periodicidad: Value, importe: Value, categoria: Value, cargo: CargoArg,
                    periodicidades: seq<string>, categorias: seq<string>, estados: seq<string>, dateOk: Value -> bool)
    ensures var r := ValidateRecibo(concepto, periodicidad, importe, categoria, cargo, periodicidades, categorias, estados, dateOk);
      r == Err(MissingFields) <==> !Required(concepto, periodicidad, importe, categoria, cargo)
  {
    var r := ValidateRecibo(concepto, periodicidad, importe, categoria, cargo, periodicidades, categorias, estados, dateOk);
    if Required(concepto, periodicidad, importe, categoria, cargo) && cargo.items != [] {
      var kept := FilterCargo(periodicidad, cargo.items);
      if FieldError(concepto, periodicidad, importe, categoria, periodicidades, categorias) == None && r.Err? {
        var i := CheckCargosFirstError(kept, dateOk, estados);
      }
    }
  }

  /** An amount of 0 is reported as missing, before the amount check. */
  lemma ZeroImporteMissing(concepto: Value, periodicidad: Value, categoria: Value, cargo: CargoArg,
                           periodicidades: seq<string>, categorias: seq<string>, estados: seq<string>, dateOk: Value -> bool)
    ensures ValidateRecibo(concepto, periodicidad, Num(0), categoria, cargo, periodicidades, categorias, estados, dateOk)
              == Err(MissingFields)
  {
  }

  /** A monthly bill writes exactly its first charge, normalised. */
  lemma MensualKeepsFirst(concepto: Value, importe: Value, categoria: Value, cargo: CargoArg,
                          periodicidades: seq<string>, categorias: seq<string>, estados: seq<string>, dateOk: Value -> bool)
    requires ValidateRecibo(concepto, Str("mensual"), importe, categoria, cargo, periodicidades, categorias, estados, dateOk).Ok?
    ensures ValidateRecibo(concepto, Str("mensual"), importe, categoria, cargo, periodicidades, categorias, estados, dateOk).value
              == [cargo.items[0].(activo := Num(NormalActivo(cargo.items[0].activo)))]
  {
  }

  /** Any other bill writes its charges with a date that is not `null`, in order, normalised. */
  lemma OthersDropNullDates(concepto: Value, periodicidad: Value, importe: Value, categoria: Value, cargo: CargoArg,
                            periodicidades: seq<string>, categorias: seq<string>, estados: seq<string>, dateOk: Value -> bool)
    requires periodicidad != Str("mensual")
    requires ValidateRecibo(concepto, periodicidad, importe, categoria, cargo, periodicidades, categorias, estados, dateOk).Ok?
    ensures var r := ValidateRecibo(concepto, periodicidad, importe, categoria, cargo, periodicidades, categorias, estados, dateOk).value;
      var kept := DropNullFechas(cargo.items);
      |r| == |kept| && (forall i :: 0 <= i < |r| ==> r[i].fecha != Null) &&
      forall i :: 0 <= i < |r| ==> r[i] == kept[i].(activo := Num(NormalActivo(kept[i].activo)))
  {
    var r := ValidateRecibo(concepto, periodicidad, importe, categoria, cargo, periodicidades, categorias, estados, dateOk).value;
    var kept := DropNullFechas(cargo.items);
    forall i | 0 <= i < |r| ensures r[i].fecha != Null {
      assert kept[i] in kept;
    }
  }

  // ---------------------------------------------------------------------------
  // The tables

  /** A row of `fechas_cargo`, with its date as `YYYY-MM-DD` text. */
  datatype Charge = Charge(reciboId: int, fecha: string)

  /** The charges left after deleting those of bill `id`, all of them or only those on `fecha`. */
  function Without(cs: seq<Charge>, id: int, fecha: Option<string>): (r: seq<Charge>)
    ensures forall c :: c in r <==> c in cs && (c.reciboId != id || (fecha.Some? && c.fecha != fecha.value))
    ensures |r| <= |cs|
  {
    if cs == [] then []
    else
      var c := cs[|cs| - 1];
      Without(cs[..|cs| - 1], id, fecha) +
        (if c.reciboId == id && (fecha.None? || c.fecha == fecha.value) then [] else [c])
  }

  /** `SELECT COUNT(*) FROM fechas_cargo WHERE recibo_id = ?` */
  function ChargesOf(cs: seq<Charge>, id: int): (n: nat)
    ensures n == 0 <==> forall c :: c in cs ==> c.reciboId != id
  {
    if cs == [] then 0 else ChargesOf(cs[..|cs| - 1], id) + (if cs[|cs| - 1].reciboId == id then 1 else 0)
  }

  datatype Tables = Tables(recibos: set<int>, cargos: seq<Charge>)

  /** Both the bill and all its charges go; the answer is whether the bill row existed. */
  function DeleteAll(t: Tables, id: int): (Tables, bool)
  {
    (Tables(t.recibos - {id}, Without(t.cargos, id, None)), id in t.recibos)
  }

  /**
   * `deleteRecibo`: a bimonthly or quarterly bill without a date loses
   * everything; any other non-monthly bill loses the charges on that date
   * (all of them without one) and then the bill only if no charge is left;
   * a monthly bill loses everything. `fecha` is "" when missing.
   */
  function DeleteBill(t: Tables, id: int, fecha: string, periodicidad: string): (Tables, bool)
  {
    if (periodicidad == "bimestral" || periodicidad == "trimestral") && fecha == "" then DeleteAll(t, id)
    else if periodicidad != "mensual" then
      var cs := Without(t.cargos, id, if fecha != "" then Some(fecha) else None);
      if ChargesOf(cs, id) == 0 then (Tables(t.recibos - {id}, cs), id in t.recibos)
      else (Tables(t.recibos, cs), true)
    else DeleteAll(t, id)
  }

  /** The bill row goes exactly when the bill is monthly or none of its charges is left. */
  lemma ParentDeletedIff(t: Tables, id: int, fecha: string, periodicidad: string)
    ensures var (t', _) := DeleteBill(t, id, fecha, periodicidad);
      t'.recibos == if periodicidad == "mensual" || ChargesOf(t'.cargos, id) == 0 then t.recibos - {id} else t.recibos
  {
    var (t', _) := DeleteBill(t, id, fecha, periodicidad);
    if ((periodicidad == "bimestral" || periodicidad == "trimestral") && fecha == "") || periodicidad == "mensual" {
      assert ChargesOf(t'.cargos, id) == 0;
    }
  }

  /** The bimonthly and quarterly shortcut does what the general path does without a date. */
  lemma ShortcutAgrees(t: Tables, id: int)
    ensures DeleteAll(t, id) == DeleteBill(t, id, "", "anual")
  {
  }

  /**
   * Charges of other bills and other bills stay; the charges of `id` that
   * stay are those on another date, and only when a date is given to a
   * non-monthly bill.
   */
  lemma DeleteKeepsOthers(t: Tables, id: int, fecha: string, periodicidad: string)
    ensures var (t', _) := DeleteBill(t, id, fecha, periodicidad);
      t'.recibos - {id} == t.recibos - {id} &&
      forall c :: c in t'.cargos <==> c in t.cargos && (c.reciboId != id || (fecha != "" && periodicidad != "mensual" && c.fecha != fecha))
  {
  }

  /**
   * The answer is whether a bill row was deleted, or `true` when charges of
   * the bill are left (even without a bill row).
   */
  lemma DeleteAnswer(t: Tables, id: int, fecha: string, periodicidad: string)
    ensures var (t', b) := DeleteBill(t, id, fecha, periodicidad);
      b <==> id in t.recibos || (periodicidad != "mensual" && ChargesOf(t'.cargos, id) > 0)
  {
  }

  /**
   * The bill id that `WHERE id = ?` compares with a bound value: a number is
   * itself, a boolean is bound as 1 or 0, and text of decimal digits is read
   * as its value (MySQL compares text with an integer column as a number).
   * Other values name no bill here.
   */
  function IdKey(v: Value): Option<int>
  {
    match v
    case Num(n) => Some(n)
    case Bool(b) => Some(if b then 1 else 0)
    case Str(t) => if Number(t).Some? then Some(Number(t).value as int) else None
    case _ => None
  }

  /** Whether `id` selects a row of `recibos`. */
  predicate NamesBill(id: Value, recibos: set<int>)
  {
    IdKey(id).Some? && IdKey(id).value in recibos
  }

  /** An id sent as the decimal text of a number selects the same bill as the number itself. */
  lemma TextIdNamesSameBill(n: nat, recibos: set<int>)
    ensures NamesBill(Str(DigitsOf(n)), recibos) <==> NamesBill(Num(n), recibos)
    ensures Truthy(Str(DigitsOf(n)))
  {
    ValueOfDigits(n);
  }

  /** The `recibos` and `fechas_cargo` tables. */
  class BillStore {
    var recibos: set<int>
    var cargos: seq<Charge>

    constructor (recibos: set<int>, cargos: seq<Charge>)
      ensures this.recibos == recibos && this.cargos == cargos
    {
      this.recibos := recibos;
      this.cargos := cargos;
    }

    /** `deleteRecibo`, statement by statement. */
    method DeleteRecibo(id: int, fecha: string, periodicidad: string) returns (deleted: bool)
      modifies this
      ensures (Tables(recibos, cargos), deleted) == DeleteBill(old(Tables(recibos, cargos)), id, fecha, periodicidad)
    {
      if periodicidad == "bimestral" || periodicidad == "trimestral" {
        if fecha == "" {
          cargos := Without(cargos, id, None);
          deleted := id in recibos;
          recibos := recibos - {id};
          return;
        }
      }
      if periodicidad != "mensual" {
        if fecha != "" {
          cargos := Without(cargos, id, Some(fecha));
        } else {
          cargos := Without(cargos, id, None);
        }
        if ChargesOf(cargos, id) == 0 {
          deleted := id in recibos;
          recibos := recibos - {id};
        } else {
          deleted := true;
        }
      } else {
        cargos := Without(cargos, id, None);
        deleted := id in recibos;
        recibos := recibos - {id};
      }
    }

    /**
     * `pushRecibo` up to its writes: the checks and the charges' `activo`
     * normalised in place, one charge at a time; then a truthy `id` must name
     * an existing bill, read as `IdKey` reads it.
     */
    method PushRecibo(id: Value, concepto: Value, periodicidad: Value, importe: Value, categoria: Value, cargo: CargoArg,
                      periodicidades: seq<string>, categorias: seq<string>, estados: seq<string>,
                      dateOk: Value -> bool) returns (r: Outcome<seq<Cargo>>)
      ensures var v := ValidateRecibo(concepto, periodicidad, importe, categoria, cargo, periodicidades, categorias, estados, dateOk);
        r == if v.Ok? && Truthy(id) && !NamesBill(id, recibos) then Err(NotFound) else v
    {
      ghost var v := ValidateRecibo(concepto, periodicidad, importe, categoria, cargo, periodicidades, categorias, estados, dateOk);
      if !Required(concepto, periodicidad, importe, categoria, cargo) {
        return Err(MissingFields);
      }
      if cargo.items == [] {
        return Err(NoFirstCargo);
      }
      var e := FieldError(concepto, periodicidad, importe, categoria, periodicidades, categorias);
      if e.Some? {
        return Err(e.value);
      }
      assert v == CheckCargos(FilterCargo(periodicidad, cargo.items), dateOk, estados);
      r := NormaliseCargos(FilterCargo(periodicidad, cargo.items), dateOk, estados);
      if r.Err? {
        return;
      }
      if Truthy(id) && !NamesBill(id, recibos) {
        return Err(NotFound);
      }
    }
  }

  /** The loop over the charges: each is checked, then its `activo` is normalised in place. */
  method NormaliseCargos(cargo: seq<Cargo>, dateOk: Value -> bool, estados: seq<string>) returns (r: Outcome<seq<Cargo>>)
    ensures r == CheckCargos(cargo, dateOk, estados)
  {
    var cs := cargo;
    for i := 0 to |cs|
      invariant |cs| == |cargo|
      invariant CheckCargos(cargo[..i], dateOk, estados) == Ok(cs[..i])
      invariant cs[i..] == cargo[i..]
    {
      assert cargo[..i + 1][..i] == cargo[..i];
      var checked := CheckCargo(cs[i], dateOk, estados);
      if checked.Err? {
        CheckCargosStays(cargo, i + 1, dateOk, estados);
        return Err(checked.error);
      }
      cs := cs[i := checked.value];
      assert cs[..i + 1] == cs[..i] + [checked.value];
    }
    assert cs[..|cs|] == cs;
    assert cargo[..|cargo|] == cargo;
    r := Ok(cs);
  }

  /** Once a prefix of the charges fails, all of them fail the same way. */
  lemma {:induction false} CheckCargosStays(cs: seq<Cargo>, i: nat, dateOk: Value -> bool, estados: seq<string>)
    requires i <= |cs| && CheckCargos(cs[..i], dateOk, estados).Err?
    ensures CheckCargos(cs, dateOk, estados) == CheckCargos(cs[..i], dateOk, estados)
    decreases |cs| - i
  {
    if i < |cs| {
      assert cs[..i + 1][..i] == cs[..i];
      CheckCargosStays(cs, i + 1, dateOk, estados);
    } else {
      assert cs[..i] == cs;
    }
  }
}
