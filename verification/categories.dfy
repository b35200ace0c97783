/**
 * Categories of bills: the listing that moves the "Otros" (other) category
 * behind all the others, the create-or-update of a category by name, and
 * the deletion by ids.
 */
module Categories {
  import opened Common
  import opened Text

  datatype Category = Category(id: nat, nombre: string, descripcion: Option<string>)

  /**
   * The name lower-cases to `otros` (only ASCII letters lower-case to `o`,
   * `t`, `r` or `s`, so the ASCII fold decides it).
   */
  predicate IsOtros(c: Category)
  {
    var n := c.nombre;
    |n| == 5 && LowerChar(n[0]) == 'o' && LowerChar(n[1]) == 't' && LowerChar(n[2]) == 'r' &&
    LowerChar(n[3]) == 'o' && LowerChar(n[4]) == 's'
  }

  lemma IsOtrosLower(c: Category)
    ensures IsOtros(c) <==> Lower(c.nombre) == "otros"
  {
    if Lower(c.nombre) == "otros" {
      assert |c.nombre| == 5;
      assert Lower(c.nombre)[0] == 'o' && Lower(c.nombre)[1] == 't' && Lower(c.nombre)[2] == 'r';
      assert Lower(c.nombre)[3] == 'o' && Lower(c.nombre)[4] == 's';
    }
  }

  /** `findIndex`: the first row named "otros" in any letter case. */
  function FindOtros(rows: seq<Category>): (r: Option<nat>)
    ensures r.Some? ==> r.value < |rows| && IsOtros(rows[r.value]) &&
                        forall j :: 0 <= j < r.value ==> !IsOtros(rows[j])
    ensures r.None? ==> forall j :: 0 <= j < |rows| ==> !IsOtros(rows[j])
  {
    if rows == [] then None
    else if IsOtros(rows[0]) then Some(0)
    else match FindOtros(rows[1..])
      case None => None
      case Some(k) => Some(k + 1)
  }

  /** The listing order: the first "otros" row is taken out and put at the end. */
  function OtrosLast(rows: seq<Category>): (r: seq<Category>)
    ensures |r| == |rows|
  {
    match FindOtros(rows)
    case None => rows
    case Some(k) => rows[..k] + rows[k + 1..] + [rows[k]]
  }

  /** The listing holds the same rows. */
  lemma OtrosLastPermutation(rows: seq<Category>)
    ensures multiset(OtrosLast(rows)) == multiset(rows)
  {
    match FindOtros(rows)
    case None =>
    case Some(k) =>
      assert rows == rows[..k] + [rows[k]] + rows[k + 1..];
  }

  /** With an "otros" row, the first one ends up last and the others keep their order. */
  lemma OtrosLastMoves(rows: seq<Category>, k: nat)
    requires FindOtros(rows) == Some(k)
    ensures OtrosLast(rows)[|rows| - 1] == rows[k] && IsOtros(OtrosLast(rows)[|rows| - 1])
    ensures OtrosLast(rows)[..|rows| - 1] == rows[..k] + rows[k + 1..]
    ensures forall i :: 0 <= i < |rows| - 1 ==> OtrosLast(rows)[i] == rows[if i < k then i else i + 1]
  {
    var r := OtrosLast(rows);
    var rest := rows[..k] + rows[k + 1..];
    assert r == rest + [rows[k]];
    assert r[..|rows| - 1] == rest;
    forall i | 0 <= i < |rows| - 1 ensures r[i] == rows[if i < k then i else i + 1] {
      assert r[i] == rest[i];
    }
  }

  /** Without an "otros" row, the sorted listing is left as it is. */
  lemma OtrosLastAbsent(rows: seq<Category>)
    requires forall j :: 0 <= j < |rows| ==> !IsOtros(rows[j])
    ensures OtrosLast(rows) == rows
  {
  }

  /** With only one "otros" row, listing twice is listing once. */
  lemma OtrosLastIdempotent(rows: seq<Category>, k: nat)
    requires FindOtros(rows) == Some(k)
    requires forall j :: 0 <= j < |rows| && j != k ==> !IsOtros(rows[j])
    ensures OtrosLast(OtrosLast(rows)) == OtrosLast(rows)
  {
    var r := OtrosLast(rows);
    var n := |r|;
    OtrosLastMoves(rows, k);
    forall j | 0 <= j < n - 1 ensures !IsOtros(r[j]) {
      assert r[j] == rows[if j < k then j else j + 1];
    }
    AlreadyLast(r);
  }

  /** A listing whose only "otros" row is the last one is left as it is. */
  lemma AlreadyLast(r: seq<Category>)
    requires |r| > 0 && IsOtros(r[|r| - 1])
    requires forall j :: 0 <= j < |r| - 1 ==> !IsOtros(r[j])
    ensures OtrosLast(r) == r
  {
    var n := |r|;
    assert FindOtros(r) == Some(n - 1);
    assert r[..n - 1] + r[n - 1 + 1..] + [r[n - 1]] == r;
  }

  /** `getCategorias`: the row taken out with `splice` is pushed back at the end, in place. */
  method MoveOtrosLast(rows: array<Category>)
    modifies rows
    ensures rows[..] == OtrosLast(old(rows[..]))
  {
    var found := FindOtros(rows[..]);
    if found.Some? {
      var k := found.value;
      ghost var orig := rows[..];
      var otros := rows[k];
      var i := k;
      while i < rows.Length - 1
        invariant k <= i <= rows.Length - 1
        invariant forall j :: 0 <= j < k ==> rows[j] == orig[j]
        invariant forall j :: k <= j < i ==> rows[j] == orig[j + 1]
        invariant forall j :: i <= j < rows.Length ==> rows[j] == orig[j]
      {
        rows[i] := rows[i + 1];
        i := i + 1;
      }
      rows[i] := otros;
      OtrosLastMoves(orig, k);
      assert |rows[..]| == |OtrosLast(orig)|;
      forall j | 0 <= j < rows.Length ensures rows[..][j] == OtrosLast(orig)[j] {
      }
    }
  }

  /** `nombre || 'Sin nombre'`: a missing or empty name is replaced. */
  function NameOrDefault(nombre: Option<string>): (r: string)
    ensures r != ""
    ensures nombre.Some? && nombre.value != "" ==> r == nombre.value
  {
    if nombre.Some? && nombre.value != "" then nombre.value else "Sin nombre"
  }

  /** The `categorias` table. */
  class CategoryStore {
    var rows: seq<Category>
    var nextId: nat

    ghost predicate Valid()
      reads this
    {
      forall j :: 0 <= j < |rows| ==> rows[j].id < nextId
    }

    constructor ()
      ensures Valid() && rows == [] && nextId == 1
    {
      rows := [];
      nextId := 1;
    }

    /** Some row is named exactly `nombre` (`WHERE nombre = ?`; a missing name matches nothing). */
    predicate Exists(nombre: Option<string>)
      reads this
    {
      nombre.Some? && exists j :: 0 <= j < |rows| && rows[j].nombre == nombre.value
    }

    /**
     * `pushCategoria`: when the name exists, its rows get the new description
     * unless that is missing (`COALESCE`); otherwise a row is inserted with
     * the name, or "Sin nombre" for a missing or empty one.
     */
    method PushCategoria(nombre: Option<string>, descripcion: Option<string>)
      requires Valid()
      modifies this
      ensures Valid()
      ensures old(Exists(nombre)) ==>
                nextId == old(nextId) && |rows| == |old(rows)| &&
                forall j :: 0 <= j < |rows| ==>
                  rows[j] == (if old(rows)[j].nombre == nombre.value && descripcion.Some?
                              then old(rows)[j].(descripcion := descripcion) else old(rows)[j])
      ensures !old(Exists(nombre)) ==>
                nextId == old(nextId) + 1 &&
                rows == old(rows) + [Category(old(nextId), NameOrDefault(nombre), descripcion)]
      ensures Exists(nombre) || Exists(Some(NameOrDefault(nombre)))
    {
      if Exists(nombre) {
        var updated := [];
        for j := 0 to |rows|
          invariant |updated| == j
          invariant forall m :: 0 <= m < j ==>
                      updated[m] == (if rows[m].nombre == nombre.value && descripcion.Some?
                                     then rows[m].(descripcion := descripcion) else rows[m])
        {
          var row := rows[j];
          if row.nombre == nombre.value && descripcion.Some? {
            row := row.(descripcion := descripcion);
          }
          updated := updated + [row];
        }
        rows := updated;
      } else {
        rows := rows + [Category(nextId, NameOrDefault(nombre), descripcion)];
        nextId := nextId + 1;
        assert rows[|rows| - 1].nombre == NameOrDefault(nombre);
      }
    }

    /**
     * `deleteCategorias`: a single id is wrapped in an array and every id is
     * read as a number (`None` for text that is not one, which matches no
     * row); an empty list is an SQL error and changes nothing.
     */
    method DeleteCategorias(arg: IdArg<string>) returns (out: Result<()>)
      requires Valid()
      modifies this
      ensures Valid() && nextId == old(nextId)
      ensures AsArray(arg) == [] ==> out.Failure? && rows == old(rows)
      ensures AsArray(arg) != [] ==> out.Success? && rows == Keep(old(rows), IdNumbers(AsArray(arg)))
    {
      var ids := AsArray(arg);
      if ids == [] {
        return Failure("SQL syntax error: empty id list");
      }
      rows := Keep(rows, IdNumbers(ids));
      out := Success(());
    }
  }

  /** `ids.map(Number)` */
  function IdNumbers(ids: seq<string>): (r: seq<Option<nat>>)
    ensures |r| == |ids| && forall i :: 0 <= i < |ids| ==> r[i] == Number(ids[i])
  {
    seq(|ids|, i requires 0 <= i < |ids| => Number(ids[i]))
  }

  /** The rows whose id is not listed (`DELETE ... WHERE id IN (...)`), in order. */
  function Keep(rows: seq<Category>, ids: seq<Option<nat>>): (r: seq<Category>)
    ensures forall c :: c in r <==> c in rows && Some(c.id) !in ids
    ensures |r| <= |rows|
  {
    if rows == [] then []
    else (if Some(rows[0].id) in ids then [] else [rows[0]]) + Keep(rows[1..], ids)
  }

  /** A single id deletes the same rows as the one-element array. */
  lemma DeleteOneIsArray(rows: seq<Category>, id: string)
    ensures Keep(rows, IdNumbers(AsArray(One(id)))) == Keep(rows, IdNumbers([id]))
  {
  }
}
