/**
 * Savings goals ("ahorros") and their movements ("ahorros_movimientos"):
 * every movement written or deleted adjusts the saved amount `ahorrado` of
 * the goal it belongs to. Amounts are integer cents; an absent text field
 * (`fecha`, `tipo`) is the empty string and an absent movement id is 0,
 * both falsy as in the source.
 */
module Savings {
  import opened Common

  datatype Movement = Movement(id: nat, ahorroId: nat, importe: int, fecha: string, tipo: string, descripcion: Option<string>)

  /** The two tables: the saved amount of each goal, and the movements. */
  datatype Book = Book(ahorrado: map<nat, int>, movimientos: seq<Movement>, nextId: nat)

  const MissingFields: string := "Faltan campos obligatorios: fecha y tipo"
  const MovementNotFound: string := "Movimiento no encontrado"

  /** `UPDATE ahorros SET ahorrado = ahorrado + ? WHERE id = ?`: an unknown goal is left alone. */
  function AddTo(ahorrado: map<nat, int>, g: nat, x: int): (r: map<nat, int>)
    ensures r.Keys == ahorrado.Keys
    ensures forall h :: h in r ==> r[h] == ahorrado[h] + (if h == g then x else 0)
  {
    if g in ahorrado then ahorrado[g := ahorrado[g] + x] else ahorrado
  }

  /** Position of the movement with the given id. */
  function Find(ms: seq<Movement>, id: nat): (r: Option<nat>)
    ensures r.Some? ==> r.value < |ms| && ms[r.value].id == id
    ensures r.None? ==> forall i :: 0 <= i < |ms| ==> ms[i].id != id
  {
    if ms == [] then None
    else if ms[|ms| - 1].id == id then Some(|ms| - 1)
    else Find(ms[..|ms| - 1], id)
  }

  /** Sum of the amounts of the movements of goal `g`. */
  function MovedTotal(ms: seq<Movement>, g: nat): int
  {
    if ms == [] then 0
    else MovedTotal(ms[..|ms| - 1], g) + (if ms[|ms| - 1].ahorroId == g then ms[|ms| - 1].importe else 0)
  }

  lemma {:induction false} MovedTotalConcat(a: seq<Movement>, b: seq<Movement>, g: nat)
    ensures MovedTotal(a + b, g) == MovedTotal(a, g) + MovedTotal(b, g)
    decreases |b|
  {
    if b == [] {
      assert a + b == a;
    } else {
      assert (a + b)[..|a + b| - 1] == a + b[..|b| - 1];
      MovedTotalConcat(a, b[..|b| - 1], g);
    }
  }

  /** What one movement contributes to goal `g`. */
  function Part(m: Movement, g: nat): int
  {
    if m.ahorroId == g then m.importe else 0
  }

  lemma MovedTotalSingle(m: Movement, g: nat)
    ensures MovedTotal([m], g) == Part(m, g)
  {
    assert [m][..0] == [];
  }

  /** Replacing the movement at `k` changes each goal's total by the difference of the two parts. */
  lemma MovedTotalReplace(ms: seq<Movement>, k: nat, m: Movement, g: nat)
    requires k < |ms|
    ensures MovedTotal(ms[k := m], g) == MovedTotal(ms, g) - Part(ms[k], g) + Part(m, g)
  {
    assert ms[k := m] == ms[..k] + [m] + ms[k + 1..];
    assert ms == ms[..k] + [ms[k]] + ms[k + 1..];
    MovedTotalConcat(ms[..k] + [m], ms[k + 1..], g);
    MovedTotalConcat(ms[..k], [m], g);
    MovedTotalConcat(ms[..k] + [ms[k]], ms[k + 1..], g);
    MovedTotalConcat(ms[..k], [ms[k]], g);
    MovedTotalSingle(m, g);
    MovedTotalSingle(ms[k], g);
  }

  /** Removing the movement at `k` takes its part off its goal's total. */
  lemma MovedTotalRemove(ms: seq<Movement>, k: nat, g: nat)
    requires k < |ms|
    ensures MovedTotal(ms[..k] + ms[k + 1..], g) == MovedTotal(ms, g) - Part(ms[k], g)
  {
    assert ms == ms[..k] + [ms[k]] + ms[k + 1..];
    MovedTotalConcat(ms[..k] + [ms[k]], ms[k + 1..], g);
    MovedTotalConcat(ms[..k], [ms[k]], g);
    MovedTotalConcat(ms[..k], ms[k + 1..], g);
    MovedTotalSingle(ms[k], g);
  }

  /**
   * The movements written as a valid book: ids are distinct, positive and
   * below the next id.
   */
  ghost predicate ValidBook(b: Book)
  {
    b.nextId > 0 &&
    (forall i :: 0 <= i < |b.movimientos| ==> 0 < b.movimientos[i].id < b.nextId) &&
    (forall i, j :: 0 <= i < j < |b.movimientos| ==> b.movimientos[i].id != b.movimientos[j].id)
  }

  /**
   * How far a goal's saved amount is from the sum of its movements (the
   * amount it was created with, when every movement adjusted it exactly).
   */
  function Offset(b: Book, g: nat): int
    requires g in b.ahorrado
  {
    b.ahorrado[g] - MovedTotal(b.movimientos, g)
  }

  /** The movement table after `pushMovimiento` writes: an update of a known id, or an insert. */
  function WrittenMovements(b: Book, id: nat, ahorroId: nat, importe: int, fecha: string, tipo: string, descripcion: Option<string>): seq<Movement>
  {
    if id != 0 then
      match Find(b.movimientos, id)
      case None => b.movimientos
      case Some(k) =>
        var m := b.movimientos[k];
        b.movimientos[k := m.(importe := importe, fecha := fecha, tipo := tipo,
                              descripcion := if descripcion.Some? then descripcion else m.descripcion)]
    else b.movimientos + [Movement(b.nextId, ahorroId, importe, fecha, tipo, descripcion)]
  }

  /**
   * `pushMovimiento` as written: a missing `fecha` or `tipo` fails before any
   * write; otherwise the movement is updated (known id) or inserted (no id),
   * and the goal's saved amount grows by the full new amount in both cases.
   */
  function Push(b: Book, id: nat, ahorroId: nat, importe: int, fecha: string, tipo: string, descripcion: Option<string>): (r: Result<Book>)
    ensures fecha == "" || tipo == "" <==> r == Failure(MissingFields)
    ensures r.Success? ==> r.value.ahorrado == AddTo(b.ahorrado, ahorroId, importe)
    ensures r.Success? ==> r.value.nextId == (if id == 0 then b.nextId + 1 else b.nextId)
  {
    if fecha == "" || tipo == "" then Failure(MissingFields)
    else Success(Book(AddTo(b.ahorrado, ahorroId, importe),
                      WrittenMovements(b, id, ahorroId, importe, fecha, tipo, descripcion),
                      if id == 0 then b.nextId + 1 else b.nextId))
  }

  /**
   * `deleteMovimiento`: an unknown id fails and changes nothing; otherwise the
   * movement goes and its goal's saved amount loses its amount.
   */
  function Delete(b: Book, id: nat): (r: Result<Book>)
    ensures r == Failure(MovementNotFound) <==> forall i :: 0 <= i < |b.movimientos| ==> b.movimientos[i].id != id
    ensures r.Success? ==>
              exists k :: 0 <= k < |b.movimientos| && b.movimientos[k].id == id &&
                r.value == b.(ahorrado := AddTo(b.ahorrado, b.movimientos[k].ahorroId, -b.movimientos[k].importe),
                              movimientos := b.movimientos[..k] + b.movimientos[k + 1..])
  {
    match Find(b.movimientos, id)
    case None => Failure(MovementNotFound)
    case Some(k) =>
      var m := b.movimientos[k];
      Success(b.(ahorrado := AddTo(b.ahorrado, m.ahorroId, -m.importe),
                 movimientos := b.movimientos[..k] + b.movimientos[k + 1..]))
  }

  /** Inserting a movement and deleting it again restores both tables (but not the id counter). */
  lemma InsertThenDelete(b: Book, ahorroId: nat, importe: int, fecha: string, tipo: string, descripcion: Option<string>)
    requires ValidBook(b) && fecha != "" && tipo != ""
    ensures var p := Push(b, 0, ahorroId, importe, fecha, tipo, descripcion);
      p.Success? && Delete(p.value, b.nextId).Success? &&
      Delete(p.value, b.nextId).value == b.(nextId := b.nextId + 1)
  {
    var p := Push(b, 0, ahorroId, importe, fecha, tipo, descripcion).value;
    var n := |b.movimientos|;
    assert p.movimientos == b.movimientos + [Movement(b.nextId, ahorroId, importe, fecha, tipo, descripcion)];
    assert Find(p.movimientos, b.nextId) == Some(n);
    assert p.movimientos[..n] + p.movimientos[n + 1..] == b.movimientos;
    assert AddTo(AddTo(b.ahorrado, ahorroId, importe), ahorroId, -importe) == b.ahorrado;
  }

  /** Pushes and deletes keep the book valid. */
  lemma PushValid(b: Book, id: nat, ahorroId: nat, importe: int, fecha: string, tipo: string, descripcion: Option<string>)
    requires ValidBook(b) && Push(b, id, ahorroId, importe, fecha, tipo, descripcion).Success?
    ensures ValidBook(Push(b, id, ahorroId, importe, fecha, tipo, descripcion).value)
  {
    var ms := WrittenMovements(b, id, ahorroId, importe, fecha, tipo, descripcion);
    if id != 0 {
      assert forall i :: 0 <= i < |ms| ==> ms[i].id == b.movimientos[i].id;
    } else {
      assert forall i :: 0 <= i < |b.movimientos| ==> ms[i] == b.movimientos[i];
    }
  }

  lemma DeleteValid(b: Book, id: nat)
    requires ValidBook(b) && Delete(b, id).Success?
    ensures ValidBook(Delete(b, id).value)
  {
    var k := Find(b.movimientos, id).value;
    var ms := b.movimientos[..k] + b.movimientos[k + 1..];
    assert Delete(b, id).value.movimientos == ms;
    forall i | 0 <= i < |ms| ensures ms[i] == b.movimientos[if i < k then i else i + 1] {
    }
    forall i, j | 0 <= i < j < |ms| ensures ms[i].id != ms[j].id {
      var i' := if i < k then i else i + 1;
      var j' := if j < k then j else j + 1;
      assert ms[i] == b.movimientos[i'] && ms[j] == b.movimientos[j'];
    }
  }

  /** Inserting a movement keeps every goal's offset: the saved amount moves with the sum. */
  lemma InsertKeepsOffset(b: Book, ahorroId: nat, importe: int, fecha: string, tipo: string, descripcion: Option<string>, g: nat)
    requires fecha != "" && tipo != "" && g in b.ahorrado
    ensures var r := Push(b, 0, ahorroId, importe, fecha, tipo, descripcion).value;
      g in r.ahorrado && Offset(r, g) == Offset(b, g)
  {
    var m := Movement(b.nextId, ahorroId, importe, fecha, tipo, descripcion);
    MovedTotalConcat(b.movimientos, [m], g);
    MovedTotalSingle(m, g);
  }

  /** Deleting a movement keeps every goal's offset. */
  lemma DeleteKeepsOffset(b: Book, id: nat, g: nat)
    requires Delete(b, id).Success? && g in b.ahorrado
    ensures g in Delete(b, id).value.ahorrado && Offset(Delete(b, id).value, g) == Offset(b, g)
  {
    var k := Find(b.movimientos, id).value;
    MovedTotalRemove(b.movimientos, k, g);
  }

  /**
   * Updating a movement as written adds the new amount on top of the old
   * one: a movement of 100.00 edited to 150.00 leaves its goal 100.00 above
   * the sum of its movements.
   */
  lemma UpdateCountsTwice()
    ensures var m := Movement(1, 7, 10000, "2024-01-01", "deposito", None);
      var b := Book(map[7 := 10000], [m], 2);
      var r := Push(b, 1, 7, 15000, "2024-01-01", "deposito", None);
      r.Success? && r.value.ahorrado[7] == 25000 && MovedTotal(r.value.movimientos, 7) == 15000 &&
      Offset(b, 7) == 0 && Offset(r.value, 7) == 10000
  {
    var m := Movement(1, 7, 10000, "2024-01-01", "deposito", None);
    var b := Book(map[7 := 10000], [m], 2);
    MovedTotalSingle(m, 7);
    var r := Push(b, 1, 7, 15000, "2024-01-01", "deposito", None).value;
    assert Find(b.movimientos, 1) == Some(0);
    assert r.movimientos == [m.(importe := 15000)];
    MovedTotalSingle(m.(importe := 15000), 7);
  }

  /**
   * The evidently intended update: the goal of the edited movement gains
   * the difference between the new and the old amount; an unknown id
   * changes nothing. Inserts are as written.
   */
  function PushCorrected(b: Book, id: nat, ahorroId: nat, importe: int, fecha: string, tipo: string, descripcion: Option<string>): (r: Result<Book>)
    ensures fecha == "" || tipo == "" <==> r == Failure(MissingFields)
    ensures r.Success? ==> r.value.movimientos == WrittenMovements(b, id, ahorroId, importe, fecha, tipo, descripcion)
  {
    if fecha == "" || tipo == "" then Failure(MissingFields)
    else if id == 0 then Push(b, id, ahorroId, importe, fecha, tipo, descripcion)
    else match Find(b.movimientos, id)
      case None => Success(b)
      case Some(k) =>
        var old_ := b.movimientos[k];
        Success(b.(ahorrado := AddTo(b.ahorrado, old_.ahorroId, importe - old_.importe),
                   movimientos := WrittenMovements(b, id, ahorroId, importe, fecha, tipo, descripcion)))
  }

  /** With the corrected update every push keeps every goal's offset. */
  lemma PushCorrectedKeepsOffset(b: Book, id: nat, ahorroId: nat, importe: int, fecha: string, tipo: string, descripcion: Option<string>, g: nat)
    requires PushCorrected(b, id, ahorroId, importe, fecha, tipo, descripcion).Success? && g in b.ahorrado
    ensures var r := PushCorrected(b, id, ahorroId, importe, fecha, tipo, descripcion).value;
      g in r.ahorrado && Offset(r, g) == Offset(b, g)
  {
    if id == 0 {
      InsertKeepsOffset(b, ahorroId, importe, fecha, tipo, descripcion, g);
    } else if Find(b.movimientos, id).Some? {
      var k := Find(b.movimientos, id).value;
      var m := b.movimientos[k];
      var m' := m.(importe := importe, fecha := fecha, tipo := tipo,
                   descripcion := if descripcion.Some? then descripcion else m.descripcion);
      MovedTotalReplace(b.movimientos, k, m', g);
    }
  }

  /** The corrected push writes the same movements and ids as the one written, so it keeps the book valid. */
  lemma PushCorrectedValid(b: Book, id: nat, ahorroId: nat, importe: int, fecha: string, tipo: string, descripcion: Option<string>)
    requires ValidBook(b) && PushCorrected(b, id, ahorroId, importe, fecha, tipo, descripcion).Success?
    ensures ValidBook(PushCorrected(b, id, ahorroId, importe, fecha, tipo, descripcion).value)
  {
    PushValid(b, id, ahorroId, importe, fecha, tipo, descripcion);
  }

  /** `deleteSavings`: the listed goals go (a single id is wrapped first); an empty list is an SQL error. */
  function DeleteGoals(b: Book, arg: IdArg<nat>): (r: Result<Book>)
    ensures AsArray(arg) == [] <==> r.Failure?
    ensures r.Success? ==> r.value.movimientos == b.movimientos
    ensures r.Success? ==> forall g :: g in r.value.ahorrado <==> g in b.ahorrado && g !in AsArray(arg)
  {
    var ids := AsArray(arg);
    if ids == [] then Failure("SQL syntax error: empty id list")
    else Success(b.(ahorrado := map g | g in b.ahorrado && g !in ids :: b.ahorrado[g]))
  }

  /** The two tables, updated in place by each operation. */
  class SavingsStore {
    var ahorrado: map<nat, int>
    var movimientos: seq<Movement>
    var nextId: nat

    function Contents(): Book
      reads this
    {
      Book(ahorrado, movimientos, nextId)
    }

    ghost predicate Valid()
      reads this
    {
      ValidBook(Contents())
    }

    constructor ()
      ensures Valid() && ahorrado == map[] && movimientos == [] && nextId == 1
    {
      ahorrado := map[];
      movimientos := [];
      nextId := 1;
    }

    /**
     * `pushMovimiento` with the corrected update (`PushCorrected`): the
     * movement is written, then its goal's saved amount moves by what the
     * movement adds.
     */
    method PushMovimiento(id: nat, ahorroId: nat, importe: int, fecha: string, tipo: string, descripcion: Option<string>)
      returns (out: Result<()>)
      requires Valid()
      modifies this
      ensures Valid()
      ensures var r := PushCorrected(old(Contents()), id, ahorroId, importe, fecha, tipo, descripcion);
        if r.Failure? then out == Failure(r.error) && Contents() == old(Contents())
        else out == Success(()) && Contents() == r.value
    {
      if fecha == "" || tipo == "" {
        return Failure(MissingFields);
      }
      PushCorrectedValid(Contents(), id, ahorroId, importe, fecha, tipo, descripcion);
      if id == 0 {
        movimientos := movimientos + [Movement(nextId, ahorroId, importe, fecha, tipo, descripcion)];
        nextId := nextId + 1;
        if ahorroId in ahorrado {
          ahorrado := ahorrado[ahorroId := ahorrado[ahorroId] + importe];
        }
      } else {
        var found := Find(movimientos, id);
        if found.Some? {
          var m := movimientos[found.value];
          movimientos := WrittenMovements(Contents(), id, ahorroId, importe, fecha, tipo, descripcion);
          if m.ahorroId in ahorrado {
            ahorrado := ahorrado[m.ahorroId := ahorrado[m.ahorroId] + (importe - m.importe)];
          }
        }
      }
      out := Success(());
    }

    /** `deleteMovimiento`: the amount is read, the movement deleted, and the amount taken off its goal. */
    method DeleteMovimiento(id: nat) returns (out: Result<()>)
      requires Valid()
      modifies this
      ensures Valid()
      ensures var r := Delete(old(Contents()), id);
        if r.Failure? then out == Failure(r.error) && Contents() == old(Contents())
        else out == Success(()) && Contents() == r.value
    {
      var found := Find(movimientos, id);
      if found.None? {
        return Failure(MovementNotFound);
      }
      DeleteValid(Contents(), id);
      var k := found.value;
      var m := movimientos[k];
      movimientos := movimientos[..k] + movimientos[k + 1..];
      if m.ahorroId in ahorrado {
        ahorrado := ahorrado[m.ahorroId := ahorrado[m.ahorroId] - m.importe];
      }
      out := Success(());
    }

    /** `deleteSavings` */
    method DeleteSavings(arg: IdArg<nat>) returns (out: Result<()>)
      requires Valid()
      modifies this
      ensures Valid()
      ensures var r := DeleteGoals(old(Contents()), arg);
        if r.Failure? then out == Failure(r.error) && Contents() == old(Contents())
        else out == Success(()) && Contents() == r.value
    {
      var ids := AsArray(arg);
      if ids == [] {
        return Failure("SQL syntax error: empty id list");
      }
      ahorrado := map g | g in ahorrado && g !in ids :: ahorrado[g];
      out := Success(());
    }
  }
}
