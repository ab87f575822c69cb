/**
 * The scalar cell writer of src/app/connection/types.rs. A cell is tried
 * against a fixed list of Rust types; the first type the column's type is
 * `compatible` with decides how the value is read and printed, and the
 * printed text is pushed onto the row's cells.
 *
 * The driver's type system is an oracle (`Wire`): which Rust types a column
 * type is compatible with, and what decoding a non-NULL value as one of them
 * and formatting it gives (None when the value does not decode). `row.get`
 * unwraps its result, so a decoding failure, or a NULL read as a
 * non-optional type, is a panic; it is modelled as an outcome of its own.
 */
module Types {
  import opened Wrappers
  import Utf8

  datatype TypeKind =
    | Simple
    | Pseudo
    | Domain(base: TypeInfo)
    | Composite(fields: seq<TypeInfo>)
    | Enum(values: seq<string>)
    | Range(element: TypeInfo)
    | Array(element: TypeInfo)

  datatype TypeInfo = TypeInfo(name: string, kind: TypeKind)

  /** A value as it comes off the wire: SQL NULL, or its raw bytes. */
  datatype Value = Null | Raw(bytes: seq<Utf8.byte>)

  /** The Rust types a cell is tried as. */
  datatype Candidate = Bool | String | I64 | I32 | I16 | I8 | F32 | F64 | BigDecimal | VecU8 | Unit

  /** The order `write_row_cell` tries them in. */
  const Order: seq<Candidate> := [Bool, String, I64, I32, I16, I8, F32, F64, BigDecimal, VecU8, Unit]

  /** The candidates printed with Display and read as `Option<K>`; the others are printed with Debug and read as `K`. */
  predicate ViaDisplay(k: Candidate)
  {
    !(k.VecU8? || k.Unit?)
  }

  /**
   * The driver's type system: whether a candidate is compatible with a
   * column type, the text a candidate prints for raw bytes (None when they
   * do not decode), the text a Debug candidate prints for NULL read as a
   * plain `K` (None when its decoder refuses NULL), and the array writer.
   */
  datatype Wire = Wire(
    compatible: (TypeInfo, Candidate) -> bool,
    show: (TypeInfo, Candidate, seq<Utf8.byte>) -> Option<string>,
    showNull: (TypeInfo, Candidate) -> Option<string>,
    writeArray: (TypeInfo, Value) -> seq<string>)

  /** Why `row.get` panics. */
  datatype Panic = UnexpectedNull | DecodeFailed

  /** The text a compatible candidate pushes for the value, or the panic reading it causes. */
  function CellText(w: Wire, ty: TypeInfo, v: Value, k: Candidate): (r: Result<string, Panic>)
    ensures v.Null? && ViaDisplay(k) ==> r == Ok("null")
    ensures v.Null? && !ViaDisplay(k) && w.showNull(ty, k).Some? ==> r == Ok(w.showNull(ty, k).value)
    ensures v.Null? && !ViaDisplay(k) && w.showNull(ty, k).None? ==> r == Err(UnexpectedNull)
    ensures v.Raw? && w.show(ty, k, v.bytes).Some? ==> r == Ok(w.show(ty, k, v.bytes).value)
    ensures v.Raw? && w.show(ty, k, v.bytes).None? ==> r == Err(DecodeFailed)
    ensures r.Err? ==> r.error == (if v.Null? then UnexpectedNull else DecodeFailed)
  {
    match v
    case Null =>
      if ViaDisplay(k) then Ok("null")
      else
        (match w.showNull(ty, k)
         case Some(t) => Ok(t)
         case None => Err(UnexpectedNull))
    case Raw(b) =>
      match w.show(ty, k, b)
      case Some(t) => Ok(t)
      case None => Err(DecodeFailed)
  }

  /** The position in `Order`, from `i` on, of the first candidate compatible with `ty`. */
  function FirstCompatibleFrom(w: Wire, ty: TypeInfo, i: nat): (r: Option<nat>)
    decreases |Order| - i
  {
    if i >= |Order| then None
    else if w.compatible(ty, Order[i]) then Some(i)
    else FirstCompatibleFrom(w, ty, i + 1)
  }

  /** The candidate found is compatible and every candidate before it (from `i` on) is not; None means none is. */
  lemma {:induction false} FirstCompatibleFromSpec(w: Wire, ty: TypeInfo, i: nat)
    ensures var r := FirstCompatibleFrom(w, ty, i);
      && (r.Some? ==> i <= r.value < |Order| && w.compatible(ty, Order[r.value]))
      && (r.Some? ==> forall m :: i <= m < r.value ==> !w.compatible(ty, Order[m]))
      && (r.None? ==> forall m :: i <= m < |Order| ==> !w.compatible(ty, Order[m]))
    decreases |Order| - i
  {
    if i < |Order| && !w.compatible(ty, Order[i]) {
      FirstCompatibleFromSpec(w, ty, i + 1);
    }
  }

  /** The one cell a deciding candidate contributes. */
  function CandidateCells(w: Wire, ty: TypeInfo, v: Value, k: Candidate): (r: Result<seq<string>, Panic>)
    ensures r.Ok? ==> |r.value| == 1
  {
    match CellText(w, ty, v, k)
    case Ok(t) => Ok([t])
    case Err(p) => Err(p)
  }

  /** The cells a Simple column contributes: none when no candidate fits, else the deciding candidate's text. */
  function ScalarCells(w: Wire, ty: TypeInfo, v: Value): (r: Result<seq<string>, Panic>)
    ensures r.Ok? ==> |r.value| <= 1
  {
    match FirstCompatibleFrom(w, ty, 0)
    case None => Ok([])
    case Some(j) => CandidateCells(w, ty, v, Order[j])
  }

  function Appended(data: seq<string>, r: Result<seq<string>, Panic>): Result<seq<string>, Panic>
  {
    match r
    case Ok(cells) => Ok(data + cells)
    case Err(p) => Err(p)
  }

  /** `write_via_display::<K>`: a compatible candidate reads `Option<K>`, and NULL prints as "null". */
  method WriteViaDisplay(w: Wire, ty: TypeInfo, v: Value, k: Candidate, data: seq<string>) returns (r: Result<(bool, seq<string>), Panic>)
    requires ViaDisplay(k)
    ensures r.Ok? ==> r.value.0 == w.compatible(ty, k)
    ensures !w.compatible(ty, k) ==> r == Ok((false, data))
    ensures w.compatible(ty, k) && v.Null? ==> r == Ok((true, data + ["null"]))
    ensures w.compatible(ty, k) && CellText(w, ty, v, k).Ok? ==> r == Ok((true, data + [CellText(w, ty, v, k).value]))
    ensures w.compatible(ty, k) ==> (r.Ok? <==> CellText(w, ty, v, k).Ok?)
    ensures r.Err? ==> w.compatible(ty, k) && v.Raw? && w.show(ty, k, v.bytes).None? && r.error == DecodeFailed
  {
    if w.compatible(ty, k) {
      var val: Option<string>;
      match v {
        case Null => val := None;
        case Raw(b) =>
          match w.show(ty, k, b) {
            case Some(t) => val := Some(t);
            case None => return Err(DecodeFailed);
          }
      }
      var text := if val.Some? then val.value else "null";
      return Ok((true, data + [text]));
    }
    return Ok((false, data));
  }

  /** `write_via_debug::<K>`: a compatible candidate reads a plain `K`, so NULL is the decoder's to accept or to panic on; it never prints "null". */
  method WriteViaDebug(w: Wire, ty: TypeInfo, v: Value, k: Candidate, data: seq<string>) returns (r: Result<(bool, seq<string>), Panic>)
    requires !ViaDisplay(k)
    ensures r.Ok? ==> r.value.0 == w.compatible(ty, k)
    ensures !w.compatible(ty, k) ==> r == Ok((false, data))
    ensures w.compatible(ty, k) && v.Null? ==>
      r == if w.showNull(ty, k).Some? then Ok((true, data + [w.showNull(ty, k).value])) else Err(UnexpectedNull)
    ensures w.compatible(ty, k) && CellText(w, ty, v, k).Ok? ==> r == Ok((true, data + [CellText(w, ty, v, k).value]))
    ensures w.compatible(ty, k) ==> (r.Ok? <==> CellText(w, ty, v, k).Ok?)
    ensures r.Err? ==> w.compatible(ty, k) && CellText(w, ty, v, k) == Err(r.error)
  {
    if w.compatible(ty, k) {
      match v {
        case Null =>
          match w.showNull(ty, k) {
            case Some(t) => return Ok((true, data + [t]));
            case None => return Err(UnexpectedNull);
          }
        case Raw(b) =>
          match w.show(ty, k, b) {
            case Some(t) => return Ok((true, data + [t]));
            case None => return Err(DecodeFailed);
          }
      }
    }
    return Ok((false, data));
  }

  /** One step of the chain: `done` when the candidate decided the cell (or panicked). */
  method TryCandidate(w: Wire, ty: TypeInfo, v: Value, k: Candidate, data: seq<string>) returns (done: bool, r: Result<seq<string>, Panic>)
    ensures done == w.compatible(ty, k)
    ensures done ==> r == Appended(data, CandidateCells(w, ty, v, k))
  {
    var attempt;
    if ViaDisplay(k) {
      attempt := WriteViaDisplay(w, ty, v, k, data);
    } else {
      attempt := WriteViaDebug(w, ty, v, k, data);
    }
    match attempt {
      case Ok((found, cells)) => done, r := found, Ok(cells);
      case Err(p) => done, r := true, Err(p);
    }
  }

  lemma OrderPositions()
    ensures |Order| == 11
    ensures Order[0] == Bool && Order[1] == String && Order[2] == I64 && Order[3] == I32
    ensures Order[4] == I16 && Order[5] == I8 && Order[6] == F32 && Order[7] == F64
    ensures Order[8] == BigDecimal && Order[9] == VecU8 && Order[10] == Unit
  {
  }

  lemma SkipIncompatible(w: Wire, ty: TypeInfo, i: nat)
    requires i < |Order| && !w.compatible(ty, Order[i])
    requires FirstCompatibleFrom(w, ty, 0) == FirstCompatibleFrom(w, ty, i)
    ensures FirstCompatibleFrom(w, ty, 0) == FirstCompatibleFrom(w, ty, i + 1)
  {
  }

  lemma DecidedAt(w: Wire, ty: TypeInfo, v: Value, i: nat, data: seq<string>)
    requires i < |Order| && w.compatible(ty, Order[i]) && FirstCompatibleFrom(w, ty, 0) == FirstCompatibleFrom(w, ty, i)
    ensures Appended(data, ScalarCells(w, ty, v)) == Appended(data, CandidateCells(w, ty, v, Order[i]))
  {
  }

  /**
   * `write_row_cell`: the candidates in `Order`, each tried only when all
   * before it were incompatible. The cells only grow, by at most one.
   */
  method WriteRowCell(w: Wire, ty: TypeInfo, v: Value, data: seq<string>) returns (r: Result<seq<string>, Panic>)
    ensures r == Appended(data, ScalarCells(w, ty, v))
    ensures FirstCompatibleFrom(w, ty, 0).None? ==> r == Ok(data)
    ensures r.Ok? ==> |data| <= |r.value| <= |data| + 1 && r.value[..|data|] == data
  {
    OrderPositions();
    var done;
    done, r := TryCandidate(w, ty, v, Bool, data);
    if done { DecidedAt(w, ty, v, 0, data); return; }
    SkipIncompatible(w, ty, 0);
    done, r := TryCandidate(w, ty, v, String, data);
    if done { DecidedAt(w, ty, v, 1, data); return; }
    SkipIncompatible(w, ty, 1);
    done, r := TryCandidate(w, ty, v, I64, data);
    if done { DecidedAt(w, ty, v, 2, data); return; }
    SkipIncompatible(w, ty, 2);
    done, r := TryCandidate(w, ty, v, I32, data);
    if done { DecidedAt(w, ty, v, 3, data); return; }
    SkipIncompatible(w, ty, 3);
    done, r := TryCandidate(w, ty, v, I16, data);
    if done { DecidedAt(w, ty, v, 4, data); return; }
    SkipIncompatible(w, ty, 4);
    done, r := TryCandidate(w, ty, v, I8, data);
    if done { DecidedAt(w, ty, v, 5, data); return; }
    SkipIncompatible(w, ty, 5);
    done, r := TryCandidate(w, ty, v, F32, data);
    if done { DecidedAt(w, ty, v, 6, data); return; }
    SkipIncompatible(w, ty, 6);
    done, r := TryCandidate(w, ty, v, F64, data);
    if done { DecidedAt(w, ty, v, 7, data); return; }
    SkipIncompatible(w, ty, 7);
    done, r := TryCandidate(w, ty, v, BigDecimal, data);
    if done { DecidedAt(w, ty, v, 8, data); return; }
    SkipIncompatible(w, ty, 8);
    done, r := TryCandidate(w, ty, v, VecU8, data);
    if done { DecidedAt(w, ty, v, 9, data); return; }
    SkipIncompatible(w, ty, 9);
    done, r := TryCandidate(w, ty, v, Unit, data);
    if done { DecidedAt(w, ty, v, 10, data); return; }
    SkipIncompatible(w, ty, 10);
    assert data + [] == data;
    r := Ok(data);
  }
}
