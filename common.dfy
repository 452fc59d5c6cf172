/** Shapes shared by every panel of the admin dashboard: optional values,
    what an awaited backend call hands back, JavaScript truthiness, and
    the random integers the mock generators draw. */
module Common {

  datatype Option<+T> = None | Some(value: T) {
    /** `x ?? default` / `x || default` for a value that is never falsy when present. */
    function GetOr(default: T): T {
      match this
      case Some(v) => v
      case None => default
    }
  }

  /** What one awaited query (`select`) hands back to a panel. */
  datatype Reply<+T> =
    | Rows(rows: seq<T>)  // `data` holds rows, `error` is null
    | NoData              // `data` is null, `error` is null
    | Failed              // `error` is set, `data` is null
    | Threw               // the awaited call raised an exception

  /** The `data` field as a panel destructures it (`const { data } = await ...`):
      null unless rows came back; an error object is ignored. */
  function DataOf<T>(r: Reply<T>): (d: Option<seq<T>>)
    ensures d.Some? <==> r.Rows?
    ensures r.Rows? ==> d.value == r.rows
  {
    match r
    case Rows(rows) => Some(rows)
    case _ => None
  }

  /** `data || []`: the rows, or the empty list when `data` is null. */
  function RowsOr<T>(r: Reply<T>): (rows: seq<T>)
    ensures r.Rows? ==> rows == r.rows
    ensures !r.Rows? ==> rows == []
  {
    DataOf(r).GetOr([])
  }

  /** What a write (insert, update or upsert) hands back. */
  datatype Write =
    | Written      // `error` is null
    | WriteFailed  // `error` is set
    | WriteThrew   // the awaited call raised an exception

  /** A JavaScript value as far as its truthiness matters here (NaN is not modelled). */
  datatype Value =
    | Undefined
    | Null
    | Bool(b: bool)
    | Num(n: int)
    | Str(s: string)
    | Obj(entries: map<string, string>)

  /** JavaScript's truthiness: `undefined`, `null`, `false`, `0` and `""` are falsy;
      every object, even an empty one, is truthy. */
  predicate Truthy(v: Value) {
    match v
    case Undefined => false
    case Null => false
    case Bool(b) => b
    case Num(n) => n != 0
    case Str(s) => s != ""
    case Obj(_) => true
  }

  /** `Math.floor(Math.random() * n)` for a draw `u` of `Math.random()`, which lies in [0, 1). */
  function FloorRandom(u: real, n: nat): (r: int)
    requires 0.0 <= u < 1.0 && 0 < n
    ensures 0 <= r < n
  {
    var x := u * n as real;
    assert x < n as real by {
      assert (1.0 - u) * n as real > 0.0;
    }
    x.Floor
  }
}
