/**
 * The loosely typed dictionaries the code passes around (`Dict[str, Any]`):
 * template variables, chart data and their JSON rendering.
 */
module Values {
  import opened Wrappers
  import opened Dicts

  datatype Value =
    | VInt(i: int)
    | VReal(r: real)
    | VStr(s: string)
    | VBool(b: bool)
    | VNone

  /** A variable set: an insertion-ordered `dict` from names to values. */
  type VarBag = Dict<string, Value>

  /** `d.update(e)`: assign every entry of `e`, in `e`'s order. */
  function Update(d: VarBag, e: VarBag): (r: VarBag)
    ensures forall k :: HasKey(d, k) ==> HasKey(r, k)
    decreases |e|
  {
    if e == [] then d
    else
      var d1 := Put(d, e[0].0, e[0].1);
      forall k | HasKey(d, k) ensures HasKey(d1, k) {
        PutHasKey(d, e[0].0, e[0].1, k);
      }
      Update(d1, e[1..])
  }

  /** After `d.update(e)`, a key of `e` reads its last value in `e`, any other key reads as in `d`. */
  lemma {:induction false} UpdateGet(d: VarBag, e: VarBag, k: string)
    ensures Get(Update(d, e), k) == if LastGet(e, k).Some? then LastGet(e, k) else Get(d, k)
    decreases |e|
  {
    if e != [] {
      var d1 := Put(d, e[0].0, e[0].1);
      UpdateGet(d1, e[1..], k);
      if e[0].0 != k {
        PutOther(d, e[0].0, e[0].1, k);
      }
    }
  }

  /** The value the last entry with key `k` carries (a `dict` literal built from pairs keeps the last). */
  function LastGet(e: VarBag, k: string): Option<Value>
    decreases |e|
  {
    if e == [] then None
    else match LastGet(e[1..], k)
      case Some(v) => Some(v)
      case None => if e[0].0 == k then Some(e[0].1) else None
  }
}
