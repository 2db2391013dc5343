/**
 * Plain JavaScript objects whose values are strings, as maps from key to
 * value. A key that is absent stands for a missing property or `undefined`;
 * the spread `{...a, ...b}` is the map union `a + b` (the right side wins).
 */
module Objects {
  import opened Wrappers

  type Fields = map<string, string>

  /** `o[key]`, `undefined` when absent. */
  function Get(o: Fields, key: string): Option<string> {
    if key in o then Some(o[key]) else None
  }

  /** `{...o, [key]: v}`, where assigning `undefined` drops the key. */
  function Assign(o: Fields, key: string, v: Option<string>): (r: Fields)
    ensures Get(r, key) == v
    ensures forall k :: k != key ==> Get(r, k) == Get(o, k)
  {
    match v
    case Some(x) => o[key := x]
    case None => o - {key}
  }

  /** `{...a, ...b}`: what `b` has, and what `a` has elsewhere. */
  function Overlay(a: Fields, b: Fields): (r: Fields)
    ensures forall k :: Get(r, k) == if k in b then Some(b[k]) else Get(a, k)
  {
    a + b
  }
}
