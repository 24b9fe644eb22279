/**
 * A JavaScript object literal used as a lookup table: its entries in insertion order, which is
 * the order `Object.values` lists them in.
 */
module Tables {
  import opened Wrappers

  type Table<V> = seq<(string, V)>

  function Keys<V>(t: Table<V>): set<string> {
    set i | 0 <= i < |t| :: t[i].0
  }

  /** `Object.prototype.hasOwnProperty.call(t, k)`. */
  predicate HasKey<V>(t: Table<V>, k: string) {
    k in Keys(t)
  }

  /**
   * `t[k]` read as an own-property lookup: the value stored under `k`, or nothing. Keys that
   * JavaScript would find on `Object.prototype` read as missing here.
   */
  function Get<V>(t: Table<V>, k: string): (r: Option<V>)
    ensures r.Some? <==> HasKey(t, k)
    ensures r.Some? ==> exists i :: 0 <= i < |t| && t[i].0 == k && t[i].1 == r.value
  {
    if t == [] then None
    else if t[0].0 == k then Some(t[0].1)
    else
      assert Keys(t) == {t[0].0} + Keys(t[1..]) by {
        forall x | x in Keys(t) ensures x in {t[0].0} + Keys(t[1..]) {
          var i :| 0 <= i < |t| && t[i].0 == x;
          if i > 0 { assert t[1..][i - 1].0 == x; }
        }
      }
      Get(t[1..], k)
  }

  /** `Object.values(t)`. */
  function Values<V>(t: Table<V>): (vs: seq<V>)
    ensures |vs| == |t| && forall i :: 0 <= i < |t| ==> vs[i] == t[i].1
  {
    seq(|t|, i requires 0 <= i < |t| => t[i].1)
  }
}
