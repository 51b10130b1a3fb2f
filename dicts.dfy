/** Python dicts with insertion order, as sequences of key/value pairs.
    Keyword arguments and config dicts never repeat a key. */
module Dicts {

  type Dict<V> = seq<(string, V)>

  /** k in d */
  predicate HasKey<V>(d: Dict<V>, k: string) {
    exists i :: 0 <= i < |d| && d[i].0 == k
  }

  /** d[k] */
  function Get<V>(d: Dict<V>, k: string): (v: V)
    requires HasKey(d, k)
    ensures (k, v) in d
  {
    if d[0].0 == k then d[0].1
    else
      assert HasKey(d[1..], k) by {
        var i :| 0 <= i < |d| && d[i].0 == k;
        assert d[1..][i - 1].0 == k;
      }
      Get(d[1..], k)
  }

  /** d.pop(k): the key is gone, every other entry stays and keeps its place. */
  function Remove<V(!new)>(d: Dict<V>, k: string): (r: Dict<V>)
    ensures !HasKey(r, k)
    ensures forall e :: e in r <==> e in d && e.0 != k
    ensures !HasKey(d, k) ==> r == d
  {
    if d == [] then []
    else if d[0].0 == k then Remove(d[1..], k)
    else
      assert !HasKey(d, k) ==> !HasKey(d[1..], k) by {
        if HasKey(d[1..], k) {
          var i :| 0 <= i < |d[1..]| && d[1..][i].0 == k;
          assert d[i + 1].0 == k;
        }
      }
      [d[0]] + Remove(d[1..], k)
  }

  /** With the key at exactly one position, popping it cuts out that entry
      and leaves the others in their order. */
  lemma {:induction false} RemoveOnly<V(!new)>(d: Dict<V>, k: string, i: nat)
    requires i < |d| && d[i].0 == k
    requires forall j :: 0 <= j < |d| && j != i ==> d[j].0 != k
    ensures Remove(d, k) == d[..i] + d[i + 1..]
    decreases |d|
  {
    var tail := d[1..];
    if i == 0 {
      assert !HasKey(tail, k) by {
        forall j | 0 <= j < |tail| ensures tail[j].0 != k { assert tail[j] == d[j + 1]; }
      }
    } else {
      assert Remove(d, k) == [d[0]] + Remove(tail, k);
      assert Remove(tail, k) == d[1..i] + d[i + 1..] by {
        forall j | 0 <= j < |tail| && j != i - 1 ensures tail[j].0 != k { assert tail[j] == d[j + 1]; }
        RemoveOnly(tail, k, i - 1);
        assert tail[..i - 1] == d[1..i] && tail[i..] == d[i + 1..];
      }
      assert d[..i] == [d[0]] + d[1..i];
    }
  }
}
