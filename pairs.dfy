/**
 * Key/value listings scanned front to back by a loop that overwrites a
 * variable on every matching key, so the LAST binding of a key wins.
 * Both the CloudFormation parameter scans and configparser's option lookup
 * behave this way.
 */
module Pairs {
  import opened Wrappers

  datatype Binding<+V> = Binding(key: string, value: V)

  /** Where the last binding of `key` sits, or -1 when no binding names it. */
  function LastIndex<V>(pairs: seq<Binding<V>>, key: string): (k: int)
    ensures -1 <= k < |pairs|
    ensures k >= 0 ==> pairs[k].key == key
    ensures forall j :: k < j < |pairs| ==> pairs[j].key != key
    decreases |pairs|
  {
    if |pairs| == 0 then -1
    else if pairs[|pairs| - 1].key == key then |pairs| - 1
    else LastIndex(pairs[..|pairs| - 1], key)
  }

  /** The value of the last binding of `key`, or None when no binding names it. */
  function LastValue<V>(pairs: seq<Binding<V>>, key: string): (r: Option<V>)
    ensures r.None? <==> forall i :: 0 <= i < |pairs| ==> pairs[i].key != key
    ensures r.Some? ==> exists i :: 0 <= i < |pairs| && pairs[i] == Binding(key, r.value)
                                 && forall j :: i < j < |pairs| ==> pairs[j].key != key
  {
    var k := LastIndex(pairs, key);
    if k < 0 then None else Some(pairs[k].value)
  }

  /**
   * What a dictionary entry holds after scanning `pairs` front to back:
   * every binding of `key` overwrites it, any other binding leaves it.
   */
  function Merge<V>(current: Option<V>, pairs: seq<Binding<V>>, key: string): Option<V>
    decreases |pairs|
  {
    if |pairs| == 0 then current
    else if pairs[|pairs| - 1].key == key then Some(pairs[|pairs| - 1].value)
    else Merge(current, pairs[..|pairs| - 1], key)
  }

  /** Scanning one more binding: the step a loop over the listing takes. */
  lemma MergeStep<V>(current: Option<V>, pairs: seq<Binding<V>>, b: Binding<V>, key: string)
    ensures Merge(current, pairs + [b], key)
         == if b.key == key then Some(b.value) else Merge(current, pairs, key)
  {
    assert (pairs + [b])[..|pairs|] == pairs;
  }

  /**
   * The scan's result: the entry is untouched when no binding names the key,
   * and holds the last binding's value when one does.
   */
  lemma {:induction false} MergeMeaning<V>(current: Option<V>, pairs: seq<Binding<V>>, key: string)
    ensures (forall i :: 0 <= i < |pairs| ==> pairs[i].key != key) ==> Merge(current, pairs, key) == current
    ensures (exists i :: 0 <= i < |pairs| && pairs[i].key == key) ==> Merge(current, pairs, key) == LastValue(pairs, key)
    decreases |pairs|
  {
    if |pairs| > 0 && pairs[|pairs| - 1].key != key {
      var init := pairs[..|pairs| - 1];
      MergeMeaning(current, init, key);
      assert forall i :: 0 <= i < |init| ==> init[i] == pairs[i];
    }
  }
}
