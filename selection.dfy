/**
 * The selection rule shared by the three AI strategies: one left-to-right pass
 * over a list whose entries may be null, keeping the entry whose key is
 * strictly greater than the best so far. Null entries are skipped and a tie
 * keeps the entry found first.
 */
module Selection {
  import opened Wrappers

  /** The key of every entry, None where the entry is null. */
  function Keys<T>(items: seq<Option<T>>, key: T -> real): (ks: seq<Option<real>>)
    ensures |ks| == |items|
    ensures forall i | 0 <= i < |items| :: ks[i].Some? == items[i].Some?
    ensures forall i | 0 <= i < |items| && items[i].Some? :: ks[i].value == key(items[i].value)
  {
    seq(|items|, i requires 0 <= i < |items| => if items[i].Some? then Some(key(items[i].value)) else None)
  }

  /** The keys of a prefix are the prefix of the keys. */
  lemma KeysPrefix<T>(items: seq<Option<T>>, key: T -> real, n: nat)
    requires n <= |items|
    ensures Keys(items[..n], key) == Keys(items, key)[..n]
  {
  }

  /**
   * The loop of the strategies as a left fold: the index the loop holds after
   * scanning all of `keys`.
   */
  function FirstArgMax(keys: seq<Option<real>>): (r: Option<nat>)
    ensures r.Some? ==> r.value < |keys| && keys[r.value].Some?
    decreases |keys|
  {
    if |keys| == 0 then None
    else
      var prev := FirstArgMax(keys[..|keys| - 1]);
      var last := keys[|keys| - 1];
      if last.None? then prev
      else if prev.None? || last.value > keys[prev.value].value then Some(|keys| - 1)
      else prev
  }

  predicate AllNull(keys: seq<Option<real>>) {
    forall j | 0 <= j < |keys| :: keys[j].None?
  }

  /** Entry `k` holds a greatest key, and every entry before it holds a smaller one. */
  ghost predicate IsFirstMax(keys: seq<Option<real>>, k: nat) {
    && k < |keys| && keys[k].Some?
    && (forall j | 0 <= j < |keys| && keys[j].Some? :: keys[j].value <= keys[k].value)
    && (forall j | 0 <= j < k && keys[j].Some? :: keys[j].value < keys[k].value)
  }

  /** Nothing is chosen exactly when every entry is null. */
  lemma {:induction false} FirstArgMaxNoneIffAllNull(keys: seq<Option<real>>)
    ensures FirstArgMax(keys).None? <==> AllNull(keys)
  {
    if |keys| > 0 {
      var init := keys[..|keys| - 1];
      FirstArgMaxNoneIffAllNull(init);
      if keys[|keys| - 1].None? {
        assert AllNull(init) ==> AllNull(keys) by {
          forall j | 0 <= j < |keys| ensures AllNull(init) ==> keys[j].None? {
            if j < |keys| - 1 { assert keys[j] == init[j]; }
          }
        }
        assert AllNull(keys) ==> AllNull(init) by {
          forall j | 0 <= j < |init| ensures AllNull(keys) ==> init[j].None? {
            assert keys[j] == init[j];
          }
        }
      }
    }
  }

  /** What the fold chooses is a first greatest entry. */
  lemma {:induction false} FirstArgMaxIsFirstMax(keys: seq<Option<real>>)
    requires FirstArgMax(keys).Some?
    ensures IsFirstMax(keys, FirstArgMax(keys).value)
  {
    var n := |keys| - 1;
    var init := keys[..n];
    var prev := FirstArgMax(init);
    var k := FirstArgMax(keys).value;
    if prev.Some? {
      FirstArgMaxIsFirstMax(init);
    } else {
      FirstArgMaxNoneIffAllNull(init);
    }
    forall j | 0 <= j < n ensures keys[j] == init[j] { }
  }

  /** At most one entry is a first greatest one. */
  lemma FirstMaxUnique(keys: seq<Option<real>>, k1: nat, k2: nat)
    requires IsFirstMax(keys, k1) && IsFirstMax(keys, k2)
    ensures k1 == k2
  {
  }

  /** The fold chooses `k` exactly when `k` is the first greatest entry. */
  lemma FirstArgMaxCharacterised(keys: seq<Option<real>>, k: nat)
    ensures FirstArgMax(keys) == Some(k) <==> IsFirstMax(keys, k)
  {
    if FirstArgMax(keys) == Some(k) {
      FirstArgMaxIsFirstMax(keys);
    }
    if IsFirstMax(keys, k) {
      FirstArgMaxNoneIffAllNull(keys);
      FirstArgMaxIsFirstMax(keys);
      FirstMaxUnique(keys, k, FirstArgMax(keys).value);
    }
  }

  /** Two key lists with the same null entries that order their entries alike. */
  ghost predicate SameOrder(a: seq<Option<real>>, b: seq<Option<real>>) {
    && |a| == |b|
    && (forall i | 0 <= i < |a| :: a[i].Some? == b[i].Some?)
    && (forall i, j | 0 <= i < |a| && 0 <= j < |a| && a[i].Some? && a[j].Some? ::
          a[i].value < a[j].value <==> b[i].value < b[j].value)
  }

  /** The choice depends only on how the keys compare, not on their magnitudes. */
  lemma {:induction false} FirstArgMaxSameOrder(a: seq<Option<real>>, b: seq<Option<real>>)
    requires SameOrder(a, b)
    ensures FirstArgMax(a) == FirstArgMax(b)
  {
    if |a| > 0 {
      var n := |a| - 1;
      assert SameOrder(a[..n], b[..n]) by {
        forall i | 0 <= i < n ensures a[..n][i] == a[i] && b[..n][i] == b[i] { }
      }
      FirstArgMaxSameOrder(a[..n], b[..n]);
    }
  }

  /** The entry the fold chooses, or None. */
  function Pick<T>(items: seq<Option<T>>, key: T -> real): (r: Option<T>)
    ensures r.None? <==> FirstArgMax(Keys(items, key)).None?
    ensures r.Some? ==> r == items[FirstArgMax(Keys(items, key)).value]
  {
    var k := FirstArgMax(Keys(items, key));
    if k.None? then None else items[k.value]
  }
}
