/** Byte-string keys in the order of the source's ordered maps, and the key windows that the
    fuzzy lookups scan. */
module OrderedKeys {
  import opened MachineInts

  type Key = Bytes

  predicate Leq(a: Key, b: Key) {
    if a == [] then true
    else if b == [] then false
    else a[0] < b[0] || (a[0] == b[0] && Leq(a[1..], b[1..]))
  }

  predicate Less(a: Key, b: Key) {
    a != b && Leq(a, b)
  }

  /** Lexicographic order: the first difference decides, and a prefix comes first. */
  lemma {:induction false} LeqMeaning(a: Key, b: Key)
    ensures Leq(a, b) <==>
              || (|a| <= |b| && a == b[..|a|])
              || exists i {:trigger a[i]} {:trigger b[i]} :: 0 <= i < |a| && i < |b| && a[..i] == b[..i] && a[i] < b[i]
  {
    if a != [] && b != [] && a[0] == b[0] {
      LeqMeaning(a[1..], b[1..]);
      assert a == [a[0]] + a[1..] && b == [a[0]] + b[1..];
      SameHead(a[0], a[1..], b[1..]);
    }
  }

  lemma {:induction false} SameHead(head: byte, x: Key, y: Key)
    ensures var a, b := [head] + x, [head] + y;
            && (|a| <= |b| && a == b[..|a|] <==> |x| <= |y| && x == y[..|x|])
            && ((exists i {:trigger a[i]} {:trigger b[i]} :: 0 <= i < |a| && i < |b| && a[..i] == b[..i] && a[i] < b[i])
                <==>
                (exists i {:trigger x[i]} {:trigger y[i]} ::
                    0 <= i < |x| && i < |y| && x[..i] == y[..i] && x[i] < y[i]))
  {
    var a, b := [head] + x, [head] + y;
    if |x| <= |y| {
      assert b[..|a|] == [head] + y[..|x|];
      assert a[1..] == x && b[..|a|][1..] == y[..|x|];
    }
    if i :| 0 <= i < |x| && i < |y| && x[..i] == y[..i] && x[i] < y[i] {
      assert a[..i + 1] == [head] + x[..i] && b[..i + 1] == [head] + y[..i];
      assert a[i + 1] < b[i + 1];
    }
    if i :| 0 <= i < |a| && i < |b| && a[..i] == b[..i] && a[i] < b[i] {
      assert x[..i - 1] == a[..i][1..] && y[..i - 1] == b[..i][1..];
      assert x[i - 1] < y[i - 1];
    }
  }

  lemma {:induction false} LeqReflexive(a: Key)
    ensures Leq(a, a)
  {
    if a != [] {
      LeqReflexive(a[1..]);
    }
  }

  lemma {:induction false} LeqAntisymmetric(a: Key, b: Key)
    requires Leq(a, b) && Leq(b, a)
    ensures a == b
  {
    if a != [] {
      LeqAntisymmetric(a[1..], b[1..]);
      assert a == [a[0]] + a[1..] && b == [b[0]] + b[1..];
    }
  }

  lemma {:induction false} LeqTransitive(a: Key, b: Key, c: Key)
    requires Leq(a, b) && Leq(b, c)
    ensures Leq(a, c)
  {
    if a != [] && a[0] == b[0] && b[0] == c[0] {
      LeqTransitive(a[1..], b[1..], c[1..]);
    }
  }

  lemma {:induction false} LeqTotal(a: Key, b: Key)
    ensures Leq(a, b) || Leq(b, a)
  {
    if a != [] && b != [] && a[0] == b[0] {
      LeqTotal(a[1..], b[1..]);
    }
  }

  // ---------- windows ----------

  /** The key with its last `fuzzy` bytes zeroed. */
  function ZeroSuffix(key: Key, fuzzy: nat): (base: Key)
    requires fuzzy <= |key|
    ensures |base| == |key|
  {
    key[..|key| - fuzzy] + Zeros(fuzzy)
  }

  predicate InWindow(k: Key, key: Key, fuzzy: nat)
    requires fuzzy <= |key|
  {
    Leq(ZeroSuffix(key, fuzzy), k) && Leq(k, key)
  }

  function Window(keys: set<Key>, key: Key, fuzzy: nat): set<Key>
    requires fuzzy <= |key|
  {
    set k | k in keys && InWindow(k, key, fuzzy)
  }

  lemma {:induction false} ZerosAreLeast(n: nat, k: Key)
    requires |k| == n
    ensures Leq(Zeros(n), k)
    decreases n
  {
    if n > 0 {
      ZerosAreLeast(n - 1, k[1..]);
      assert Zeros(n)[1..] == Zeros(n - 1);
    }
  }

  /** The ordered scan of a window is well formed: it starts no later than it ends. */
  lemma {:induction false} WindowIsOrdered(key: Key, fuzzy: nat)
    requires fuzzy <= |key|
    ensures Leq(ZeroSuffix(key, fuzzy), key)
    decreases |key|
  {
    if fuzzy == |key| {
      assert ZeroSuffix(key, fuzzy) == Zeros(fuzzy);
      ZerosAreLeast(fuzzy, key);
    } else {
      WindowIsOrdered(key[1..], fuzzy);
      assert ZeroSuffix(key, fuzzy)[1..] == ZeroSuffix(key[1..], fuzzy);
    }
  }

  /** Among keys of the same length the window is what "fuzzy" promises: the same leading bytes,
      and trailing bytes that are at most the key's. */
  lemma {:induction false} WindowMeaning(k: Key, key: Key, fuzzy: nat)
    requires fuzzy <= |key| == |k|
    ensures InWindow(k, key, fuzzy) <==>
              var n := |key| - fuzzy;
              k[..n] == key[..n] && Leq(k[n..], key[n..])
    decreases |key|
  {
    var n := |key| - fuzzy;
    if n == 0 {
      assert ZeroSuffix(key, fuzzy) == Zeros(fuzzy);
      ZerosAreLeast(fuzzy, k);
      assert k[0..] == k && key[0..] == key;
    } else {
      var base := ZeroSuffix(key, fuzzy);
      assert base[1..] == ZeroSuffix(key[1..], fuzzy) && base[0] == key[0];
      WindowMeaning(k[1..], key[1..], fuzzy);
      assert k[1..][n - 1..] == k[n..] && key[1..][n - 1..] == key[n..];
      assert k[..n] == [k[0]] + k[1..][..n - 1] && key[..n] == [key[0]] + key[1..][..n - 1];
    }
  }

  /** With an all-zero suffix the window is the key itself. */
  lemma {:induction false} ZeroSuffixWindow(k: Key, key: Key, fuzzy: nat)
    requires fuzzy <= |key| && ZeroSuffix(key, fuzzy) == key
    ensures InWindow(k, key, fuzzy) <==> k == key
  {
    LeqReflexive(key);
    if InWindow(k, key, fuzzy) {
      LeqAntisymmetric(k, key);
    }
  }

  // ---------- extremes ----------

  ghost predicate IsGreatest(k: Key, keys: set<Key>) {
    k in keys && forall x <- keys :: Leq(x, k)
  }

  ghost predicate IsLeast(k: Key, keys: set<Key>) {
    k in keys && forall x <- keys :: Leq(k, x)
  }

  lemma {:induction false} GreatestUnique(a: Key, b: Key, keys: set<Key>)
    requires IsGreatest(a, keys) && IsGreatest(b, keys)
    ensures a == b
  {
    LeqAntisymmetric(a, b);
  }

  lemma {:induction false} LeastUnique(a: Key, b: Key, keys: set<Key>)
    requires IsLeast(a, keys) && IsLeast(b, keys)
    ensures a == b
  {
    LeqAntisymmetric(a, b);
  }

  lemma {:induction false} GreatestExists(keys: set<Key>)
    requires keys != {}
    ensures exists k :: IsGreatest(k, keys)
    decreases |keys|
  {
    var x :| x in keys;
    var rest := keys - {x};
    assert forall z :: z in keys <==> z in rest || z == x;
    LeqReflexive(x);
    if rest == {} {
      assert IsGreatest(x, keys);
    } else {
      GreatestExists(rest);
      var y :| IsGreatest(y, rest);
      LeqTotal(x, y);
      if Leq(x, y) {
        assert IsGreatest(y, keys);
      } else {
        forall z | z in keys
          ensures Leq(z, x)
        {
          if z != x {
            LeqTransitive(z, y, x);
          }
        }
        assert IsGreatest(x, keys);
      }
    }
  }

  lemma {:induction false} LeastExists(keys: set<Key>)
    requires keys != {}
    ensures exists k :: IsLeast(k, keys)
    decreases |keys|
  {
    var x :| x in keys;
    var rest := keys - {x};
    assert forall z :: z in keys <==> z in rest || z == x;
    LeqReflexive(x);
    if rest == {} {
      assert IsLeast(x, keys);
    } else {
      LeastExists(rest);
      var y :| IsLeast(y, rest);
      LeqTotal(x, y);
      if Leq(y, x) {
        assert IsLeast(y, keys);
      } else {
        forall z | z in keys
          ensures Leq(x, z)
        {
          if z != x {
            LeqTransitive(x, y, z);
          }
        }
        assert IsLeast(x, keys);
      }
    }
  }

  ghost function Greatest(keys: set<Key>): (k: Key)
    requires keys != {}
    ensures IsGreatest(k, keys)
  {
    GreatestExists(keys);
    var k :| IsGreatest(k, keys);
    k
  }

  ghost function Least(keys: set<Key>): (k: Key)
    requires keys != {}
    ensures IsLeast(k, keys)
  {
    LeastExists(keys);
    var k :| IsLeast(k, keys);
    k
  }

  // ---------- the ordered map's scan ----------

  ghost predicate Ascending(ks: seq<Key>) {
    forall i, j :: 0 <= i < j < |ks| ==> Less(ks[i], ks[j])
  }

  /** The first key of an ordered map. */
  method FirstKey(keys: set<Key>) returns (k: Key)
    requires keys != {}
    ensures IsLeast(k, keys)
  {
    LeastExists(keys);
    k :| k in keys && forall x <- keys :: Leq(k, x);
  }

  /** The keys of an ordered map, in order. */
  method Sorted(keys: set<Key>) returns (ks: seq<Key>)
    ensures Ascending(ks)
    ensures forall k :: k in ks <==> k in keys
  {
    ks := [];
    var rest := keys;
    while rest != {}
      invariant Ascending(ks)
      invariant forall k :: k in ks <==> k in keys - rest
      invariant rest <= keys
      invariant forall i, k :: 0 <= i < |ks| && k in rest ==> Less(ks[i], k)
      decreases |rest|
    {
      var k := FirstKey(rest);
      ks := ks + [k];
      rest := rest - {k};
    }
  }

  /** The loop that zeroes the suffix while adding it up. */
  method ZeroBaseKey(key: Key, fuzzy: nat) returns (base: Key, sum: nat)
    requires fuzzy <= |key|
    ensures base == ZeroSuffix(key, fuzzy)
    ensures sum == 0 <==> base == key
  {
    base, sum := key, 0;
    var n := |key|;
    for i := 0 to fuzzy
      invariant |base| == n
      invariant base[..n - i] == key[..n - i] && base[n - i..] == Zeros(i)
      invariant sum == 0 <==> base == key
    {
      var at := n - i - 1;
      sum := sum + key[at];
      assert base[at] == base[..n - i][at] == key[..n - i][at] == key[at];
      ghost var before := base;
      base := base[at := 0];
      assert base[at..] == [0] + before[n - i..];
      assert Zeros(i + 1) == [0] + Zeros(i);
      if before == key && key[at] == 0 {
        assert base == key;
      } else {
        assert base != key by {
          if before != key {
            var j :| 0 <= j < n && before[j] != key[j];
            assert j >= n - i;
          }
        }
      }
    }
    assert base == base[..n - fuzzy] + base[n - fuzzy..];
  }
}
