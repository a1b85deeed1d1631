/**
 * Objects built by giving each element of a set its own key, as a loop that assigns
 * `obj[key(x)] = val(x)` for every `x` does when no two elements share a key.
 */
module Maps {

  /** No two elements of `xs` get the same key. */
  ghost predicate Injective<T, K>(xs: set<T>, key: T -> K) {
    forall p, q :: p in xs && q in xs && key(p) == key(q) ==> p == q
  }

  lemma InjectiveSubset<T, K>(xs: set<T>, ys: set<T>, key: T -> K)
    requires Injective(xs, key) && ys <= xs
    ensures Injective(ys, key)
  {
  }

  /** Writing one entry over a spread writes it into the object spread last. */
  lemma UpdateSpread<K, V>(base: map<K, V>, m: map<K, V>, k: K, v: V)
    ensures (base + m)[k := v] == base + m[k := v]
  {
  }

  /** The object holding `val(x)` under `key(x)` for every `x` in `xs`. */
  function KeyedBy<T, K, V>(xs: set<T>, key: T -> K, val: T -> V): (m: map<K, V>)
    requires Injective(xs, key)
    ensures forall x :: x in xs ==> key(x) in m && m[key(x)] == val(x)
    ensures forall k :: k in m ==> exists x :: x in xs && k == key(x)
  {
    map x | x in xs :: key(x) := val(x)
  }

  /** A key is taken exactly when some element has it. */
  lemma KeyedByHas<T, K, V>(xs: set<T>, key: T -> K, val: T -> V, x: T)
    requires Injective(xs + {x}, key)
    ensures key(x) in KeyedBy(xs, key, val) <==> x in xs
  {
    if key(x) in KeyedBy(xs, key, val) {
      var y :| y in xs && key(x) == key(y);
    }
  }

  /** One element more adds its entry under a key not taken before. */
  lemma KeyedByAdd<T, K, V>(xs: set<T>, key: T -> K, val: T -> V, x: T)
    requires Injective(xs + {x}, key) && x !in xs
    ensures key(x) !in KeyedBy(xs, key, val)
    ensures KeyedBy(xs + {x}, key, val) == KeyedBy(xs, key, val)[key(x) := val(x)]
  {
    KeyedByHas(xs, key, val, x);
    var before, after := KeyedBy(xs, key, val), KeyedBy(xs + {x}, key, val);
    var updated := before[key(x) := val(x)];
    forall k | k in after ensures k in updated && after[k] == updated[k] {
      var y :| y in xs + {x} && k == key(y);
    }
    forall k | k in updated ensures k in after {
      if k != key(x) {
        var y :| y in xs && k == key(y);
      }
    }
  }

  /** One entry per element. */
  lemma {:induction false} KeyedByCount<T, K, V>(xs: set<T>, key: T -> K, val: T -> V)
    requires Injective(xs, key)
    ensures |KeyedBy(xs, key, val)| == |xs|
    decreases xs
  {
    if xs == {} {
      assert KeyedBy(xs, key, val) == map[];
    } else {
      var x :| x in xs;
      var rest := xs - {x};
      assert rest + {x} == xs;
      KeyedByCount(rest, key, val);
      KeyedByAdd(rest, key, val, x);
    }
  }

  /** `{...base, ...over, [x]: v}`: which of the three each key's value comes from. */
  lemma Overlay<K, V>(base: map<K, V>, over: map<K, V>, x: K, v: V)
    ensures var r := base + over + map[x := v];
      && r.Keys == base.Keys + over.Keys + {x}
      && r[x] == v
      && (forall k :: k in over && k != x ==> r[k] == over[k])
      && (forall k :: k in base && k !in over && k != x ==> r[k] == base[k])
  {
  }
}
