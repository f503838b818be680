/** Small datatypes and counting lemmas shared by the other modules. */
module Common {

  datatype Option<+T> = None | Some(value: T)

  datatype Result<+T, +E> = Ok(value: T) | Err(error: E)

  function GetOr<T>(o: Option<T>, default: T): T {
    if o.Some? then o.value else default
  }

  /** Adding one element changes the size of a set by at most one. */
  lemma CardinalityAdd<T>(s: set<T>, x: T)
    ensures |s + {x}| == |s| + (if x in s then 0 else 1)
  {
    if x in s {
      assert s + {x} == s;
    }
  }

  /** How many entries of a map satisfy a property. */
  ghost function Count<K, V>(m: map<K, V>, p: V -> bool): nat {
    |set k | k in m && p(m[k])|
  }

  ghost function Others<K, V>(m: map<K, V>, p: V -> bool, k: K): set<K> {
    set i | i in m && i != k && p(m[i])
  }

  lemma CountSplit<K, V>(m: map<K, V>, p: V -> bool, k: K)
    ensures Count(m, p) == |Others(m, p, k)| + (if k in m && p(m[k]) then 1 else 0)
  {
    var counted := set i | i in m && p(m[i]);
    CardinalityAdd(Others(m, p, k), k);
    assert counted == if k in m && p(m[k]) then Others(m, p, k) + {k} else Others(m, p, k);
  }

  lemma CountPut<K, V>(m: map<K, V>, p: V -> bool, k: K, v: V)
    ensures Count(m[k := v], p) == Count(m, p) - (if k in m && p(m[k]) then 1 else 0) + (if p(v) then 1 else 0)
  {
    CountSplit(m, p, k);
    CountSplit(m[k := v], p, k);
    assert Others(m[k := v], p, k) == Others(m, p, k);
  }

  lemma CountZero<K, V>(m: map<K, V>, p: V -> bool)
    ensures Count(m, p) == 0 <==> forall k | k in m :: !p(m[k])
  {
    var counted := set k | k in m && p(m[k]);
    if k :| k in m && p(m[k]) {
      assert k in counted;
    }
  }
}
