// LocUnorderedSetMap: a map from keys to non-empty value sets, with the bulk operations the
// subscription index is built from.
module SetMap {
  function Vals<K, V>(m: map<K, set<V>>, k: K): set<V> {
    if k in m then m[k] else {}
  }

  ghost predicate NoEmptySets<K, V>(m: map<K, set<V>>) {
    forall k :: k in m ==> m[k] != {}
  }

  // Every entry of `keys` loses `vals`; entries left empty disappear.
  ghost function Trimmed<K, V>(m: map<K, set<V>>, keys: set<K>, vals: set<V>): map<K, set<V>> {
    map k | k in m && !(k in keys && m[k] <= vals) :: if k in keys then m[k] - vals else m[k]
  }

  ghost function GoneKeys<K, V>(m: map<K, set<V>>, keys: set<K>, vals: set<V>): set<K> {
    set k | k in keys && k in m && m[k] <= vals
  }

  ghost function GoneVals<K, V>(m: map<K, set<V>>, keys: set<K>, vals: set<V>): set<V> {
    set k, v | k in keys && k in m && v in m[k] && v in vals :: v
  }

  // Every entry of `keys` gains `vals`.
  ghost function Extended<K, V>(m: map<K, set<V>>, keys: set<K>, vals: set<V>): map<K, set<V>> {
    if vals == {} then m
    else map k | k in m.Keys + keys :: if k in keys then Vals(m, k) + vals else m[k]
  }

  ghost function Replaced<K, V>(m: map<K, set<V>>, key: K, vals: set<V>): map<K, set<V>> {
    if vals == {} then m - {key} else m[key := vals]
  }

  lemma ExtendedVals<K, V>(m: map<K, set<V>>, keys: set<K>, vals: set<V>, k: K)
    ensures Vals(Extended(m, keys, vals), k) == if k in keys then Vals(m, k) + vals else Vals(m, k)
    ensures NoEmptySets(m) ==> NoEmptySets(Extended(m, keys, vals))
  {
    var end := Extended(m, keys, vals);
    if vals != {} {
      var v :| v in vals;
      forall j | j in end && j in keys
        ensures end[j] != {}
      {
        assert v in end[j];
      }
    }
  }

  lemma ReplacedVals<K, V>(m: map<K, set<V>>, key: K, vals: set<V>, k: K)
    ensures Vals(Replaced(m, key, vals), k) == if k == key then vals else Vals(m, k)
    ensures NoEmptySets(m) ==> NoEmptySets(Replaced(m, key, vals))
  {
  }

  class LocUnorderedSetMap<K(==), V(==)> {
    var mMap: map<K, set<V>>

    constructor ()
      ensures mMap == map[]
    {
      mMap := map[];
    }

    // Removes from `from` what is also in `vals`; `gone` is what was removed.
    static method TrimSet(from: set<V>, vals: set<V>) returns (trimmed: set<V>, gone: set<V>)
      ensures trimmed == from - vals && gone == from * vals
    {
      trimmed, gone := from, {};
      var todo := vals;
      while todo != {}
        invariant todo <= vals
        invariant trimmed == from - (vals - todo)
        invariant gone == from * (vals - todo)
      {
        var v :| v in todo;
        if v in trimmed {
          trimmed, gone := trimmed - {v}, gone + {v};
        }
        todo := todo - {v};
      }
    }

    // Takes the common elements out of both sets.
    static method RemoveAndReturnIntersect(s1: set<V>, s2: set<V>)
      returns (common: set<V>, rest1: set<V>, rest2: set<V>)
      ensures common == s1 * s2 && rest1 == s1 - s2 && rest2 == s2 - s1
    {
      common, rest1, rest2 := {}, s1, s2;
      var todo := s2;
      while todo != {}
        invariant todo <= s2
        invariant common == s1 * (s2 - todo)
        invariant rest1 == s1 - common && rest2 == s2 - common
      {
        var v :| v in todo;
        if v in rest1 {
          common, rest1, rest2 := common + {v}, rest1 - {v}, rest2 - {v};
        }
        todo := todo - {v};
      }
    }

    method Remove(key: K)
      modifies this
      ensures mMap == old(mMap) - {key}
    {
      mMap := mMap - {key};
    }

    // One entry loses `vals`; it is removed when nothing is left.
    method TrimEntry(key: K, vals: set<V>) returns (removed: bool, gone: set<V>)
      requires key in mMap
      modifies this
      ensures mMap == Trimmed(old(mMap), {key}, vals)
      ensures removed == (old(mMap)[key] <= vals) && gone == old(mMap)[key] * vals
    {
      var trimmed;
      trimmed, gone := TrimSet(mMap[key], vals);
      assert forall v :: v in mMap[key] ==> v in vals || v in trimmed;
      removed := trimmed == {};
      mMap := if removed then mMap - {key} else mMap[key := trimmed];
    }

    method TrimOrRemove(keys: set<K>, vals: set<V>) returns (goneKeys: set<K>, goneVals: set<V>)
      modifies this
      ensures mMap == Trimmed(old(mMap), keys, vals)
      ensures goneKeys == GoneKeys(old(mMap), keys, vals)
      ensures goneVals == GoneVals(old(mMap), keys, vals)
    {
      goneKeys, goneVals := {}, {};
      var todo := keys;
      ghost var done := {};
      while todo != {}
        invariant todo !! done && todo + done == keys
        invariant mMap == Trimmed(old(mMap), done, vals)
        invariant goneKeys == GoneKeys(old(mMap), done, vals)
        invariant goneVals == GoneVals(old(mMap), done, vals)
        decreases todo
      {
        var k :| k in todo;
        if k in mMap {
          var removed, gone := TrimEntry(k, vals);
          goneVals := goneVals + gone;
          goneKeys := if removed then goneKeys + {k} else goneKeys;
        }
        done := done + {k};
        todo := todo - {k};
      }
      assert done == keys;
    }

    method Add(key: K, vals: set<V>) returns (added: bool)
      modifies this
      ensures mMap == Extended(old(mMap), {key}, vals)
      ensures added == (vals != {} && key !in old(mMap))
    {
      added := false;
      if vals != {} {
        if key in mMap {
          mMap := mMap[key := mMap[key] + vals];
        } else {
          mMap := mMap[key := vals];
          added := true;
        }
        assert {} + vals == vals;
        assert mMap == Extended(old(mMap), {key}, vals);
      }
    }

    method AddAll(keys: set<K>, vals: set<V>) returns (newKeys: set<K>)
      modifies this
      ensures mMap == Extended(old(mMap), keys, vals)
      ensures newKeys == if vals == {} then {} else keys - old(mMap).Keys
    {
      newKeys := {};
      var todo := keys;
      while todo != {}
        invariant todo <= keys
        invariant mMap == Extended(old(mMap), keys - todo, vals)
        invariant newKeys == if vals == {} then {} else keys - todo - old(mMap).Keys
      {
        var k :| k in todo;
        var added := Add(k, vals);
        if added {
          newKeys := newKeys + {k};
        }
        todo := todo - {k};
      }
    }

    // Puts `newVals` under `key`.  Of the old and the new values, the common ones are returned, and the
    // new ones come back without them.
    method Update(key: K, newVals: set<V>) returns (gone: set<V>, rest: set<V>)
      modifies this
      ensures mMap == Replaced(old(mMap), key, newVals)
      ensures gone == Vals(old(mMap), key) * newVals && rest == newVals - Vals(old(mMap), key)
    {
      if newVals == {} {
        mMap := mMap - {key};
        gone, rest := {}, {};
      } else {
        var current := if key in mMap then mMap[key] else {};
        mMap := mMap[key := newVals];
        var ignored;
        gone, ignored, rest := RemoveAndReturnIntersect(current, newVals);
      }
    }
  }
}
