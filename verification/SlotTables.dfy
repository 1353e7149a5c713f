/** A fixed array of slots as a partial map from keys to values. */
module SlotTables {
  datatype Slot<+K, +V> = Free | Used(key: K, value: V)

  /** No key is used twice. */
  ghost predicate Distinct<K, V>(s: seq<Slot<K, V>>) {
    forall i, j :: 0 <= i < j < |s| && s[i].Used? && s[j].Used? ==> s[i].key != s[j].key
  }

  ghost function Table<K, V>(s: seq<Slot<K, V>>): map<K, V> {
    if s == [] then map[]
    else
      var rest := Table(s[..|s| - 1]);
      var last := s[|s| - 1];
      if last.Used? then rest[last.key := last.value] else rest
  }

  lemma {:induction false} AllFree<K, V>(s: seq<Slot<K, V>>)
    requires forall i :: 0 <= i < |s| ==> s[i].Free?
    ensures Table(s) == map[]
  {
    if s != [] {
      AllFree(s[..|s| - 1]);
    }
  }

  /** Every key comes from a used slot. */
  lemma {:induction false} SlotOf<K, V>(s: seq<Slot<K, V>>, k: K) returns (i: nat)
    requires k in Table(s)
    ensures i < |s| && s[i] == Used(k, Table(s)[k])
  {
    var n := |s| - 1;
    if s[n].Used? && s[n].key == k {
      i := n;
    } else {
      i := SlotOf(s[..n], k);
    }
  }

  /** Every used slot is in the table. */
  lemma {:induction false} KeyAt<K, V>(s: seq<Slot<K, V>>, i: nat)
    requires Distinct(s) && i < |s| && s[i].Used?
    ensures s[i].key in Table(s) && Table(s)[s[i].key] == s[i].value
  {
    var n := |s| - 1;
    if i < n {
      KeyAt(s[..n], i);
    }
  }

  /** The table is full exactly when no slot is free. */
  lemma {:induction false} FullExactly<K, V>(s: seq<Slot<K, V>>)
    requires Distinct(s)
    ensures |Table(s)| <= |s|
    ensures |Table(s)| == |s| <==> forall i :: 0 <= i < |s| ==> s[i].Used?
  {
    if s != [] {
      var n := |s| - 1;
      FullExactly(s[..n]);
      if s[n].Used? && s[n].key in Table(s[..n]) {
        var i := SlotOf(s[..n], s[n].key);
      }
    }
  }

  lemma SameTable<K, V>(s: seq<Slot<K, V>>, t: map<K, V>)
    requires Distinct(s)
    requires forall i :: 0 <= i < |s| && s[i].Used? ==> s[i].key in t && t[s[i].key] == s[i].value
    requires forall k :: k in t ==> exists i :: 0 <= i < |s| && s[i].Used? && s[i].key == k
    ensures Table(s) == t
  {
    forall k | k in t
      ensures k in Table(s) && Table(s)[k] == t[k]
    {
      var i :| 0 <= i < |s| && s[i].Used? && s[i].key == k;
      KeyAt(s, i);
    }
    forall k | k in Table(s)
      ensures k in t
    {
      var i := SlotOf(s, k);
    }
  }

  /** Using a free slot for a new key adds one entry. */
  lemma FillSlot<K, V>(s: seq<Slot<K, V>>, i: nat, k: K, v: V)
    requires Distinct(s) && i < |s| && s[i].Free? && k !in Table(s)
    ensures Distinct(s[i := Used(k, v)]) && Table(s[i := Used(k, v)]) == Table(s)[k := v]
  {
    var s' := s[i := Used(k, v)];
    forall j | 0 <= j < |s| && s[j].Used?
      ensures s[j].key != k && s[j].key in Table(s) && Table(s)[s[j].key] == s[j].value
    {
      KeyAt(s, j);
    }
    var t := Table(s)[k := v];
    forall k' | k' in t
      ensures exists j :: 0 <= j < |s'| && s'[j].Used? && s'[j].key == k'
    {
      if k' == k {
        assert s'[i].key == k;
      } else {
        var j := SlotOf(s, k');
        assert s'[j].key == k';
      }
    }
    SameTable(s', t);
  }

  /** Changing the value of a used slot changes one entry. */
  lemma SetSlot<K, V>(s: seq<Slot<K, V>>, i: nat, v: V)
    requires Distinct(s) && i < |s| && s[i].Used?
    ensures Distinct(s[i := Used(s[i].key, v)])
    ensures Table(s[i := Used(s[i].key, v)]) == Table(s)[s[i].key := v]
  {
    ClearSlot(s, i);
    var cleared := s[i := Free];
    FillSlot(cleared, i, s[i].key, v);
    assert cleared[i := Used(s[i].key, v)] == s[i := Used(s[i].key, v)];
    KeyAt(s, i);
    assert (Table(s) - {s[i].key})[s[i].key := v] == Table(s)[s[i].key := v];
  }

  /** Freeing a slot removes one entry. */
  lemma ClearSlot<K, V>(s: seq<Slot<K, V>>, i: nat)
    requires Distinct(s) && i < |s| && s[i].Used?
    ensures Distinct(s[i := Free]) && Table(s[i := Free]) == Table(s) - {s[i].key}
  {
    var s' := s[i := Free];
    forall j | 0 <= j < |s'| && s'[j].Used?
      ensures s'[j].key in Table(s) - {s[i].key} && Table(s)[s'[j].key] == s'[j].value
    {
      KeyAt(s, j);
    }
    forall k | k in Table(s) - {s[i].key}
      ensures exists j :: 0 <= j < |s'| && s'[j].Used? && s'[j].key == k
    {
      var j := SlotOf(s, k);
      assert s'[j].key == k;
    }
    SameTable(s', Table(s) - {s[i].key});
  }
}
