/** The storage bucket and its cursor: entries ordered by the bytes of their keys. */
module Storage {
  import opened Domain
  import opened Ordering

  ghost predicate KeysSorted<V>(es: seq<(string, V)>) {
    forall i, k :: 0 <= i < k < |es| ==> Less(es[i].0, es[k].0)
  }

  /** The keyed table that a sequence of entries stands for; a later entry of a key hides an earlier one. */
  ghost function Table<V>(es: seq<(string, V)>): map<string, V> {
    if es == [] then map[] else Table(es[..|es| - 1])[es[|es| - 1].0 := es[|es| - 1].1]
  }

  predicate HasKey<V>(es: seq<(string, V)>, x: string) {
    exists i :: 0 <= i < |es| && es[i].0 == x
  }

  lemma {:induction false} TableHas<V>(es: seq<(string, V)>, key: string)
    requires KeysSorted(es)
    ensures key in Table(es) <==> HasKey(es, key)
    ensures forall i :: 0 <= i < |es| && es[i].0 == key ==> key in Table(es) && Table(es)[key] == es[i].1
    ensures |Table(es)| == |es|
  {
    if es != [] {
      var init, last := es[..|es| - 1], es[|es| - 1];
      TableHas(init, key);
      TableHas(init, last.0);
      forall i | 0 <= i < |init| ensures init[i].0 != last.0 {
        LessAsymmetric(es[i].0, last.0);
      }
      if key in Table(init) {
        var i :| 0 <= i < |init| && init[i].0 == key;
        assert es[i].0 == key;
      }
    }
  }

  /** The place of a key: entries before it are smaller, entries from it on are not. */
  ghost predicate IsPlace<V>(es: seq<(string, V)>, key: string, i: nat) {
    && i <= |es|
    && (forall k :: 0 <= k < i ==> Less(es[k].0, key))
    && (forall k :: i <= k < |es| ==> !Less(es[k].0, key))
  }

  function Put<V>(es: seq<(string, V)>, key: string, value: V, i: nat): seq<(string, V)>
    requires i <= |es|
  {
    if i < |es| && es[i].0 == key then es[i := (key, value)] else es[..i] + [(key, value)] + es[i..]
  }

  lemma PutKeepsSorted<V>(es: seq<(string, V)>, key: string, value: V, i: nat)
    requires KeysSorted(es) && IsPlace(es, key, i)
    ensures KeysSorted(Put(es, key, value, i))
  {
    forall k | i <= k < |es| && es[k].0 != key ensures Less(key, es[k].0) { LessTotal(key, es[k].0); }
    if i < |es| && es[i].0 != key {
      assert forall k :: i <= k < |es| ==> es[k].0 != key by {
        forall k | i < k < |es| ensures es[k].0 != key { LessAsymmetric(key, es[i].0); }
      }
    }
  }

  /** Entries of other keys are moved, not lost or added. */
  lemma PutMoves<V>(es: seq<(string, V)>, key: string, value: V, i: nat, x: string)
    requires i <= |es| && x != key
    ensures HasKey(Put(es, key, value, i), x) <==> HasKey(es, x)
    ensures forall k :: 0 <= k < |es| && es[k].0 == x ==> es[k] in Put(es, key, value, i)
  {
    var es' := Put(es, key, value, i);
    forall k | 0 <= k < |es| && es[k].0 == x ensures es[k] in es' && HasKey(es', x) {
      assert es'[if |es'| == |es| || k < i then k else k + 1] == es[k];
    }
    forall k | 0 <= k < |es'| && es'[k].0 == x ensures HasKey(es, x) {
      assert es[if |es'| == |es| || k < i then k else k - 1] == es'[k];
    }
  }

  lemma PutUpdatesAt<V>(es: seq<(string, V)>, key: string, value: V, i: nat, x: string)
    requires KeysSorted(es) && IsPlace(es, key, i)
    ensures Lookup(Table(Put(es, key, value, i)), x) == Lookup(Table(es)[key := value], x)
  {
    var es' := Put(es, key, value, i);
    PutKeepsSorted(es, key, value, i);
    TableHas(es', x);
    TableHas(es, x);
    if x == key {
      assert es'[i] == (key, value);
    } else {
      PutMoves(es, key, value, i, x);
      if HasKey(es, x) {
        var k :| 0 <= k < |es| && es[k].0 == x;
        var n :| 0 <= n < |es'| && es'[n] == es[k];
      }
    }
  }

  /** Storing a value changes the table at its key and nowhere else. */
  lemma PutIsUpdate<V>(es: seq<(string, V)>, key: string, value: V, i: nat)
    requires KeysSorted(es) && IsPlace(es, key, i)
    ensures Table(Put(es, key, value, i)) == Table(es)[key := value]
  {
    var after, expected := Table(Put(es, key, value, i)), Table(es)[key := value];
    forall x ensures Lookup(after, x) == Lookup(expected, x) { PutUpdatesAt(es, key, value, i, x); }
    assert forall x :: x in after ==> Lookup(after, x) == Lookup(expected, x);
    assert forall x :: x in expected ==> Lookup(after, x) == Lookup(expected, x);
  }

  class Bucket<V> {
    var entries: seq<(string, V)>

    ghost predicate Valid()
      reads this
    {
      KeysSorted(entries)
    }

    ghost function Contents(): map<string, V>
      reads this
    {
      Table(entries)
    }

    constructor ()
      ensures Valid() && Contents() == map[]
    {
      entries := [];
    }

    method Seek(key: string) returns (i: nat)
      requires Valid()
      ensures IsPlace(entries, key, i)
    {
      i := 0;
      while i < |entries| && Less(entries[i].0, key)
        invariant i <= |entries| && forall k :: 0 <= k < i ==> Less(entries[k].0, key)
      {
        i := i + 1;
      }
      forall k | i <= k < |entries| ensures !Less(entries[k].0, key) {
        if i < k {
          LessAsymmetric(entries[i].0, entries[k].0);
          if Less(entries[k].0, key) { LessTransitive(entries[i].0, entries[k].0, key); }
        }
      }
    }

    method Size() returns (n: nat)
      requires Valid()
      ensures n == |Contents()|
    {
      TableHas(entries, "");
      n := |entries|;
    }

    method Load(key: string) returns (value: Option<V>)
      requires Valid()
      ensures value == Lookup(Contents(), key)
    {
      var i := Seek(key);
      TableHas(entries, key);
      if i < |entries| && entries[i].0 == key {
        value := Some(entries[i].1);
      } else {
        forall k | 0 <= k < |entries| ensures entries[k].0 != key {
          if k < i { LessAsymmetric(entries[k].0, key); }
          if i < k {
            LessTotal(entries[i].0, key);
            LessTransitive(key, entries[i].0, entries[k].0);
            LessAsymmetric(key, entries[k].0);
          }
        }
        value := None;
      }
    }

    method Store(key: string, value: V)
      requires Valid()
      modifies this
      ensures Valid() && Contents() == old(Contents())[key := value]
    {
      var i := Seek(key);
      PutKeepsSorted(entries, key, value, i);
      PutIsUpdate(entries, key, value, i);
      entries := Put(entries, key, value, i);
    }

    /** A cursor reads the bucket as it is now: it holds a read transaction. */
    method All() returns (cursor: Cursor<V>)
      ensures fresh(cursor) && cursor.snapshot == entries
    {
      cursor := new Cursor(entries);
    }
  }

  class Cursor<V> {
    const snapshot: seq<(string, V)>
    var position: nat

    constructor (snapshot: seq<(string, V)>)
      ensures this.snapshot == snapshot
    {
      this.snapshot := snapshot;
      position := 0;
    }

    /** The value under the cursor, None past the last one. */
    function Current(): Option<V>
      reads this
    {
      if position < |snapshot| then Some(snapshot[position].1) else None
    }

    method First() returns (value: Option<V>)
      modifies this
      ensures position == 0 && value == Current()
    {
      position := 0;
      value := Current();
    }

    method Next() returns (value: Option<V>)
      modifies this
      ensures position == old(position) + 1 && value == Current()
    {
      position := position + 1;
      value := Current();
    }
  }
}
