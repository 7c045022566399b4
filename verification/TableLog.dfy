/**
The file table seen as a log of its entries, newest first: the specification of ht.c.
*/
module TableLog {
  import opened CStrings
  import opened Options

  type Uri = CString

  datatype Entry<+V> = Entry(key: Uri, val: V)

  // The value most recently added under `key` and not deleted since.
  function Lookup<V>(log: seq<Entry<V>>, key: Uri): Option<V> {
    if log == [] then None
    else if log[0].key == key then Some(log[0].val)
    else Lookup(log[1..], key)
  }

  // The log without the newest entry for `key`.
  function Drop<V>(log: seq<Entry<V>>, key: Uri): seq<Entry<V>> {
    if log == [] then []
    else if log[0].key == key then log[1..]
    else [log[0]] + Drop(log[1..], key)
  }

  // All values stored under `key`, newest first: what lookups return as deletions uncover them.
  function Stack<V>(log: seq<Entry<V>>, key: Uri): seq<V> {
    if log == [] then []
    else (if log[0].key == key then [log[0].val] else []) + Stack(log[1..], key)
  }

  ghost predicate UniqueKeys<V>(log: seq<Entry<V>>) {
    forall i, j :: 0 <= i < j < |log| ==> log[i].key != log[j].key
  }
}
