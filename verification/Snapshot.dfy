/** The connector snapshot: which registry entries it holds, in which order, and its text. */
module Snapshot {
  import opened Common
  import opened JsonText

  /** A header a server declares, and a server, as the catalog's filter keeps them. */
  datatype Header = Header(name: string, secret: bool, required: bool, template: Option<string>, hint: Option<string>)

  datatype Entry = Entry(
    key: string, title: Option<string>, description: string, website: Option<string>, url: string, transport: string,
    headers: seq<Header>)

  const FARM_SIZE: nat := 20

  // ----- the order of keys -----

  /** Strings in code point order. */
  predicate Less(a: string, b: string) {
    b != [] && (a == [] || a[0] < b[0] || (a[0] == b[0] && Less(a[1..], b[1..])))
  }

  lemma {:induction false} LessIsTotal(a: string, b: string)
    ensures Less(a, b) || Less(b, a) || a == b
  {
    if a != [] && b != [] && a[0] == b[0] {
      LessIsTotal(a[1..], b[1..]);
      assert a == [a[0]] + a[1..] && b == [b[0]] + b[1..];
    }
  }

  lemma {:induction false} LessIsStrict(a: string, b: string)
    requires Less(a, b)
    ensures a != b && !Less(b, a)
  {
    if a != [] && a[0] == b[0] {
      LessIsStrict(a[1..], b[1..]);
    }
  }

  lemma {:induction false} LessChains(a: string, b: string, c: string)
    requires Less(a, b) && Less(b, c)
    ensures Less(a, c)
  {
    if a != [] && a[0] == b[0] && b[0] == c[0] {
      LessChains(a[1..], b[1..], c[1..]);
    }
  }

  /** After `k` common characters, one string ends or has the smaller code point. */
  predicate BeforeAt(a: string, b: string, k: nat) {
    k <= |a| && k <= |b| && a[..k] == b[..k] && (if k < |a| then k < |b| && a[k] < b[k] else k < |b|)
  }

  lemma {:induction false} LessAt(a: string, b: string) returns (k: nat)
    requires Less(a, b)
    ensures BeforeAt(a, b, k)
  {
    k := 0;
    if a != [] && a[0] == b[0] {
      var m := LessAt(a[1..], b[1..]);
      k := m + 1;
      assert a[..k] == [a[0]] + a[1..][..m] && b[..k] == [b[0]] + b[1..][..m];
    }
  }

  lemma {:induction false} AtLess(a: string, b: string, k: nat)
    requires BeforeAt(a, b, k)
    ensures Less(a, b)
  {
    if k > 0 {
      assert a[..k][0] == b[..k][0];
      assert a[1..][..k - 1] == a[..k][1..] && b[1..][..k - 1] == b[..k][1..];
      AtLess(a[1..], b[1..], k - 1);
    }
  }

  /** `Less` is the order by code point. */
  lemma {:induction false} LessIff(a: string, b: string)
    ensures Less(a, b) <==> exists k: nat :: BeforeAt(a, b, k)
  {
    if Less(a, b) {
      var k := LessAt(a, b);
    }
    if k: nat :| BeforeAt(a, b, k) {
      AtLess(a, b, k);
    }
  }

  // ----- building -----

  /** The key's part before the first slash. */
  function Namespace(key: string): string {
    if key == [] || key[0] == '/' then [] else [key[0]] + Namespace(key[1..])
  }

  /** What stands before the first slash, or everything when there is none. */
  lemma {:induction false} NamespaceIs(key: string)
    ensures
      var n := |Namespace(key)|;
      n <= |key| && Namespace(key) == key[..n] && '/' !in key[..n] && (n == |key| || key[n] == '/')
  {
    if key != [] && key[0] != '/' {
      NamespaceIs(key[1..]);
      var n := |Namespace(key[1..])|;
      assert key[..n + 1] == [key[0]] + key[1..][..n];
    }
  }

  /** One entry per key, the last one seen. An item the filter refuses is `None`. */
  function Kept(items: seq<Option<Entry>>): map<string, Entry> {
    if items == [] then map[]
    else
      var before := Kept(items[..|items| - 1]);
      match items[|items| - 1]
      case None => before
      case Some(e) => before[e.key := e]
  }

  function Insert(key: string, keys: seq<string>): seq<string> {
    if keys == [] || Less(key, keys[0]) then [key] + keys
    else if keys[0] == key then keys
    else [keys[0]] + Insert(key, keys[1..])
  }

  /** `sorted(kept)`. */
  function SortedKeys(items: seq<Option<Entry>>): seq<string> {
    if items == [] then []
    else
      var before := SortedKeys(items[..|items| - 1]);
      match items[|items| - 1]
      case None => before
      case Some(e) => Insert(e.key, before)
  }

  /** `Counter(namespace of key for key in kept)[namespace]`. */
  function SizeOf(keys: seq<string>, namespace: string): nat {
    if keys == [] then 0 else (if Namespace(keys[0]) == namespace then 1 else 0) + SizeOf(keys[1..], namespace)
  }

  function Pick(keys: seq<string>, all: seq<string>, kept: map<string, Entry>): seq<Entry>
    requires forall k | k in keys :: k in kept
  {
    if keys == [] then []
    else if SizeOf(all, Namespace(keys[0])) <= FARM_SIZE then [kept[keys[0]]] + Pick(keys[1..], all, kept)
    else Pick(keys[1..], all, kept)
  }

  function Build(items: seq<Option<Entry>>): seq<Entry> {
    SortedKeysAreKept(items);
    Pick(SortedKeys(items), SortedKeys(items), Kept(items))
  }

  // ----- what building means -----

  ghost predicate Ascending(keys: seq<string>) {
    forall i, j | 0 <= i < j < |keys| :: Less(keys[i], keys[j])
  }

  lemma {:induction false} InsertSpec(key: string, keys: seq<string>)
    requires Ascending(keys)
    ensures Ascending(Insert(key, keys))
    ensures forall k :: k in Insert(key, keys) <==> k == key || k in keys
  {
    if keys != [] {
      assert forall k | k in keys :: k == keys[0] || k in keys[1..];
      if Less(key, keys[0]) {
        forall j | 0 < j < |keys| ensures Less(key, keys[j]) {
          LessChains(key, keys[0], keys[j]);
        }
      } else if keys[0] != key {
        LessIsTotal(key, keys[0]);
        InsertSpec(key, keys[1..]);
        var rest := Insert(key, keys[1..]);
        forall j | 0 <= j < |rest| ensures Less(keys[0], rest[j]) {
          assert rest[j] in rest;
          if rest[j] != key {
            var i :| 0 <= i < |keys[1..]| && keys[1..][i] == rest[j];
            assert keys[i + 1] == rest[j];
          }
        }
      }
    }
  }

  lemma {:induction false} SortedKeysAreKept(items: seq<Option<Entry>>)
    ensures Ascending(SortedKeys(items))
    ensures forall k :: k in SortedKeys(items) <==> k in Kept(items)
  {
    if items != [] {
      SortedKeysAreKept(items[..|items| - 1]);
      match items[|items| - 1]
      case None =>
      case Some(e) => InsertSpec(e.key, SortedKeys(items[..|items| - 1]));
    }
  }

  /** The last kept item with a key. */
  function LastWithKey(items: seq<Option<Entry>>, key: string): Option<Entry> {
    if items == [] then None
    else if items[|items| - 1].Some? && items[|items| - 1].value.key == key then items[|items| - 1]
    else LastWithKey(items[..|items| - 1], key)
  }

  lemma {:induction false} KeptIsLast(items: seq<Option<Entry>>, key: string)
    ensures key in Kept(items) <==> LastWithKey(items, key).Some?
    ensures key in Kept(items) ==> LastWithKey(items, key) == Some(Kept(items)[key]) && Kept(items)[key].key == key
  {
    if items != [] {
      KeptIsLast(items[..|items| - 1], key);
    }
  }

  /** The distinct kept keys of one namespace. */
  ghost function Family(items: seq<Option<Entry>>, namespace: string): set<string> {
    set k | k in Kept(items).Keys && Namespace(k) == namespace
  }

  ghost function Within(keys: seq<string>, namespace: string): set<string> {
    set k | k in keys && Namespace(k) == namespace
  }

  lemma {:induction false} SizeIsCardinality(keys: seq<string>, namespace: string)
    requires Ascending(keys)
    ensures SizeOf(keys, namespace) == |Within(keys, namespace)|
  {
    var whole := Within(keys, namespace);
    if keys == [] {
      assert whole == {};
    } else {
      SizeIsCardinality(keys[1..], namespace);
      var rest := Within(keys[1..], namespace);
      assert keys[0] !in keys[1..] by {
        if keys[0] in keys[1..] {
          var i :| 0 <= i < |keys[1..]| && keys[1..][i] == keys[0];
          LessIsStrict(keys[0], keys[i + 1]);
        }
      }
      assert forall k | k in keys :: k == keys[0] || k in keys[1..];
      if Namespace(keys[0]) == namespace {
        assert whole == rest + {keys[0]};
      } else {
        assert whole == rest;
      }
    }
  }

  lemma {:induction false} FamilySize(items: seq<Option<Entry>>, namespace: string)
    ensures SizeOf(SortedKeys(items), namespace) == |Family(items, namespace)|
  {
    SortedKeysAreKept(items);
    SizeIsCardinality(SortedKeys(items), namespace);
    assert Within(SortedKeys(items), namespace) == Family(items, namespace);
  }

  ghost predicate StrictlySorted(entries: seq<Entry>) {
    forall i, j | 0 <= i < j < |entries| :: Less(entries[i].key, entries[j].key)
  }

  /** A key belongs in the snapshot: some item with it was kept, and its namespace has at most
      twenty distinct kept keys. */
  ghost predicate Belongs(items: seq<Option<Entry>>, key: string) {
    LastWithKey(items, key).Some? && |Family(items, Namespace(key))| <= 20
  }

  /** The specification: sorted, exactly the keys that belong, each with its last item. */
  ghost predicate IsSnapshotOf(entries: seq<Entry>, items: seq<Option<Entry>>) {
    && StrictlySorted(entries)
    && (forall e | e in entries :: Belongs(items, e.key) && LastWithKey(items, e.key) == Some(e))
    && (forall k | k in Kept(items) && Belongs(items, k) :: exists e | e in entries :: e.key == k)
  }

  lemma {:induction false} PickSpec(keys: seq<string>, all: seq<string>, kept: map<string, Entry>)
    requires Ascending(keys) && forall k | k in keys :: k in kept && kept[k].key == k
    ensures StrictlySorted(Pick(keys, all, kept))
    ensures forall e | e in Pick(keys, all, kept) :: e.key in keys && kept[e.key] == e && SizeOf(all, Namespace(e.key)) <= FARM_SIZE
    ensures forall k | k in keys && SizeOf(all, Namespace(k)) <= FARM_SIZE :: kept[k] in Pick(keys, all, kept)
  {
    if keys != [] {
      PickSpec(keys[1..], all, kept);
      var rest := Pick(keys[1..], all, kept);
      assert keys[0] in keys;
      forall j | 0 <= j < |rest| ensures Less(keys[0], rest[j].key) {
        assert rest[j] in rest;
        var i :| 0 <= i < |keys[1..]| && keys[1..][i] == rest[j].key;
        assert keys[i + 1] == rest[j].key;
      }
    }
  }

  lemma {:induction false} BuildMeetsSpec(items: seq<Option<Entry>>)
    ensures IsSnapshotOf(Build(items), items)
  {
    SortedKeysAreKept(items);
    var keys, kept := SortedKeys(items), Kept(items);
    forall k | k in kept ensures kept[k].key == k && LastWithKey(items, k) == Some(kept[k]) {
      KeptIsLast(items, k);
    }
    PickSpec(keys, keys, kept);
    forall e | e in Build(items) ensures Belongs(items, e.key) && LastWithKey(items, e.key) == Some(e) {
      FamilySize(items, Namespace(e.key));
    }
    forall k | k in kept && Belongs(items, k) ensures exists e | e in Build(items) :: e.key == k {
      FamilySize(items, Namespace(k));
      assert kept[k] in Build(items);
    }
  }

  lemma {:induction false} SortedAreEqual(a: seq<Entry>, b: seq<Entry>)
    requires StrictlySorted(a) && StrictlySorted(b)
    requires forall e :: e in a <==> e in b
    ensures a == b
  {
    assert b != [] ==> b[0] in b && b[0] in a;
    if a != [] {
      assert a[0] in a && a[0] in b;
      assert b[0] in b && b[0] in a;
      FirstIsLeast(a, b[0]);
      FirstIsLeast(b, a[0]);
      if a[0] != b[0] {
        LessIsStrict(a[0].key, b[0].key);
      }
      WithoutFirst(a);
      WithoutFirst(b);
      SortedAreEqual(a[1..], b[1..]);
      assert a == [a[0]] + a[1..] && b == [b[0]] + b[1..];
    }
  }

  lemma {:induction false} FirstIsLeast(entries: seq<Entry>, e: Entry)
    requires StrictlySorted(entries) && e in entries
    ensures e == entries[0] || Less(entries[0].key, e.key)
  {
    var i :| 0 <= i < |entries| && entries[i] == e;
  }

  lemma {:induction false} WithoutFirst(entries: seq<Entry>)
    requires StrictlySorted(entries) && entries != []
    ensures StrictlySorted(entries[1..]) && forall e :: e in entries[1..] <==> e in entries && e != entries[0]
  {
    forall e | e in entries[1..] ensures e != entries[0] {
      var i :| 0 <= i < |entries[1..]| && entries[1..][i] == e;
      assert entries[i + 1] == e;
      LessIsStrict(entries[0].key, e.key);
    }
    assert forall e | e in entries :: e == entries[0] || e in entries[1..];
  }

  /** The specification leaves no choice: whatever meets it is what `build` returns. */
  lemma {:induction false} BuildIsTheOnlySnapshot(entries: seq<Entry>, items: seq<Option<Entry>>)
    requires IsSnapshotOf(entries, items)
    ensures entries == Build(items)
  {
    BuildMeetsSpec(items);
    SameMembers(entries, Build(items), items);
    SameMembers(Build(items), entries, items);
    SortedAreEqual(entries, Build(items));
  }

  lemma {:induction false} SameMembers(a: seq<Entry>, b: seq<Entry>, items: seq<Option<Entry>>)
    requires IsSnapshotOf(a, items) && IsSnapshotOf(b, items)
    ensures forall e | e in a :: e in b
  {
    forall e | e in a ensures e in b {
      KeptIsLast(items, e.key);
      assert Belongs(items, e.key) && e.key in Kept(items);
      var x :| x in b && x.key == e.key;
      assert LastWithKey(items, x.key) == Some(x);
    }
  }

  /** The items with one key, in order. */
  function OfKey(items: seq<Option<Entry>>, key: string): seq<Entry> {
    if items == [] then []
    else
      var before := OfKey(items[..|items| - 1], key);
      match items[|items| - 1]
      case None => before
      case Some(e) => if e.key == key then before + [e] else before
  }

  lemma {:induction false} LastOfKey(items: seq<Option<Entry>>, key: string)
    ensures LastWithKey(items, key) == if OfKey(items, key) == [] then None else Some(OfKey(items, key)[|OfKey(items, key)| - 1])
  {
    if items != [] {
      LastOfKey(items[..|items| - 1], key);
    }
  }

  /** Reordering the items without swapping two of the same key changes nothing. */
  lemma {:induction false} ReorderChangesNothing(items: seq<Option<Entry>>, other: seq<Option<Entry>>)
    requires forall k :: OfKey(items, k) == OfKey(other, k)
    ensures Build(items) == Build(other)
  {
    forall k ensures LastWithKey(items, k) == LastWithKey(other, k) && (k in Kept(items) <==> k in Kept(other)) {
      assert OfKey(items, k) == OfKey(other, k);
      LastOfKey(items, k);
      LastOfKey(other, k);
      KeptIsLast(items, k);
      KeptIsLast(other, k);
    }
    forall n ensures Family(items, n) == Family(other, n) {
    }
    BuildMeetsSpec(items);
    assert forall k :: Belongs(items, k) <==> Belongs(other, k);
    BuildIsTheOnlySnapshot(Build(items), other);
  }
}
