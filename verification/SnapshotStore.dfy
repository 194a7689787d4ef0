/** The snapshot store of the sandbox host, as MockManager specifies it: snapshots filed under
    "dataset@name", each with the number it was created under. */
module SnapshotStore {
  import opened Wrappers

  datatype StoreError =
    Injected | InvalidName | DatasetExists | DatasetNotFound | SnapshotNotFound | SnapshotExists | SnapshotHeld

  datatype Snap = Snap(name: string, dataset: string, tags: set<string>, number: nat)

  // ---- names ----

  predicate AlphaNumeric(c: char) {
    'a' <= c <= 'z' || 'A' <= c <= 'Z' || '0' <= c <= '9'
  }

  predicate SnapshotChar(c: char) {
    AlphaNumeric(c) || c == '_' || c == '.' || c == '-'
  }

  predicate ValidSnapshotName(s: string) {
    && 1 <= |s| <= 255
    && AlphaNumeric(s[0])
    && forall i | 0 <= i < |s| :: SnapshotChar(s[i])
  }

  /** The length of the path component that ends before position `i`. */
  function PartLength(s: string, i: nat): nat
    requires i <= |s|
  {
    if i == 0 || s[i - 1] == '/' then 0 else 1 + PartLength(s, i - 1)
  }

  function LongestPart(s: string, i: nat): nat
    requires i <= |s|
  {
    if i == 0 then 0
    else
      var here, before := PartLength(s, i), LongestPart(s, i - 1);
      if here > before then here else before
  }

  predicate ValidDatasetName(s: string) {
    && 1 <= |s| <= 1024
    && AlphaNumeric(s[0])
    && s[|s| - 1] != '/'
    && (forall i | 0 <= i < |s| :: SnapshotChar(s[i]) || s[i] == ':' || s[i] == '/')
    && (forall i | 0 <= i < |s| - 1 :: !(s[i] == '.' && s[i + 1] == '.') && !(s[i] == '/' && s[i + 1] == '/'))
    && LongestPart(s, |s|) <= 255
  }

  /** Where the first '@' stands. */
  function AtSign(s: string): (i: nat)
    ensures i <= |s| && (i < |s| ==> s[i] == '@') && '@' !in s[..i]
  {
    if s == [] || s[0] == '@' then 0
    else
      assert s[..1 + AtSign(s[1..])] == [s[0]] + s[1..][..AtSign(s[1..])];
      1 + AtSign(s[1..])
  }

  /** A dataset's name and a snapshot's name with an '@' between them. */
  predicate ValidFullName(s: string) {
    var i := AtSign(s);
    i < |s| && ValidDatasetName(s[..i]) && ValidSnapshotName(s[i + 1..])
  }

  function Key(dataset: string, name: string): string {
    dataset + "@" + name
  }

  /** The store finds a dataset's snapshots by the prefix "dataset@"; that is exact because
      dataset names have no '@'. */
  lemma PrefixIsDataset(dataset: string, d: string, name: string)
    requires '@' !in dataset && '@' !in d
    ensures dataset + "@" <= Key(d, name) <==> d == dataset
  {
    var key := Key(d, name);
    assert key[|d|] == '@';
    assert forall i :: 0 <= i < |d| ==> key[i] == d[i] && d[i] in d;
    if d == dataset {
      assert key[..|dataset| + 1] == dataset + "@";
    }
    if dataset + "@" <= key {
      assert forall i :: 0 <= i < |dataset| ==> key[i] == (dataset + "@")[i] == dataset[i] && dataset[i] in dataset;
      assert key[|dataset|] == (dataset + "@")[|dataset|] == '@';
      assert |d| == |dataset|;
      assert d == key[..|d|] == dataset;
    }
  }

  lemma KeyIsInjective(d: string, name: string, d': string, name': string)
    requires '@' !in d && '@' !in d' && Key(d, name) == Key(d', name')
    ensures d == d' && name == name'
  {
    PrefixIsDataset(d, d', name');
    assert d + "@" <= Key(d, name) by { PrefixIsDataset(d, d, name); }
    assert name == Key(d, name)[|d| + 1..];
    assert name' == Key(d', name')[|d'| + 1..];
  }

  // ---- creation order ----

  type Snaps = map<string, Snap>

  /** Snapshots are filed under their own key and numbered below the store's counter. */
  ghost predicate WellFiled(m: Snaps, next: nat) {
    forall k :: k in m ==> '@' !in m[k].dataset && k == Key(m[k].dataset, m[k].name) && m[k].number < next
  }

  /** `names` are exactly the dataset's snapshots, oldest first. */
  ghost predicate InOrder(names: seq<string>, m: Snaps, dataset: string) {
    && (forall i :: 0 <= i < |names| ==> Key(dataset, names[i]) in m)
    && (forall i, j :: 0 <= i < j < |names| ==>
          m[Key(dataset, names[i])].number < m[Key(dataset, names[j])].number)
    && (forall k :: k in m && m[k].dataset == dataset ==> m[k].name in names)
  }

  /** The oldest-first listing of a dataset is unique. */
  lemma {:induction false} OrderIsUnique(names: seq<string>, others: seq<string>, m: Snaps, dataset: string, next: nat)
    requires '@' !in dataset && WellFiled(m, next)
    requires InOrder(names, m, dataset) && InOrder(others, m, dataset)
    ensures names == others
    decreases |names|, 1
  {
    assert names == [] <==> others == [] by {
      SameMembers(names, others, m, dataset, next);
      assert names != [] ==> names[0] in others;
      assert others != [] ==> others[0] in names;
    }
    if names != [] {
      var n, o := |names| - 1, |others| - 1;
      assert names[n] == others[o] by {
        SameMembers(names, others, m, dataset, next);
        LastIsNewest(names, others, m, dataset, next);
      }
      ShorterAreSame(names, others, m, dataset, next);
      assert names == names[..n] + [names[n]] && others == others[..o] + [others[o]];
    }
  }

  lemma {:induction false} ShorterAreSame(names: seq<string>, others: seq<string>, m: Snaps, dataset: string, next: nat)
    requires '@' !in dataset && WellFiled(m, next)
    requires InOrder(names, m, dataset) && InOrder(others, m, dataset)
    requires names != [] && others != [] && names[|names| - 1] == others[|others| - 1]
    ensures names[..|names| - 1] == others[..|others| - 1]
    decreases |names|, 0
  {
    LastOff(names, m, dataset, next);
    LastOff(others, m, dataset, next);
    OrderIsUnique(names[..|names| - 1], others[..|others| - 1],
                  Without(m, Key(dataset, names[|names| - 1])), dataset, next);
  }

  lemma SameMembers(names: seq<string>, others: seq<string>, m: Snaps, dataset: string, next: nat)
    requires '@' !in dataset && WellFiled(m, next)
    requires InOrder(names, m, dataset) && InOrder(others, m, dataset)
    ensures forall x :: x in names <==> x in others
  {
    forall x
      ensures x in names <==> x in others
    {
      Listed(names, m, dataset, next, x);
      Listed(others, m, dataset, next, x);
    }
  }

  lemma LastIsNewest(names: seq<string>, others: seq<string>, m: Snaps, dataset: string, next: nat)
    requires '@' !in dataset && WellFiled(m, next) && names != [] && others != []
    requires InOrder(names, m, dataset) && InOrder(others, m, dataset)
    requires forall x :: x in names <==> x in others
    ensures names[|names| - 1] == others[|others| - 1]
  {
    LastIsLargest(names, m, dataset, others[|others| - 1]);
    LastIsLargest(others, m, dataset, names[|names| - 1]);
  }

  lemma LastIsLargest(names: seq<string>, m: Snaps, dataset: string, x: string)
    requires InOrder(names, m, dataset) && x in names
    ensures Key(dataset, x) in m && Key(dataset, names[|names| - 1]) in m
    ensures m[Key(dataset, x)].number <= m[Key(dataset, names[|names| - 1])].number
    ensures m[Key(dataset, x)].number == m[Key(dataset, names[|names| - 1])].number ==> x == names[|names| - 1]
  {
    var i :| 0 <= i < |names| && names[i] == x;
  }

  function Without(m: Snaps, key: string): Snaps {
    map k | k in m && k != key :: m[k]
  }

  lemma Listed(names: seq<string>, m: Snaps, dataset: string, next: nat, x: string)
    requires '@' !in dataset && WellFiled(m, next) && InOrder(names, m, dataset)
    ensures x in names <==> Key(dataset, x) in m && m[Key(dataset, x)].dataset == dataset
  {
    if x in names {
      var i :| 0 <= i < |names| && names[i] == x;
      assert Key(dataset, names[i]) in m;
      KeyIsInjective(m[Key(dataset, x)].dataset, m[Key(dataset, x)].name, dataset, x);
    } else if Key(dataset, x) in m {
      KeyIsInjective(m[Key(dataset, x)].dataset, m[Key(dataset, x)].name, dataset, x);
    }
  }

  lemma LastOff(names: seq<string>, m: Snaps, dataset: string, next: nat)
    requires '@' !in dataset && WellFiled(m, next) && InOrder(names, m, dataset) && names != []
    ensures WellFiled(Without(m, Key(dataset, names[|names| - 1])), next)
    ensures InOrder(names[..|names| - 1], Without(m, Key(dataset, names[|names| - 1])), dataset)
  {
    var last := names[|names| - 1];
    var cut := Without(m, Key(dataset, last));
    forall k | k in cut && cut[k].dataset == dataset
      ensures cut[k].name in names[..|names| - 1]
    {
      assert m[k].name in names && m[k].name != last;
    }
    assert forall i :: 0 <= i < |names| - 1 ==> Key(dataset, names[i]) != Key(dataset, last);
  }

  /** A new snapshot goes to the end of its dataset's listing. */
  lemma AppendInOrder(names: seq<string>, m: Snaps, dataset: string, next: nat, name: string)
    requires '@' !in dataset && WellFiled(m, next) && InOrder(names, m, dataset)
    requires Key(dataset, name) !in m
    ensures WellFiled(m[Key(dataset, name) := Snap(name, dataset, {}, next)], next + 1)
    ensures InOrder(names + [name], m[Key(dataset, name) := Snap(name, dataset, {}, next)], dataset)
  {
    var m' := m[Key(dataset, name) := Snap(name, dataset, {}, next)];
    forall i | 0 <= i < |names| + 1
      ensures Key(dataset, (names + [name])[i]) in m'
    {
    }
    forall k | k in m' && m'[k].dataset == dataset
      ensures m'[k].name in names + [name]
    {
      if k != Key(dataset, name) {
        assert m[k].name in names;
      } else {
        assert (names + [name])[|names|] == name;
      }
    }
  }

  /** What rolling a dataset back to a snapshot leaves in the store. */
  function Cut(m: Snaps, dataset: string, number: nat): Snaps {
    map k | k in m && !(m[k].dataset == dataset && m[k].number > number) :: m[k]
  }

  predicate Above(number: nat, limit: Option<nat>) {
    limit.None? || number > limit.value
  }

  /** What deleting a dataset's snapshots, or those above a number, leaves while the keys in
      `rest` have not been looked at. */
  function PartlyCut(m: Snaps, dataset: string, above: Option<nat>, rest: set<string>): Snaps {
    map k | k in m && (k in rest || !(m[k].dataset == dataset && Above(m[k].number, above))) :: m[k]
  }

  /** Rolling back to the k-th snapshot leaves the first k of the listing, and no others. */
  lemma CutInOrder(names: seq<string>, m: Snaps, dataset: string, next: nat, i: nat)
    requires '@' !in dataset && WellFiled(m, next) && InOrder(names, m, dataset) && i < |names|
    ensures InOrder(names[..i + 1], Cut(m, dataset, m[Key(dataset, names[i])].number), dataset)
    ensures WellFiled(Cut(m, dataset, m[Key(dataset, names[i])].number), next)
  {
    var cut := Cut(m, dataset, m[Key(dataset, names[i])].number);
    forall k | k in cut && cut[k].dataset == dataset
      ensures cut[k].name in names[..i + 1]
    {
      var j :| 0 <= j < |names| && names[j] == m[k].name;
      assert k == Key(dataset, names[j]);
      assert j <= i;
      assert names[..i + 1][j] == m[k].name;
    }
  }

  /** Deleting the oldest snapshot drops the head of the listing. */
  lemma DropInOrder(names: seq<string>, m: Snaps, dataset: string, next: nat)
    requires '@' !in dataset && WellFiled(m, next) && InOrder(names, m, dataset) && names != []
    ensures WellFiled(Without(m, Key(dataset, names[0])), next)
    ensures InOrder(names[1..], Without(m, Key(dataset, names[0])), dataset)
  {
    var m' := Without(m, Key(dataset, names[0]));
    forall i | 0 <= i < |names| - 1
      ensures Key(dataset, names[1..][i]) in m'
    {
      assert m[Key(dataset, names[0])].number < m[Key(dataset, names[i + 1])].number;
    }
    forall k | k in m' && m'[k].dataset == dataset
      ensures m'[k].name in names[1..]
    {
      assert m[k].name in names && m[k].name != names[0];
    }
  }

  /** The two stores hold the same snapshots of the dataset. */
  ghost predicate SameOn(m: Snaps, m': Snaps, dataset: string) {
    && (forall k :: k in m && m[k].dataset == dataset ==> k in m' && m'[k] == m[k])
    && (forall k :: k in m' && m'[k].dataset == dataset ==> k in m && m[k] == m'[k])
  }

  lemma SameOnKeepsOrder(names: seq<string>, m: Snaps, m': Snaps, dataset: string, next: nat)
    requires '@' !in dataset && WellFiled(m, next) && InOrder(names, m, dataset) && SameOn(m, m', dataset)
    ensures InOrder(names, m', dataset)
  {
    forall i | 0 <= i < |names|
      ensures Key(dataset, names[i]) in m' && m'[Key(dataset, names[i])] == m[Key(dataset, names[i])]
    {
      Listed(names, m, dataset, next, names[i]);
    }
  }

  // ---- the store as a value ----

  /** `errors` names the operations that are made to fail. */
  datatype Store = Store(datasets: set<string>, snaps: Snaps, errors: set<string>, next: nat)

  /** Snapshots are filed under their own keys and belong to datasets that exist. */
  ghost predicate GoodStore(st: Store) {
    WellFiled(st.snaps, st.next) && forall k :: k in st.snaps ==> st.snaps[k].dataset in st.datasets
  }

  function CloneError(st: Store, snapshot: string, dataset: string): Option<StoreError> {
    if "CloneFromSnapshot" in st.errors then Some(Injected)
    else if !ValidFullName(snapshot) || !ValidDatasetName(dataset) then Some(InvalidName)
    else if dataset in st.datasets then Some(DatasetExists)
    else if snapshot !in st.snaps then Some(SnapshotNotFound)
    else None
  }

  function AfterClone(st: Store, snapshot: string, dataset: string): Store {
    if CloneError(st, snapshot, dataset).Some? then st else st.(datasets := st.datasets + {dataset})
  }

  /** The operation `op` on a dataset that it only looks up. */
  function LookUpError(st: Store, op: string, dataset: string): Option<StoreError> {
    if op in st.errors then Some(Injected)
    else if !ValidDatasetName(dataset) then Some(InvalidName)
    else if dataset !in st.datasets then Some(DatasetNotFound)
    else None
  }

  function Emptied(m: Snaps, dataset: string): Snaps {
    map k | k in m && m[k].dataset != dataset :: m[k]
  }

  function AfterDestroyDataset(st: Store, dataset: string): Store {
    if LookUpError(st, "DestroyDataset", dataset).Some? then st
    else st.(datasets := st.datasets - {dataset}, snaps := Emptied(st.snaps, dataset))
  }

  function CreateError(st: Store, dataset: string, name: string): Option<StoreError> {
    if "CreateSnapshot" in st.errors then Some(Injected)
    else if !ValidDatasetName(dataset) || !ValidSnapshotName(name) then Some(InvalidName)
    else if dataset !in st.datasets then Some(DatasetNotFound)
    else if Key(dataset, name) in st.snaps then Some(SnapshotExists)
    else None
  }

  function AfterCreate(st: Store, dataset: string, name: string): Store {
    if CreateError(st, dataset, name).Some? then st
    else st.(snaps := st.snaps[Key(dataset, name) := Snap(name, dataset, {}, st.next)], next := st.next + 1)
  }

  function RollbackError(st: Store, dataset: string, name: string): Option<StoreError> {
    if "Rollback" in st.errors then Some(Injected)
    else if !ValidDatasetName(dataset) || !ValidSnapshotName(name) then Some(InvalidName)
    else if Key(dataset, name) !in st.snaps then Some(SnapshotNotFound)
    else None
  }

  function AfterRollback(st: Store, dataset: string, name: string, destroyLater: bool): Store {
    if RollbackError(st, dataset, name).Some? || !destroyLater then st
    else st.(snaps := Cut(st.snaps, dataset, st.snaps[Key(dataset, name)].number))
  }

  function DestroyError(st: Store, dataset: string, name: string): Option<StoreError> {
    if "DestroySnapshot" in st.errors then Some(Injected)
    else if !ValidDatasetName(dataset) || !ValidSnapshotName(name) then Some(InvalidName)
    else if Key(dataset, name) !in st.snaps then Some(SnapshotNotFound)
    else if st.snaps[Key(dataset, name)].tags != {} then Some(SnapshotHeld)
    else None
  }

  function AfterDestroy(st: Store, dataset: string, name: string): Store {
    if DestroyError(st, dataset, name).Some? then st else st.(snaps := Without(st.snaps, Key(dataset, name)))
  }

  // ---- the store ----

  class MockManager {
    var datasets: set<string>
    var snapshots: Snaps
    var errors: set<string>
    var next: nat

    function View(): Store
      reads this
    {
      Store(datasets, snapshots, errors, next)
    }

    ghost predicate Valid()
      reads this
    {
      GoodStore(View())
    }

    constructor ()
      ensures Valid() && View() == Store({}, map[], {}, 0)
    {
      datasets, snapshots, errors, next := {}, map[], {}, 0;
    }

    /** A clone starts without snapshots of its own. */
    method CloneFromSnapshot(snapshot: string, dataset: string) returns (err: Option<StoreError>)
      requires Valid()
      modifies this`datasets
      ensures Valid() && err == CloneError(old(View()), snapshot, dataset)
      ensures View() == AfterClone(old(View()), snapshot, dataset)
      ensures err.None? ==> InOrder([], snapshots, dataset)
    {
      if "CloneFromSnapshot" in errors {
        return Some(Injected);
      }
      if !ValidFullName(snapshot) || !ValidDatasetName(dataset) {
        return Some(InvalidName);
      }
      if dataset in datasets {
        return Some(DatasetExists);
      }
      if snapshot !in snapshots {
        return Some(SnapshotNotFound);
      }
      datasets := datasets + {dataset};
      return None;
    }

    /** Setting a property and asking for the mountpoint fail on the same conditions. */
    method LookUp(op: string, dataset: string) returns (err: Option<StoreError>)
      ensures err == LookUpError(View(), op, dataset)
    {
      if op in errors {
        return Some(Injected);
      }
      if !ValidDatasetName(dataset) {
        return Some(InvalidName);
      }
      if dataset !in datasets {
        return Some(DatasetNotFound);
      }
      return None;
    }

    method DestroyDataset(dataset: string) returns (err: Option<StoreError>)
      requires Valid()
      modifies this`datasets, this`snapshots
      ensures Valid() && err == LookUpError(old(View()), "DestroyDataset", dataset)
      ensures View() == AfterDestroyDataset(old(View()), dataset)
    {
      err := LookUp("DestroyDataset", dataset);
      if err.Some? {
        return;
      }
      assert '@' !in dataset;
      ghost var was := snapshots;
      DestroyMatching(dataset, None);
      assert snapshots == Emptied(was, dataset);
      datasets := datasets - {dataset};
    }

    method CreateSnapshot(dataset: string, name: string) returns (err: Option<StoreError>)
      requires Valid()
      modifies this`snapshots, this`next
      ensures Valid() && err == CreateError(old(View()), dataset, name)
      ensures View() == AfterCreate(old(View()), dataset, name)
    {
      if "CreateSnapshot" in errors {
        return Some(Injected);
      }
      if !ValidDatasetName(dataset) || !ValidSnapshotName(name) {
        return Some(InvalidName);
      }
      if dataset !in datasets {
        return Some(DatasetNotFound);
      }
      var key := dataset + "@" + name;
      if key in snapshots {
        return Some(SnapshotExists);
      }
      snapshots := snapshots[key := Snap(name, dataset, {}, next)];
      next := next + 1;
      return None;
    }

    method Rollback(dataset: string, name: string, destroyLater: bool) returns (err: Option<StoreError>)
      requires Valid()
      modifies this`snapshots
      ensures Valid() && err == RollbackError(old(View()), dataset, name)
      ensures View() == AfterRollback(old(View()), dataset, name, destroyLater)
    {
      if "Rollback" in errors {
        return Some(Injected);
      }
      if !ValidDatasetName(dataset) || !ValidSnapshotName(name) {
        return Some(InvalidName);
      }
      var target := dataset + "@" + name;
      if target !in snapshots {
        return Some(SnapshotNotFound);
      }
      if !destroyLater {
        return None;
      }
      assert '@' !in dataset;
      ghost var was, number := snapshots, snapshots[target].number;
      DestroyMatching(dataset, Some(snapshots[target].number));
      assert snapshots == Cut(was, dataset, number);
      return None;
    }

    /** The loops over the whole store: deletes the dataset's snapshots, or those above a number. */
    method DestroyMatching(dataset: string, above: Option<nat>)
      requires Valid() && '@' !in dataset
      modifies this`snapshots
      ensures Valid() && snapshots == PartlyCut(old(snapshots), dataset, above, {})
    {
      var rest := snapshots.Keys;
      while rest != {}
        invariant rest <= snapshots.Keys && Valid()
        invariant snapshots == PartlyCut(old(snapshots), dataset, above, rest)
      {
        var key :| key in rest;
        PrefixIsDataset(dataset, snapshots[key].dataset, snapshots[key].name);
        if dataset + "@" <= key && Above(snapshots[key].number, above) {
          snapshots := snapshots - {key};
        }
        rest := rest - {key};
      }
    }

    method DestroySnapshot(dataset: string, name: string) returns (err: Option<StoreError>)
      requires Valid()
      modifies this`snapshots
      ensures Valid() && err == DestroyError(old(View()), dataset, name)
      ensures View() == AfterDestroy(old(View()), dataset, name)
    {
      if "DestroySnapshot" in errors {
        return Some(Injected);
      }
      if !ValidDatasetName(dataset) || !ValidSnapshotName(name) {
        return Some(InvalidName);
      }
      var key := dataset + "@" + name;
      if key !in snapshots {
        return Some(SnapshotNotFound);
      }
      if snapshots[key].tags != {} {
        return Some(SnapshotHeld);
      }
      snapshots := snapshots - {key};
      return None;
    }
  }
}
