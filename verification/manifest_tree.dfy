/** The manifest tree builder (`parseDatabaseConfig`): numbers the flat
    record list 1..n, indexes folders by uuid, then appends every record to
    the top-level list or to its parent folder's `files`. Nested lists are
    modelled as lists of positions in the input, so a folder's `files`
    holds the positions of its children. */
module ManifestTree {
  import opened Basics
  import opened Strings

  /** One database record, with the fields the query projects. An absent
      `uuid` is None. */
  datatype Record = Record(
    docId: string, name: string, kind: string, digest: string, size: int, uploadTime: int,
    uuid: Option<string>)

  /** A record as returned: its display id, the record, and for folders the
      positions of its children in input order. */
  datatype Item = Item(id: nat, record: Record, files: Option<seq<nat>>)

  /** The built tree: every record as an item, and the top-level positions. */
  datatype Tree = Tree(items: seq<Item>, root: seq<nat>)

  /** Where a record is appended: the top-level list or a folder's `files`. */
  datatype Slot = Top | Folder(index: nat)

  /** The first record whose parent token names neither `root` nor a folder;
      looking its parent up fails, so no tree is returned. */
  datatype TreeError = UnknownParent(index: nat, token: string)

  predicate IsFolder(r: Record) {
    r.kind == "folder"
  }

  /** The key under which a folder is indexed: an absent uuid becomes the
      property name "undefined". */
  function Key(r: Record): string {
    match r.uuid
    case Some(u) => u
    case None => "undefined"
  }

  /** The parent token: the text of `_id` before its first `:`, or all of it. */
  function ParentToken(docId: string): (t: string)
    ensures t <= docId && ':' !in t
    ensures |t| < |docId| ==> docId[|t|] == ':'
  {
    match Find(docId, ':')
    case None => docId
    case Some(i) => docId[..i]
  }

  /** The token is the first piece of `_id.split(':')`. */
  lemma ParentTokenIsFirstPiece(docId: string)
    ensures ParentToken(docId) == Split(docId, ':')[0]
  {
  }

  /** An `_id` of the form `<parent>:<rest>` names `<parent>`. */
  lemma ParentTokenOf(parent: string, rest: string)
    requires ':' !in parent
    ensures ParentToken(parent + ":" + rest) == parent
  {
    var docId := parent + ":" + rest;
    assert docId[..|parent|] == parent;
    FindAt(docId, ':', |parent|);
  }

  /** The folder index after the first `n` records: every folder's key maps
      to the position of the last folder with that key. */
  function FolderIndex(recs: seq<Record>, n: nat): (mark: map<string, nat>)
    requires n <= |recs|
    ensures forall key | key in mark :: mark[key] < n && IsFolder(recs[mark[key]]) && Key(recs[mark[key]]) == key
    ensures forall k | 0 <= k < n && IsFolder(recs[k]) :: Key(recs[k]) in mark && k <= mark[Key(recs[k])]
  {
    if n == 0 then map[]
    else
      var mark := FolderIndex(recs, n - 1);
      if IsFolder(recs[n - 1]) then mark[Key(recs[n - 1]) := n - 1] else mark
  }

  /** The index of all folders. */
  function Mark(recs: seq<Record>): map<string, nat> {
    FolderIndex(recs, |recs|)
  }

  /** Where a record goes under `mark`: top level for token `root`, the
      indexed folder for a known token, nowhere otherwise. */
  function Target(mark: map<string, nat>, r: Record): Option<Slot> {
    var t := ParentToken(r.docId);
    if t == "root" then Some(Top)
    else if t in mark then Some(Folder(mark[t]))
    else None
  }

  /** The slot of every record under the index of all folders. */
  function Targets(recs: seq<Record>): (ts: seq<Option<Slot>>)
    ensures |ts| == |recs|
    ensures forall k | 0 <= k < |recs| :: ts[k] == Target(Mark(recs), recs[k])
  {
    var mark := Mark(recs);
    seq(|recs|, k requires 0 <= k < |recs| => Target(mark, recs[k]))
  }

  /** A record is only ever placed in a folder record. */
  lemma TargetsAreFolders(recs: seq<Record>)
    ensures var ts := Targets(recs);
      forall k | 0 <= k < |ts| && ts[k].Some? && ts[k].value.Folder? ::
        ts[k].value.index < |recs| && IsFolder(recs[ts[k].value.index])
  {
  }

  /** The positions below `n` whose slot is `slot`, in input order. */
  function Members(ts: seq<Option<Slot>>, slot: Slot, n: nat): (m: seq<nat>)
    requires n <= |ts|
    ensures forall i | 0 <= i < |m| :: m[i] < n
  {
    if n == 0 then []
    else Members(ts, slot, n - 1) + (if ts[n - 1] == Some(slot) then [n - 1] else [])
  }

  /** `t` is the tree built from `recs`: item k has id k + 1 and the k-th
      record; exactly the folders have `files`, holding the records placed
      in them; the top level holds the records placed there. */
  ghost predicate Built(recs: seq<Record>, t: Tree) {
    BuiltFrom(recs, Targets(recs), t)
  }

  /** `t` is the tree that places every record at its slot in `ts`. */
  ghost predicate BuiltFrom(recs: seq<Record>, ts: seq<Option<Slot>>, t: Tree) {
    && |ts| == |recs|
    && |t.items| == |recs|
    && (forall k | 0 <= k < |recs| :: ts[k].Some?)
    && t.root == Members(ts, Top, |recs|)
    && forall k | 0 <= k < |recs| ::
         t.items[k] == Item(k + 1, recs[k], if IsFolder(recs[k]) then Some(Members(ts, Folder(k), |recs|)) else None)
  }

  /** The first pass of `parseDatabaseConfig`: every record gets id k + 1,
      every folder an empty `files` list and an entry in the folder index. */
  method Number(recs: seq<Record>) returns (mark: map<string, nat>, items: seq<Item>)
    ensures mark == Mark(recs)
    ensures |items| == |recs|
    ensures forall j | 0 <= j < |recs| ::
      items[j] == Item(j + 1, recs[j], if IsFolder(recs[j]) then Some([]) else None)
  {
    mark := map[];
    items := [];
    var k := 0;
    while k < |recs|
      invariant k <= |recs|
      invariant mark == FolderIndex(recs, k)
      invariant |items| == k
      invariant forall j | 0 <= j < k ::
        items[j] == Item(j + 1, recs[j], if IsFolder(recs[j]) then Some([]) else None)
    {
      var item := Item(k + 1, recs[k], if IsFolder(recs[k]) then Some([]) else None);
      if IsFolder(recs[k]) {
        mark := mark[Key(recs[k]) := k];
      }
      items := items + [item];
      k := k + 1;
    }
  }

  /** The state of the second pass after `k` records: the top-level list
      and every folder's `files` hold the records placed so far, and all of
      them found their parent. */
  ghost predicate Progress(recs: seq<Record>, ts: seq<Option<Slot>>, items: seq<Item>, root: seq<nat>, k: nat) {
    && |ts| == |recs| == |items|
    && k <= |recs|
    && (forall j | 0 <= j < k :: ts[j].Some?)
    && root == Members(ts, Top, k)
    && forall j | 0 <= j < |recs| ::
         items[j] == Item(j + 1, recs[j], if IsFolder(recs[j]) then Some(Members(ts, Folder(j), k)) else None)
  }

  /** The second pass starts from the numbered items and an empty top level. */
  lemma Start(recs: seq<Record>, ts: seq<Option<Slot>>, items: seq<Item>)
    requires |ts| == |recs| == |items|
    requires forall j | 0 <= j < |recs| ::
      items[j] == Item(j + 1, recs[j], if IsFolder(recs[j]) then Some([]) else None)
    ensures Progress(recs, ts, items, [], 0)
  {
    forall j | 0 <= j < |recs|
      ensures items[j] == Item(j + 1, recs[j], if IsFolder(recs[j]) then Some(Members(ts, Folder(j), 0)) else None)
    {
      assert Members(ts, Folder(j), 0) == [];
    }
  }

  /** A record whose slot is the top level is appended to it; no folder changes. */
  lemma StepTop(recs: seq<Record>, ts: seq<Option<Slot>>, items: seq<Item>, root: seq<nat>, k: nat)
    requires Progress(recs, ts, items, root, k) && k < |recs|
    requires ts[k] == Some(Top)
    ensures Progress(recs, ts, items, root + [k], k + 1)
  {
    forall j | 0 <= j < |recs|
      ensures items[j] == Item(j + 1, recs[j], if IsFolder(recs[j]) then Some(Members(ts, Folder(j), k + 1)) else None)
    {
      assert Members(ts, Folder(j), k + 1) == Members(ts, Folder(j), k);
    }
  }

  /** A record whose slot is folder `f` is appended to its `files`, and to
      no other list. */
  lemma StepFolder(recs: seq<Record>, ts: seq<Option<Slot>>, items: seq<Item>, root: seq<nat>, k: nat, f: nat)
    requires Progress(recs, ts, items, root, k) && k < |recs|
    requires ts[k] == Some(Folder(f)) && f < |recs| && IsFolder(recs[f])
    ensures items[f].files.Some?
    ensures Progress(recs, ts, items[f := items[f].(files := Some(items[f].files.value + [k]))], root, k + 1)
  {
    var items' := items[f := items[f].(files := Some(items[f].files.value + [k]))];
    forall j | 0 <= j < |recs|
      ensures items'[j] == Item(j + 1, recs[j], if IsFolder(recs[j]) then Some(Members(ts, Folder(j), k + 1)) else None)
    {
      if j == f {
        assert Members(ts, Folder(j), k + 1) == Members(ts, Folder(j), k) + [k];
      } else {
        assert Members(ts, Folder(j), k + 1) == Members(ts, Folder(j), k);
        assert items'[j] == items[j];
      }
    }
    assert Members(ts, Top, k + 1) == Members(ts, Top, k);
  }

  /** After the last record the items and the top level form the tree. */
  lemma Finish(recs: seq<Record>, ts: seq<Option<Slot>>, items: seq<Item>, root: seq<nat>)
    requires Progress(recs, ts, items, root, |recs|)
    ensures BuiltFrom(recs, ts, Tree(items, root))
  {
  }

  /** Appends record `k` to the top level or to its folder's `files`. */
  method Place(recs: seq<Record>, ghost ts: seq<Option<Slot>>, items: seq<Item>, root: seq<nat>, k: nat, slot: Slot)
    returns (items': seq<Item>, root': seq<nat>)
    requires Progress(recs, ts, items, root, k) && k < |recs| && ts[k] == Some(slot)
    requires slot.Folder? ==> slot.index < |recs| && IsFolder(recs[slot.index])
    ensures Progress(recs, ts, items', root', k + 1)
  {
    match slot {
      case Top =>
        StepTop(recs, ts, items, root, k);
        items', root' := items, root + [k];
      case Folder(f) =>
        StepFolder(recs, ts, items, root, k, f);
        items', root' := items[f := items[f].(files := Some(items[f].files.value + [k]))], root;
    }
  }

  /** The second pass of `parseDatabaseConfig`: every record is appended
      to the list its parent token names, in input order; an unknown token
      stops the pass. */
  method Distribute(recs: seq<Record>, mark: map<string, nat>, ghost ts: seq<Option<Slot>>, numbered: seq<Item>)
    returns (res: Result<Tree, TreeError>)
    requires |ts| == |recs| && forall k {:trigger Target(mark, recs[k])} | 0 <= k < |recs| :: ts[k] == Target(mark, recs[k])
    requires forall k | 0 <= k < |ts| && ts[k].Some? && ts[k].value.Folder? ::
      ts[k].value.index < |recs| && IsFolder(recs[ts[k].value.index])
    requires Progress(recs, ts, numbered, [], 0)
    ensures res.Success? <==> forall k | 0 <= k < |ts| :: ts[k].Some?
    ensures res.Success? ==> BuiltFrom(recs, ts, res.value)
    ensures res.Failure? ==>
      && res.error.index < |ts|
      && res.error.token == ParentToken(recs[res.error.index].docId)
      && ts[res.error.index].None?
      && forall k | 0 <= k < res.error.index :: ts[k].Some?
  {
    var items := numbered;
    var root: seq<nat> := [];
    var k: nat := 0;
    while k < |recs|
      invariant k <= |recs|
      invariant Progress(recs, ts, items, root, k)
    {
      var target := Target(mark, recs[k]);
      assert target == ts[k];
      if target.None? {
        return Failure(UnknownParent(k, ParentToken(recs[k].docId)));
      }
      items, root := Place(recs, ts, items, root, k, target.value);
      k := k + 1;
    }
    assert k == |recs|;
    Finish(recs, ts, items, root);
    return Success(Tree(items, root));
  }

  /** `parseDatabaseConfig(array)`: numbers the records, then distributes
      them; the build fails at the first record whose parent is unknown. */
  method BuildTree(recs: seq<Record>) returns (res: Result<Tree, TreeError>)
    ensures res.Success? <==> forall k | 0 <= k < |recs| :: Target(Mark(recs), recs[k]).Some?
    ensures res.Success? ==> Built(recs, res.value)
    ensures res.Failure? ==>
      && res.error.index < |recs|
      && res.error.token == ParentToken(recs[res.error.index].docId)
      && Target(Mark(recs), recs[res.error.index]).None?
      && forall k | 0 <= k < res.error.index :: Target(Mark(recs), recs[k]).Some?
  {
    var mark, items := Number(recs);
    ghost var ts := Targets(recs);
    TargetsAreFolders(recs);
    Start(recs, ts, items);
    res := Distribute(recs, mark, ts, items);
  }

  /** A position is listed for a slot exactly when its slot is that one. */
  lemma {:induction false} MembersExact(ts: seq<Option<Slot>>, slot: Slot, n: nat, k: nat)
    requires n <= |ts|
    ensures k in Members(ts, slot, n) <==> k < n && ts[k] == Some(slot)
  {
    if n > 0 {
      MembersExact(ts, slot, n - 1, k);
    }
  }

  /** `m` is strictly increasing. */
  predicate Increasing(m: seq<nat>) {
    forall i, j | 0 <= i < j < |m| :: m[i] < m[j]
  }

  /** Every list is in input order, without repetition. */
  lemma {:induction false} MembersIncreasing(ts: seq<Option<Slot>>, slot: Slot, n: nat)
    requires n <= |ts|
    ensures Increasing(Members(ts, slot, n))
  {
    if n > 0 {
      MembersIncreasing(ts, slot, n - 1);
      var prev := Members(ts, slot, n - 1);
      var m := Members(ts, slot, n);
      assert m == prev + (if ts[n - 1] == Some(slot) then [n - 1] else []);
      forall i, j | 0 <= i < j < |m|
        ensures m[i] < m[j]
      {
        assert i < |prev|;
        assert m[i] == prev[i];
        assert prev[i] < n - 1;
        if j < |prev| {
          assert m[j] == prev[j];
          assert Increasing(prev);
          assert prev[i] < prev[j];
        } else {
          assert m[j] == n - 1;
        }
      }
    }
  }

  /** The list of a slot in a built tree. */
  function ListOf(t: Tree, slot: Slot): seq<nat> {
    match slot
    case Top => t.root
    case Folder(f) => if f < |t.items| && t.items[f].files.Some? then t.items[f].files.value else []
  }

  /** A strictly increasing list holds each element once. */
  lemma {:induction false} IncreasingOnce(m: seq<nat>, x: nat)
    requires Increasing(m)
    ensures multiset(m)[x] == if x in m then 1 else 0
  {
    if |m| > 0 {
      var last := m[|m| - 1];
      var init := m[..|m| - 1];
      assert m == init + [last];
      assert Increasing(init);
      IncreasingOnce(init, x);
      if x == last {
        assert x !in init;
      }
    }
  }

  /** Every record of a built tree appears exactly once, in the list of the
      slot it targets, and in no other list. */
  lemma PlacedOnce(recs: seq<Record>, t: Tree, slot: Slot, k: nat)
    requires Built(recs, t)
    requires k < |recs|
    ensures multiset(ListOf(t, slot))[k] == if Target(Mark(recs), recs[k]) == Some(slot) then 1 else 0
  {
    var ts := Targets(recs);
    var n := |recs|;
    TargetsAreFolders(recs);
    match slot
    case Top =>
      MembersIncreasing(ts, Top, n);
      MembersExact(ts, Top, n, k);
      IncreasingOnce(t.root, k);
    case Folder(f) =>
      if f < n && IsFolder(recs[f]) {
        MembersIncreasing(ts, slot, n);
        MembersExact(ts, slot, n, k);
        IncreasingOnce(ListOf(t, slot), k);
      } else {
        assert ts[k] != Some(slot);
      }
  }

  /** The children listed for position `f` of a built tree. */
  function Children(t: Tree, f: nat): seq<nat> {
    ListOf(t, Folder(f))
  }

  /** When every folder ranks below the records it holds (the folder graph
      is acyclic), every record is reached from the top level: there is a
      path from a top-level item through `files` lists down to it. */
  lemma {:induction false} Reachable(recs: seq<Record>, t: Tree, rank: nat -> nat, k: nat) returns (path: seq<nat>)
    requires Built(recs, t)
    requires forall j, f | 0 <= j < |recs| && Target(Mark(recs), recs[j]) == Some(Folder(f)) :: rank(f) < rank(j)
    requires k < |recs|
    ensures |path| >= 1 && path[0] in t.root && path[|path| - 1] == k
    ensures forall i | 0 <= i < |path| - 1 :: path[i + 1] in Children(t, path[i])
    decreases rank(k)
  {
    var ts := Targets(recs);
    var n := |recs|;
    TargetsAreFolders(recs);
    match ts[k].value
    case Top =>
      MembersExact(ts, Top, n, k);
      path := [k];
    case Folder(f) =>
      MembersExact(ts, Folder(f), n, k);
      var up := Reachable(recs, t, rank, f);
      path := up + [k];
      assert path[|path| - 2] == f;
  }

  /** A folder at the top level, and a file inside it. */
  const ExampleFolder := Record("root:1", "a", "folder", "", 0, 0, Some("u1"))
  const ExampleFile := Record("u1:2", "b.txt", "file", "d1", 10, 0, None)

  /** The folder goes to the top level, the file into the folder. */
  lemma ExampleTargets()
    ensures Targets([ExampleFolder, ExampleFile]) == [Some(Top), Some(Folder(0))]
  {
    assert "root" + ":" + "1" == "root:1";
    ParentTokenOf("root", "1");
    assert "u1" + ":" + "2" == "u1:2";
    ParentTokenOf("u1", "2");
    var recs := [ExampleFolder, ExampleFile];
    assert FolderIndex(recs, 1) == map["u1" := 0];
    assert Mark(recs) == map["u1" := 0];
    assert Target(Mark(recs), ExampleFile) == Some(Folder(0));
  }

  /** The tree of the example: the folder at the top holding the file. */
  lemma FolderWithOneFile()
    ensures Built([ExampleFolder, ExampleFile],
                  Tree([Item(1, ExampleFolder, Some([1])), Item(2, ExampleFile, None)], [0]))
  {
    ExampleTargets();
    ExampleLists();
  }

  /** Placing the folder at the top level and the file into it. */
  lemma ExampleLists()
    ensures BuiltFrom([ExampleFolder, ExampleFile], [Some(Top), Some(Folder(0))],
                      Tree([Item(1, ExampleFolder, Some([1])), Item(2, ExampleFile, None)], [0]))
  {
    var ts := [Some(Top), Some(Folder(0))];
    assert Members(ts, Top, 2) == [0];
    assert Members(ts, Folder(0), 2) == [1];
  }
}
