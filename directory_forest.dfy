/**
 * The lesson-plan directory forest: its nodes, the records it is rebuilt
 * from, the remote calls the directory view makes, and the pure steps of
 * the view (building the unfiled file nodes, filtering top-level files
 * out before a save, deciding drops, and collecting the deletions of a
 * subtree).
 */
module DirectoryForest {
  import opened Options

  type Id = string

  /** A node of the tree: a lesson-plan file (a leaf) or a directory. */
  datatype Node =
    | File(id: Id, title: string)
    | Dir(title: string, children: seq<Node>)

  /** A lesson-plan document; `isAdded` says whether it is filed in a directory. */
  datatype LessonPlan = LessonPlan(id: Id, name: string, isAdded: bool)

  /** The user's directory document. */
  datatype DirectoryDoc = DirectoryDoc(directories: seq<Node>)

  /** A remote method call, with its arguments. */
  datatype Call =
    | DirectoriesUpdate(userId: Id, forest: seq<Node>)
    | LessonPlansInsert(title: string)
    | LessonPlansRemove(id: Id)
    | DirectoryChange(id: Id, isAdded: bool)

  // ---------------------------------------------------------------------
  // Unfiled lesson plans as synthetic file nodes
  // ---------------------------------------------------------------------

  /** The map step: a file node for an unfiled record, null otherwise. */
  function FileObjectOf(lp: LessonPlan): (r: Option<Node>)
    ensures r.Some? <==> !lp.isAdded
    ensures r.Some? ==> r.value.File? && r.value.id == lp.id && r.value.title == lp.name
  {
    if lp.isAdded == false then Some(File(lp.id, lp.name)) else None
  }

  function Structs(lessonplans: seq<LessonPlan>): (r: seq<Option<Node>>)
    ensures |r| == |lessonplans|
    ensures forall i :: 0 <= i < |r| ==> (r[i].Some? <==> !lessonplans[i].isAdded)
  {
    seq(|lessonplans|, i requires 0 <= i < |lessonplans| => FileObjectOf(lessonplans[i]))
  }

  /** The filter step: drops the nulls and keeps the order of the rest. */
  function DropNulls(structs: seq<Option<Node>>): (r: seq<Node>)
    ensures |r| <= |structs|
    ensures forall n :: n in r <==> Some(n) in structs
  {
    if structs == [] then []
    else (if structs[0].Some? then [structs[0].value] else []) + DropNulls(structs[1..])
  }

  /** The file nodes for the lesson plans that are not in any directory. */
  function FileObjects(lessonplans: seq<LessonPlan>): (r: seq<Node>)
    ensures forall n :: n in r ==> n.File? && LessonPlan(n.id, n.title, false) in lessonplans
    ensures forall lp :: lp in lessonplans && !lp.isAdded ==> File(lp.id, lp.name) in r
  {
    var structs := Structs(lessonplans);
    assert forall n :: Some(n) in structs ==> n.File? && LessonPlan(n.id, n.title, false) in lessonplans;
    assert forall lp :: lp in lessonplans && !lp.isAdded ==> Some(File(lp.id, lp.name)) in structs by {
      forall lp | lp in lessonplans && !lp.isAdded
        ensures Some(File(lp.id, lp.name)) in structs
      {
        var i :| 0 <= i < |lessonplans| && lessonplans[i] == lp;
        assert structs[i] == Some(File(lp.id, lp.name));
      }
    }
    DropNulls(structs)
  }

  lemma {:induction false} DropNullsAppend(a: seq<Option<Node>>, b: seq<Option<Node>>)
    ensures DropNulls(a + b) == DropNulls(a) + DropNulls(b)
  {
    if a == [] {
      assert a + b == b;
    } else {
      assert (a + b)[1..] == a[1..] + b;
      DropNullsAppend(a[1..], b);
    }
  }

  /** Building the file nodes distributes over concatenation: the order of the records is kept. */
  lemma FileObjectsAppend(a: seq<LessonPlan>, b: seq<LessonPlan>)
    ensures FileObjects(a + b) == FileObjects(a) + FileObjects(b)
  {
    assert Structs(a + b) == Structs(a) + Structs(b);
    DropNullsAppend(Structs(a), Structs(b));
  }

  /** One record yields its file node exactly when it is not filed. */
  lemma FileObjectsSingle(lp: LessonPlan)
    ensures FileObjects([lp]) == if lp.isAdded then [] else [File(lp.id, lp.name)]
  {
    assert Structs([lp]) == [FileObjectOf(lp)];
    assert DropNulls([FileObjectOf(lp)][1..]) == [];
  }

  // ---------------------------------------------------------------------
  // Outside-file filtering
  // ---------------------------------------------------------------------

  /** No top-level node of the forest is a file. */
  predicate NoOutsideFiles(forest: seq<Node>) {
    forall n :: n in forest ==> n.Dir?
  }

  /** Every directories update among the calls saves a forest without top-level files. */
  predicate SavesNoOutsideFiles(calls: seq<Call>) {
    forall c :: c in calls && c.DirectoriesUpdate? ==> NoOutsideFiles(c.forest)
  }

  /**
   * The forest as saved: the top-level directories, in order, with their
   * children untouched. (The source's `typeof data == 'array'` test never
   * holds, since `typeof` of an object is "object"; only `!isFile` decides.)
   */
  function RemoveOutsideFiles(forest: seq<Node>): (r: seq<Node>)
    ensures |r| <= |forest|
    ensures forall n :: n in r <==> n in forest && n.Dir?
  {
    if forest == [] then []
    else (if forest[0].Dir? then [forest[0]] else []) + RemoveOutsideFiles(forest[1..])
  }

  lemma {:induction false} RemoveOutsideFilesAppend(a: seq<Node>, b: seq<Node>)
    ensures RemoveOutsideFiles(a + b) == RemoveOutsideFiles(a) + RemoveOutsideFiles(b)
  {
    if a == [] {
      assert a + b == b;
    } else {
      assert (a + b)[1..] == a[1..] + b;
      RemoveOutsideFilesAppend(a[1..], b);
    }
  }

  /** A forest with no top-level file is saved as it is. */
  lemma {:induction false} RemoveOutsideFilesKeepsDirectories(forest: seq<Node>)
    requires NoOutsideFiles(forest)
    ensures RemoveOutsideFiles(forest) == forest
  {
    if forest != [] {
      assert forest[0] in forest;
      RemoveOutsideFilesKeepsDirectories(forest[1..]);
    }
  }

  /** A forest of top-level files only is saved as the empty forest. */
  lemma {:induction false} RemoveOutsideFilesOfFiles(forest: seq<Node>)
    requires forall n :: n in forest ==> n.File?
    ensures RemoveOutsideFiles(forest) == []
  {
    if forest != [] {
      assert forest[0] in forest;
      RemoveOutsideFilesOfFiles(forest[1..]);
    }
  }

  /** Filtering twice is filtering once. */
  lemma RemoveOutsideFilesIdempotent(forest: seq<Node>)
    ensures RemoveOutsideFiles(RemoveOutsideFiles(forest)) == RemoveOutsideFiles(forest)
  {
    RemoveOutsideFilesKeepsDirectories(RemoveOutsideFiles(forest));
  }

  /** `a` can be obtained from `b` by deleting elements. */
  ghost predicate IsSubsequence<T>(a: seq<T>, b: seq<T>)
    decreases |b|
  {
    || a == []
    || (b != [] && a[0] == b[0] && IsSubsequence(a[1..], b[1..]))
    || (b != [] && IsSubsequence(a, b[1..]))
  }

  /** The saved forest is the original forest with some top-level nodes deleted. */
  lemma {:induction false} RemoveOutsideFilesSubsequence(forest: seq<Node>)
    ensures IsSubsequence(RemoveOutsideFiles(forest), forest)
  {
    if forest != [] {
      RemoveOutsideFilesSubsequence(forest[1..]);
      var rest := RemoveOutsideFiles(forest[1..]);
      if forest[0].Dir? {
        assert RemoveOutsideFiles(forest) == [forest[0]] + rest;
        assert ([forest[0]] + rest)[1..] == rest;
      } else {
        assert RemoveOutsideFiles(forest) == rest;
      }
    }
  }

  /**
   * The forest the view rebuilds is the saved directories followed by the
   * unfiled lesson plans; filtering it gives back the filtered directories,
   * so the synthetic file nodes never reach a save.
   */
  lemma RebuiltForestSavesOnlyDirectories(directories: seq<Node>, lessonplans: seq<LessonPlan>)
    ensures RemoveOutsideFiles(directories + FileObjects(lessonplans)) == RemoveOutsideFiles(directories)
  {
    RemoveOutsideFilesAppend(directories, FileObjects(lessonplans));
    RemoveOutsideFilesOfFiles(FileObjects(lessonplans));
    assert RemoveOutsideFiles(directories) + [] == RemoveOutsideFiles(directories);
  }

  // ---------------------------------------------------------------------
  // Drops
  // ---------------------------------------------------------------------

  /**
   * Whether the tree accepts dropping `node` under `nextParent` (None: at the
   * top level). Nothing may go under a file, whatever its kind.
   */
  function CanDrop(node: Node, nextParent: Option<Node>): (ok: bool)
    ensures ok <==> (nextParent.None? || nextParent.value.Dir?)
  {
    if node.File? && nextParent.Some? && nextParent.value.File? then false
    else if !node.File? && nextParent.Some? && nextParent.value.File? then false
    else true
  }

  // ---------------------------------------------------------------------
  // Recursive deletion
  // ---------------------------------------------------------------------

  /** The remove calls for a subtree: one per file, depth first, left to right. */
  function RemoveLessonPlan(node: Node): (calls: seq<Call>)
    ensures forall c :: c in calls ==> c.LessonPlansRemove?
    decreases node
  {
    match node
    case File(id, _) => [LessonPlansRemove(id)]
    case Dir(_, children) =>
      if |children| == 0 then [] else RemoveEach(children)
  }

  /** The remove calls for each of `nodes`, in order. */
  function RemoveEach(nodes: seq<Node>): (calls: seq<Call>)
    ensures forall c :: c in calls ==> c.LessonPlansRemove?
    decreases nodes
  {
    if nodes == [] then [] else RemoveLessonPlan(nodes[0]) + RemoveEach(nodes[1..])
  }

  /** Every node of the subtree, in depth-first pre-order. */
  ghost function Preorder(node: Node): seq<Node>
    decreases node
  {
    match node
    case File(_, _) => [node]
    case Dir(_, children) => [node] + PreorderEach(children)
  }

  ghost function PreorderEach(nodes: seq<Node>): seq<Node>
    decreases nodes
  {
    if nodes == [] then [] else Preorder(nodes[0]) + PreorderEach(nodes[1..])
  }

  /** The ids of the file nodes among `nodes`, in order. */
  ghost function FileIds(nodes: seq<Node>): seq<Id> {
    if nodes == [] then []
    else (if nodes[0].File? then [nodes[0].id] else []) + FileIds(nodes[1..])
  }

  /** One remove call per id, in order. */
  ghost function RemoveCalls(ids: seq<Id>): seq<Call> {
    if ids == [] then [] else [LessonPlansRemove(ids[0])] + RemoveCalls(ids[1..])
  }

  lemma {:induction false} FileIdsAppend(a: seq<Node>, b: seq<Node>)
    ensures FileIds(a + b) == FileIds(a) + FileIds(b)
  {
    if a == [] {
      assert a + b == b;
    } else {
      assert (a + b)[1..] == a[1..] + b;
      FileIdsAppend(a[1..], b);
    }
  }

  lemma {:induction false} RemoveCallsAppend(a: seq<Id>, b: seq<Id>)
    ensures RemoveCalls(a + b) == RemoveCalls(a) + RemoveCalls(b)
  {
    if a == [] {
      assert a + b == b;
    } else {
      assert (a + b)[1..] == a[1..] + b;
      RemoveCallsAppend(a[1..], b);
    }
  }

  /**
   * Deleting a subtree removes exactly its files, one call each, in
   * depth-first left-to-right order; directories make no call.
   */
  lemma {:induction false} RemoveLessonPlanRemovesFilesInOrder(node: Node)
    ensures RemoveLessonPlan(node) == RemoveCalls(FileIds(Preorder(node)))
    decreases node
  {
    match node
    case File(id, _) =>
      assert FileIds([node]) == [id] + FileIds([node][1..]);
    case Dir(_, children) =>
      RemoveEachRemovesFilesInOrder(children);
      assert FileIds([node] + PreorderEach(children)) == FileIds(PreorderEach(children)) by {
        FileIdsAppend([node], PreorderEach(children));
        assert FileIds([node]) == [] + FileIds([node][1..]);
      }
  }

  lemma {:induction false} RemoveEachRemovesFilesInOrder(nodes: seq<Node>)
    ensures RemoveEach(nodes) == RemoveCalls(FileIds(PreorderEach(nodes)))
    decreases nodes
  {
    if nodes != [] {
      RemoveLessonPlanRemovesFilesInOrder(nodes[0]);
      RemoveEachRemovesFilesInOrder(nodes[1..]);
      FileIdsAppend(Preorder(nodes[0]), PreorderEach(nodes[1..]));
      RemoveCallsAppend(FileIds(Preorder(nodes[0])), FileIds(PreorderEach(nodes[1..])));
    }
  }
}
