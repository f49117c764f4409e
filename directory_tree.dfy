/**
 * The lesson-plan directory view as an object: the forest it shows
 * (`treeData`), the text input it reads titles from, and whether its
 * reactive rebuild is running. Every handler returns the remote calls it
 * makes, in order.
 */
module DirectoryTree {
  import opened Options
  import opened DirectoryForest

  class LessonPlansDirectories {
    const userId: Id
    var treeData: seq<Node>
    /** The current text of the title input. */
    var input: string
    /** Whether the reactive rebuild is running (started on mount, stopped on unmount). */
    var tracking: bool

    constructor (userId: Id)
      ensures this.userId == userId
      ensures treeData == [] && input == "" && !tracking
    {
      this.userId := userId;
      treeData := [];
      input := "";
      tracking := false;
    }

    /** Starts the reactive rebuild, which runs once at once. */
    method ComponentDidMount(data: Option<DirectoryDoc>, lessonplans: seq<LessonPlan>)
      modifies this`tracking, this`treeData
      ensures tracking
      ensures treeData == if data.Some? then data.value.directories + FileObjects(lessonplans) else old(treeData)
    {
      tracking := true;
      Rebuild(data, lessonplans);
    }

    method ComponentWillUnmount()
      modifies this`tracking
      ensures !tracking
    {
      tracking := false;
    }

    /**
     * A run of the reactive rebuild after either source changed: when the
     * directory document exists, the forest is replaced by its directories
     * followed by the unfiled lesson plans; otherwise nothing changes.
     * A stopped rebuild does not run.
     */
    method Rebuild(data: Option<DirectoryDoc>, lessonplans: seq<LessonPlan>)
      modifies this`treeData
      ensures treeData == if tracking && data.Some? then data.value.directories + FileObjects(lessonplans) else old(treeData)
      ensures tracking && data.Some? ==>
        RemoveOutsideFiles(treeData) == RemoveOutsideFiles(data.value.directories)
    {
      if tracking && data.Some? {
        var rebuilt := [];
        rebuilt := rebuilt + data.value.directories;
        rebuilt := rebuilt + FileObjects(lessonplans);
        treeData := rebuilt;
        RebuiltForestSavesOnlyDirectories(data.value.directories, lessonplans);
      }
    }

    /** The user types into the title input. */
    method SetInput(value: string)
      modifies this`input
      ensures input == value
    {
      input := value;
    }

    /** The tree widget reports a rearranged forest. */
    method OnChange(newTreeData: seq<Node>)
      modifies this`treeData
      ensures treeData == newTreeData
    {
      treeData := newTreeData;
    }

    /**
     * "New directory": a non-empty title appends an empty directory and
     * saves the forest without its top-level files; an empty title does
     * nothing. The input is cleared either way.
     */
    method AddNewDirectory() returns (calls: seq<Call>)
      modifies this`treeData, this`input
      ensures input == ""
      ensures old(input) == "" ==> treeData == old(treeData) && calls == []
      ensures old(input) != "" ==>
        && treeData == old(treeData) + [Dir(old(input), [])]
        && calls == [DirectoriesUpdate(userId, RemoveOutsideFiles(old(treeData)) + [Dir(old(input), [])])]
      ensures SavesNoOutsideFiles(calls)
    {
      var newDirectory := Dir(input, []);
      calls := [];
      if input != "" {
        treeData := treeData + [newDirectory];
        calls := [DirectoriesUpdate(userId, RemoveOutsideFiles(treeData))];
        RemoveOutsideFilesAppend(old(treeData), [newDirectory]);
        assert RemoveOutsideFiles([newDirectory]) == [newDirectory] by {
          RemoveOutsideFilesKeepsDirectories([newDirectory]);
        }
      }
      input := "";
    }

    /**
     * "New LessonPlan": a non-empty title asks the server to create the
     * lesson plan; the tree is left to the rebuild. The input is cleared.
     */
    method AddNewLessonPlan() returns (calls: seq<Call>)
      modifies this`input
      ensures input == ""
      ensures calls == if old(input) == "" then [] else [LessonPlansInsert(old(input))]
    {
      calls := [];
      if input != "" {
        calls := [LessonPlansInsert(input)];
      }
      input := "";
    }

    /**
     * A node was dropped under `nextParent` (None: at the top level). A
     * file reports whether it is now filed; then the forest is saved
     * without its top-level files.
     */
    method OnMoveNode(node: Node, nextParent: Option<Node>) returns (calls: seq<Call>)
      ensures node.File? ==> |calls| == 2 && calls[0] == DirectoryChange(node.id, nextParent.Some?)
      ensures node.Dir? ==> |calls| == 1
      ensures calls[|calls| - 1] == DirectoriesUpdate(userId, RemoveOutsideFiles(treeData))
      ensures SavesNoOutsideFiles(calls)
    {
      calls := [];
      if node.File? {
        if nextParent.Some? {
          calls := calls + [DirectoryChange(node.id, true)];
        } else {
          calls := calls + [DirectoryChange(node.id, false)];
        }
      }
      calls := calls + [DirectoriesUpdate(userId, RemoveOutsideFiles(treeData))];
    }

    /**
     * "Remove" on `node`, after the confirmation dialog answered
     * `confirmed`. `remaining` is the forest with the node taken out (the
     * tree widget computes it). Declining does nothing; otherwise every
     * lesson plan in the subtree is removed, the forest becomes
     * `remaining` and is saved without its top-level files.
     */
    method OnRemoveClick(node: Node, confirmed: bool, remaining: seq<Node>) returns (calls: seq<Call>)
      modifies this`treeData
      ensures !confirmed ==> treeData == old(treeData) && calls == []
      ensures confirmed ==>
        && treeData == remaining
        && calls == RemoveLessonPlan(node) + [DirectoriesUpdate(userId, RemoveOutsideFiles(remaining))]
      ensures SavesNoOutsideFiles(calls)
    {
      calls := [];
      if !confirmed {
        return;
      }
      if !node.File? {
        calls := calls + RemoveLessonPlan(node);
      } else {
        calls := calls + [LessonPlansRemove(node.id)];
      }
      treeData := remaining;
      calls := calls + [DirectoriesUpdate(userId, RemoveOutsideFiles(treeData))];
    }
  }
}
