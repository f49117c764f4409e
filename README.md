# Lesson-plan directories and slide text boxes, modelled in Dafny

This project models the bookkeeping inside two UI components of a
lesson-planning web application.

- The **lesson-plan directory view** shows a forest of directory and file
  nodes. The forest is the user's saved directory structure followed by
  one synthetic file node per lesson plan not yet filed in a directory.
  The view creates directories and lesson plans, decides which drops are
  legal, reports moves, and deletes whole subtrees. Before every save it
  filters the top-level files out of the forest.
  - `directory_forest.dfy` (module `DirectoryForest`) holds the pure parts.
  - `directory_tree.dfy` (module `DirectoryTree`) holds the view as a class
    whose handlers update its `treeData` and return the remote calls they
    make, in order.
- The **slide text-box widget** moves, resizes, edits, copies and deletes
  one text box of one slide. Each render takes a deep copy of the slides;
  the handlers write one box of that copy and pass the copy to the editor.
  A keystroke counter, reset by a timer, decides when an edit is saved
  durably (eligible for undo).
  - `slides.dfy` (module `Slides`) holds the box records, the fallbacks for
    unset geometry, the update of one box, the copy, and the resize handles.
  - `keystroke_counter.dfy` (module `KeystrokeCounter`) models the counter
    as a state machine over traces of keystrokes and timer firings.
  - `text_box.dfy` (module `TextBoxWidget`) holds the widget as a class.
- `options.dfy` (module `Options`) holds `Option`, where `None` stands for
  `null`/`undefined`.

Remote calls (`directories.update`, `lessonplans.insert`,
`lessonplans.remove`, `lessonplans.directoryChange`) and the editor's
callbacks (`updateSlides`, `deleteTextBox`, `setCopiedState`) are call
records returned by the handlers. A confirmation dialog's answer is a
boolean parameter. The outputs of the tree and drag libraries are
parameters as well.

Where the code's own comments and its behaviour differ, the model follows
the behaviour:

- `CanDrop` depends only on the next parent: a drop under a file is
  refused whatever is dragged, and a drop at the top level is always
  allowed. The comment at `LessonPlansDirectories.js:166-167` names both
  kinds of dragged node, but the two branches of the code test the same
  parent condition.
- A title consisting only of spaces is accepted by "New directory" and
  "New LessonPlan". Only the empty string is refused, because the code
  tests the string for truthiness.
- A durable text update is made by the first timer that fires while the
  keystroke counter is positive, whichever keystroke started that timer.
  It does not wait for a pause in typing; see
  `KeystrokeCounter.CommitDuringTyping`.
- The `typeof data == 'array'` branch of the filter never runs, because
  `typeof` of an object is `"object"`. Only the `isFile` flag decides
  which nodes are kept.

## Model

| member | source | states |
|---|---|---|
| DirectoryForest.FileObjectOf | imports/ui/components/LessonPlansDirectories.js:74-84 | a record yields a node exactly when it is not filed (`isAdded == false`), and that node is the file `{id, title = name}` |
| DirectoryForest.Structs | imports/ui/components/LessonPlansDirectories.js:74-84 | the map gives one entry per record, in order, present exactly for the records not filed |
| DirectoryForest.DropNulls | imports/ui/components/LessonPlansDirectories.js:86-91 | the filter keeps exactly the non-null entries; nothing else enters the result, and it is no longer than its input |
| DirectoryForest.FileObjects | imports/ui/components/LessonPlansDirectories.js:67-94 | every node produced is a file node `{id, title = name}` of a record with `isAdded == false`, and every such record yields its node |
| DirectoryForest.FileObjectsAppend | imports/ui/components/LessonPlansDirectories.js:74-91 | building the file nodes distributes over concatenation of the records, so the input order is kept |
| DirectoryForest.FileObjectsSingle | imports/ui/components/LessonPlansDirectories.js:76-82 | one record yields its file node when not filed, and nothing when filed |
| DirectoryForest.RemoveOutsideFiles | imports/ui/components/LessonPlansDirectories.js:129-148 | a node is in the saved forest exactly when it is a top-level directory of the forest (children untouched); the result is no longer than the forest |
| DirectoryForest.RemoveOutsideFilesAppend | imports/ui/components/LessonPlansDirectories.js:137-146 | filtering distributes over concatenation, so the order of the kept directories is the original one |
| DirectoryForest.RemoveOutsideFilesKeepsDirectories | imports/ui/components/LessonPlansDirectories.js:137-146 | a forest without top-level files is saved unchanged |
| DirectoryForest.RemoveOutsideFilesOfFiles | imports/ui/components/LessonPlansDirectories.js:137-146 | a forest made only of top-level files is saved as the empty forest |
| DirectoryForest.RemoveOutsideFilesIdempotent | imports/ui/components/LessonPlansDirectories.js:129-148 | filtering twice equals filtering once |
| DirectoryForest.RemoveOutsideFilesSubsequence | imports/ui/components/LessonPlansDirectories.js:137-146 | the saved forest is a subsequence of the displayed forest |
| DirectoryForest.RebuiltForestSavesOnlyDirectories | imports/ui/components/LessonPlansDirectories.js:44-57 | filtering `directories ++ FileObjects(lessonplans)` equals filtering `directories` alone: synthetic unfiled files never reach a save |
| DirectoryForest.CanDrop | imports/ui/components/LessonPlansDirectories.js:164-179 | a drop is allowed exactly when there is no next parent or the next parent is a directory, whatever the dragged node is |
| DirectoryForest.RemoveLessonPlan | imports/ui/components/LessonPlansDirectories.js:181-207 | the calls a subtree deletion makes are all `lessonplans.remove` calls |
| DirectoryForest.RemoveEach | imports/ui/components/LessonPlansDirectories.js:202-204 | the calls for a list of children are all `lessonplans.remove` calls |
| DirectoryForest.RemoveLessonPlanRemovesFilesInOrder | imports/ui/components/LessonPlansDirectories.js:181-207 | deleting a subtree makes exactly one remove call per file node, in depth-first left-to-right order, and none for directories |
| DirectoryForest.RemoveEachRemovesFilesInOrder | imports/ui/components/LessonPlansDirectories.js:198-205 | over a list of children, the remove calls are the files of each child's subtree in pre-order, one call each |
| DirectoryTree.LessonPlansDirectories.constructor | imports/ui/components/LessonPlansDirectories.js:21-30 | the view starts with an empty forest, an empty input and no rebuild running |
| DirectoryTree.LessonPlansDirectories.ComponentDidMount | imports/ui/components/LessonPlansDirectories.js:32-61 | mounting starts the rebuild and runs it once |
| DirectoryTree.LessonPlansDirectories.ComponentWillUnmount | imports/ui/components/LessonPlansDirectories.js:63-65 | unmounting stops the rebuild, so no later change of the sources touches the forest |
| DirectoryTree.LessonPlansDirectories.Rebuild | imports/ui/components/LessonPlansDirectories.js:37-60 | with a directory document the forest becomes its directories followed by the unfiled file nodes, whose filtering equals that of the directories; without one, or once stopped, the forest is unchanged |
| DirectoryTree.LessonPlansDirectories.SetInput | imports/ui/components/LessonPlansDirectories.js:214 | the input holds what the user typed |
| DirectoryTree.LessonPlansDirectories.OnChange | imports/ui/components/LessonPlansDirectories.js:244 | the forest becomes the one the tree widget reports |
| DirectoryTree.LessonPlansDirectories.AddNewDirectory | imports/ui/components/LessonPlansDirectories.js:96-127 | a non-empty title appends one empty directory at the end and makes one save of `RemoveOutsideFiles(old) ++ [newDir]`; an empty title changes nothing and makes no call; the input is cleared in both cases |
| DirectoryTree.LessonPlansDirectories.AddNewLessonPlan | imports/ui/components/LessonPlansDirectories.js:150-158 | a non-empty title makes one insert call with that title; an empty one makes none; the input is cleared |
| DirectoryTree.LessonPlansDirectories.OnMoveNode | imports/ui/components/LessonPlansDirectories.js:246-268 | a moved file first reports `directoryChange(id, hasParent)`, a moved directory reports nothing, and every move ends with one save of the filtered forest, which has no top-level file |
| DirectoryTree.LessonPlansDirectories.OnRemoveClick | imports/ui/components/LessonPlansDirectories.js:284-310 | declining makes no call and leaves the forest; confirming makes the subtree's remove calls (one for a lone file), replaces the forest with the one without the node, and ends with one save of it filtered |
| Slides.OrDefault | imports/ui/components/workbook/TextBox.jsx:49-65 | a truthy stored number is used as it is; an unset or zero one gives the default; the result is never zero |
| Slides.FrameOf | imports/ui/components/workbook/TextBox.jsx:49-65 | the rendered width, height, x and y (defaults 400, 200, 100, 100) are never zero |
| Slides.TextOf | imports/ui/components/workbook/TextBox.jsx:111-115 | the text shown is the stored value, and empty exactly when the value is unset or empty |
| Slides.WithBox | imports/ui/components/workbook/TextBox.jsx:81-85 | writing the box at (curSlide, index) changes that box and nothing else: every other slide and every other box of the slide is as it was |
| Slides.WithBoxTwice | imports/ui/components/workbook/TextBox.jsx:66-85 | two writes to the same box of one copy leave the second |
| Slides.CopyOf | imports/ui/components/workbook/TextBox.jsx:16-19 | the copy's position is (50, 50), and its size and text are the original's |
| Slides.CopyRendersAtCopyPosition | imports/ui/components/workbook/TextBox.jsx:15-19 | a copied box renders at (50, 50) with the original's size and text |
| Slides.ResizedRendersAtNewSize | imports/ui/components/workbook/TextBox.jsx:49-56 | after a resize to a non-zero size the box renders at that size and at the same position |
| Slides.MovedRendersAtNewPosition | imports/ui/components/workbook/TextBox.jsx:58-65 | after a drag to non-zero coordinates the box renders there, at the same size |
| Slides.MovedToEdgeRendersAtDefault | imports/ui/components/workbook/TextBox.jsx:58-65 | a drag that stops at x = 0 (or y = 0) renders at 100 afterwards |
| Slides.OrDefaultIfUnset | imports/ui/components/workbook/TextBox.jsx:58-65 | the default is used only for an absent number |
| Slides.FrameOfUnsetMovedRoundTrip | imports/ui/components/workbook/TextBox.jsx:58-65 | with defaults for absent values only, every drag position renders where it was stored |
| Slides.ResizingEnabled | imports/ui/components/workbook/TextBox.jsx:71-80 | a resize handle is enabled exactly when it is the bottom-right one and the widget is not in preview |
| KeystrokeCounter.Step | imports/ui/components/workbook/TextBox.jsx:132-141 | a keystroke raises the counter by one and saves nothing; a timer firing leaves the counter at zero and saves durably exactly when the counter was positive |
| KeystrokeCounter.Run | imports/ui/components/workbook/TextBox.jsx:132-141 | over any trace, durable updates never exceed the timer firings, and the final counter never exceeds the starting counter plus the keystrokes |
| KeystrokeCounter.CommitsNeverExceedKeystrokes | imports/ui/components/workbook/TextBox.jsx:132-142 | durable updates plus keystrokes still counted never exceed the keystrokes seen |
| KeystrokeCounter.CounterCoveredByTimers | imports/ui/components/workbook/TextBox.jsx:132-142 | the keystrokes still counted are covered by timers that have not fired yet |
| KeystrokeCounter.KeystrokesEndInCommit | imports/ui/components/workbook/TextBox.jsx:134-142 | a run that typed something and ends with the counter at zero made a durable update |
| KeystrokeCounter.EveryKeystrokeIsCommitted | imports/ui/components/workbook/TextBox.jsx:119-142 | once every timer has fired the counter is zero, and typing made at least one and at most one durable update per keystroke |
| KeystrokeCounter.BurstCommitsOnce | imports/ui/components/workbook/TextBox.jsx:119-142 | n keystrokes whose timers all fire after them make exactly one durable update, whatever n |
| KeystrokeCounter.CommitDuringTyping | imports/ui/components/workbook/TextBox.jsx:134-142 | the update is made by the first timer that fires while the counter is positive, whichever keystroke started it, and does not wait for a pause: the trace key, key, fire, key, fire, fire makes two |
| TextBoxWidget.TextBox.constructor | imports/ui/components/workbook/TextBox.jsx:9-13 | the counter starts at zero, and the render copy equals the slides passed in |
| TextBoxWidget.TextBox.Render | imports/ui/components/workbook/TextBox.jsx:30-42 | a render takes the editor's current slides and a fresh copy of them |
| TextBoxWidget.TextBox.OnResize | imports/ui/components/workbook/TextBox.jsx:66-70 | only `w` and `h` of this box change in the copy; one durable update of the copy; the editor's slides are not touched |
| TextBoxWidget.TextBox.OnDragStop | imports/ui/components/workbook/TextBox.jsx:81-85 | only `x` and `y` of this box change in the copy, to the stop position; one durable update of the copy |
| TextBoxWidget.TextBox.OnTextAreaDrag | imports/ui/components/workbook/TextBox.jsx:146-151 | only `w` and `h` of this box change in the copy, to the text area's size; one durable update of the copy |
| TextBoxWidget.TextBox.OnChange | imports/ui/components/workbook/TextBox.jsx:116-145 | only `value` of this box changes in the copy; the counter goes up by exactly one; a timer starts; one transient update of the copy; in preview mode as well |
| TextBoxWidget.TextBox.OnTimer | imports/ui/components/workbook/TextBox.jsx:134-142 | with a positive counter, one durable update of the editor's current slides and the counter reset; at zero, no call; durable timer updates never exceed keystrokes |
| TextBoxWidget.TextBox.OnDeleteClick | imports/ui/components/workbook/TextBox.jsx:177-185 | `deleteTextBox(index)` is called once if confirmed and never otherwise |
| TextBoxWidget.TextBox.HandleCopy | imports/ui/components/workbook/TextBox.jsx:15-28 | the clipboard holds the box with x = 50 and y = 50 and all else equal, and the editor is told once that a copy exists |
| TextBoxWidget.TextBox.OnCopyClick | imports/ui/components/workbook/TextBox.jsx:192-199 | the copy control copies this widget's box from the render copy, which itself stays as it was, and the widget's invariant holds afterwards |

## Findings

| source | as written | input that shows it | evidently intended | confidence | as-written member | corrected member |
|---|---|---|---|---|---|---|
| imports/ui/components/workbook/TextBox.jsx:58-65 | the position falls back to 100 whenever the stored coordinate is falsy, and 0 is falsy | a drag that stops at the left edge of the canvas (lastX = 0) stores x = 0, and the box is then drawn at x = 100 | fall back to 100 only when the coordinate was never set | medium; not executed | Slides.MovedToEdgeRendersAtDefault | Slides.FrameOfUnsetMovedRoundTrip |

## Left out

- Rendering, layout, styles and the "Open" link navigation are presentation only.
- Subscriptions and the reactive runtime are not modelled. A rebuild is a method call with the two sources as parameters, and a `tracking` flag stands for a running or stopped computation. `Meteor.userId()` is the constant `userId`.
- The server side of the remote calls is not visible, so calls are records only.
- Tree library internals are inputs: `removeNodeAtPath` gives the `remaining` parameter of `OnRemoveClick`, `onChange` gives the forest of `OnChange`, and node keys by tree index are not modelled.
- Drag and resize geometry from the drag library (`offsetWidth`, `lastX`) are parameters.
- `alert` is left out. `confirm` is a boolean parameter. `Session.set` is the `copied` field.
- The display scale is floating-point display arithmetic and is left out.
- Time is not modelled. The 1500 ms delay is an abstract timer-firing event, which may happen only for a timer a keystroke started. A timer firing after unmount is not modelled.
- The race between the tree widget's `onChange` state update and `onMoveNode` reading the state is left out. `OnMoveNode` reads the forest as it is when it runs.
- Numbers are integers, so fractional positions and `NaN` are not modelled. A number is falsy when absent or zero.
- `isAdded` is a boolean. The loose `== false` test on a missing `isAdded` (which is false in JavaScript) is not modelled, because the shape of the records is fixed by the server, which is not visible.
- Slides hold only their text boxes, and nodes only the fields the view reads. Other fields would be carried unchanged by the deep copy.
- The widget's `curSlide`, `index` and `isPreview` are fixed for the widget's lifetime. The resize, drag, text-area drag, delete and copy handlers require not being in preview, because preview mode renders none of their controls and disables pointer events on the text. `OnChange` does not: the text area still takes keyboard input in preview.
- `OnResize`, `OnDragStop`, `OnTextAreaDrag`, `OnChange`: within one render these handlers all change and pass the same `updatedSlides` object. If the editor keeps that object from one call (on its undo stack, say), a later handler of the same render changes the kept object in place. In the model each call record holds the value it was sent with, so this sharing is not modelled.
