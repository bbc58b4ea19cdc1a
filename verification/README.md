# SB Dash: task lists and view dial

A Dafny model of the state logic of the SB Dash single-page dashboard (`app.js`):

- the **task-list store**: four ordered lists, `todo`, `ideas`, `super` (the "Aktiv prio"
  list) and `done`, all newest first. It covers the handlers that add, complete, restore,
  promote, remove and clear entries, and the defensive decode of the persisted store;
- the **view carousel and rotary dial**: the committed view index, the wheel handler with
  its cooldown flag, and the dial's press / drag / release cycle. On release the dial
  commits the nearest of the five sectors and snaps onto it.

Modules, one per component:

| file | module | what it holds |
|---|---|---|
| text.dfy | `Text` | `String.prototype.trim` over ECMAScript white space |
| lists.dfy | `TaskLists` | entries, the store as a value, `findIndex` / `splice` / `filter`, every transition as a function, and the lemmas about them |
| persistence.dfy | `Persistence` | `loadStore`'s field-by-field decode, what `saveStore` writes, and the round trip |
| store.dfy | `TaskStore` | class `Store`: the four lists as fields, one method per handler |
| views.dfy | `Views` | view order, JavaScript `%`, `Math.round`, index wrap, release sector |
| dial.dfy | `Dial` | class `ViewController`: `currentIndex`, `wheelCooldown`, `isDragging`, `startAngle`, `currentRotation` |

Each `Store` method changes the fields in place the way its handler does (`unshift`,
`splice`, reassignment by `filter`). Its postcondition equates the new store with a transition
function of `TaskLists` applied to the old store. It also promises that ids stay unique.
`ViewController`'s invariant `Valid()` says two things. The committed index is a view index.
Outside a drag, the dial's rotation is exactly that view's sector angle.

Modelling choices:

- An entry is `Item(id, text, createdAt, doneAt: Option<int>)`. JavaScript objects are open
  records. `{...item, doneAt: now}` sets `doneAt`. `{doneAt, ...rest}` clears it, and so does
  promote's explicit copy of `id`, `text` and `createdAt`.
- `uid()` and `Date.now()` are parameters (`freshId`, `now`). The code never checks that an
  id is fresh, so freshness is a hypothesis of `AddPreservesUnique`, not a precondition of
  the add methods.
- Pointer angles arrive as `real` degrees. Rotations are exact reals. `Math.round(x)` is
  `floor(x + 1/2)`. JavaScript's `%` keeps the dividend's sign; Dafny's `%` does not, so
  `JsMod` models it.
- Done records have no origin tag. `restoreDone` always sends an entry to `todo`
  (app.js:155), even an entry completed from "Aktiv prio". The dashboard's design
  description speaks of origin-aware restore and of editing priority entries in place. The
  code does neither, and the model follows the code (`CompletePrioThenRestore`). The design
  also describes a swipe-to-complete recogniser. `app.js` has none, so it is not modelled.

## Model

| member | source | states |
|---|---|---|
| Text.Trim | app.js:133 | the trimmed text is empty exactly when the input is all ECMAScript white space; otherwise it starts and ends with a character that is not white space |
| Text.TrimIsInfix | app.js:133 | the trimmed text is a contiguous piece of the input; everything cut off at either end is white space |
| Text.TrimIdempotent | app.js:133 | trimming an already trimmed text changes nothing |
| Text.TrimExamples | app.js:133-134 | "  Buy milk " trims to "Buy milk"; a blank-only text trims to "" (and is then ignored) |
| TaskLists.FindIndex | app.js:141 | `findIndex`: -1 exactly when no entry has the id, otherwise the first position holding it |
| TaskLists.RemoveAt | app.js:143 | `splice(idx, 1)`: one entry shorter, the spliced entry is the only one lost, order of the rest kept |
| TaskLists.Without | app.js:162 | `filter`: keeps exactly the entries with another id, drops as many entries as carried the id, and is the identity when the id is absent |
| TaskLists.WithoutAppend | app.js:162 | filtering distributes over concatenation, so the kept entries keep their order |
| TaskLists.Add | app.js:132-135 | blank text after trimming: no list changes; otherwise an entry with the fresh id, the trimmed text and the time is prepended to the target list, and every other list is unchanged |
| TaskLists.Move | app.js:140-144 | id absent from the source list: nothing changes; otherwise its first entry is spliced out of the source and prepended to the destination with `doneAt` replaced, and the other lists are unchanged |
| TaskLists.RemoveFrom | app.js:161-162 | only the named list changes; it loses every entry with the id and keeps every other entry; an absent id changes nothing |
| TaskLists.ClearDone | app.js:309 | `done` becomes empty; `todo`, `ideas` and `super` are unchanged |
| TaskLists.UniqueDisjoint | app.js:143-144 | while ids are unique, an id held by one list is held by no other list |
| TaskLists.MovePreservesIds | app.js:140-178 | complete, restore and promote keep the total number of entries and the number of entries carrying each id, so unique ids stay unique |
| TaskLists.AddPreservesUnique | app.js:132-135 | adding with a fresh id keeps ids unique, and grows the store by one entry exactly when the text is not blank |
| TaskLists.RemovePreservesUnique | app.js:161-162 | removing takes away exactly the entries of the named list that carry the id, so unique ids stay unique |
| TaskLists.ClearPreservesUnique | app.js:309 | clearing takes away exactly the ids that were in `done`, so unique ids stay unique |
| TaskLists.PromoteMovesToPrio | app.js:170-174 | promoting moves the first todo entry with the id to the head of `super` with only id, text and createdAt; `todo` shrinks by one; `done` and `ideas` are unchanged |
| TaskLists.CompleteThenRestore | app.js:140-159 | completing a todo entry and restoring the same id puts an entry with the original id, text and createdAt at the head of `todo` and leaves `done` as it was |
| TaskLists.CompleteThenRestoreHead | app.js:140-159 | completing the newest todo entry and restoring it gives back exactly the same store |
| TaskLists.CompletePrioThenRestore | app.js:150-155 | a completed "Aktiv prio" entry is restored into `todo`, not into `super` |
| Persistence.ArrayOr | app.js:95-98 | a property that is an array is taken as it is; a missing or non-array property gives an empty list |
| Persistence.LoadStore | app.js:89-103 | no saved entry, a parse failure or a `null` value give the empty store; otherwise each list is its property's array or empty |
| Persistence.Save | app.js:105-107 | the written value has the four keys, each holding its list as an array |
| Persistence.LoadAfterSave | app.js:89-107 | loading what was saved gives back the same store |
| Persistence.LoadIgnoresOtherKeys | app.js:94-99 | properties other than the four list keys do not affect the loaded store |
| TaskStore.Store.Load | app.js:87 | the store starts as the decoded saved value |
| TaskStore.Store.Snapshot | app.js:105-107 | what is saved loads back as the current store |
| TaskStore.Store.AddTodo | app.js:132-138 | the new store is `Add` on `todo`; ids stay unique when the id is fresh |
| TaskStore.Store.AddIdea | app.js:320-326 | the new store is `Add` on `ideas`; ids stay unique when the id is fresh |
| TaskStore.Store.AddPrio | app.js:394-400 | the new store is `Add` on `super`; ids stay unique when the id is fresh |
| TaskStore.Store.CompleteTodo | app.js:140-148 | the new store is the move from `todo` to `done` stamped with `doneAt`; the entry count is unchanged; ids stay unique |
| TaskStore.Store.CompletePrio | app.js:402-410 | the new store is the move from `super` to `done` stamped with `doneAt`; the entry count is unchanged; ids stay unique |
| TaskStore.Store.RestoreDone | app.js:150-159 | the new store is the move from `done` to `todo` without `doneAt`; the entry count is unchanged; ids stay unique |
| TaskStore.Store.PromoteTodoToPrio | app.js:170-178 | the new store is the move from `todo` to `super` keeping id, text and createdAt; the entry count is unchanged; ids stay unique |
| TaskStore.Store.RemoveFrom | app.js:161-168 | the new store is `RemoveFrom` on the named list; ids stay unique |
| TaskStore.Store.ClearDone | app.js:307-313 | `done` is emptied and nothing else changes; ids stay unique |
| Views.ViewConstants | app.js:574 | five views and `STEP = 360 / 5 = 72` degrees |
| Views.JsMod | app.js:40 | JavaScript `%` by the view count: magnitude below N, sign of the dividend, congruent to the dividend |
| Views.WrapIndex | app.js:40 | for `idx >= -N` the committed index lies in `[0, N)` and is congruent to `idx` |
| Views.WrapStep | app.js:75-79 | a step forward from the last view gives the first view, and a step back from the first gives the last |
| Views.WrapBelowRange | app.js:40 | below `-N` the formula leaves the index range (`-N - 1` gives -1) |
| Views.Round | app.js:626 | `Math.round` gives the nearest integer, halves rounded up |
| Views.FinalIndex | app.js:626-627 | the release index lies in `[0, N)` and is the rounded sector number reduced mod N |
| Views.FinalIndexNearest | app.js:626-630 | the committed sector, plus whole turns, is within half a step of the release angle |
| Views.FinalIndexExamples | app.js:626-627 | release at 127 degrees commits view 2 ("todo"); -100 wraps to 4; exactly half a step rounds up; 400 commits view 1 |
| Views.IndexOf | app.js:55 | `indexOf`: -1 exactly when the name is not a view, otherwise the first position holding it |
| Views.IndexOfViews | app.js:54-56 | view names are distinct, so looking up view k's name finds k |
| Dial.ViewController.constructor | app.js:645-646 | start-up commits view 0 with the dial at 0 degrees, not dragging, no cooldown |
| Dial.ViewController.SetViewIndex | app.js:39-41 | the committed index is the wrapped index; in `[0, N)` and congruent for `idx >= -N` |
| Dial.ViewController.SetRotation | app.js:580-583 | the rotation becomes the given angle |
| Dial.ViewController.SyncRotationToIndex | app.js:585-587 | the rotation becomes the committed view's sector angle |
| Dial.ViewController.SetViewByIndex | app.js:590-594 | commits the wrapped index and snaps the dial to it; the invariant holds for `idx >= -N` |
| Dial.ViewController.SetViewByName | app.js:54-57 | an unknown name changes nothing; a known name commits the view with that name |
| Dial.ViewController.Wheel | app.js:73-82 | during the cooldown nothing changes; otherwise the cooldown starts and the view steps by +1 (deltaY > 0) or -1, modulo N, with the dial snapped |
| Dial.ViewController.CooldownElapsed | app.js:81 | the cooldown flag is cleared |
| Dial.ViewController.PointerDown | app.js:596-607 | a drag starts, and the start offset keeps the dial where it is |
| Dial.ViewController.PointerMove | app.js:609-619 | while dragging, the dial turns by the angle the pointer turned since the press; otherwise nothing changes |
| Dial.ViewController.PointerUp | app.js:621-631 | after a drag, the release sector is committed and the rotation is exactly that index times STEP; without a drag nothing changes |

## Left out

- Rendering: `renderTodo`, `renderDone`, `renderIdeas`, `renderPrio`, `setDates`, `fmt`, and
  the transform and class writes in `setViewByIndex` and `setRotation`. These are presentation only.
- `loadNews`: it fetches the RSS feed over the network, parses XML and refreshes on a timer.
- Local storage and JSON: `LoadStore` takes the outcome of `getItem` and `JSON.parse` as
  its input, and `Save` stands for what `JSON.stringify` writes. Serialisation itself is not modelled.
- Elements of the saved arrays are taken to be well-formed entries. `loadStore` does not
  check them, and a malformed element (no `id`, not an object) is not representable here.
- `uid()` randomness and `Date.now()`: these become parameters.
- `getAngle`'s `Math.atan2`, the pointer geometry, and IEEE floating point: angles are exact reals.
  `Math.round`'s handling of -0 and NaN is not modelled.
- The `setTimeout` that clears the wheel cooldown after 350 ms: only the flag is modelled,
  with `CooldownElapsed` as the timer's event.
- Event-listener registration, `preventDefault` and `setPointerCapture`. The guards that
  check whether a DOM element exists are also left out.
- `removeFrom` with a list name other than the four keys would throw in JavaScript. Every
  caller passes one of the four keys, so the name is an enumeration here.
- Extra properties on saved entries: promote copies only id, text and createdAt, while
  complete and restore keep every property. With four fields per entry the difference does
  not arise.
