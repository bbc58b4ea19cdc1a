/**
 * The module-level `store` of the dashboard: four arrays that the event handlers
 * change in place (unshift, splice, reassignment by filter). Each method states
 * its new state through the transition functions of `TaskLists`, and that it keeps
 * ids unique. The fresh id from `uid()` and the time from `Date.now()` are
 * parameters.
 */
module TaskStore {
  import opened Text
  import opened TaskLists
  import opened Persistence

  class Store {
    var todo: seq<Item>
    var done: seq<Item>
    var ideas: seq<Item>
    var super: seq<Item>

    /** The four lists as a value. */
    function Shape(): Lists
      reads this
    {
      Lists(todo, done, ideas, super)
    }

    /** `const store = loadStore()` */
    constructor Load(saved: Saved)
      ensures Shape() == LoadStore(saved)
    {
      var s := LoadStore(saved);
      todo, done, ideas, super := s.todo, s.done, s.ideas, s.super;
    }

    /** What saveStore writes; loading it gives back the current store. */
    function Snapshot(): (r: Saved)
      reads this
      ensures LoadStore(r) == Shape()
    {
      LoadAfterSave(Shape());
      Save(Shape())
    }

    method AddTodo(text: string, freshId: string, now: int)
      modifies this
      ensures Shape() == Add(old(Shape()), Todo, text, freshId, now)
      ensures old(Unique(Shape())) && IdCount(old(Shape()), freshId) == 0 ==> Unique(Shape())
    {
      ghost var before := Shape();
      var t := Trim(text);
      if t == [] { return; }
      todo := [Item(freshId, t, now, None)] + todo;
      if Unique(before) && IdCount(before, freshId) == 0 {
        AddPreservesUnique(before, Todo, text, freshId, now);
      }
    }

    method AddIdea(text: string, freshId: string, now: int)
      modifies this
      ensures Shape() == Add(old(Shape()), Ideas, text, freshId, now)
      ensures old(Unique(Shape())) && IdCount(old(Shape()), freshId) == 0 ==> Unique(Shape())
    {
      ghost var before := Shape();
      var t := Trim(text);
      if t == [] { return; }
      ideas := [Item(freshId, t, now, None)] + ideas;
      if Unique(before) && IdCount(before, freshId) == 0 {
        AddPreservesUnique(before, Ideas, text, freshId, now);
      }
    }

    method AddPrio(text: string, freshId: string, now: int)
      modifies this
      ensures Shape() == Add(old(Shape()), Super, text, freshId, now)
      ensures old(Unique(Shape())) && IdCount(old(Shape()), freshId) == 0 ==> Unique(Shape())
    {
      ghost var before := Shape();
      var t := Trim(text);
      if t == [] { return; }
      super := [Item(freshId, t, now, None)] + super;
      if Unique(before) && IdCount(before, freshId) == 0 {
        AddPreservesUnique(before, Super, text, freshId, now);
      }
    }

    method CompleteTodo(id: string, now: int)
      modifies this
      ensures Shape() == Complete(old(Shape()), Todo, id, now)
      ensures Count(Shape()) == Count(old(Shape()))
      ensures old(Unique(Shape())) ==> Unique(Shape())
    {
      ghost var before := Shape();
      MovePreservesIds(before, Todo, Done, id, Some(now));
      var idx := FindIndex(todo, id);
      if idx == -1 { return; }
      var item := todo[idx];
      todo := todo[..idx] + todo[idx + 1..];
      done := [item.(doneAt := Some(now))] + done;
      MoveFound(before, Todo, Done, id, Some(now));
    }

    method CompletePrio(id: string, now: int)
      modifies this
      ensures Shape() == Complete(old(Shape()), Super, id, now)
      ensures Count(Shape()) == Count(old(Shape()))
      ensures old(Unique(Shape())) ==> Unique(Shape())
    {
      ghost var before := Shape();
      MovePreservesIds(before, Super, Done, id, Some(now));
      var idx := FindIndex(super, id);
      if idx == -1 { return; }
      var item := super[idx];
      super := super[..idx] + super[idx + 1..];
      done := [item.(doneAt := Some(now))] + done;
      MoveFound(before, Super, Done, id, Some(now));
    }

    method RestoreDone(id: string)
      modifies this
      ensures Shape() == Restore(old(Shape()), id)
      ensures Count(Shape()) == Count(old(Shape()))
      ensures old(Unique(Shape())) ==> Unique(Shape())
    {
      ghost var before := Shape();
      MovePreservesIds(before, Done, Todo, id, None);
      var idx := FindIndex(done, id);
      if idx == -1 { return; }
      var item := done[idx];
      done := done[..idx] + done[idx + 1..];
      todo := [item.(doneAt := None)] + todo;
      MoveFound(before, Done, Todo, id, None);
    }

    method PromoteTodoToPrio(id: string)
      modifies this
      ensures Shape() == Promote(old(Shape()), id)
      ensures Count(Shape()) == Count(old(Shape()))
      ensures old(Unique(Shape())) ==> Unique(Shape())
    {
      ghost var before := Shape();
      MovePreservesIds(before, Todo, Super, id, None);
      var idx := FindIndex(todo, id);
      if idx == -1 { return; }
      var item := todo[idx];
      todo := todo[..idx] + todo[idx + 1..];
      super := [Item(item.id, item.text, item.createdAt, None)] + super;
      MoveFound(before, Todo, Super, id, None);
    }

    method RemoveFrom(listName: ListName, id: string)
      modifies this
      ensures Shape() == TaskLists.RemoveFrom(old(Shape()), listName, id)
      ensures old(Unique(Shape())) ==> Unique(Shape())
    {
      ghost var before := Shape();
      RemovePreservesUnique(before, listName, id);
      match listName
      case Todo => todo := Without(todo, id);
      case Done => done := Without(done, id);
      case Ideas => ideas := Without(ideas, id);
      case Super => super := Without(super, id);
    }

    /** The "clear done" button. */
    method ClearDone()
      modifies this
      ensures Shape() == TaskLists.ClearDone(old(Shape()))
      ensures old(Unique(Shape())) ==> Unique(Shape())
    {
      ghost var before := Shape();
      ClearPreservesUnique(before);
      done := [];
    }
  }

  /** Add "Buy milk", complete it, restore it: the entry comes back to `todo` with
      its original id, text and creation time, and `done` is empty again. */
  method BuyMilkScenario() {
    var store := new Store.Load(NoEntry);
    store.AddTodo("  Buy milk ", "a1", 1000);
    TrimExamples();
    assert store.todo == [Item("a1", "Buy milk", 1000, None)];
    store.CompleteTodo("a1", 2000);
    assert store.todo == [] && store.done == [Item("a1", "Buy milk", 1000, Some(2000))];
    store.RestoreDone("a1");
    assert store.todo == [Item("a1", "Buy milk", 1000, None)] && store.done == [];
    store.AddTodo(" \t ", "a2", 3000);
    assert store.todo == [Item("a1", "Buy milk", 1000, None)];
  }
}
