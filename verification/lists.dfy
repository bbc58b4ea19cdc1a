/**
 * The task-list store as a value: four ordered lists, newest first, and the
 * transitions between them. The `Store` class in store.dfy is specified by the
 * functions here; the properties of the transitions are lemmas about them.
 */
module TaskLists {
  import opened Text

  datatype Option<T> = None | Some(value: T)

  /** A list entry. Entries of `done` carry `doneAt`; the others normally do not.
      JavaScript objects are open records, so the field is optional everywhere. */
  datatype Item = Item(id: string, text: string, createdAt: int, doneAt: Option<int>)

  /** The four store keys. `Super` is the "Aktiv prio" list. */
  datatype ListName = Todo | Done | Ideas | Super

  /** The whole store; also the shape that is persisted. */
  datatype Lists = Lists(todo: seq<Item>, done: seq<Item>, ideas: seq<Item>, super: seq<Item>)

  const Empty: Lists := Lists([], [], [], [])

  function Get(s: Lists, name: ListName): seq<Item> {
    match name
    case Todo => s.todo
    case Done => s.done
    case Ideas => s.ideas
    case Super => s.super
  }

  function Set(s: Lists, name: ListName, l: seq<Item>): (r: Lists)
    ensures Get(r, name) == l
    ensures forall other :: other != name ==> Get(r, other) == Get(s, other)
  {
    match name
    case Todo => s.(todo := l)
    case Done => s.(done := l)
    case Ideas => s.(ideas := l)
    case Super => s.(super := l)
  }

  /* ---------------- Sequence helpers: findIndex, splice, filter ---------------- */

  /** `list.findIndex(x => x.id === id)`: the first position holding `id`, or -1. */
  function FindIndex(l: seq<Item>, id: string): (r: int)
    ensures -1 <= r < |l|
    ensures r == -1 <==> forall k :: 0 <= k < |l| ==> l[k].id != id
    ensures r != -1 ==> l[r].id == id && forall k :: 0 <= k < r ==> l[k].id != id
  {
    if l == [] then -1
    else if l[0].id == id then 0
    else
      var r := FindIndex(l[1..], id);
      if r == -1 then -1 else r + 1
  }

  /** `list.splice(i, 1)`: the list without position `i`. */
  function RemoveAt(l: seq<Item>, i: nat): (r: seq<Item>)
    requires i < |l|
    ensures |r| == |l| - 1
    ensures multiset(r) + multiset{l[i]} == multiset(l)
    ensures forall k :: 0 <= k < i ==> r[k] == l[k]
    ensures forall k :: i <= k < |r| ==> r[k] == l[k + 1]
  {
    assert l == l[..i] + [l[i]] + l[i + 1..];
    l[..i] + l[i + 1..]
  }

  /** How many entries of `l` carry `id`. */
  function Occ(l: seq<Item>, id: string): (r: nat)
    ensures r <= |l|
    ensures r == 0 <==> forall k :: 0 <= k < |l| ==> l[k].id != id
  {
    if l == [] then 0 else (if l[0].id == id then 1 else 0) + Occ(l[1..], id)
  }

  lemma {:induction false} OccAppend(a: seq<Item>, b: seq<Item>, id: string)
    ensures Occ(a + b, id) == Occ(a, id) + Occ(b, id)
  {
    if a == [] {
      assert a + b == b;
    } else {
      assert (a + b)[1..] == a[1..] + b;
      OccAppend(a[1..], b, id);
    }
  }

  /** `list.filter(x => x.id !== id)`. */
  function Without(l: seq<Item>, id: string): (r: seq<Item>)
    ensures |r| == |l| - Occ(l, id)
    ensures forall x :: x in r <==> x in l && x.id != id
    ensures Occ(l, id) == 0 ==> r == l
  {
    if l == [] then []
    else
      var rest := Without(l[1..], id);
      assert l == [l[0]] + l[1..];
      if l[0].id == id then rest else [l[0]] + rest
  }

  /** Filtering distributes over concatenation, so it keeps the order of what stays. */
  lemma {:induction false} WithoutAppend(a: seq<Item>, b: seq<Item>, id: string)
    ensures Without(a + b, id) == Without(a, id) + Without(b, id)
  {
    if a == [] {
      assert a + b == b;
    } else {
      var c := a + b;
      assert c[0] == a[0] && c[1..] == a[1..] + b;
      WithoutAppend(a[1..], b, id);
      if a[0].id != id {
        assert Without(c, id) == [a[0]] + Without(c[1..], id);
        assert Without(a, id) == [a[0]] + Without(a[1..], id);
      }
    }
  }

  /** Splicing out one entry removes one occurrence of its id and nothing else. */
  lemma OccRemoveAt(l: seq<Item>, i: nat, id: string)
    requires i < |l|
    ensures Occ(RemoveAt(l, i), id) + (if l[i].id == id then 1 else 0) == Occ(l, id)
  {
    var front, back := l[..i], l[i + 1..];
    assert RemoveAt(l, i) == front + back;
    assert l == (front + [l[i]]) + back;
    OccAppend(front + [l[i]], back, id);
    OccAppend(front, [l[i]], id);
    OccAppend(front, back, id);
    assert Occ([l[i]], id) == if l[i].id == id then 1 else 0 by {
      assert [l[i]][1..] == [];
    }
  }

  /** Filtering removes every occurrence of the filtered id and keeps the others. */
  lemma {:induction false} OccWithout(l: seq<Item>, id: string, x: string)
    ensures Occ(Without(l, id), x) == if x == id then 0 else Occ(l, x)
  {
    if l != [] {
      OccWithout(l[1..], id, x);
      if l[0].id != id {
        assert Without(l, id) == [l[0]] + Without(l[1..], id);
        assert ([l[0]] + Without(l[1..], id))[1..] == Without(l[1..], id);
      }
    }
  }

  /* ---------------- The whole store: counts, ids, uniqueness ---------------- */

  function Count(s: Lists): nat {
    |s.todo| + |s.done| + |s.ideas| + |s.super|
  }

  /** How many entries of the whole store carry `id`. */
  function IdCount(s: Lists, id: string): nat {
    Occ(s.todo, id) + Occ(s.done, id) + Occ(s.ideas, id) + Occ(s.super, id)
  }

  /** The store-wide invariant the design asks for: no id occurs twice, in one
      list or across two. */
  ghost predicate Unique(s: Lists) {
    forall id :: IdCount(s, id) <= 1
  }

  /** Replacing one list replaces its share of the ids and of the count. */
  lemma SetAccounting(s: Lists, name: ListName, l: seq<Item>)
    ensures forall x :: IdCount(Set(s, name, l), x) + Occ(Get(s, name), x) == IdCount(s, x) + Occ(l, x)
    ensures Count(Set(s, name, l)) + |Get(s, name)| == Count(s) + |l|
  {
    match name
    case Todo =>
    case Done =>
    case Ideas =>
    case Super =>
  }

  /** Under `Unique`, an id held by one list is held by no other. */
  lemma UniqueDisjoint(s: Lists, a: ListName, b: ListName, id: string)
    requires Unique(s) && a != b
    requires Occ(Get(s, a), id) != 0
    ensures Occ(Get(s, b), id) == 0
  {
    assert IdCount(s, id) <= 1;
    assert Occ(Get(s, a), id) + Occ(Get(s, b), id) <= IdCount(s, id) by {
      match a
      case Todo =>
      case Done =>
      case Ideas =>
      case Super =>
    }
  }

  /* ---------------- Transitions ---------------- */

  /** addTodo / addIdea / addPrio: prepend a fresh entry holding the trimmed text,
      unless the text trims to nothing. */
  function Add(s: Lists, name: ListName, text: string, freshId: string, now: int): (r: Lists)
    ensures Trim(text) == [] ==> r == s
    ensures Trim(text) != [] ==>
      && Get(r, name) == [Item(freshId, Trim(text), now, None)] + Get(s, name)
      && forall other :: other != name ==> Get(r, other) == Get(s, other)
  {
    var t := Trim(text);
    if t == [] then s else Set(s, name, [Item(freshId, t, now, None)] + Get(s, name))
  }

  /** The shared shape of completeTodo, completePrio, restoreDone and
      promoteTodoToPrio: find the first entry with `id` in `from`, splice it out and
      prepend it to `to` with its `doneAt` replaced by `doneAt`. */
  function Move(s: Lists, from: ListName, to: ListName, id: string, doneAt: Option<int>): (r: Lists)
    requires from != to
    ensures FindIndex(Get(s, from), id) == -1 ==> r == s
    ensures FindIndex(Get(s, from), id) != -1 ==>
      var i := FindIndex(Get(s, from), id);
      && Get(r, from) == RemoveAt(Get(s, from), i)
      && Get(r, to) == [Get(s, from)[i].(doneAt := doneAt)] + Get(s, to)
      && forall other :: other != from && other != to ==> Get(r, other) == Get(s, other)
  {
    var src := Get(s, from);
    var i := FindIndex(src, id);
    if i == -1 then s
    else
      var item := src[i];
      Set(Set(s, from, RemoveAt(src, i)), to, [item.(doneAt := doneAt)] + Get(s, to))
  }

  /** completeTodo (from `Todo`) and completePrio (from `Super`): `{...item, doneAt: now}`. */
  function Complete(s: Lists, from: ListName, id: string, now: int): Lists
    requires from == Todo || from == Super
  {
    Move(s, from, Done, id, Some(now))
  }

  /** restoreDone: `{doneAt, ...rest}` goes back to `todo`, whichever list it came from. */
  function Restore(s: Lists, id: string): Lists {
    Move(s, Done, Todo, id, None)
  }

  /** promoteTodoToPrio: a copy holding only id, text and createdAt goes to `super`. */
  function Promote(s: Lists, id: string): Lists {
    Move(s, Todo, Super, id, None)
  }

  /** removeFrom: drop every entry with `id` from the named list only. */
  function RemoveFrom(s: Lists, name: ListName, id: string): (r: Lists)
    ensures forall x :: x in Get(r, name) <==> x in Get(s, name) && x.id != id
    ensures Occ(Get(r, name), id) == 0
    ensures forall other :: other != name ==> Get(r, other) == Get(s, other)
    ensures Occ(Get(s, name), id) == 0 ==> r == s
  {
    OccWithout(Get(s, name), id, id);
    Set(s, name, Without(Get(s, name), id))
  }

  /** The "clear done" button. */
  function ClearDone(s: Lists): (r: Lists)
    ensures r.done == [] && r.todo == s.todo && r.ideas == s.ideas && r.super == s.super
  {
    s.(done := [])
  }

  /* ---------------- Properties of the transitions ---------------- */

  /** The found case of a move, spelled out as two list replacements. */
  lemma MoveFound(s: Lists, from: ListName, to: ListName, id: string, doneAt: Option<int>)
    requires from != to && FindIndex(Get(s, from), id) != -1
    ensures var src := Get(s, from);
            var i := FindIndex(src, id);
            Move(s, from, to, id, doneAt)
              == Set(Set(s, from, RemoveAt(src, i)), to, [src[i].(doneAt := doneAt)] + Get(s, to))
  {
  }

  /** The bookkeeping behind a move: what leaves `from` arrives in `to`. */
  lemma MoveAccounting(s: Lists, from: ListName, to: ListName, rest: seq<Item>, moved: Item)
    requires from != to && |rest| + 1 == |Get(s, from)|
    requires forall x :: Occ(rest, x) + (if moved.id == x then 1 else 0) == Occ(Get(s, from), x)
    ensures forall x :: IdCount(Set(Set(s, from, rest), to, [moved] + Get(s, to)), x) == IdCount(s, x)
    ensures Count(Set(Set(s, from, rest), to, [moved] + Get(s, to))) == Count(s)
  {
    var dst := Get(s, to);
    var s1 := Set(s, from, rest);
    SetAccounting(s, from, rest);
    SetAccounting(s1, to, [moved] + dst);
    forall x
      ensures Occ([moved] + dst, x) == (if moved.id == x then 1 else 0) + Occ(dst, x)
    {
      assert ([moved] + dst)[1..] == dst;
    }
  }

  /** A move takes one entry out and puts one in: the count of entries and the
      number of entries carrying each id are unchanged, so uniqueness of ids is kept. */
  lemma {:induction false} MovePreservesIds(s: Lists, from: ListName, to: ListName, id: string, doneAt: Option<int>)
    requires from != to
    ensures Count(Move(s, from, to, id, doneAt)) == Count(s)
    ensures forall x :: IdCount(Move(s, from, to, id, doneAt), x) == IdCount(s, x)
    ensures Unique(s) ==> Unique(Move(s, from, to, id, doneAt))
  {
    var src := Get(s, from);
    var i := FindIndex(src, id);
    if i != -1 {
      MoveFound(s, from, to, id, doneAt);
      forall x
        ensures Occ(RemoveAt(src, i), x) + (if src[i].(doneAt := doneAt).id == x then 1 else 0) == Occ(src, x)
      {
        OccRemoveAt(src, i, x);
      }
      MoveAccounting(s, from, to, RemoveAt(src, i), src[i].(doneAt := doneAt));
    }
  }

  /** Adding keeps ids unique when the new id is fresh, and adds one entry exactly
      when the text is not blank. */
  lemma {:induction false} AddPreservesUnique(s: Lists, name: ListName, text: string, freshId: string, now: int)
    requires Unique(s) && IdCount(s, freshId) == 0
    ensures Unique(Add(s, name, text, freshId, now))
    ensures Count(Add(s, name, text, freshId, now)) == if AllWhitespace(text) then Count(s) else Count(s) + 1
  {
    var r := Add(s, name, text, freshId, now);
    if Trim(text) != [] {
      var l := [Item(freshId, Trim(text), now, None)] + Get(s, name);
      SetAccounting(s, name, l);
      forall x
        ensures IdCount(r, x) <= 1
      {
        assert l[1..] == Get(s, name);
        assert IdCount(r, x) == IdCount(s, x) + (if x == freshId then 1 else 0);
      }
    }
  }

  /** Removing only ever takes ids away, so uniqueness is kept. */
  lemma {:induction false} RemovePreservesUnique(s: Lists, name: ListName, id: string)
    ensures forall x :: IdCount(RemoveFrom(s, name, id), x) == if x == id then IdCount(s, x) - Occ(Get(s, name), x) else IdCount(s, x)
    ensures Unique(s) ==> Unique(RemoveFrom(s, name, id))
  {
    SetAccounting(s, name, Without(Get(s, name), id));
    forall x
      ensures Occ(Without(Get(s, name), id), x) == if x == id then 0 else Occ(Get(s, name), x)
    {
      OccWithout(Get(s, name), id, x);
    }
  }

  /** Clearing `done` keeps uniqueness and leaves the other lists' ids alone. */
  lemma ClearPreservesUnique(s: Lists)
    ensures forall x :: IdCount(ClearDone(s), x) == IdCount(s, x) - Occ(s.done, x)
    ensures Unique(s) ==> Unique(ClearDone(s))
  {
  }

  /** Promoting moves the first todo entry with `id` to the head of `super`,
      keeping exactly its id, text and creation time. */
  lemma PromoteMovesToPrio(s: Lists, id: string)
    requires FindIndex(s.todo, id) != -1
    ensures var i := FindIndex(s.todo, id);
            var r := Promote(s, id);
      && r.super == [Item(id, s.todo[i].text, s.todo[i].createdAt, None)] + s.super
      && r.todo == RemoveAt(s.todo, i) && |r.todo| == |s.todo| - 1
      && r.done == s.done && r.ideas == s.ideas
  {
  }

  /** Completing a todo entry and then restoring the same id puts an entry with the
      original id, text and createdAt back at the head of `todo` and leaves `done`
      as it was. */
  lemma {:induction false} CompleteThenRestore(s: Lists, id: string, now: int)
    requires FindIndex(s.todo, id) != -1
    ensures var i := FindIndex(s.todo, id);
            var r := Restore(Complete(s, Todo, id, now), id);
      && r.todo == [s.todo[i].(doneAt := None)] + RemoveAt(s.todo, i)
      && r.todo[0].id == id && r.todo[0].text == s.todo[i].text
      && r.todo[0].createdAt == s.todo[i].createdAt
      && r.done == s.done && r.ideas == s.ideas && r.super == s.super
  {
    var i := FindIndex(s.todo, id);
    var c := Complete(s, Todo, id, now);
    assert c.done[0] == s.todo[i].(doneAt := Some(now));
    assert FindIndex(c.done, id) == 0;
    assert c.done[1..] == s.done;
  }

  /** In particular, completing the newest todo entry and restoring it gives back the
      very same store. */
  lemma CompleteThenRestoreHead(s: Lists, id: string, now: int)
    requires s.todo != [] && s.todo[0].id == id && s.todo[0].doneAt == None
    ensures Restore(Complete(s, Todo, id, now), id) == s
  {
    var r := Restore(Complete(s, Todo, id, now), id);
    assert r.todo == s.todo && r.done == s.done && r.ideas == s.ideas && r.super == s.super by {
      CompleteThenRestore(s, id, now);
      assert s.todo[0].(doneAt := None) == s.todo[0];
      assert RemoveAt(s.todo, 0) == s.todo[1..];
    }
  }

  /** There is no origin tag: a completed priority entry is restored into `todo`,
      not into `super`. */
  lemma {:induction false} CompletePrioThenRestore(s: Lists, id: string, now: int)
    requires FindIndex(s.super, id) != -1
    ensures var i := FindIndex(s.super, id);
            var r := Restore(Complete(s, Super, id, now), id);
      && r.todo == [s.super[i].(doneAt := None)] + s.todo
      && r.super == RemoveAt(s.super, i)
      && r.done == s.done && r.ideas == s.ideas
  {
    var i := FindIndex(s.super, id);
    var c := Complete(s, Super, id, now);
    assert c.done[0] == s.super[i].(doneAt := Some(now));
    assert FindIndex(c.done, id) == 0;
    assert c.done[1..] == s.done;
  }
}
