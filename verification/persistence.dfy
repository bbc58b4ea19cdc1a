/**
 * The defensive decode of the persisted store (`loadStore`) and what `saveStore`
 * writes. Reading local storage and the JSON text itself are outside the model:
 * the input is what `getItem` and `JSON.parse` produced.
 */
module Persistence {
  import opened TaskLists

  /** One property of the parsed value, as far as `Array.isArray` can tell. */
  datatype Field = ArrayOf(items: seq<Item>) | NotAnArray

  /** What reading and parsing the saved entry produced. */
  datatype Saved =
    | NoEntry                          // getItem gave null or the empty string
    | Unparsable                       // JSON.parse threw
    | NullValue                        // the text was `null`: reading a property throws
    | Value(props: map<string, Field>) // any other value; a number, string or array has none of the four keys

  /** The property name a list is stored under. */
  function Key(name: ListName): string {
    match name
    case Todo => "todo"
    case Done => "done"
    case Ideas => "ideas"
    case Super => "super"
  }

  /** `Array.isArray(parsed[key]) ? parsed[key] : []` */
  function ArrayOr(props: map<string, Field>, key: string): (r: seq<Item>)
    ensures key in props && props[key].ArrayOf? ==> r == props[key].items
    ensures !(key in props && props[key].ArrayOf?) ==> r == []
  {
    if key in props && props[key].ArrayOf? then props[key].items else []
  }

  /** loadStore: every list is the stored array when there is one and empty
      otherwise; a missing entry or any failure gives the empty store. */
  function LoadStore(saved: Saved): (r: Lists)
    ensures !saved.Value? ==> r == Empty
    ensures saved.Value? ==> forall name :: Get(r, name) == ArrayOr(saved.props, Key(name))
  {
    match saved
    case NoEntry => Empty
    case Unparsable => Empty
    case NullValue => Empty
    case Value(props) =>
      Lists(ArrayOr(props, "todo"), ArrayOr(props, "done"), ArrayOr(props, "ideas"), ArrayOr(props, "super"))
  }

  /** saveStore: the store written as an object with four array properties. */
  function Save(s: Lists): (r: Saved)
    ensures r.Value? && forall name :: Key(name) in r.props && r.props[Key(name)] == ArrayOf(Get(s, name))
  {
    Value(map["todo" := ArrayOf(s.todo), "done" := ArrayOf(s.done),
              "ideas" := ArrayOf(s.ideas), "super" := ArrayOf(s.super)])
  }

  /** Loading what was saved gives back the same store. */
  lemma LoadAfterSave(s: Lists)
    ensures LoadStore(Save(s)) == s
  {
    var r := LoadStore(Save(s));
    assert Get(r, Todo) == s.todo && Get(r, Done) == s.done;
    assert Get(r, Ideas) == s.ideas && Get(r, Super) == s.super;
  }

  /** Extra properties are ignored, and only a property that is an array is kept. */
  lemma LoadIgnoresOtherKeys(props: map<string, Field>, key: string, f: Field)
    requires forall name :: key != Key(name)
    ensures LoadStore(Value(props[key := f])) == LoadStore(Value(props))
  {
    var a, b := LoadStore(Value(props[key := f])), LoadStore(Value(props));
    forall name
      ensures Get(a, name) == Get(b, name)
    {
      assert key != Key(name);
    }
    assert Get(a, Todo) == Get(b, Todo) && Get(a, Done) == Get(b, Done);
    assert Get(a, Ideas) == Get(b, Ideas) && Get(a, Super) == Get(b, Super);
  }
}
