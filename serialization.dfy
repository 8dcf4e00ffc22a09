/** Java object serialization, reduced to what the custom `writeObject` /
    `readObject` pairs of the configuration classes rely on.

    A stream is a sequence of items. `writeBoolean` and `writeInt` write
    primitive items; `writeObject` writes one object item. An object whose
    class has its own `writeObject` (Script, Proxy, SecuredProxy) is written as
    an `ObjectItem` carrying the nested block of items its `writeObject`
    produced, and is read back by running its `readObject` on that block, so a
    read that runs past the end of the block fails there, exactly as Java
    reports the end of an object's custom data. */
module Serialization {
  import opened Wrappers
  import opened Collaborators

  /** The classes whose instances carry their own nested block. */
  datatype ClassName = ScriptClass | ProxyClass | SecuredProxyClass

  datatype Item =
    | BoolItem(b: bool)                             // writeBoolean
    | IntItem(i: int)                               // writeInt
    | NullItem                                      // writeObject(null)
    | StringItem(s: string)                         // writeObject(String)
    | AccountItem(account: Account)                 // writeObject(RunescapeAccount)
    | WorldItem(world: World)                       // a World inside a list
    | WorldTypeItem(worldType: WorldType)           // writeObject(WorldType), legacy
    | ListItem(elems: seq<Item>)                    // writeObject(new ArrayList<>(...))
    | ObjectItem(cls: ClassName, block: seq<Item>)  // an object with its own writeObject
  {
    /** Primitive data, as opposed to an object. */
    predicate IsPrimitive() {
      BoolItem? || IntItem?
    }
  }

  /** `readBoolean` at `pos`: fails at the end of the block and on any item
      that is not a boolean. */
  function BoolAt(items: seq<Item>, pos: nat): (r: Option<bool>)
    ensures r.Some? <==> pos < |items| && items[pos].BoolItem?
    ensures r.Some? ==> items[pos] == BoolItem(r.value)
  {
    if pos < |items| && items[pos].BoolItem? then Some(items[pos].b) else None
  }

  /** `readInt` at `pos`. */
  function IntAt(items: seq<Item>, pos: nat): (r: Option<int>)
    ensures r.Some? <==> pos < |items| && items[pos].IntItem?
    ensures r.Some? ==> items[pos] == IntItem(r.value)
  {
    if pos < |items| && items[pos].IntItem? then Some(items[pos].i) else None
  }

  /** `readObject` at `pos`: `None` is Java's `OptionalDataException`, raised
      at the end of the block or when primitive data comes next. */
  function ObjectAt(items: seq<Item>, pos: nat): (r: Option<Item>)
    ensures r.Some? <==> pos < |items| && !items[pos].IsPrimitive()
    ensures r.Some? ==> items[pos] == r.value
  {
    if pos < |items| && !items[pos].IsPrimitive() then Some(items[pos]) else None
  }

  /** `(String) readObject()` at `pos` for a string that must be present:
      fails when no object comes next or the object is not a string. */
  function StringAt(items: seq<Item>, pos: nat): (r: Option<string>)
    ensures r.Some? <==> pos < |items| && items[pos].StringItem?
    ensures r.Some? ==> items[pos] == StringItem(r.value)
  {
    if pos < |items| && items[pos].StringItem? then Some(items[pos].s) else None
  }

  /** An `ObjectInputStream` positioned inside one block: reads consume the
      item at the cursor and succeed only when it has the requested shape. */
  class ObjectInputStream {
    const items: seq<Item>
    var pos: nat

    constructor (items: seq<Item>)
      ensures this.items == items && pos == 0
    {
      this.items := items;
      pos := 0;
    }

    method ReadBoolean() returns (r: Option<bool>)
      modifies this`pos
      ensures r == BoolAt(items, old(pos))
      ensures pos == if r.Some? then old(pos) + 1 else old(pos)
    {
      r := BoolAt(items, pos);
      if r.Some? {
        pos := pos + 1;
      }
    }

    method ReadInt() returns (r: Option<int>)
      modifies this`pos
      ensures r == IntAt(items, old(pos))
      ensures pos == if r.Some? then old(pos) + 1 else old(pos)
    {
      r := IntAt(items, pos);
      if r.Some? {
        pos := pos + 1;
      }
    }

    method ReadObject() returns (r: Option<Item>)
      modifies this`pos
      ensures r == ObjectAt(items, old(pos))
      ensures pos == if r.Some? then old(pos) + 1 else old(pos)
    {
      r := ObjectAt(items, pos);
      if r.Some? {
        pos := pos + 1;
      }
    }
  }
}
