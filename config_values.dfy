/** The configuration document as a tree of values, the conversion of its
    dictionaries into attribute-accessible `ConfigDict`s (`Config._to_object`),
    and `ConfigDict`'s attribute read and write. */
module ConfigValues {
  import opened Builtins

  /** A value produced by the YAML loader. `PlainDict` is a Python `dict`,
      `ConfigDict` the dict subclass whose keys can also be used as
      attributes. `entries` lists key/value pairs in insertion order.
      `ClassAttribute(name)` is what ordinary attribute lookup finds on a
      `ConfigDict` for a name its class defines, such as the bound method
      `d.items`; the model does not look inside it. */
  datatype Value =
    | Str(s: string)
    | Int(i: int)
    | Float(r: real)
    | Bool(b: bool)
    | Null
    | List(elements: seq<Value>)
    | PlainDict(entries: seq<Entry>)
    | ConfigDict(entries: seq<Entry>)
    | ClassAttribute(name: string)

  datatype Entry = Entry(key: string, value: Value)

  /** `type(v).__name__` */
  function TypeName(v: Value): string
  {
    match v
    case Str(_) => "str"
    case Int(_) => "int"
    case Float(_) => "float"
    case Bool(_) => "bool"
    case Null => "NoneType"
    case List(_) => "list"
    case PlainDict(_) => "dict"
    case ConfigDict(_) => "ConfigDict"
    case ClassAttribute(name) => if name in ClassAttributes then ClassAttributes[name] else "NoneType"
  }

  /** A dict never holds the same key twice. */
  ghost predicate UniqueKeys(es: seq<Entry>)
  {
    forall i, j :: 0 <= i < j < |es| ==> es[i].key != es[j].key
  }

  /** `key in d and d[key]`: the value stored under `key`, if any. */
  function Find(es: seq<Entry>, key: string): (r: Option<Value>)
    ensures r.Some? <==> exists i :: 0 <= i < |es| && es[i].key == key
  {
    if es == [] then None
    else if es[0].key == key then Some(es[0].value)
    else (assert forall i :: 1 <= i < |es| ==> es[1..][i - 1] == es[i]; Find(es[1..], key))
  }

  /** `d[key] = value`: an existing key keeps its position, a new key goes last. */
  function Assign(es: seq<Entry>, key: string, value: Value): seq<Entry>
  {
    if es == [] then [Entry(key, value)]
    else if es[0].key == key then [Entry(key, value)] + es[1..]
    else [es[0]] + Assign(es[1..], key, value)
  }

  /** `Config._to_object`: every dict, at any depth, becomes a `ConfigDict`;
      lists are converted element by element; scalars are kept. */
  function ToObject(v: Value): Value
    decreases v
  {
    match v
    case PlainDict(es) => ConfigDict(ToObjectEntries(es))
    case ConfigDict(es) => ConfigDict(ToObjectEntries(es))
    case List(xs) => List(seq(|xs|, i requires 0 <= i < |xs| => ToObject(xs[i])))
    case _ => v
  }

  function ToObjectEntries(es: seq<Entry>): seq<Entry>
    decreases es
  {
    seq(|es|, i requires 0 <= i < |es| => Entry(es[i].key, ToObject(es[i].value)))
  }

  /** The value with every `ConfigDict` turned back into a plain dict: two
      values with the same erasure have the same keys, elements and scalars. */
  function Erase(v: Value): Value
    decreases v
  {
    match v
    case PlainDict(es) => PlainDict(EraseEntries(es))
    case ConfigDict(es) => PlainDict(EraseEntries(es))
    case List(xs) => List(seq(|xs|, i requires 0 <= i < |xs| => Erase(xs[i])))
    case _ => v
  }

  function EraseEntries(es: seq<Entry>): seq<Entry>
    decreases es
  {
    seq(|es|, i requires 0 <= i < |es| => Entry(es[i].key, Erase(es[i].value)))
  }

  /** No plain dict occurs anywhere in the value. */
  ghost predicate IsObject(v: Value)
    decreases v
  {
    match v
    case PlainDict(_) => false
    case ConfigDict(es) => forall i :: 0 <= i < |es| ==> IsObject(es[i].value)
    case List(xs) => forall i :: 0 <= i < |xs| ==> IsObject(xs[i])
    case _ => true
  }

  /** `_to_object` keeps the structure of the document: the same keys in the
      same order, the same list elements and the same scalars. */
  lemma {:induction false} ToObjectPreservesStructure(v: Value)
    ensures Erase(ToObject(v)) == Erase(v)
    decreases v
  {
    match v
    case PlainDict(es) =>
      forall i | 0 <= i < |es| { ToObjectPreservesStructure(es[i].value); }
      assert EraseEntries(ToObjectEntries(es)) == EraseEntries(es);
    case ConfigDict(es) =>
      forall i | 0 <= i < |es| { ToObjectPreservesStructure(es[i].value); }
      assert EraseEntries(ToObjectEntries(es)) == EraseEntries(es);
    case List(xs) =>
      forall i | 0 <= i < |xs| { ToObjectPreservesStructure(xs[i]); }
      assert ToObject(v).elements == seq(|xs|, i requires 0 <= i < |xs| => ToObject(xs[i]));
    case _ =>
  }

  /** After `_to_object` every dict, at any depth, is a `ConfigDict`. */
  lemma {:induction false} ToObjectIsObject(v: Value)
    ensures IsObject(ToObject(v))
    decreases v
  {
    match v
    case PlainDict(es) =>
      forall i | 0 <= i < |es| { ToObjectIsObject(es[i].value); }
    case ConfigDict(es) =>
      forall i | 0 <= i < |es| { ToObjectIsObject(es[i].value); }
    case List(xs) =>
      forall i | 0 <= i < |xs| { ToObjectIsObject(xs[i]); }
    case _ =>
  }

  /** A value that already has only `ConfigDict`s is kept as it is, so
      converting twice is the same as converting once. */
  lemma {:induction false} ToObjectIdempotent(v: Value)
    requires IsObject(v)
    ensures ToObject(v) == v
    decreases v
  {
    match v
    case ConfigDict(es) =>
      forall i | 0 <= i < |es| { ToObjectIdempotent(es[i].value); }
      assert ToObjectEntries(es) == es;
    case List(xs) =>
      forall i | 0 <= i < |xs| { ToObjectIdempotent(xs[i]); }
      assert ToObject(v).elements == xs;
    case _ =>
  }

  /** The names ordinary attribute lookup finds on a `ConfigDict` instance
      (CPython 3.12), with the type name of what it finds: the methods and
      other attributes of `dict`, of `object` and of `ConfigDict` itself. */
  const ClassAttributes: map<string, string> := map[
    "__class__" := "type",
    "__class_getitem__" := "builtin_function_or_method", "__contains__" := "builtin_function_or_method",
    "__dir__" := "builtin_function_or_method", "__format__" := "builtin_function_or_method",
    "__getstate__" := "builtin_function_or_method", "__init_subclass__" := "builtin_function_or_method",
    "__new__" := "builtin_function_or_method", "__reduce__" := "builtin_function_or_method",
    "__reduce_ex__" := "builtin_function_or_method", "__reversed__" := "builtin_function_or_method",
    "__sizeof__" := "builtin_function_or_method", "__subclasshook__" := "builtin_function_or_method",
    "clear" := "builtin_function_or_method", "copy" := "builtin_function_or_method",
    "fromkeys" := "builtin_function_or_method", "get" := "builtin_function_or_method",
    "items" := "builtin_function_or_method", "keys" := "builtin_function_or_method",
    "pop" := "builtin_function_or_method", "popitem" := "builtin_function_or_method",
    "setdefault" := "builtin_function_or_method", "update" := "builtin_function_or_method",
    "values" := "builtin_function_or_method",
    "__delattr__" := "method-wrapper", "__delitem__" := "method-wrapper", "__eq__" := "method-wrapper",
    "__ge__" := "method-wrapper", "__getattribute__" := "method-wrapper", "__gt__" := "method-wrapper",
    "__init__" := "method-wrapper", "__ior__" := "method-wrapper", "__iter__" := "method-wrapper",
    "__le__" := "method-wrapper", "__len__" := "method-wrapper", "__lt__" := "method-wrapper",
    "__ne__" := "method-wrapper", "__or__" := "method-wrapper", "__repr__" := "method-wrapper",
    "__ror__" := "method-wrapper", "__setitem__" := "method-wrapper", "__str__" := "method-wrapper",
    "__getattr__" := "method", "__getitem__" := "method", "__setattr__" := "method",
    "__dict__" := "dict", "__doc__" := "NoneType", "__hash__" := "NoneType", "__weakref__" := "NoneType",
    "__module__" := "str"
  ]

  /** Attribute read on a `ConfigDict`. `__getattr__` runs only when
      ordinary lookup fails, so a name the class defines yields that class
      attribute whatever the entries hold; any other name yields the value
      stored under it, and a missing key raises `AttributeError(name)`.
      Objects other than a `ConfigDict` have no such attribute. */
  function GetAttr(obj: Value, name: string): (r: Try<Value>)
  {
    match obj
    case ConfigDict(es) =>
      if name in ClassAttributes then Ok(ClassAttribute(name))
      else
        (match Find(es, name)
         case Some(v) => Ok(v)
         case None => Err(AttributeError(name)))
    case _ => Err(AttributeError("'" + TypeName(obj) + "' object has no attribute '" + name + "'"))
  }

  /** `ConfigDict.__setattr__`: stores the value under the key `name`. */
  function SetAttr(obj: Value, name: string, value: Value): (r: Value)
    requires obj.ConfigDict?
    ensures r.ConfigDict?
  {
    ConfigDict(Assign(obj.entries, name, value))
  }

  /** `d.get(key, default)` for a dict of either kind. */
  function DictGet(obj: Value, key: string, default: Value): Try<Value>
  {
    match obj
    case PlainDict(es) => Ok(match Find(es, key) case Some(v) => v case None => default)
    case ConfigDict(es) => Ok(match Find(es, key) case Some(v) => v case None => default)
    case _ => Err(AttributeError("'" + TypeName(obj) + "' object has no attribute 'get'"))
  }

  lemma {:induction false} FindAssign(es: seq<Entry>, key: string, value: Value, other: string)
    ensures Find(Assign(es, key, value), other) == if other == key then Some(value) else Find(es, other)
  {
    if es != [] && es[0].key != key {
      FindAssign(es[1..], key, value, other);
    }
  }

  lemma {:induction false} AssignKeepsUniqueKeys(es: seq<Entry>, key: string, value: Value)
    requires UniqueKeys(es)
    ensures UniqueKeys(Assign(es, key, value))
    ensures forall i :: 0 <= i < |Assign(es, key, value)| ==>
              Assign(es, key, value)[i].key == key || exists j :: 0 <= j < |es| && es[j].key == Assign(es, key, value)[i].key
  {
    if es != [] && es[0].key != key {
      AssignKeepsUniqueKeys(es[1..], key, value);
      var rest := Assign(es[1..], key, value);
      assert Assign(es, key, value) == [es[0]] + rest;
      forall i | 0 <= i < |rest| ensures rest[i].key != es[0].key {
        if rest[i].key != key {
          var j :| 0 <= j < |es[1..]| && es[1..][j].key == rest[i].key;
          assert es[j + 1].key == rest[i].key;
        }
      }
      forall i | 0 <= i < |rest| && rest[i].key != key
        ensures exists j :: 0 <= j < |es| && es[j].key == rest[i].key
      {
        var j :| 0 <= j < |es[1..]| && es[1..][j].key == rest[i].key;
        assert es[j + 1].key == rest[i].key;
      }
    }
  }

  /** Reading an attribute just written returns the value written, unless
      the class defines that name: then the class attribute still wins, and
      the value is reachable only as an item. Every other attribute reads as
      before. */
  lemma GetAttrAfterSetAttr(obj: Value, name: string, value: Value, other: string)
    requires obj.ConfigDict?
    ensures GetAttr(SetAttr(obj, name, value), name)
              == if name in ClassAttributes then Ok(ClassAttribute(name)) else Ok(value)
    ensures Find(SetAttr(obj, name, value).entries, name) == Some(value)
    ensures other != name ==> GetAttr(SetAttr(obj, name, value), other) == GetAttr(obj, other)
  {
    FindAssign(obj.entries, name, value, name);
    FindAssign(obj.entries, name, value, other);
  }

  /** Writing an attribute keeps the dict free of duplicate keys. */
  lemma SetAttrKeepsUniqueKeys(obj: Value, name: string, value: Value)
    requires obj.ConfigDict? && UniqueKeys(obj.entries)
    ensures UniqueKeys(SetAttr(obj, name, value).entries)
  {
    AssignKeepsUniqueKeys(obj.entries, name, value);
  }
}
