/** Decoded JSON values as the adapter builds and reads them.
    A JSON object is a Python dict: its keys keep insertion order, and
    `d[k] = v` replaces the value of an existing key in place or appends a
    new key at the end. */
module Json {

  datatype Option<+T> = None | Some(value: T)

  datatype Json =
    | Null
    | Bool(b: bool)
    | Int(i: int)
    | Float(f: real)
    | Str(s: string)
    | Arr(items: seq<Json>)
    | Obj(fields: seq<(string, Json)>)

  /** One step of a path into a JSON value: a dict key or a list index. */
  datatype Selector = K(key: string) | I(index: nat)

  /** The keys of a dict, in order. */
  function Keys(fields: seq<(string, Json)>): (ks: seq<string>)
    ensures |ks| == |fields|
    ensures forall i :: 0 <= i < |fields| ==> ks[i] == fields[i].0
  {
    if fields == [] then [] else [fields[0].0] + Keys(fields[1..])
  }

  lemma {:induction false} KeysAppend(a: seq<(string, Json)>, b: seq<(string, Json)>)
    ensures Keys(a + b) == Keys(a) + Keys(b)
  {
    if a == [] {
      assert a + b == b;
    } else {
      assert (a + b)[1..] == a[1..] + b;
      KeysAppend(a[1..], b);
    }
  }

  /** `d[key]` on a dict, `None` where Python raises KeyError. */
  function Lookup(fields: seq<(string, Json)>, key: string): (r: Option<Json>)
    ensures r.Some? <==> key in Keys(fields)
  {
    if fields == [] then None
    else if fields[0].0 == key then Some(fields[0].1)
    else Lookup(fields[1..], key)
  }

  /** `d[key] = value` on a dict. */
  function Put(fields: seq<(string, Json)>, key: string, value: Json): (r: seq<(string, Json)>)
    ensures Lookup(r, key) == Some(value)
    ensures forall k :: k != key ==> Lookup(r, k) == Lookup(fields, k)
  {
    if fields == [] then [(key, value)]
    else if fields[0].0 == key then [(key, value)] + fields[1..]
    else [fields[0]] + Put(fields[1..], key, value)
  }

  /** Assigning an existing key keeps the key order; a new key goes last. */
  lemma {:induction false} PutKeys(fields: seq<(string, Json)>, key: string, value: Json)
    ensures Keys(Put(fields, key, value))
         == if key in Keys(fields) then Keys(fields) else Keys(fields) + [key]
  {
    if fields != [] && fields[0].0 != key {
      PutKeys(fields[1..], key, value);
      assert Keys(fields) == [fields[0].0] + Keys(fields[1..]);
      assert Keys(Put(fields, key, value)) == [fields[0].0] + Keys(Put(fields[1..], key, value));
    } else if fields != [] {
      assert Keys(Put(fields, key, value)) == [key] + Keys(fields[1..]);
      assert Keys(fields) == [key] + Keys(fields[1..]);
    }
  }

  /** Assigning a new key appends the entry. */
  lemma {:induction false} PutNew(fields: seq<(string, Json)>, key: string, value: Json)
    requires key !in Keys(fields)
    ensures Put(fields, key, value) == fields + [(key, value)]
  {
    if fields != [] {
      var rest := fields[1..];
      assert fields[0].0 != key by { assert Keys(fields)[0] == fields[0].0; }
      assert key !in Keys(rest) by { assert Keys(fields) == [fields[0].0] + Keys(rest); }
      PutNew(rest, key, value);
      assert Put(fields, key, value) == [fields[0]] + (rest + [(key, value)]);
      assert [fields[0]] + (rest + [(key, value)]) == ([fields[0]] + rest) + [(key, value)];
      assert [fields[0]] + rest == fields;
    }
  }

  /** Looking a key up in two dicts' entries placed one after the other
      finds it in the first when it is there, else in the second. */
  lemma {:induction false} LookupAppend(fields: seq<(string, Json)>, extra: seq<(string, Json)>, key: string)
    ensures Lookup(fields + extra, key)
         == if key in Keys(fields) then Lookup(fields, key) else Lookup(extra, key)
  {
    if fields == [] {
      assert fields + extra == extra;
    } else {
      assert (fields + extra)[0] == fields[0];
      assert (fields + extra)[1..] == fields[1..] + extra;
      assert Keys(fields) == [fields[0].0] + Keys(fields[1..]);
      LookupAppend(fields[1..], extra, key);
    }
  }

  /** Follows a path of dict keys and list indices; `None` where Python
      would raise KeyError, IndexError or TypeError. */
  function At(j: Json, path: seq<Selector>): Option<Json>
    decreases |path|
  {
    if path == [] then Some(j)
    else match path[0]
      case K(key) =>
        if j.Obj? then
          match Lookup(j.fields, key)
          case None => None
          case Some(child) => At(child, path[1..])
        else None
      case I(index) =>
        if j.Arr? && index < |j.items| then At(j.items[index], path[1..]) else None
  }

  /** The keys of the dict found at `path`, or `None` when there is none. */
  function KeysAt(j: Json, path: seq<Selector>): Option<seq<string>>
  {
    match At(j, path)
    case Some(Obj(fields)) => Some(Keys(fields))
    case _ => None
  }

  /** Looking a key up in a dict literal that has no repeated key finds the
      value written beside it. */
  lemma {:induction false} LookupDistinct(fields: seq<(string, Json)>, i: nat)
    requires i < |fields|
    requires forall a, b :: 0 <= a < b < |fields| ==> fields[a].0 != fields[b].0
    ensures Lookup(fields, fields[i].0) == Some(fields[i].1)
  {
    if i > 0 {
      LookupDistinct(fields[1..], i - 1);
    }
  }

  /** Following a path in two parts is following the first part, then the
      second from where it led. */
  lemma {:induction false} AtAppend(j: Json, p: seq<Selector>, q: seq<Selector>)
    ensures At(j, p + q) == match At(j, p) case None => None case Some(c) => At(c, q)
    decreases |p|
  {
    if p != [] {
      assert (p + q)[0] == p[0];
      assert (p + q)[1..] == p[1..] + q;
      match p[0]
      case K(key) =>
        if j.Obj? && Lookup(j.fields, key).Some? {
          AtAppend(Lookup(j.fields, key).value, p[1..], q);
        }
      case I(index) =>
        if j.Arr? && index < |j.items| {
          AtAppend(j.items[index], p[1..], q);
        }
    } else {
      assert p + q == q;
    }
  }

  lemma AtOne(j: Json, key: string)
    ensures At(j, [K(key)]) == if j.Obj? then Lookup(j.fields, key) else None
  {
    if j.Obj? && Lookup(j.fields, key).Some? {
      assert At(Lookup(j.fields, key).value, []) == Lookup(j.fields, key);
    }
  }

  /** A path through a dict entry continues from that entry's value. */
  lemma AtUnder(j: Json, key: string, child: Json, rest: seq<Selector>)
    requires j.Obj? && Lookup(j.fields, key) == Some(child)
    ensures At(j, [K(key)] + rest) == At(child, rest)
  {
    assert ([K(key)] + rest)[0] == K(key);
    assert ([K(key)] + rest)[1..] == rest;
  }
}
