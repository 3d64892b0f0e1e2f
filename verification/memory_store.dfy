/**
 * The file-backed key-value memory client. Every operation loads the whole stored JSON
 * document, changes it and writes it back. The file is modelled by the document it holds
 * once decoded; whether a write succeeds is a fixed property of the storage location.
 */
module MemoryStore {
  import opened Wrappers
  import opened Text
  import opened Json

  /** The storage file: absent, not decodable as JSON, or holding a document. */
  datatype StoreFile = Missing | Corrupt | Stored(doc: Value)

  /** `_load_data`: the decoded document, or `{}` when the file is absent or corrupt. */
  function Load(f: StoreFile): (d: Value)
    ensures f.Stored? ==> d == f.doc
    ensures !f.Stored? ==> d == Obj(map[])
  {
    if f.Stored? then f.doc else Obj(map[])
  }

  /** `data.get(key)`; a document that is not a dict has no `get`, and the error becomes `None`. */
  function Lookup(data: Value, key: string): (v: Value)
    ensures data.Obj? && key in data.fields ==> v == data.fields[key]
    ensures !(data.Obj? && key in data.fields) ==> v == Null
  {
    if data.Obj? && key in data.fields then data.fields[key] else Null
  }

  /** `data[key] = value`; item assignment fails on anything but a dict. */
  function Put(data: Value, key: string, value: Value): (r: Option<map<string, Value>>)
    ensures r.Some? <==> data.Obj?
    ensures r.Some? ==> key in r.value && r.value[key] == value
    ensures r.Some? ==> forall k :: k != key ==> (k in r.value <==> k in data.fields) && (k in data.fields ==> r.value[k] == data.fields[k])
  {
    if data.Obj? then Some(data.fields[key := value]) else None
  }

  /** What `delete` finds: a dict entry to remove, nothing to remove, or an error. */
  datatype Removal = Removed(rest: map<string, Value>) | NotPresent | Raises

  /**
   * `if key in data: del data[key]`. On a list `in` compares elements and on a string it
   * looks for a substring; a hit there makes `del` fail, and on other documents `in`
   * itself fails.
   */
  function Remove(data: Value, key: string): (r: Removal)
    ensures r.Removed? <==> data.Obj? && key in data.fields
    ensures r.Removed? ==> r.rest == data.fields - {key}
    ensures data.Obj? ==> !r.Raises?
  {
    match data
    case Obj(fields) => if key in fields then Removed(fields - {key}) else NotPresent
    case Arr(items) => if Str(key) in items then Raises else NotPresent
    case Str(s) => if Contains(s, key) then Raises else NotPresent
    case _ => Raises
  }

  /**
   * `append`: a missing key starts the list `[value]`, a non-list value `x` becomes
   * `[x, value]` and a list grows by `value`; only a dict document can be changed.
   */
  function Append(data: Value, key: string, value: Value): (r: Option<map<string, Value>>)
    ensures r.Some? <==> data.Obj?
    ensures r.Some? ==> key in r.value && r.value[key].Arr? && |r.value[key].items| >= 1
    ensures r.Some? ==> r.value[key].items[|r.value[key].items| - 1] == value
    ensures r.Some? ==> forall k :: k != key ==> (k in r.value <==> k in data.fields) && (k in data.fields ==> r.value[k] == data.fields[k])
  {
    if !data.Obj? then None
    else
      var list :=
        if key !in data.fields then []
        else if data.fields[key].Arr? then data.fields[key].items
        else [data.fields[key]];
      Some(data.fields[key := Arr(list + [value])])
  }

  /** Appending to a present list keeps every earlier element and adds exactly one. */
  lemma AppendExtends(data: Value, key: string, value: Value)
    requires data.Obj? && key in data.fields && data.fields[key].Arr?
    ensures Append(data, key, value).value[key].items == data.fields[key].items + [value]
  {
  }

  /** Appending to a present non-list value wraps it first. */
  lemma AppendWraps(data: Value, key: string, value: Value)
    requires data.Obj? && key in data.fields && !data.fields[key].Arr?
    ensures Append(data, key, value).value[key].items == [data.fields[key], value]
  {
  }

  class MemoryClient {
    var file: StoreFile
    /** Whether `_save_data` can write the storage file. */
    const writable: bool

    /** The constructor writes `{}` when there is no file yet; an existing file is left alone. */
    constructor(file: StoreFile, writable: bool)
      ensures this.writable == writable
      ensures file.Missing? && writable ==> this.file == Stored(Obj(map[]))
      ensures !(file.Missing? && writable) ==> this.file == file
    {
      this.writable := writable;
      if file.Missing? && writable {
        this.file := Stored(Obj(map[]));
      } else {
        this.file := file;
      }
    }

    /** `put`: true exactly when the document is a dict and it was written back with `key` set. */
    method PutKey(key: string, value: Value) returns (ok: bool)
      modifies this
      ensures ok <==> writable && Load(old(file)).Obj?
      ensures ok ==> file == Stored(Obj(Put(Load(old(file)), key, value).value))
      ensures !ok ==> file == old(file)
    {
      var data := Load(file);
      var r := Put(data, key, value);
      if r.None? || !writable {
        return false;
      }
      file := Stored(Obj(r.value));
      return true;
    }

    /** `get`: the stored value, or `None`; the file is not touched. */
    method GetKey(key: string) returns (v: Value)
      ensures v == Lookup(Load(file), key)
    {
      var data := Load(file);
      v := Lookup(data, key);
    }

    /** `delete`: an absent key counts as deleted without a write; a present one is removed and saved. */
    method DeleteKey(key: string) returns (ok: bool)
      modifies this
      ensures var r := Remove(Load(old(file)), key);
        (r.NotPresent? ==> ok && file == old(file))
        && (r.Raises? ==> !ok && file == old(file))
        && (r.Removed? ==> (ok <==> writable) && file == (if writable then Stored(Obj(r.rest)) else old(file)))
    {
      var r := Remove(Load(file), key);
      match r
      case NotPresent =>
        return true;
      case Raises =>
        return false;
      case Removed(rest) =>
        if writable {
          file := Stored(Obj(rest));
        }
        return writable;
    }

    /** `append`: the value is added at the end of the list under `key`, created or wrapped as needed. */
    method AppendKey(key: string, value: Value) returns (ok: bool)
      modifies this
      ensures ok <==> writable && Load(old(file)).Obj?
      ensures ok ==> file == Stored(Obj(Append(Load(old(file)), key, value).value))
      ensures !ok ==> file == old(file)
    {
      var r := Append(Load(file), key, value);
      if r.None? || !writable {
        return false;
      }
      file := Stored(Obj(r.value));
      return true;
    }

    /** `get_all_keys`: each key of the stored dict once; `[]` when the document is not a dict. */
    method AllKeys() returns (keys: seq<string>)
      ensures var data := Load(file);
        (data.Obj? ==> |keys| == |data.fields| && forall k :: k in keys <==> k in data.fields)
        && (!data.Obj? ==> keys == [])
      ensures forall i, j :: 0 <= i < j < |keys| ==> keys[i] != keys[j]
    {
      var data := Load(file);
      keys := [];
      if !data.Obj? {
        return;
      }
      var todo := data.fields.Keys;
      while todo != {}
        invariant todo <= data.fields.Keys
        invariant forall k :: k in keys <==> k in data.fields && k !in todo
        invariant forall i, j :: 0 <= i < j < |keys| ==> keys[i] != keys[j]
        invariant |keys| + |todo| == |data.fields|
        decreases |todo|
      {
        var k :| k in todo;
        keys := keys + [k];
        todo := todo - {k};
      }
    }
  }

  /**
   * The fixture's scenario on a writable store holding a dict: `put` then `get` returns
   * the value, `delete` succeeds, and a second `get` finds nothing.
   */
  method PutGetDeleteGet(c: MemoryClient, key: string, value: Value)
      returns (put: bool, got: Value, deleted: bool, gone: Value)
    modifies c
    requires c.writable && Load(c.file).Obj?
    ensures put && got == value && deleted && gone == Null
  {
    put := c.PutKey(key, value);
    got := c.GetKey(key);
    deleted := c.DeleteKey(key);
    gone := c.GetKey(key);
  }

  /** A missing or corrupt file acts as `{}`, so a `put` leaves only the new key. */
  lemma PutOnFreshStore(f: StoreFile, key: string, value: Value)
    requires !f.Stored?
    ensures Put(Load(f), key, value) == Some(map[key := value])
  {
  }

  /** `put` then `get` of the same key returns the value; other keys read as before. */
  lemma PutThenLookup(data: Value, key: string, value: Value, other: string)
    requires data.Obj?
    ensures Lookup(Obj(Put(data, key, value).value), key) == value
    ensures other != key ==> Lookup(Obj(Put(data, key, value).value), other) == Lookup(data, other)
  {
  }

  /** After a removal the key reads as `None` and every other key as before. */
  lemma RemoveThenLookup(data: Value, key: string, other: string)
    requires Remove(data, key).Removed?
    ensures Lookup(Obj(Remove(data, key).rest), key) == Null
    ensures other != key ==> Lookup(Obj(Remove(data, key).rest), other) == Lookup(data, other)
  {
  }
}
