/**
 * The minimal memory server: three HTTP handlers over one in-process dict. The request
 * body is the decoded JSON object (absent when the body is not JSON), and the reply is
 * a status code with the JSON it carries.
 */
module MemoryServer {
  import opened Wrappers
  import opened Json

  const StatusKey := "status"
  const ReasonKey := "reason"
  const ValueKey := "value"

  /** A handler's reply. `Failed` is an exception inside the handler, which the framework turns into a 500. */
  datatype Response = Reply(code: int, body: map<string, Value>) | Failed

  const OkReply := Reply(200, map[StatusKey := Str("ok")])
  const NoKeyReply := Reply(400, map[StatusKey := Str("error"), ReasonKey := Str("No key provided")])
  const NotFoundReply := Reply(404, map[StatusKey := Str("error"), ReasonKey := Str("Key not found")])

  /** Lists and dicts cannot be dict keys: using one raises. */
  predicate Hashable(v: Value) {
    !v.Arr? && !v.Obj?
  }

  /** A number as Python compares it: a bool counts as 0 or 1. */
  function AsNumber(v: Value): Option<real> {
    match v
    case Bool(b) => Some(if b then 1.0 else 0.0)
    case Num(n) => Some(n)
    case _ => None
  }

  /** Python's `==` on hashable JSON values: numbers and bools by value, everything else by kind and content. */
  predicate PyEq(a: Value, b: Value)
    requires Hashable(a) && Hashable(b)
  {
    if AsNumber(a).Some? || AsNumber(b).Some? then AsNumber(a) == AsNumber(b) else a == b
  }

  /**
   * The dict slot a key occupies. `True == 1` and `False == 0` with equal hashes, so a
   * bool key shares its slot with the number.
   */
  function Slot(v: Value): Value {
    if v.Bool? then Num(if v.b then 1.0 else 0.0) else v
  }

  /** Two keys share a slot exactly when Python finds them equal. */
  lemma SlotIffEqual(a: Value, b: Value)
    requires Hashable(a) && Hashable(b)
    ensures Slot(a) == Slot(b) <==> PyEq(a, b)
  {
  }

  class Server {
    /** The stored values, by the slot of their key. */
    var memory: map<Value, Value>

    constructor()
      ensures memory == map[]
    {
      memory := map[];
    }

    /**
     * `put`: a non-null key is stored with the body's value (or `None`), replacing any
     * previous one; without a key the reply is 400 and memory is unchanged.
     */
    method HandlePut(body: Option<map<string, Value>>) returns (r: Response)
      modifies this
      ensures body.None? ==> r.Failed? && memory == old(memory)
      ensures body.Some? ==> var key := GetOr(body.value, "key", Null);
        (key.Null? ==> r == NoKeyReply && memory == old(memory))
        && (!key.Null? && !Hashable(key) ==> r.Failed? && memory == old(memory))
        && (!key.Null? && Hashable(key) ==>
              r == OkReply && memory == old(memory)[Slot(key) := GetOr(body.value, "value", Null)])
    {
      if body.None? {
        return Failed;
      }
      var key := GetOr(body.value, "key", Null);
      var value := GetOr(body.value, "value", Null);
      if key.Null? {
        return NoKeyReply;
      }
      if !Hashable(key) {
        return Failed;
      }
      memory := memory[Slot(key) := value];
      return OkReply;
    }

    /** `get`: the stored value for the query's key, `None` when absent; memory is never changed. */
    method HandleGet(key: Option<string>) returns (r: Response)
      ensures r.Reply? && r.code == 200 && ValueKey in r.body
      ensures key.Some? && Str(key.value) in memory ==> r.body[ValueKey] == memory[Str(key.value)]
      ensures !(key.Some? && Str(key.value) in memory) ==> r.body[ValueKey] == Null
    {
      var v := if key.Some? && Str(key.value) in memory then memory[Str(key.value)] else Null;
      return Reply(200, map[ValueKey := v]);
    }

    /** `delete`: a present key is removed (200); an absent one gets 404 and nothing changes. */
    method HandleDelete(body: Option<map<string, Value>>) returns (r: Response)
      modifies this
      ensures body.None? ==> r.Failed? && memory == old(memory)
      ensures body.Some? ==> var key := GetOr(body.value, "key", Null);
        (!Hashable(key) ==> r.Failed? && memory == old(memory))
        && (Hashable(key) && Slot(key) in old(memory) ==> r == OkReply && memory == old(memory) - {Slot(key)})
        && (Hashable(key) && Slot(key) !in old(memory) ==> r == NotFoundReply && memory == old(memory))
    {
      if body.None? {
        return Failed;
      }
      var key := GetOr(body.value, "key", Null);
      if !Hashable(key) {
        return Failed;
      }
      if Slot(key) in memory {
        memory := memory - {Slot(key)};
        return OkReply;
      }
      return NotFoundReply;
    }
  }

  /**
   * A put through the server followed by a get of the same string key returns the
   * value, and a delete then makes the get answer `None` again.
   */
  method PutGetDelete(s: Server, key: string, value: Value) returns (got: Value, gone: Value)
    modifies s
    ensures got == value && gone == Null
  {
    var body := map["key" := Str(key), "value" := value];
    var r1 := s.HandlePut(Some(body));
    var r2 := s.HandleGet(Some(key));
    got := r2.body[ValueKey];
    var r3 := s.HandleDelete(Some(map["key" := Str(key)]));
    var r4 := s.HandleGet(Some(key));
    gone := r4.body[ValueKey];
  }

  /** A value put under the key `1` is deleted by the key `true`, since the two are one dict key. */
  method BoolDeletesNumber() returns (r: Response)
    ensures r == OkReply
  {
    var s := new Server();
    var _ := s.HandlePut(Some(map["key" := Num(1.0), "value" := Str("x")]));
    r := s.HandleDelete(Some(map["key" := Bool(true)]));
  }
}
