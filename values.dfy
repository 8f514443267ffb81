/**
 * Log payloads as dynamic JavaScript values, their string form
 * (stringifyLogObject) and the object built from an exception
 * (buildExceptionObject).
 */
module Values {
  import opened Base

  datatype Primitive = Str(s: string) | Num(n: int) | Bool(b: bool)

  datatype Value =
    | Undefined
    | Null
    | Prim(p: Primitive)                 // a string, number or boolean
    | Wrapped(w: Primitive)              // a String, Number or Boolean object
    | Regex(source: string, flags: string)  // a RegExp object
    | Obj(fields: map<string, Value>)    // any other object, by its own properties
    | Func(result: Value)                // a parameterless function and what it returns

  /** What `toString()` gives for a primitive. */
  function PrimitiveText(p: Primitive): string
  {
    match p
    case Str(s) => s
    case Num(n) => IntText(n)
    case Bool(b) => if b then "true" else "false"
  }

  /** JavaScript truthiness. */
  predicate Truthy(v: Value)
  {
    match v
    case Undefined => false
    case Null => false
    case Prim(p) => p != Str("") && p != Num(0) && p != Bool(false)
    case _ => true
  }

  /** Property read `v[key]`: undefined unless `v` is an object with that property. */
  function Get(v: Value, key: string): Value
  {
    if v.Obj? && key in v.fields then v.fields[key] else Undefined
  }

  /** Number of links in the chain of truthy `inner` errors below `e`. */
  function InnerDepth(e: Value): nat
  {
    match e
    case Obj(fs) => if "inner" in fs && Truthy(fs["inner"]) then 1 + InnerDepth(fs["inner"]) else 0
    case _ => 0
  }

  /** `fs` with `key` set to `val` when `cond` holds. */
  function SetIf(fs: map<string, Value>, cond: bool, key: string, val: Value): map<string, Value>
  {
    if cond then fs[key := val] else fs
  }

  /** The properties copied from an error itself, before its inner error is handled. */
  function ExceptionHead(e: Value): (r: map<string, Value>)
    ensures r.Keys <= {"stack", "e", "message", "name", "data"}
    ensures Truthy(Get(e, "stack")) ==> "stack" in r && r["stack"] == Get(e, "stack") && "e" !in r
    ensures !Truthy(Get(e, "stack")) ==> "e" in r && r["e"] == e && "stack" !in r
    ensures ("message" in r) == Truthy(Get(e, "message"))
    ensures "message" in r ==> r["message"] == Get(e, "message")
    ensures ("name" in r) == Truthy(Get(e, "name"))
    ensures "name" in r ==> r["name"] == Get(e, "name")
    ensures ("data" in r) == Truthy(Get(e, "data"))
    ensures "data" in r ==> r["data"] == Get(e, "data")
  {
    var stack := Get(e, "stack");
    var base := if Truthy(stack) then map["stack" := stack] else map["e" := e];
    var withMessage := SetIf(base, Truthy(Get(e, "message")), "message", Get(e, "message"));
    var withName := SetIf(withMessage, Truthy(Get(e, "name")), "name", Get(e, "name"));
    SetIf(withName, Truthy(Get(e, "data")), "data", Get(e, "data"))
  }

  /**
   * buildExceptionObject: copies the truthy `stack`, `message`, `name` and
   * `data` properties of an error into a fresh object (the error itself goes
   * under `e` when it has no stack) and converts a truthy `inner` error the
   * same way, recursively. Nothing else is copied.
   */
  function BuildExceptionObject(e: Value): (r: Value)
    ensures r.Obj?
    ensures r.fields.Keys <= {"stack", "e", "message", "name", "data", "inner"}
    ensures Truthy(Get(e, "inner")) <==> Get(r, "inner").Obj?
    ensures InnerDepth(r) == InnerDepth(e)
    decreases e
  {
    var head := ExceptionHead(e);
    assert "inner" !in head by { InnerNotCopied(); }
    if e.Obj? && "inner" in e.fields && Truthy(e.fields["inner"]) then
      Obj(head["inner" := BuildExceptionObject(e.fields["inner"])])
    else
      Obj(head)
  }

  /**
   * What buildExceptionObject copies: the stack when it is truthy (the
   * error itself under `e` otherwise), and each of message, name and data
   * exactly when it is truthy.
   */
  lemma ExceptionObjectCopies(e: Value)
    ensures var r := BuildExceptionObject(e);
      && (Truthy(Get(e, "stack")) ==> Get(r, "stack") == Get(e, "stack") && Get(r, "e") == Undefined)
      && (!Truthy(Get(e, "stack")) ==> Get(r, "e") == e && Get(r, "stack") == Undefined)
      && Get(r, "message") == (if Truthy(Get(e, "message")) then Get(e, "message") else Undefined)
      && Get(r, "name") == (if Truthy(Get(e, "name")) then Get(e, "name") else Undefined)
      && Get(r, "data") == (if Truthy(Get(e, "data")) then Get(e, "data") else Undefined)
  {
    var head := ExceptionHead(e);
    InnerNotCopied();
    if e.Obj? && "inner" in e.fields && Truthy(e.fields["inner"]) {
      WithInner(head, BuildExceptionObject(e.fields["inner"]));
    }
  }

  /** Adding `inner` to properties that lack it changes no other property. */
  lemma WithInner(head: map<string, Value>, inner: Value)
    requires "inner" !in head
    ensures forall k :: k != "inner" ==> Get(Obj(head["inner" := inner]), k) == Get(Obj(head), k)
  {
  }

  /** No property copied from an error itself is called `inner`. */
  lemma InnerNotCopied()
    ensures "inner" !in {"stack", "e", "message", "name", "data"}
  {
    assert "inner"[0] == 'i';
  }

  /** The object passed on when an exception accompanies the log object: the log object goes under `logData`. */
  function WithLogData(exc: Value, logData: Value): (r: Value)
    requires exc.Obj?
    ensures r.Obj? && r.fields.Keys == exc.fields.Keys + {"logData"}
    ensures Get(r, "logData") == logData
    ensures forall k :: k in exc.fields && k != "logData" ==> Get(r, k) == exc.fields[k]
  {
    Obj(exc.fields["logData" := logData])
  }

  /** stringifyLogObjectFunction: a parameterless function is called once, anything else is kept. */
  function Realize(v: Value): Value
  {
    if v.Func? then v.result else v
  }

  /** What `toString()` gives for a RegExp: its source between slashes, then its flags. */
  function RegexText(source: string, flags: string): (r: string)
    ensures |r| == |source| + |flags| + 2 && r[0] == '/' && r[|source| + 1] == '/'
    ensures r[1..|source| + 1] == source && r[|source| + 2..] == flags
  {
    "/" + source + "/" + flags
  }

  datatype Stringified = Stringified(msg: Option<string>, meta: Option<Value>, finalString: string)

  /**
   * stringifyLogObject: a scalar (after calling a parameterless function) is
   * its own message and final string; null and plain objects keep the object
   * as metadata and are serialized by `serialize` (the user hook or JSON
   * encoding); undefined gives "undefined", a String, Number or Boolean
   * object or a RegExp its `toString()` text, and a nested function "unknown".
   */
  function StringifyLogObject(v: Value, serialize: Value -> string): (r: Stringified)
    ensures r.msg.Some? <==> r.meta.None?
    ensures r.msg.Some? ==> r.msg.value == r.finalString
    ensures r.meta.Some? <==> (Realize(v).Obj? || Realize(v).Null?)
    ensures r.meta.Some? ==> r.meta.value == Realize(v) && r.finalString == serialize(Realize(v))
    ensures Realize(v).Prim? ==> r.finalString == PrimitiveText(Realize(v).p)
    ensures Realize(v) == Prim(Str(r.finalString)) ==> r.msg == Some(r.finalString)
    ensures Realize(v).Undefined? ==> r.msg == Some("undefined")
    ensures Realize(v).Wrapped? ==> r.msg == Some(PrimitiveText(Realize(v).w))
    ensures Realize(v).Regex? ==> r.msg == Some(RegexText(Realize(v).source, Realize(v).flags))
    ensures Realize(v).Func? ==> r.msg == Some("unknown")
    ensures v.Func? && !v.result.Func? ==> r == StringifyLogObject(v.result, serialize)
  {
    var a := Realize(v);
    match a
    case Prim(p) => Stringified(Some(PrimitiveText(p)), None, PrimitiveText(p))
    case Undefined => Stringified(Some("undefined"), None, "undefined")
    case Wrapped(p) => Stringified(Some(PrimitiveText(p)), None, PrimitiveText(p))
    case Regex(src, flags) => Stringified(Some(RegexText(src, flags)), None, RegexText(src, flags))
    case Null => Stringified(None, Some(a), serialize(a))
    case Obj(_) => Stringified(None, Some(a), serialize(a))
    case Func(_) => Stringified(Some("unknown"), None, "unknown")
  }
}
