/**
 * Loosely typed payload dictionaries (`[String: AnyObject]`) as a small
 * JSON-like value type, with the conditional casts (`as? String`,
 * `as? [String: AnyObject]`, ...) the SDK applies to dictionary entries.
 */
module Payload {
  import opened Wrappers

  datatype Value =
    | VString(str: string)
    | VBool(b: bool)
    | VInt(n: int)
    | VDict(entries: map<string, Value>)
    | VArray(items: seq<Value>)
    | VNull

  type Dict = map<string, Value>

  /** `d[k] as? String` */
  function StringAt(d: Dict, k: string): (r: Option<string>)
    ensures r.Some? <==> k in d && d[k].VString?
    ensures r.Some? ==> d[k] == VString(r.value)
  {
    if k in d && d[k].VString? then Some(d[k].str) else None
  }

  /** `d[k] as? Bool` */
  function BoolAt(d: Dict, k: string): (r: Option<bool>)
    ensures r.Some? <==> k in d && d[k].VBool?
    ensures r.Some? ==> d[k] == VBool(r.value)
  {
    if k in d && d[k].VBool? then Some(d[k].b) else None
  }

  /** `d[k] as? Int` */
  function IntAt(d: Dict, k: string): (r: Option<int>)
    ensures r.Some? <==> k in d && d[k].VInt?
    ensures r.Some? ==> d[k] == VInt(r.value)
  {
    if k in d && d[k].VInt? then Some(d[k].n) else None
  }

  /** `d[k] as? [String: AnyObject]` */
  function DictAt(d: Dict, k: string): (r: Option<Dict>)
    ensures r.Some? <==> k in d && d[k].VDict?
    ensures r.Some? ==> d[k] == VDict(r.value)
  {
    if k in d && d[k].VDict? then Some(d[k].entries) else None
  }

  /** `v as? [[String: AnyObject]]`: an array whose every element is a dictionary. */
  function AsDictArray(v: Value): (r: Option<seq<Dict>>)
    ensures r.Some? <==> v.VArray? && forall i :: 0 <= i < |v.items| ==> v.items[i].VDict?
    ensures r.Some? ==> |r.value| == |v.items|
    ensures r.Some? ==> forall i :: 0 <= i < |v.items| ==> v.items[i] == VDict(r.value[i])
  {
    if v.VArray? && forall i :: 0 <= i < |v.items| ==> v.items[i].VDict? then
      Some(seq(|v.items|, i requires 0 <= i < |v.items| && v.items[i].VDict? => v.items[i].entries))
    else None
  }

  /** `d[outer]?[inner]`: an entry of a nested dictionary, absent when `d[outer]` is not a dictionary. */
  function NestedAt(d: Dict, outer: string, inner: string): (r: Option<Value>)
    ensures r.Some? <==> DictAt(d, outer).Some? && inner in DictAt(d, outer).value
    ensures r.Some? ==> r.value == d[outer].entries[inner]
  {
    match DictAt(d, outer)
    case Some(nested) => if inner in nested then Some(nested[inner]) else None
    case None => None
  }
}
