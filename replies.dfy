/** The reply object every chat agent returns and the chat endpoint sends back
    as its JSON body: `{ type, message, data, suggestions }`. */
module Replies {
  import opened Js

  datatype Reply = Reply(kind: string, message: string, data: Value, suggestions: seq<string>)
  {
    /** The reply as the plain object the agent builds. */
    function Json(): (v: Value)
      ensures v.Obj? && v.fields.Keys == {"type", "message", "data", "suggestions"}
      ensures v.fields["type"] == Str(kind) && v.fields["message"] == Str(message)
      ensures v.fields["data"] == data && v.fields["suggestions"] == Strs(suggestions)
    {
      Obj(map["type" := Str(kind), "message" := Str(message), "data" := data, "suggestions" := Strs(suggestions)])
    }
  }

  /** An object literal with the given keys, each value read from `v`. */
  function Pick(v: Value, keys: seq<string>): (r: Value)
    ensures r.Obj? && r.fields.Keys == set k | k in keys
    ensures forall k :: k in r.fields ==> r.fields[k] == Get(v, k)
  {
    Obj(map k | k in keys :: Get(v, k))
  }
}
