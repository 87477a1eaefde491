/**
 * The record every connector returns: `{"id", "title", "content", "metadata"}`.
 */
module Docs {
  import opened Wrappers
  import opened Json

  datatype Doc = Doc(id: string, title: string, content: string, metadata: map<string, Value>)

  /** `doc.get("metadata", {}).get("error")` is truthy. */
  predicate IsErrorDoc(d: Doc)
  {
    Truthy(Get(d.metadata, "error", Null))
  }

  /** A connector setting that Python treats as true: given and not the empty string. */
  predicate Present(o: Option<string>)
  {
    o.Some? && o.value != ""
  }

  predicate IsSlash(c: char)
  {
    c == '/'
  }
}
