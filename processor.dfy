/**
 * The document processor: a fetched record is written out as a Markdown file (given a title
 * header unless it already starts with one) and as a summary file, and both are indexed in the
 * vector store under their own ids, with metadata that says which file each one is.
 */
module Processing {
  import opened Json
  import opened Text
  import opened Docs
  import opened Llm
  import opened VectorTools

  /** How much of the full document is indexed. */
  const IndexLimit: nat := 2000

  /** `str(docs_path / name)`. */
  function PathIn(dir: string, name: string): string
  {
    dir + "/" + name
  }

  /** The file content: the content itself when, after leading spaces, it starts with `#`; else a title header first. */
  function FullContent(title: string, content: string): (r: string)
  {
    if StartsWith(LStrip(content), "#") then content else "# " + title + "\n\n" + content
  }

  /**
   * The written file always opens with a Markdown header (after leading spaces) and ends with the
   * record's content; content that already opens with one is kept as it is.
   */
  lemma FullContentHasHeader(title: string, content: string)
    ensures var r := FullContent(title, content);
      && StartsWith(LStrip(r), "#")
      && EndsWith(r, content)
      && (StartsWith(LStrip(content), "#") <==> r == content)
  {
    var r := FullContent(title, content);
    var h := "# " + title + "\n\n";
    if !StartsWith(LStrip(content), "#") {
      assert r == h + content;
      assert !IsSpace(r[0]);
      assert LStrip(r) == r;
      assert r[|r| - |content|..] == content;
      assert |r| > |content|;
    }
  }

  /** `metadata.copy()` updated with the three keys that say what was indexed; the given keys win. */
  function IndexMeta(metadata: map<string, Value>, kind: string, filePath: string, relatedFile: string): (r: map<string, Value>)
    ensures r.Keys == metadata.Keys + {"type", "file_path", "related_file"}
    ensures r["type"] == Str(kind) && r["file_path"] == Str(filePath) && r["related_file"] == Str(relatedFile)
    ensures forall k :: k in metadata && k !in {"type", "file_path", "related_file"} ==> r[k] == metadata[k]
  {
    metadata + map["type" := Str(kind), "file_path" := Str(filePath), "related_file" := Str(relatedFile)]
  }

  /** The two upserts `process` makes for a record: the summary, then the start of the full text. */
  function IndexCalls(dir: string, d: Doc, summary: string): seq<Upsert>
  {
    var fullPath := PathIn(dir, d.id + ".md");
    var summaryPath := PathIn(dir, d.id + "-summary.md");
    var full := FullContent(d.title, d.content);
    [Upsert([summary], [IndexMeta(d.metadata, "summary", summaryPath, fullPath)], [d.id + "-summary"]),
     Upsert([Take(full, IndexLimit)], [IndexMeta(d.metadata, "full", fullPath, fullPath)], [d.id + "-full"])]
  }

  /**
   * A record with an id is indexed exactly twice: its summary under "{id}-summary" and the first
   * 2000 characters of its full text under "{id}-full", both pointing back to the full file,
   * each with the record's metadata overridden by what was indexed.
   */
  lemma IndexCallsShape(dir: string, d: Doc, summary: string)
    ensures var calls := IndexCalls(dir, d, summary);
      var fullPath := PathIn(dir, d.id + ".md");
      && |calls| == 2
      && calls[0].ids == [d.id + "-summary"] && calls[1].ids == [d.id + "-full"]
      && calls[0].documents == [summary]
      && calls[1].documents == [Take(FullContent(d.title, d.content), IndexLimit)]
      && |calls[1].documents[0]| <= IndexLimit
      && |calls[0].metadatas| == 1 && |calls[1].metadatas| == 1
      && calls[0].metadatas[0]["type"] == Str("summary") && calls[1].metadatas[0]["type"] == Str("full")
      && calls[0].metadatas[0]["related_file"] == Str(fullPath) && calls[1].metadatas[0]["related_file"] == Str(fullPath)
      && calls[1].metadatas[0]["file_path"] == Str(fullPath)
      && calls[0].metadatas[0]["file_path"] == Str(PathIn(dir, d.id + "-summary.md"))
  {
  }

  /** `Processor`: the directory it writes into, the files written there, its LLM client and its vector store. */
  class Processor {
    const docsPath: string
    const llm: LlmClient
    const complete: Completion
    const vector: VectorTool
    var files: map<string, string>

    constructor (docsPath: string, llm: LlmClient, complete: Completion, vector: VectorTool)
      ensures this.docsPath == docsPath && this.llm == llm && this.complete == complete && this.vector == vector
      ensures files == map[]
    {
      this.docsPath := docsPath;
      this.llm := llm;
      this.complete := complete;
      this.vector := vector;
      files := map[];
    }

    /** `self.llm.generate_summary`. */
    function Summarize(content: string): string
    {
      GenerateSummary(llm, content, complete)
    }

    /** The two `add_documents` calls of `process`, each of one document. */
    method Index(calls: seq<Upsert>)
      requires |calls| == 2 && calls[0].documents != [] && calls[1].documents != []
      modifies vector
      ensures vector.upserts == old(vector.upserts) + calls
    {
      vector.AddDocuments(calls[0].documents, calls[0].metadatas, calls[0].ids);
      vector.AddDocuments(calls[1].documents, calls[1].metadatas, calls[1].ids);
      assert calls == [calls[0], calls[1]];
    }

    /**
     * `process`: a record without an id changes nothing; any other is written as `{id}.md` and
     * `{id}-summary.md` and indexed by two upserts.
     */
    method Process(d: Doc)
      modifies this, vector
      ensures d.id == "" ==> files == old(files) && vector.upserts == old(vector.upserts)
      ensures d.id != "" ==>
        var full := FullContent(d.title, d.content);
        var summary := Summarize(full);
        && files == old(files)[PathIn(docsPath, d.id + ".md") := full][PathIn(docsPath, d.id + "-summary.md") := summary]
        && vector.upserts == old(vector.upserts) + IndexCalls(docsPath, d, summary)
    {
      if d.id == "" {
        return;
      }
      var fullContent := FullContent(d.title, d.content);
      var summary := Summarize(fullContent);
      files := files[PathIn(docsPath, d.id + ".md") := fullContent];
      files := files[PathIn(docsPath, d.id + "-summary.md") := summary];
      var calls := IndexCalls(docsPath, d, summary);
      assert |calls| == 2 && calls[0].documents != [] && calls[1].documents != [];
      Index(calls);
    }
  }
}
