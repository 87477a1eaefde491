/**
 * The local-file question tool: the vector search results for a search term become a numbered
 * list of at most ten distinct files, each marked as a filename match when a longer word of
 * the term occurs in its base name, and as a context match otherwise.
 */
module LocalFileQa {
  import opened Wrappers
  import opened Json
  import opened Text
  import opened VectorTools

  const NoMatches: string := "No matching files found in the knowledge base."
  const MaxRows: nat := 10
  /** How many results the tool asks the vector search for. */
  const SearchSize: nat := 30

  /** What one search result contributes: nothing, a file path, or the message of an exception. */
  datatype Entry = Skip | FilePath(path: string) | Raises(error: string)

  /** The AttributeError `metadata.get` raises on metadata that is not a dict. */
  function NoGetError(metadata: Value): string
  {
    "'" + PyTypeName(metadata) + "' object has no attribute 'get'"
  }

  /** The TypeError `os.path.basename` raises on a path that is not a string. */
  function PathTypeError(fp: Value): string
  {
    "expected str, bytes or os.PathLike object, not " + PyTypeName(fp)
  }

  /**
   * `r.get("metadata", {}).get("related_file", "")`, then `os.path.basename`: metadata that is
   * not a dict, or a truthy `related_file` that is not a string, raises; a falsy one is skipped.
   */
  function EntryOf(h: VectorHit): Entry
  {
    if !h.metadata.Obj? then Raises(NoGetError(h.metadata))
    else
      var fp := Get(h.metadata.fields, "related_file", Str(""));
      if !Truthy(fp) then Skip
      else if fp.Str? then FilePath(fp.s)
      else Raises(PathTypeError(fp))
  }

  /** `os.path.basename(p)`: what follows the last `/`. */
  function Basename(p: string): (r: string)
  {
    if p == [] || p[|p| - 1] == '/' then []
    else Basename(p[..|p| - 1]) + [p[|p| - 1]]
  }

  /** The words of the search term longer than two characters, lower-cased. */
  function QueryWords(term: string): (r: seq<string>)
  {
    LongWords(Words(term))
  }

  function LongWords(ws: seq<string>): (r: seq<string>)
  {
    if ws == [] then []
    else (if |ws[0]| > 2 then [Lower(ws[0])] else []) + LongWords(ws[1..])
  }

  /** The heuristic: some query word occurs in the lower-cased base name. */
  predicate FilenameMatch(words: seq<string>, base: string)
  {
    exists k :: 0 <= k < |words| && Contains(Lower(base), words[k])
  }

  /** One row: its number, the file path and whether the file name matched. */
  datatype Row = Row(index: nat, path: string, byName: bool)

  function Format(row: Row): string
  {
    IntToString(row.index) + ", " + row.path + " " + (if row.byName then "(filename match)" else "(context match)")
  }

  function FormatAll(rows: seq<Row>): (r: seq<string>)
    ensures |r| == |rows|
  {
    if rows == [] then [] else FormatAll(rows[..|rows| - 1]) + [Format(rows[|rows| - 1])]
  }

  /** The loop's state: the base names seen and the rows made. */
  datatype Acc = Acc(seen: set<string>, rows: seq<Row>)

  /** One pass of the loop body: skip, add a row for a new base name, or raise. */
  function Visit(h: VectorHit, words: seq<string>, acc: Acc): Result<Acc>
  {
    match EntryOf(h)
    case Raises(e) => Failure(e)
    case Skip => Success(acc)
    case FilePath(p) =>
      var b := Basename(p);
      if b in acc.seen then Success(acc)
      else Success(Acc(acc.seen + {b}, acc.rows + [Row(|acc.rows| + 1, p, FilenameMatch(words, b))]))
  }

  /**
   * The loop of `query` from result `rs[0]` on: it stops once ten rows exist and fails at the
   * first result that raises.
   */
  function Scan(rs: seq<VectorHit>, words: seq<string>, acc: Acc): Result<Acc>
    decreases |rs|
  {
    if rs == [] || |acc.rows| >= MaxRows then Success(acc)
    else
      match Visit(rs[0], words, acc)
      case Failure(e) => Failure(e)
      case Success(next) => Scan(rs[1..], words, next)
  }

  /** `query`, given the vector search results for the term. */
  function QuerySpec(term: string, results: seq<VectorHit>): Result<string>
  {
    if results == [] then Success(NoMatches)
    else
      match Scan(results, QueryWords(term), Acc({}, []))
      case Failure(e) => Failure(e)
      case Success(acc) => Success(Join("\n", FormatAll(acc.rows)))
  }

  /** The base names of some rows. */
  ghost function Names(rows: seq<Row>): set<string>
  {
    set k | 0 <= k < |rows| :: Basename(rows[k].path)
  }

  lemma NamesSnoc(rows: seq<Row>, row: Row)
    ensures Names(rows + [row]) == Names(rows) + {Basename(row.path)}
  {
    var rs := rows + [row];
    assert rs[|rows|] == row;
    assert forall k :: 0 <= k < |rows| ==> rs[k] == rows[k];
    assert forall x :: x in Names(rs) ==> x in Names(rows) + {Basename(row.path)};
  }

  /**
   * The loop's state is consistent: at most ten rows, numbered 1, 2, … without gaps, with
   * distinct base names that are exactly the names seen, each marked a filename match exactly
   * when a query word occurs in its base name.
   */
  ghost predicate AccOk(acc: Acc, words: seq<string>)
  {
    && |acc.rows| <= MaxRows
    && (forall k :: 0 <= k < |acc.rows| ==> acc.rows[k].index == k + 1)
    && (forall j, k :: 0 <= j < k < |acc.rows| ==> Basename(acc.rows[j].path) != Basename(acc.rows[k].path))
    && (forall k :: 0 <= k < |acc.rows| ==> acc.rows[k].byName == FilenameMatch(words, Basename(acc.rows[k].path)))
    && acc.seen == Names(acc.rows)
  }

  /** One pass keeps the state consistent, only appends, and a file's base name is seen afterwards. */
  lemma VisitFacts(h: VectorHit, words: seq<string>, acc: Acc)
    requires AccOk(acc, words) && |acc.rows| < MaxRows
    ensures Visit(h, words, acc).Success? ==>
      var next := Visit(h, words, acc).value;
      && AccOk(next, words)
      && acc.rows <= next.rows
      && (EntryOf(h).FilePath? ==> Basename(EntryOf(h).path) in next.seen)
  {
    if EntryOf(h).FilePath? {
      var p := EntryOf(h).path;
      var b := Basename(p);
      if b !in acc.seen {
        AddRowOk(acc, words, p);
      }
    }
  }

  /** A row for a base name not seen yet keeps the state consistent. */
  lemma AddRowOk(acc: Acc, words: seq<string>, p: string)
    requires AccOk(acc, words) && |acc.rows| < MaxRows && Basename(p) !in acc.seen
    ensures var b := Basename(p);
      AccOk(Acc(acc.seen + {b}, acc.rows + [Row(|acc.rows| + 1, p, FilenameMatch(words, b))]), words)
  {
    var row := Row(|acc.rows| + 1, p, FilenameMatch(words, Basename(p)));
    var rows := acc.rows + [row];
    assert forall k :: 0 <= k < |acc.rows| ==> rows[k] == acc.rows[k];
    forall j, k | 0 <= j < k < |rows|
      ensures Basename(rows[j].path) != Basename(rows[k].path)
    {
      if k == |acc.rows| {
        assert Basename(acc.rows[j].path) in Names(acc.rows);
      }
    }
    NamesSnoc(acc.rows, row);
  }

  /**
   * The loop keeps its state consistent and only appends rows; when it ends with fewer than
   * ten rows it has looked at every result, so every result's file has its base name among
   * the rows.
   */
  lemma {:induction false} ScanFacts(rs: seq<VectorHit>, words: seq<string>, acc: Acc)
    requires AccOk(acc, words)
    ensures Scan(rs, words, acc).Success? ==>
      var r := Scan(rs, words, acc).value;
      && AccOk(r, words)
      && acc.rows <= r.rows
      && (|r.rows| < MaxRows ==>
           forall i :: 0 <= i < |rs| && EntryOf(rs[i]).FilePath? ==> Basename(EntryOf(rs[i]).path) in r.seen)
    decreases |rs|
  {
    if rs != [] && |acc.rows| < MaxRows {
      VisitFacts(rs[0], words, acc);
      var v := Visit(rs[0], words, acc);
      if v.Success? {
        ScanFacts(rs[1..], words, v.value);
        var r := Scan(rs, words, acc);
        if r.Success? && |r.value.rows| < MaxRows {
          SeenGrows(rs[1..], words, v.value);
          assert forall i :: 1 <= i < |rs| ==> rs[i] == rs[1..][i - 1];
        }
      }
    }
  }

  /** The names seen only grow. */
  lemma {:induction false} SeenGrows(rs: seq<VectorHit>, words: seq<string>, acc: Acc)
    ensures Scan(rs, words, acc).Success? ==> acc.seen <= Scan(rs, words, acc).value.seen
    decreases |rs|
  {
    if rs != [] && |acc.rows| < MaxRows {
      var v := Visit(rs[0], words, acc);
      if v.Success? {
        SeenGrows(rs[1..], words, v.value);
      }
    }
  }

  /**
   * The loop raises only the exception of one of its results, and it cannot raise when no
   * result's metadata raises.
   */
  lemma {:induction false} ScanErrors(rs: seq<VectorHit>, words: seq<string>, acc: Acc)
    ensures Scan(rs, words, acc).Failure? ==>
      exists i :: 0 <= i < |rs| && EntryOf(rs[i]).Raises? && Scan(rs, words, acc).error == EntryOf(rs[i]).error
    ensures (forall i :: 0 <= i < |rs| ==> !EntryOf(rs[i]).Raises?) ==> Scan(rs, words, acc).Success?
    decreases |rs|
  {
    if rs != [] && |acc.rows| < MaxRows {
      var v := Visit(rs[0], words, acc);
      if v.Success? {
        ScanErrors(rs[1..], words, v.value);
        if Scan(rs, words, acc).Failure? {
          var i :| 0 <= i < |rs[1..]| && EntryOf(rs[1..][i]).Raises? && Scan(rs, words, acc).error == EntryOf(rs[1..][i]).error;
          assert rs[1..][i] == rs[i + 1];
        }
        assert forall i :: 0 <= i < |rs[1..]| ==> rs[1..][i] == rs[i + 1];
      }
    }
  }

  /** `query` fails exactly with the exception of some result, and succeeds when no result raises. */
  lemma QueryErrors(term: string, results: seq<VectorHit>)
    ensures QuerySpec(term, results).Failure? ==>
      exists i :: 0 <= i < |results| && EntryOf(results[i]).Raises? && QuerySpec(term, results).error == EntryOf(results[i]).error
    ensures (forall i :: 0 <= i < |results| ==> !EntryOf(results[i]).Raises?) ==> QuerySpec(term, results).Success?
  {
    if results != [] {
      ScanErrors(results, QueryWords(term), Acc({}, []));
    }
  }

  /** Python's message for `None.get`. */
  lemma NoneGetMessage()
    ensures NoGetError(Null) == "'NoneType' object has no attribute 'get'"
  {
  }

  /** Python's message for `os.path.basename(7)`. */
  lemma IntPathMessage()
    ensures PathTypeError(Num("7")) == "expected str, bytes or os.PathLike object, not int"
  {
    assert IsDigitString("7");
  }

  /** A first result whose metadata is `None` makes `query` raise the AttributeError of `.get`. */
  lemma NullMetadataRaises(term: string, results: seq<VectorHit>)
    requires results != [] && results[0].metadata == Null
    ensures QuerySpec(term, results) == Failure("'NoneType' object has no attribute 'get'")
  {
    NoneGetMessage();
    assert Scan(results, QueryWords(term), Acc({}, [])) == Failure(NoGetError(Null));
  }

  /** A first result whose `related_file` is the number 7 makes `query` raise `os.path.basename`'s TypeError. */
  lemma NumberPathRaises(term: string, results: seq<VectorHit>)
    requires results != [] && results[0].metadata.Obj?
    requires Get(results[0].metadata.fields, "related_file", Str("")) == Num("7")
    ensures QuerySpec(term, results) == Failure("expected str, bytes or os.PathLike object, not int")
  {
    IntPathMessage();
    assert Scan(results, QueryWords(term), Acc({}, [])) == Failure(PathTypeError(Num("7")));
  }

  /**
   * What `query` returns: the fixed message when the search found nothing; otherwise, unless a
   * result's metadata raised, the rows joined by newlines, at most ten, numbered from 1, one per
   * base name, each marked by whether a query word occurs in its base name; and when fewer than
   * ten rows were made, every result's file is among them.
   */
  lemma QueryRows(term: string, results: seq<VectorHit>)
    ensures results == [] ==> QuerySpec(term, results) == Success(NoMatches)
    ensures results != [] && Scan(results, QueryWords(term), Acc({}, [])).Success? ==>
      var rows := Scan(results, QueryWords(term), Acc({}, [])).value.rows;
      && QuerySpec(term, results) == Success(Join("\n", FormatAll(rows)))
      && |rows| <= MaxRows
      && (forall k :: 0 <= k < |rows| ==> rows[k].index == k + 1)
      && (forall j, k :: 0 <= j < k < |rows| ==> Basename(rows[j].path) != Basename(rows[k].path))
      && (forall k :: 0 <= k < |rows| ==> rows[k].byName == FilenameMatch(QueryWords(term), Basename(rows[k].path)))
      && (|rows| < MaxRows ==> forall i :: 0 <= i < |results| && EntryOf(results[i]).FilePath? ==>
            exists k :: 0 <= k < |rows| && Basename(rows[k].path) == Basename(EntryOf(results[i]).path))
  {
    ScanFacts(results, QueryWords(term), Acc({}, []));
  }

  /** `LocalFileQATool.query`, with the results of the vector search for the term given. */
  method Query(term: string, results: seq<VectorHit>) returns (r: Result<string>)
    ensures r == QuerySpec(term, results)
  {
    if results == [] {
      return Success(NoMatches);
    }
    var formatted: seq<string> := [];
    ghost var rows: seq<Row> := [];
    var seen: set<string> := {};
    var index := 1;
    var i := 0;
    var words := QueryWords(term);
    while i < |results|
      invariant 0 <= i <= |results|
      invariant index == |rows| + 1 && formatted == FormatAll(rows)
      invariant Scan(results, words, Acc({}, [])) == Scan(results[i..], words, Acc(seen, rows))
      invariant |rows| < MaxRows
    {
      assert results[i..][1..] == results[i + 1..];
      var h := results[i];
      if !h.metadata.Obj? {
        return Failure(NoGetError(h.metadata));
      }
      var filePath := Get(h.metadata.fields, "related_file", Str(""));
      if !Truthy(filePath) {
        i := i + 1;
        continue;
      }
      if !filePath.Str? {
        return Failure(PathTypeError(filePath));
      }
      var base := Basename(filePath.s);
      if base in seen {
        i := i + 1;
        continue;
      }
      seen := seen + {base};
      var byName := FilenameMatch(words, base);
      rows := rows + [Row(index, filePath.s, byName)];
      formatted := formatted + [Format(Row(index, filePath.s, byName))];
      index := index + 1;
      i := i + 1;
      if index > MaxRows {
        assert Scan(results, words, Acc({}, [])) == Success(Acc(seen, rows));
        return Success(Join("\n", formatted));
      }
    }
    r := Success(Join("\n", formatted));
  }
}
