/**
 * The CSV data accessor: a handler that remembers the data directory it was
 * given and normalises file names so that they carry the `.csv` extension.
 */
module DataAccess {

  /** The extension every CSV file name is given. */
  const Postfix: string := ".csv"

  predicate EndsWith(s: string, suffix: string)
  {
    |suffix| <= |s| && s[|s| - |suffix|..] == suffix
  }

  class CsvHandler {
    /** Directory that holds the data files. */
    var path: string

    constructor (pathData: string)
      ensures path == pathData
    {
      path := pathData;
    }

    /**
     * Appends `.csv` unless the name already ends with it. The function has
     * no reads clause, so it cannot depend on `path` or any other state.
     */
    function AddPostfix(filename: string): (r: string)
      ensures EndsWith(r, Postfix)
      ensures |filename| <= |r| && r[..|filename|] == filename
      ensures |r| == |filename| || |r| == |filename| + |Postfix|
      ensures |r| == |filename| <==> EndsWith(filename, Postfix)
    {
      if EndsWith(filename, Postfix) then filename else filename + Postfix
    }
  }

  /** The contract of AddPostfix leaves exactly one possible result. */
  lemma AddPostfixDetermined(h: CsvHandler, filename: string, r: string)
    requires EndsWith(r, Postfix)
    requires |filename| <= |r| && r[..|filename|] == filename
    requires |r| == |filename| || |r| == |filename| + |Postfix|
    requires |r| == |filename| <==> EndsWith(filename, Postfix)
    ensures r == h.AddPostfix(filename)
    ensures EndsWith(filename, Postfix) ==> r == filename
    ensures !EndsWith(filename, Postfix) ==> r == filename + Postfix
  {
    if EndsWith(filename, Postfix) {
      assert r == r[..|filename|];
    } else {
      assert r == r[..|filename|] + r[|filename|..];
    }
  }

  /** Normalising a name twice gives the same name as normalising it once. */
  lemma AddPostfixIdempotent(h: CsvHandler, filename: string)
    ensures h.AddPostfix(h.AddPostfix(filename)) == h.AddPostfix(filename)
  {
    var once := h.AddPostfix(filename);
    assert once[..|once|] == once;
  }

  /** Two handlers over different directories normalise every name alike. */
  lemma AddPostfixIgnoresPath(h1: CsvHandler, h2: CsvHandler, filename: string)
    ensures h1.AddPostfix(filename) == h2.AddPostfix(filename)
  {
  }

  lemma AddPostfixExamples(h: CsvHandler)
    ensures h.AddPostfix("report") == "report.csv"
    ensures h.AddPostfix("report.csv") == "report.csv"
  {
    assert !EndsWith("report", Postfix) by {
      assert "report"[2..] != Postfix;
    }
    assert "report.csv"[6..] == Postfix;
  }
}
