/** Keyword extraction and similar-case search of the backend
    (backend/app/data_utils.py). The CSV files are given as input: a map from
    file name to what `pd.read_csv` would yield, with a missing key standing
    for a file that does not exist. */
module DataUtils {
  import Text

  /** The keyword table, in the dict's insertion order: (category, terms). */
  const Patterns: seq<(string, seq<string>)> := [
    ("범죄", ["흉기", "난동", "폭력", "협박", "체포", "검거", "수사"]),
    ("음주", ["만취", "술", "음주", "알코올"]),
    ("장소", ["노상", "길거리", "도로", "공공장소", "구로구", "서울"]),
    ("법적", ["불구속", "송치", "혐의", "기소", "판결"])
  ]

  /** The terms of the given categories, category by category. */
  function Terms(cats: seq<(string, seq<string>)>): seq<string> {
    if cats == [] then [] else Terms(cats[..|cats| - 1]) + cats[|cats| - 1].1
  }

  /** Every term of the table, in scanning order. */
  function Table(): seq<string> {
    Terms(Patterns)
  }

  /** The terms, in order, that occur in `text`. */
  function MatchingTerms(terms: seq<string>, text: string): seq<string> {
    if terms == [] then []
    else
      var rest := MatchingTerms(terms[..|terms| - 1], text);
      if Text.Contains(text, terms[|terms| - 1]) then rest + [terms[|terms| - 1]] else rest
  }

  /** What `extract_keywords(situation)` returns. */
  function Keywords(situation: string): seq<string> {
    MatchingTerms(Table(), Text.Lower(situation))
  }

  /** `extract_keywords`: scan the table category by category and term by
      term, keeping each term found in the lower-cased situation. */
  method ExtractKeywords(situation: string) returns (keywords: seq<string>)
    ensures keywords == Keywords(situation)
  {
    var lower := Text.Lower(situation);
    keywords := ScanCategories(Patterns, lower);
  }

  /** The two nested loops of `extract_keywords` over a keyword table. */
  method ScanCategories(cats: seq<(string, seq<string>)>, lower: string) returns (keywords: seq<string>)
    ensures keywords == MatchingTerms(Terms(cats), lower)
  {
    keywords := [];
    var c := 0;
    while c < |cats|
      invariant 0 <= c <= |cats|
      invariant keywords == MatchingTerms(Terms(cats[..c]), lower)
    {
      var terms := cats[c].1;
      ghost var done := Terms(cats[..c]);
      var t := 0;
      assert done + terms[..0] == done;
      while t < |terms|
        invariant 0 <= t <= |terms|
        invariant keywords == MatchingTerms(done + terms[..t], lower)
      {
        MatchingTermsSnoc(done, terms, t, lower);
        if Text.Contains(lower, terms[t]) {
          keywords := keywords + [terms[t]];
        }
        t := t + 1;
      }
      assert terms[..t] == terms;
      TermsStep(cats, c);
      c := c + 1;
    }
    assert cats[..c] == cats;
  }

  /** One more scanned term extends the kept terms by that term when it
      occurs. */
  lemma MatchingTermsSnoc(done: seq<string>, terms: seq<string>, t: nat, text: string)
    requires t < |terms|
    ensures MatchingTerms(done + terms[..t + 1], text)
            == MatchingTerms(done + terms[..t], text) + (if Text.Contains(text, terms[t]) then [terms[t]] else [])
  {
    assert (done + terms[..t + 1])[..|done + terms[..t + 1]| - 1] == done + terms[..t];
  }

  /** One more category appends its terms. */
  lemma TermsStep(cats: seq<(string, seq<string>)>, c: nat)
    requires c < |cats|
    ensures Terms(cats[..c + 1]) == Terms(cats[..c]) + cats[c].1
  {
    assert cats[..c + 1][..c] == cats[..c];
  }

  predicate Distinct<T(==)>(s: seq<T>) {
    forall i, j :: 0 <= i < j < |s| ==> s[i] != s[j]
  }

  /** The position in the table of the term starting with `c`; the first
      characters of the 22 terms are all different. */
  function HeadPosition(c: char): int {
    match c
    case '흉' => 0
    case '난' => 1
    case '폭' => 2
    case '협' => 3
    case '체' => 4
    case '검' => 5
    case '수' => 6
    case '만' => 7
    case '술' => 8
    case '음' => 9
    case '알' => 10
    case '노' => 11
    case '길' => 12
    case '도' => 13
    case '공' => 14
    case '구' => 15
    case '서' => 16
    case '불' => 17
    case '송' => 18
    case '혐' => 19
    case '기' => 20
    case '판' => 21
    case _ => -1
  }

  /** The terms of `t` sit, from `offset` on, at the positions their first
      characters map to. */
  predicate KeyedFrom(t: seq<string>, offset: nat) {
    forall k :: 0 <= k < |t| ==> |t[k]| > 0 && HeadPosition(t[k][0]) == offset + k
  }

  /** Keyed pieces placed one after the other stay keyed. */
  lemma KeyedConcat(a: seq<string>, b: seq<string>, offset: nat)
    requires KeyedFrom(a, offset) && KeyedFrom(b, offset + |a|)
    ensures KeyedFrom(a + b, offset)
  {
    forall k | 0 <= k < |a + b| ensures |(a + b)[k]| > 0 && HeadPosition((a + b)[k][0]) == offset + k {
      if k >= |a| {
        assert (a + b)[k] == b[k - |a|];
      }
    }
  }

  /** Terms at the positions of their first characters are all different. */
  lemma KeyedDistinct(t: seq<string>, offset: nat)
    requires KeyedFrom(t, offset)
    ensures Distinct(t)
  {
    forall i, j | 0 <= i < j < |t| ensures t[i] != t[j] {
      assert HeadPosition(t[i][0]) != HeadPosition(t[j][0]);
    }
  }

  /** Each category's terms sit at their places in the table: the crime
      terms at 0 to 6, the drinking terms at 7 to 10, the place terms at
      11 to 16 and the legal terms at 17 to 21. */
  lemma CrimeTermsKeyed()
    ensures KeyedFrom(Patterns[0].1, 0)
  {
  }

  lemma DrinkingTermsKeyed()
    ensures KeyedFrom(Patterns[1].1, 7)
  {
  }

  lemma PlaceTermsKeyed()
    ensures KeyedFrom(Patterns[2].1, 11)
  {
  }

  lemma LegalTermsKeyed()
    ensures KeyedFrom(Patterns[3].1, 17)
  {
  }

  /** The 22 terms of the table are all different. */
  lemma TableDistinct()
    ensures |Table()| == 22 && Distinct(Table())
  {
    CrimeTermsKeyed();
    DrinkingTermsKeyed();
    PlaceTermsKeyed();
    LegalTermsKeyed();
    assert Terms(Patterns[..0]) == [];
    TermsStep(Patterns, 0);
    TermsStep(Patterns, 1);
    KeyedConcat(Terms(Patterns[..1]), Patterns[1].1, 0);
    TermsStep(Patterns, 2);
    KeyedConcat(Terms(Patterns[..2]), Patterns[2].1, 0);
    TermsStep(Patterns, 3);
    KeyedConcat(Terms(Patterns[..3]), Patterns[3].1, 0);
    assert Patterns[..4] == Patterns;
    KeyedDistinct(Table(), 0);
  }

  /** A term is kept exactly when it is one of `terms` and occurs in the
      text; the kept terms keep their order and never outnumber `terms`. */
  lemma {:induction false} MatchingTermsSpec(terms: seq<string>, text: string)
    ensures forall t :: t in MatchingTerms(terms, text) <==> t in terms && Text.Contains(text, t)
    ensures Text.IsSubsequence(MatchingTerms(terms, text), terms)
    ensures |MatchingTerms(terms, text)| <= |terms|
    ensures Distinct(terms) ==> Distinct(MatchingTerms(terms, text))
    decreases |terms|
  {
    if terms != [] {
      var init := terms[..|terms| - 1];
      var last := terms[|terms| - 1];
      MatchingTermsSpec(init, text);
      assert terms == init + [last];
      var rest := MatchingTerms(init, text);
      if Text.Contains(text, last) {
        SubsequenceAppendBoth(rest, init, last);
      } else {
        SubsequenceAppendRight(rest, init, last);
      }
      if Distinct(terms) {
        assert Distinct(init) by {
          forall i, j | 0 <= i < j < |init| ensures init[i] != init[j] {
            assert init[i] == terms[i] && init[j] == terms[j];
          }
        }
        assert last !in init by {
          forall i | 0 <= i < |init| ensures init[i] != last {
            assert init[i] == terms[i];
          }
        }
      }
    }
  }

  lemma {:induction false} SubsequenceAppendBoth<T>(xs: seq<T>, ys: seq<T>, y: T)
    requires Text.IsSubsequence(xs, ys)
    ensures Text.IsSubsequence(xs + [y], ys + [y])
    decreases |ys|
  {
    if ys == [] {
      assert xs + [y] == [y] && ys + [y] == [y];
      var one: seq<T> := [y];
      assert one[1..] == [];
    } else {
      assert (ys + [y])[1..] == ys[1..] + [y];
      if xs != [] && xs[0] == ys[0] && Text.IsSubsequence(xs[1..], ys[1..]) {
        SubsequenceAppendBoth(xs[1..], ys[1..], y);
        assert (xs + [y])[1..] == xs[1..] + [y];
      } else {
        SubsequenceAppendBoth(xs, ys[1..], y);
      }
    }
  }

  lemma {:induction false} SubsequenceAppendRight<T>(xs: seq<T>, ys: seq<T>, y: T)
    requires Text.IsSubsequence(xs, ys)
    ensures Text.IsSubsequence(xs, ys + [y])
    decreases |ys|
  {
    if ys == [] {
      assert xs == [];
      var one: seq<T> := [y];
      assert one[1..] == [];
    } else {
      assert (ys + [y])[1..] == ys[1..] + [y];
      if xs != [] && xs[0] == ys[0] && Text.IsSubsequence(xs[1..], ys[1..]) {
        SubsequenceAppendRight(xs[1..], ys[1..], y);
      } else {
        SubsequenceAppendRight(xs, ys[1..], y);
      }
    }
  }

  /** The extracted keywords are table terms, in table order, each at most
      once; a term is extracted exactly when it occurs in the lower-cased
      situation; so there are at most 22. */
  lemma KeywordsSpec(situation: string)
    ensures forall t :: t in Keywords(situation) <==> t in Table() && Text.Contains(Text.Lower(situation), t)
    ensures Text.IsSubsequence(Keywords(situation), Table())
    ensures Distinct(Keywords(situation))
    ensures |Keywords(situation)| <= 22
  {
    TableDistinct();
    MatchingTermsSpec(Table(), Text.Lower(situation));
  }

  /** One row of a CSV file; `title` and `body` are the `title` and
      `body_prep` cells after `str(...)`. */
  datatype Row = Row(title: string, body: string, date: string)

  /** What reading one existing CSV file yields. */
  datatype CsvFile = Unreadable | Frame(columns: set<string>, rows: seq<Row>)

  datatype SimilarCase = SimilarCase(date: string, title: string, summary: string, source: string)

  const CsvFiles: seq<string> := ["accident.csv", "law.csv", "health.csv", "education.csv",
                                  "welfare.csv", "traffic.csv", "region.csv", "environment.csv"]
  const UnknownDate: string := "날짜 불명"
  const MaxCases: nat := 5

  /** A keyword counts for a row when it occurs in its lower-cased title or
      body. */
  predicate RowHas(keyword: string, row: Row) {
    Text.Contains(Text.Lower(row.title), keyword) || Text.Contains(Text.Lower(row.body), keyword)
  }

  /** `match_count`: how many of the keywords the row has. */
  function MatchCount(keywords: seq<string>, row: Row): (n: nat)
    ensures n <= |keywords|
  {
    if keywords == [] then 0
    else MatchCount(keywords[..|keywords| - 1], row) + (if RowHas(keywords[|keywords| - 1], row) then 1 else 0)
  }

  /** A count of two or more means two different positions of the keyword
      list match, hence two distinct keywords when the list has no
      repetition. */
  lemma {:induction false} TwoMatchesAreDistinct(keywords: seq<string>, row: Row)
    requires MatchCount(keywords, row) >= 2
    ensures exists i, j :: 0 <= i < j < |keywords| && RowHas(keywords[i], row) && RowHas(keywords[j], row)
    decreases |keywords|
  {
    var init := keywords[..|keywords| - 1];
    var n := |keywords| - 1;
    if MatchCount(init, row) >= 2 {
      TwoMatchesAreDistinct(init, row);
      var i, j :| 0 <= i < j < |init| && RowHas(init[i], row) && RowHas(init[j], row);
      assert init[i] == keywords[i] && init[j] == keywords[j];
    } else {
      assert RowHas(keywords[n], row) && MatchCount(init, row) == 1;
      var i := OneMatch(init, row);
      assert init[i] == keywords[i];
    }
  }

  lemma {:induction false} OneMatch(keywords: seq<string>, row: Row) returns (i: nat)
    requires MatchCount(keywords, row) >= 1
    ensures i < |keywords| && RowHas(keywords[i], row)
    decreases |keywords|
  {
    var init := keywords[..|keywords| - 1];
    if MatchCount(init, row) >= 1 {
      i := OneMatch(init, row);
      assert init[i] == keywords[i];
    } else {
      i := |keywords| - 1;
    }
  }

  /** The record kept for a matching row of file `source`. */
  function CaseOf(row: Row, columns: set<string>, source: string): SimilarCase {
    SimilarCase(if "date" in columns then row.date else UnknownDate,
                Text.Truncate(row.title, 100), Text.Truncate(row.body, 200), source)
  }

  /** The records for the matching rows, in row order. */
  function RowCases(keywords: seq<string>, rows: seq<Row>, columns: set<string>, source: string): seq<SimilarCase> {
    if rows == [] then []
    else
      var last := rows[|rows| - 1];
      RowCases(keywords, rows[..|rows| - 1], columns, source)
        + (if MatchCount(keywords, last) >= 2 then [CaseOf(last, columns, source)] else [])
  }

  /** A file takes part only if it exists, reads, and has both a `title`
      and a `body_prep` column. */
  predicate Searchable(dir: map<string, CsvFile>, name: string) {
    name in dir && dir[name].Frame? && "title" in dir[name].columns && "body_prep" in dir[name].columns
  }

  function FileCases(keywords: seq<string>, dir: map<string, CsvFile>, name: string): seq<SimilarCase> {
    if Searchable(dir, name) then RowCases(keywords, dir[name].rows, dir[name].columns, name) else []
  }

  /** The records of the given files, file by file. */
  function AllCases(keywords: seq<string>, dir: map<string, CsvFile>, names: seq<string>): seq<SimilarCase> {
    if names == [] then []
    else AllCases(keywords, dir, names[..|names| - 1]) + FileCases(keywords, dir, names[|names| - 1])
  }

  function Take(s: seq<SimilarCase>, n: nat): seq<SimilarCase> {
    if |s| <= n then s else s[..n]
  }

  /** What `search_similar_cases(situation)` returns: the first five
      records over all files. */
  function SimilarCases(situation: string, dir: map<string, CsvFile>): seq<SimilarCase> {
    Take(AllCases(Keywords(situation), dir, CsvFiles), MaxCases)
  }

  lemma {:induction false} RowCasesPrefix(keywords: seq<string>, rows: seq<Row>, columns: set<string>, source: string, k: nat)
    requires k <= |rows|
    ensures RowCases(keywords, rows[..k], columns, source) <= RowCases(keywords, rows, columns, source)
    decreases |rows| - k
  {
    if k < |rows| {
      var init := rows[..|rows| - 1];
      RowCasesPrefix(keywords, init, columns, source, k);
      assert init[..k] == rows[..k];
    } else {
      assert rows[..k] == rows;
    }
  }

  lemma {:induction false} AllCasesPrefix(keywords: seq<string>, dir: map<string, CsvFile>, names: seq<string>, k: nat)
    requires k <= |names|
    ensures AllCases(keywords, dir, names[..k]) <= AllCases(keywords, dir, names)
    decreases |names| - k
  {
    if k < |names| {
      var init := names[..|names| - 1];
      AllCasesPrefix(keywords, dir, init, k);
      assert init[..k] == names[..k];
    } else {
      assert names[..k] == names;
    }
  }

  /** The `match_count` loop of `search_similar_cases`. */
  method CountMatches(keywords: seq<string>, row: Row) returns (count: nat)
    ensures count == MatchCount(keywords, row)
  {
    count := 0;
    var k := 0;
    while k < |keywords|
      invariant 0 <= k <= |keywords|
      invariant count == MatchCount(keywords[..k], row)
    {
      assert keywords[..k + 1][..k] == keywords[..k];
      if Text.Contains(Text.Lower(row.title), keywords[k]) || Text.Contains(Text.Lower(row.body), keywords[k]) {
        count := count + 1;
      }
      k := k + 1;
    }
    assert keywords[..k] == keywords;
  }

  /** One more row extends the records kept so far by that row's record,
      if it has one. */
  lemma CollectStep(keywords: seq<string>, rows: seq<Row>, columns: set<string>, source: string,
                    kept: seq<SimilarCase>, r: nat)
    requires r < |rows|
    ensures kept + RowCases(keywords, rows[..r + 1], columns, source)
            == kept + RowCases(keywords, rows[..r], columns, source)
               + (if MatchCount(keywords, rows[r]) >= 2 then [CaseOf(rows[r], columns, source)] else [])
  {
    assert rows[..r + 1][..r] == rows[..r];
  }

  /** Once five records are kept, the remaining rows cannot change the first
      five. */
  lemma CollectStop(keywords: seq<string>, rows: seq<Row>, columns: set<string>, source: string,
                    kept: seq<SimilarCase>, r: nat)
    requires r <= |rows| && |kept + RowCases(keywords, rows[..r], columns, source)| == MaxCases
    ensures kept + RowCases(keywords, rows[..r], columns, source)
            == Take(kept + RowCases(keywords, rows, columns, source), MaxCases)
  {
    RowCasesPrefix(keywords, rows, columns, source, r);
    TakeOfPrefix(kept + RowCases(keywords, rows[..r], columns, source),
                 kept + RowCases(keywords, rows, columns, source), MaxCases);
  }

  /** Taking the first `n` of a sequence that already has `n` elements
      gives the same as taking them from any extension of it. */
  lemma TakeOfPrefix(a: seq<SimilarCase>, b: seq<SimilarCase>, n: nat)
    requires a <= b && |a| >= n
    ensures Take(a, n) == Take(b, n)
  {
    assert a[..n] == b[..n];
  }

  /** Fewer than `n` taken means everything was taken; `n` taken means
      there were at least `n`. */
  lemma TakeFacts(s: seq<SimilarCase>, n: nat)
    ensures |Take(s, n)| < n ==> Take(s, n) == s
    ensures |Take(s, n)| >= n ==> |s| >= n
    ensures |s| < n ==> Take(s, n) == s
  {
  }

  /** The row loop of `search_similar_cases` for one file, starting from
      the records kept so far and breaking out once there are five. */
  method CollectRows(keywords: seq<string>, rows: seq<Row>, columns: set<string>, source: string,
                     kept: seq<SimilarCase>) returns (cases: seq<SimilarCase>)
    requires |kept| < MaxCases
    ensures cases == Take(kept + RowCases(keywords, rows, columns, source), MaxCases)
  {
    cases := kept;
    var r := 0;
    while r < |rows|
      invariant 0 <= r <= |rows|
      invariant cases == kept + RowCases(keywords, rows[..r], columns, source) && |cases| < MaxCases
    {
      var row := rows[r];
      var count := CountMatches(keywords, row);
      CollectStep(keywords, rows, columns, source, kept, r);
      if count >= 2 {
        cases := cases + [CaseOf(row, columns, source)];
      }
      if |cases| >= MaxCases {
        CollectStop(keywords, rows, columns, source, kept, r + 1);
        return;
      }
      r := r + 1;
    }
    assert rows[..r] == rows;
  }

  /** One more file extends the records by that file's records. */
  lemma FileStep(keywords: seq<string>, dir: map<string, CsvFile>, names: seq<string>, f: nat)
    requires f < |names|
    ensures AllCases(keywords, dir, names[..f + 1])
            == AllCases(keywords, dir, names[..f]) + FileCases(keywords, dir, names[f])
  {
    assert names[..f + 1][..f] == names[..f];
  }

  /** Once the first five records are known, the remaining files cannot
      change them. */
  lemma FileStop(keywords: seq<string>, dir: map<string, CsvFile>, names: seq<string>, f: nat)
    requires f <= |names| && |AllCases(keywords, dir, names[..f])| >= MaxCases
    ensures Take(AllCases(keywords, dir, names[..f]), MaxCases) == Take(AllCases(keywords, dir, names), MaxCases)
  {
    AllCasesPrefix(keywords, dir, names, f);
    TakeOfPrefix(AllCases(keywords, dir, names[..f]), AllCases(keywords, dir, names), MaxCases);
  }

  /** After file `f` has been searched (or skipped), the records are those
      of the files up to it, or the final five when there are five. */
  lemma FileAdvance(keywords: seq<string>, dir: map<string, CsvFile>, names: seq<string>, f: nat,
                    prev: seq<SimilarCase>, cases: seq<SimilarCase>)
    requires f < |names| && prev == AllCases(keywords, dir, names[..f]) && |prev| < MaxCases
    requires Searchable(dir, names[f]) ==>
               cases == Take(prev + RowCases(keywords, dir[names[f]].rows, dir[names[f]].columns, names[f]), MaxCases)
    requires !Searchable(dir, names[f]) ==> cases == prev
    ensures |cases| < MaxCases ==> cases == AllCases(keywords, dir, names[..f + 1])
    ensures |cases| >= MaxCases ==> cases == Take(AllCases(keywords, dir, names), MaxCases)
  {
    var upTo := AllCases(keywords, dir, names[..f + 1]);
    FileStep(keywords, dir, names, f);
    if Searchable(dir, names[f]) {
      assert upTo == prev + RowCases(keywords, dir[names[f]].rows, dir[names[f]].columns, names[f]);
    } else {
      assert upTo == prev;
    }
    assert cases == Take(upTo, MaxCases);
    TakeFacts(upTo, MaxCases);
    if |cases| >= MaxCases {
      FileStop(keywords, dir, names, f + 1);
    }
  }

  /** `search_similar_cases`: extract the keywords, then search the eight
      files in their fixed order. */
  method SearchSimilarCases(situation: string, dir: map<string, CsvFile>) returns (cases: seq<SimilarCase>)
    ensures cases == SimilarCases(situation, dir)
  {
    var keywords := ExtractKeywords(situation);
    cases := SearchFiles(keywords, dir, CsvFiles);
  }

  /** The file loop of `search_similar_cases`: for each file, for each row,
      count the keywords the row has and keep a record when there are two
      or more; stop as soon as five records are kept. */
  method SearchFiles(keywords: seq<string>, dir: map<string, CsvFile>, names: seq<string>)
    returns (cases: seq<SimilarCase>)
    ensures cases == Take(AllCases(keywords, dir, names), MaxCases)
  {
    cases := [];
    var f := 0;
    while f < |names|
      invariant 0 <= f <= |names|
      invariant cases == AllCases(keywords, dir, names[..f]) && |cases| < MaxCases
    {
      ghost var prev := cases;
      var name := names[f];
      if Searchable(dir, name) {
        cases := CollectRows(keywords, dir[name].rows, dir[name].columns, name, cases);
      }
      FileAdvance(keywords, dir, names, f, prev, cases);
      if |cases| >= MaxCases {
        return;
      }
      f := f + 1;
    }
    assert names[..f] == names;
  }

  /** At most five records come back. */
  lemma SimilarCasesBound(situation: string, dir: map<string, CsvFile>)
    ensures |SimilarCases(situation, dir)| <= MaxCases
  {
  }

  lemma {:induction false} NoKeywordsNoRowCases(keywords: seq<string>, rows: seq<Row>, columns: set<string>, source: string)
    requires |keywords| < 2
    ensures RowCases(keywords, rows, columns, source) == []
    decreases |rows|
  {
    if rows != [] {
      NoKeywordsNoRowCases(keywords, rows[..|rows| - 1], columns, source);
    }
  }

  lemma {:induction false} NoKeywordsNoCases(keywords: seq<string>, dir: map<string, CsvFile>, names: seq<string>)
    requires |keywords| < 2
    ensures AllCases(keywords, dir, names) == []
    decreases |names|
  {
    if names != [] {
      NoKeywordsNoCases(keywords, dir, names[..|names| - 1]);
      var name := names[|names| - 1];
      if Searchable(dir, name) {
        NoKeywordsNoRowCases(keywords, dir[name].rows, dir[name].columns, name);
      }
    }
  }

  /** A situation mentioning fewer than two table terms never yields a
      record. */
  lemma FewKeywordsNoCases(situation: string, dir: map<string, CsvFile>)
    requires |Keywords(situation)| < 2
    ensures SimilarCases(situation, dir) == []
  {
    NoKeywordsNoCases(Keywords(situation), dir, CsvFiles);
  }

  /** A record stems from a row of a searchable file: the row has at least
      two keywords, and the record's date, title, summary and source are
      made from that row and file. */
  predicate Provenance(keywords: seq<string>, dir: map<string, CsvFile>, c: SimilarCase) {
    Searchable(dir, c.source) &&
    exists row :: row in dir[c.source].rows && MatchCount(keywords, row) >= 2
                  && c == CaseOf(row, dir[c.source].columns, c.source)
  }

  lemma {:induction false} RowCasesProvenance(keywords: seq<string>, dir: map<string, CsvFile>, name: string, k: nat)
    requires Searchable(dir, name) && k <= |dir[name].rows|
    ensures forall c :: c in RowCases(keywords, dir[name].rows[..k], dir[name].columns, name) ==>
                          c.source == name && Provenance(keywords, dir, c)
    decreases k
  {
    var rows := dir[name].rows;
    if k > 0 {
      RowCasesProvenance(keywords, dir, name, k - 1);
      assert rows[..k][..k - 1] == rows[..k - 1];
      var last := rows[..k][k - 1];
      assert last in rows;
    }
  }

  lemma {:induction false} AllCasesProvenance(keywords: seq<string>, dir: map<string, CsvFile>, names: seq<string>)
    ensures forall c :: c in AllCases(keywords, dir, names) ==> c.source in names && Provenance(keywords, dir, c)
    decreases |names|
  {
    if names != [] {
      var init := names[..|names| - 1];
      var name := names[|names| - 1];
      AllCasesProvenance(keywords, dir, init);
      if Searchable(dir, name) {
        RowCasesProvenance(keywords, dir, name, |dir[name].rows|);
        assert dir[name].rows[..|dir[name].rows|] == dir[name].rows;
      }
      assert forall x :: x in init ==> x in names;
    }
  }

  /** Every returned record comes from one of the eight files, from a row
      holding two distinct keywords, with the title cut to 100 and the
      summary to 200 characters (plus "...") and the date defaulted when
      the file has no `date` column. */
  lemma SimilarCasesProvenance(situation: string, dir: map<string, CsvFile>)
    ensures forall c :: c in SimilarCases(situation, dir) ==>
      c.source in CsvFiles && Searchable(dir, c.source) &&
      exists row :: row in dir[c.source].rows
        && (exists i, j :: 0 <= i < j < |Keywords(situation)| && RowHas(Keywords(situation)[i], row)
                           && RowHas(Keywords(situation)[j], row) && Keywords(situation)[i] != Keywords(situation)[j])
        && c.title == Text.Truncate(row.title, 100) && c.summary == Text.Truncate(row.body, 200)
        && c.date == (if "date" in dir[c.source].columns then row.date else UnknownDate)
  {
    var keywords := Keywords(situation);
    var all := AllCases(keywords, dir, CsvFiles);
    AllCasesProvenance(keywords, dir, CsvFiles);
    KeywordsSpec(situation);
    forall c | c in SimilarCases(situation, dir)
      ensures c.source in CsvFiles && Searchable(dir, c.source) &&
        exists row :: row in dir[c.source].rows
          && (exists i, j :: 0 <= i < j < |keywords| && RowHas(keywords[i], row)
                             && RowHas(keywords[j], row) && keywords[i] != keywords[j])
          && c.title == Text.Truncate(row.title, 100) && c.summary == Text.Truncate(row.body, 200)
          && c.date == (if "date" in dir[c.source].columns then row.date else UnknownDate)
    {
      assert c in all;
      var row :| row in dir[c.source].rows && MatchCount(keywords, row) >= 2
                 && c == CaseOf(row, dir[c.source].columns, c.source);
      TwoMatchesAreDistinct(keywords, row);
    }
  }

  /** Once the files up to `k` hold five records, the rest are never
      looked at: the result is those first five. */
  lemma StopsAtFive(situation: string, dir: map<string, CsvFile>, k: nat)
    requires k <= |CsvFiles| && |AllCases(Keywords(situation), dir, CsvFiles[..k])| >= MaxCases
    ensures SimilarCases(situation, dir) == AllCases(Keywords(situation), dir, CsvFiles[..k])[..MaxCases]
  {
    AllCasesPrefix(Keywords(situation), dir, CsvFiles, k);
  }

  lemma {:induction false} SkippedFileCases(keywords: seq<string>, dir: map<string, CsvFile>, skipped: string, names: seq<string>)
    requires !Searchable(dir, skipped)
    ensures AllCases(keywords, dir, names) == AllCases(keywords, dir - {skipped}, names)
    decreases |names|
  {
    if names != [] {
      SkippedFileCases(keywords, dir, skipped, names[..|names| - 1]);
      var name := names[|names| - 1];
      assert FileCases(keywords, dir, name) == FileCases(keywords, dir - {skipped}, name);
    }
  }

  /** A file that is unreadable or lacks the `title` or `body_prep` column
      contributes nothing: dropping it from the directory changes nothing. */
  lemma SkippedFileIrrelevant(situation: string, dir: map<string, CsvFile>, skipped: string)
    requires skipped in dir && (dir[skipped].Unreadable? || "title" !in dir[skipped].columns || "body_prep" !in dir[skipped].columns)
    ensures SimilarCases(situation, dir) == SimilarCases(situation, dir - {skipped})
  {
    SkippedFileCases(Keywords(situation), dir, skipped, CsvFiles);
  }
}
