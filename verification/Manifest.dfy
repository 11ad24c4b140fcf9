/** The authority profile manifest: rendered from rows, and put into the marked block of a migration. */
module Manifest {
  import opened Markers
  import opened Sorting
  import opened Wrappers

  datatype Row = Row(profile: string, tupleClass: string, digest: string)

  const PROFILES: seq<string> := ["genuine_0010", "cutover_0011", "cutover_0012", "hardened_0010"]
  const CLASSES: seq<string> := ["acl", "schema"]

  predicate IsHex(c: char) { '0' <= c <= '9' || 'a' <= c <= 'f' }

  lemma HexIff(c: char)
    ensures IsHex(c) <==> c in "0123456789abcdef"
  {
  }

  predicate Canonical(r: Row) {
    && r.profile in PROFILES && r.tupleClass in CLASSES
    && |r.digest| == 64 && forall i :: 0 <= i < |r.digest| ==> IsHex(r.digest[i])
  }

  // ----- the order of rows -----

  predicate TextLeq(a: string, b: string) {
    a == [] || (b != [] && (a[0] < b[0] || (a[0] == b[0] && TextLeq(a[1..], b[1..]))))
  }

  lemma {:induction false} TextOrder(a: string, b: string, c: string)
    ensures TextLeq(a, b) || TextLeq(b, a)
    ensures TextLeq(a, b) && TextLeq(b, a) ==> a == b
    ensures TextLeq(a, b) && TextLeq(b, c) ==> TextLeq(a, c)
    ensures TextLeq(a, a)
  {
    if a != [] {
      TextOrder(a[1..], if b == [] then [] else b[1..], if c == [] then [] else c[1..]);
      if b != [] {
        assert a == [a[0]] + a[1..] && b == [b[0]] + b[1..];
      }
    }
  }

  /** A prefix comes first; otherwise the first differing character decides. */
  lemma {:induction false} TextLeqIff(a: string, b: string)
    ensures TextLeq(a, b) <==> a <= b || exists k :: DiffersAt(a, b, k) && a[k] < b[k]
  {
    if a != [] && b != [] && a[0] == b[0] {
      TextLeqIff(a[1..], b[1..]);
      assert a == [a[0]] + a[1..] && b == [b[0]] + b[1..];
      if k :| DiffersAt(a[1..], b[1..], k) && a[1..][k] < b[1..][k] {
        assert a[..k+1] == [a[0]] + a[1..][..k] && b[..k+1] == [b[0]] + b[1..][..k];
        assert DiffersAt(a, b, k + 1);
      }
      if k :| DiffersAt(a, b, k) && a[k] < b[k] {
        assert 0 < k && a[1..][..k-1] == a[..k][1..] && b[1..][..k-1] == b[..k][1..];
        assert DiffersAt(a[1..], b[1..], k - 1);
      }
    } else if a != [] && b != [] {
      assert DiffersAt(a, b, 0);
    }
  }

  ghost predicate DiffersAt<T>(a: seq<T>, b: seq<T>, k: int) {
    0 <= k < |a| && k < |b| && a[..k] == b[..k] && a[k] != b[k]
  }

  function Parts(r: Row): seq<string> { [r.profile, r.tupleClass, r.digest] }

  /** Rows compare as their tuples do. */
  lemma LeqIff(a: Row, b: Row)
    ensures Leq(a, b) <==> a == b || exists k :: DiffersAt(Parts(a), Parts(b), k) && TextLeq(Parts(a)[k], Parts(b)[k])
  {
    TextOrder(a.digest, b.digest, b.digest);
    var k := if a.profile != b.profile then 0 else if a.tupleClass != b.tupleClass then 1 else 2;
    assert a == b || DiffersAt(Parts(a), Parts(b), k) by {
      assert Parts(a)[..0] == Parts(b)[..0];
    }
    assert forall j :: DiffersAt(Parts(a), Parts(b), j) ==> j == k;
  }

  /** Tuples compare by their first differing part. */
  predicate Leq(a: Row, b: Row) {
    if a.profile != b.profile then TextLeq(a.profile, b.profile)
    else if a.tupleClass != b.tupleClass then TextLeq(a.tupleClass, b.tupleClass)
    else TextLeq(a.digest, b.digest)
  }

  lemma RowOrder(a: Row, b: Row, c: Row)
    ensures Leq(a, b) || Leq(b, a)
    ensures Leq(a, b) && Leq(b, a) ==> a == b
    ensures Leq(a, b) && Leq(b, c) ==> Leq(a, c)
  {
    TextOrder(a.profile, b.profile, c.profile);
    TextOrder(a.tupleClass, b.tupleClass, c.tupleClass);
    TextOrder(a.digest, b.digest, c.digest);
  }

  lemma RowsAreOrdered()
    ensures TotalOrder(Leq)
  {
    forall a, b, c
      ensures Leq(a, b) || Leq(b, a)
      ensures Leq(a, b) && Leq(b, a) ==> a == b
      ensures Leq(a, b) && Leq(b, c) ==> Leq(a, c)
    {
      RowOrder(a, b, c);
    }
  }

  function SortRows(rows: seq<Row>): seq<Row> { Sort(rows, Leq) }

  lemma SortRowsSorts(rows: seq<Row>)
    ensures Sorted(SortRows(rows), Leq) && multiset(SortRows(rows)) == multiset(rows)
  {
    RowsAreOrdered();
    SortSorts(rows, Leq);
  }

  // ----- rendering -----

  // In short pieces, which keeps the scans for letters and line breaks below cheap.
  const FORMAT: string := "Fixture format: " + "tracebed.authority-acl-" + "profile-manifest/v1. " + "Regenerate"
  const REFERENCE: string := "only from a clean dedicated " + "PG18 reference and review " + "every tuple."
  const BASELINE: string := "Generated from the pinned " + "clean PG18 authority baseline by"
  const SCRIPT: string := "scripts/generate_authority_" + "acl_profile_manifest.py. " + "These are contract"
  const VALUES: string := "values, not a runtime catalog capture."
  const COLUMNS: string := "(profile," + " " + ("tuple_class," + " " + ("tuple_digest)" + " " + "VALUES"))
  const INSERT: string := "INSERT" + " " + ("INTO" + " " + ("public.authority_acl_profile_tuple" + " " + COLUMNS))

  function HeaderOf(a: string, b: string, c: string, d: string, e: string, f: string): seq<string> {
    ["-- " + a, "-- " + b, "-- " + c, "-- " + d, "-- " + e, f]
  }

  function Header(): seq<string> {
    HeaderOf(FORMAT, REFERENCE, BASELINE, SCRIPT, VALUES, INSERT)
  }

  function RowLine(r: Row, terminal: string): string {
    "    (" + "'" + r.profile + "'" + CAST + "'" + r.tupleClass + "'"
    + ", decode(" + "'" + r.digest + "'" + ", " + "'" + "hex" + "'" + "))" + terminal
  }

  function RowLines(rows: seq<Row>): seq<string> {
    if rows == [] then []
    else [RowLine(rows[0], if |rows| == 1 then ";" else ",")] + RowLines(rows[1..])
  }

  /** Every line followed by a line break. */
  function Text(lines: seq<string>): string {
    if lines == [] then "" else lines[0] + "\n" + Text(lines[1..])
  }

  function Join(lines: seq<string>): string {
    if lines == [] then "" else if |lines| == 1 then lines[0] else lines[0] + "\n" + Join(lines[1..])
  }

  lemma {:induction false} JoinIsText(lines: seq<string>)
    requires lines != []
    ensures Join(lines) + "\n" == Text(lines)
  {
    if |lines| == 1 {
      assert lines[1..] == [];
    } else {
      JoinIsText(lines[1..]);
      assert Join(lines) + "\n" == lines[0] + "\n" + (Join(lines[1..]) + "\n");
    }
  }

  function Rendered(header: seq<string>, sorted: seq<Row>): string {
    Text(header + RowLines(sorted))
  }

  function Distinct(rows: seq<Row>): set<Row> { set r | r in rows }

  /** No row is given twice. */
  ghost predicate Unique(rows: seq<Row>) {
    multiset(rows) == multiset(Distinct(rows))
  }

  lemma UniqueIff(rows: seq<Row>)
    ensures Unique(rows) <==> |Distinct(rows)| == |rows|
  {
    var d := multiset(Distinct(rows));
    assert |multiset(rows)| == |rows| && |d| == |Distinct(rows)|;
    assert forall r :: r in d ==> r in rows && d[r] == 1 && r in multiset(rows);
    assert d <= multiset(rows);
    assert multiset(rows) == d + (multiset(rows) - d);
  }

  ghost predicate AllCanonical(rows: seq<Row>) {
    forall i :: 0 <= i < |rows| ==> Canonical(rows[i])
  }

  lemma SameRows(a: seq<Row>, b: seq<Row>)
    requires multiset(a) == multiset(b)
    ensures |a| == |b| && Distinct(a) == Distinct(b) && (AllCanonical(a) <==> AllCanonical(b))
  {
    assert |multiset(a)| == |a| && |multiset(b)| == |b|;
    assert forall r :: r in a <==> r in multiset(a);
    assert forall r :: r in b <==> r in multiset(b);
    assert AllCanonical(a) <==> forall r :: r in a ==> Canonical(r);
    assert AllCanonical(b) <==> forall r :: r in b ==> Canonical(r);
  }

  method BuildLines(header: seq<string>, normalized: seq<Row>) returns (lines: seq<string>)
    ensures lines == header + RowLines(normalized)
  {
    lines := header;
    for index := 0 to |normalized|
      invariant lines + RowLines(normalized[index..]) == header + RowLines(normalized)
    {
      var terminal := if index + 1 == |normalized| then ";" else ",";
      assert normalized[index..][1..] == normalized[index+1..];
      lines := lines + [RowLine(normalized[index], terminal)];
    }
  }

  method RenderUnder(header: seq<string>, rows: seq<Row>) returns (r: Result<string>)
    requires header != []
    ensures r.Ok? <==> rows != [] && AllCanonical(rows) && Unique(rows)
    ensures r.Ok? ==> r.value == Rendered(header, SortRows(rows))
  {
    var normalized := SortRows(rows);
    SortRowsSorts(rows);
    SameRows(rows, normalized);
    UniqueIff(rows);
    if normalized == [] || exists i :: 0 <= i < |normalized| && !Canonical(normalized[i]) {
      return Err("authority profile rows are not canonical");
    }
    if |Distinct(normalized)| != |normalized| {
      return Err("authority profile rows are not unique");
    }
    var lines := BuildLines(header, normalized);
    JoinIsText(lines);
    r := Ok(Join(lines) + "\n");
  }

  /** Renders exactly the non-empty sets of canonical rows; reading the text gives the rows in ascending order. */
  method RenderManifest(rows: seq<Row>) returns (r: Result<string>)
    ensures r.Ok? <==> rows != [] && AllCanonical(rows) && Unique(rows)
    ensures r.Ok? ==> r.value == Rendered(Header(), SortRows(rows))
    ensures r.Ok? ==> ReadManifest(r.value) == Ok(SortRows(rows))
    ensures Sorted(SortRows(rows), Leq) && multiset(SortRows(rows)) == multiset(rows)
  {
    r := RenderUnder(Header(), rows);
    SortRowsSorts(rows);
    SameRows(rows, SortRows(rows));
    if r.Ok? { ReadWhatWasRendered(SortRows(rows)); }
  }

  // ----- what is rendered fits between the markers -----

  predicate LineOk(line: string) {
    '\n' !in line && ('G' !in line || 'E' !in line)
  }

  predicate HeaderOk(header: seq<string>) {
    header != [] && header[0] != [] && !IsSpace(header[0][0])
    && forall i :: 0 <= i < |header| ==> LineOk(header[i])
  }

  predicate NoE(s: string) { '\n' !in s && 'E' !in s }

  predicate NoG(s: string) { '\n' !in s && 'G' !in s }

  lemma FormatHasNoE()
    ensures NoE(FORMAT)
  {
    assert NoE("Fixture format: ") && NoE("tracebed.authority-acl-");
    assert NoE("profile-manifest/v1. ") && NoE("Regenerate");
  }

  lemma ReferenceHasNoE()
    ensures NoE(REFERENCE)
  {
    assert NoE("only from a clean dedicated ") && NoE("PG18 reference and review ") && NoE("every tuple.");
  }

  lemma BaselineHasNoE() ensures NoE(BASELINE) {}
  lemma ScriptHasNoE() ensures NoE(SCRIPT) {}
  lemma ValuesHasNoE() ensures NoE(VALUES) {}

  lemma ColumnsHaveNoG()
    ensures NoG(COLUMNS)
  {
    assert NoG("(profile,") && NoG(" ") && NoG("tuple_class,") && NoG("tuple_digest)") && NoG("VALUES");
  }

  lemma InsertHasNoG()
    ensures NoG(INSERT)
  {
    ColumnsHaveNoG();
    assert NoG("INSERT") && NoG(" ") && NoG("INTO") && NoG("public.authority_acl_profile_tuple");
  }

  lemma HeaderOfIsOk(a: string, b: string, c: string, d: string, e: string, f: string)
    requires NoE(a) && NoE(b) && NoE(c) && NoE(d) && NoE(e) && NoG(f)
    ensures HeaderOk(HeaderOf(a, b, c, d, e, f))
  {
    var h := HeaderOf(a, b, c, d, e, f);
    assert LineOk(h[0]) && LineOk(h[1]) && LineOk(h[2]) && LineOk(h[3]) && LineOk(h[4]) && LineOk(h[5]);
  }

  lemma HeaderIsOk()
    ensures HeaderOk(Header())
  {
    FormatHasNoE();
    ReferenceHasNoE();
    BaselineHasNoE();
    ScriptHasNoE();
    ValuesHasNoE();
    InsertHasNoG();
    HeaderOfIsOk(FORMAT, REFERENCE, BASELINE, SCRIPT, VALUES, INSERT);
  }

  predicate Plain(s: string) {
    NoG(s) && '\'' !in s
  }

  lemma ProfilesArePlain()
    ensures forall p :: p in PROFILES ==> Plain(p)
  {
    assert Plain("genuine_0010") && Plain("cutover_0011") && Plain("cutover_0012") && Plain("hardened_0010");
  }

  lemma PartsArePlain(r: Row)
    requires Canonical(r)
    ensures Plain(r.profile) && Plain(r.tupleClass) && Plain(r.digest)
  {
    ProfilesArePlain();
    assert Plain("acl") && Plain("schema");
  }

  const CAST: string := "::public.authority_acl_profile, "

  lemma CastIsPlain() ensures NoG(CAST) {}

  lemma RowLineIsOk(r: Row, terminal: string)
    requires Canonical(r) && (terminal == ";" || terminal == ",")
    ensures LineOk(RowLine(r, terminal))
  {
    PartsArePlain(r);
    CastIsPlain();
    assert NoG("    (") && NoG("'") && NoG(", decode(") && NoG(", ") && NoG("hex") && NoG("))") && NoG(terminal);
  }

  lemma {:induction false} RowLinesAreOk(rows: seq<Row>)
    requires AllCanonical(rows)
    ensures |RowLines(rows)| == |rows|
    ensures forall i :: 0 <= i < |rows| ==> LineOk(RowLines(rows)[i])
    ensures rows != [] ==> EndsWith(RowLines(rows)[|rows|-1], ';')
  {
    if rows != [] {
      RowLineIsOk(rows[0], if |rows| == 1 then ";" else ",");
      RowLinesAreOk(rows[1..]);
    }
  }

  predicate EndsWith(s: string, c: char) { s != [] && s[|s|-1] == c }

  lemma {:induction false} TextIsBlock(lines: seq<string>)
    requires forall i :: 0 <= i < |lines| ==> LineOk(lines[i])
    ensures NoGE(Text(lines))
    ensures lines != [] && EndsWith(lines[|lines|-1], ';') ==>
              |Text(lines)| >= 2 && Text(lines)[|Text(lines)|-2..] == ";\n"
  {
    if lines != [] {
      TextIsBlock(lines[1..]);
      LineThenText(lines[0], Text(lines[1..]));
      if |lines| == 1 { assert Text(lines[1..]) == ""; }
    }
  }

  lemma LineThenText(line: string, rest: string)
    requires LineOk(line) && NoGE(rest)
    ensures NoGE(line + "\n" + rest)
  {
    var s := line + "\n" + rest;
    forall i | 0 <= i < |s| - 1 ensures !(s[i] == 'G' && s[i+1] == 'E') {
      if i + 1 < |line| {
        assert s[i] in line && s[i+1] in line;
      } else if i > |line| {
        NoGEAt(rest, i - |line| - 1);
      }
    }
  }

  /** What is rendered from canonical rows fits between the markers. */
  lemma RenderedIsBlockText(header: seq<string>, rows: seq<Row>)
    requires HeaderOk(header) && rows != [] && AllCanonical(rows)
    ensures IsBlockText(Rendered(header, rows))
  {
    RowLinesAreOk(rows);
    var lines := header + RowLines(rows);
    TextIsBlock(lines);
    assert Text(lines) == lines[0] + "\n" + Text(lines[1..]);
    assert Text(lines)[|Text(lines)|-2..] == ";\n";
  }

  // ----- a reader of the statement -----

  /** The pieces of a text between the separators. */
  function Split(s: string, c: char): (r: seq<string>)
    ensures r != []
  {
    if s == [] then [""]
    else if s[0] == c then [""] + Split(s[1..], c)
    else
      var r := Split(s[1..], c);
      [[s[0]] + r[0]] + r[1..]
  }

  lemma {:induction false} SplitNone(a: string, c: char)
    requires c !in a
    ensures Split(a, c) == [a]
  {
    if a != [] {
      SplitNone(a[1..], c);
      assert a == [a[0]] + a[1..];
    }
  }

  lemma {:induction false} SplitAt(a: string, c: char, x: string)
    requires c !in a
    ensures Split(a + [c] + x, c) == [a] + Split(x, c)
  {
    var s := a + [c] + x;
    if a == [] {
      assert s[1..] == x;
    } else {
      assert s[1..] == a[1..] + [c] + x;
      SplitAt(a[1..], c, x);
      assert a == [a[0]] + a[1..];
    }
  }

  /**
   One row of an SQL VALUES list: three quoted parts with the type of the first, the decoding of the last and
   what must follow the row.
   */
  function ReadRow(line: string, end: char): Result<Row> { RowOf(Split(line, '\''), end) }

  function RowOf(p: seq<string>, end: char): Result<Row> {
    if |p| == 9 && p[0] == "    (" && p[2] == "::public.authority_acl_profile, " && p[4] == ", decode("
       && p[6] == ", " && p[7] == "hex" && p[8] == "))" + [end]
    then Ok(Row(p[1], p[3], p[5]))
    else Err("not a row")
  }

  /** A comma after every row but the last, and a semicolon after the last. */
  function ReadRows(lines: seq<string>): Result<seq<Row>> {
    if lines == [] then Err("no row")
    else
      var row := ReadRow(lines[0], if |lines| == 1 then ';' else ',');
      if row.Err? then Err(row.message)
      else if |lines| == 1 then Ok([row.value])
      else
        var rest := ReadRows(lines[1..]);
        if rest.Err? then rest else Ok([row.value] + rest.value)
  }

  predicate IsComment(line: string) { |line| >= 2 && line[0] == '-' && line[1] == '-' }

  predicate IsInsert(line: string) {
    Split(line, ' ') == ["INSERT", "INTO", "public.authority_acl_profile_tuple",
                         "(profile,", "tuple_class,", "tuple_digest)", "VALUES"]
  }

  /** Comment lines, then one INSERT statement; every line ends in a line break. */
  function ReadStatement(lines: seq<string>): Result<seq<Row>> {
    if lines == [] then Err("no statement")
    else if IsComment(lines[0]) then ReadStatement(lines[1..])
    else if IsInsert(lines[0]) then ReadRows(lines[1..])
    else Err("not a statement")
  }

  function ReadManifest(text: string): Result<seq<Row>> {
    var lines := Split(text, '\n');
    if lines[|lines|-1] == "" then ReadStatement(lines[..|lines|-1]) else Err("no line break at the end")
  }

  lemma {:induction false} SplitText(lines: seq<string>)
    requires forall i :: 0 <= i < |lines| ==> '\n' !in lines[i]
    ensures Split(Text(lines), '\n') == lines + [""]
  {
    if lines != [] {
      SplitAt(lines[0], '\n', Text(lines[1..]));
      SplitText(lines[1..]);
      assert lines == [lines[0]] + lines[1..];
    }
  }

  function AfterDigest(terminal: string): string { ", " + "'" + "hex" + "'" + "))" + terminal }

  function AfterClass(r: Row, terminal: string): string {
    ", decode(" + "'" + (r.digest + "'" + AfterDigest(terminal))
  }

  function AfterProfile(r: Row, terminal: string): string {
    CAST + "'" + (r.tupleClass + "'" + AfterClass(r, terminal))
  }

  lemma RowLineParts(r: Row, terminal: string)
    ensures RowLine(r, terminal) == ("    (" + "'") + (r.profile + "'" + AfterProfile(r, terminal))
  {
  }

  lemma SplitQuoted(a: string, x: string, rest: string)
    requires '\'' !in a && '\'' !in x
    ensures Split(a + "'" + (x + "'" + rest), '\'') == [a, x] + Split(rest, '\'')
  {
    SplitAt(a, '\'', x + "'" + rest);
    SplitAt(x, '\'', rest);
  }

  lemma ReadsRow(r: Row, end: char)
    requires Canonical(r) && end != '\''
    ensures ReadRow(RowLine(r, [end]), end) == Ok(r)
  {
    PartsArePlain(r);
    RowLineParts(r, [end]);
    SplitQuoted("    (", r.profile, AfterProfile(r, [end]));
    SplitClass(r, end);
    RowFromParts(Split(RowLine(r, [end]), '\''), r, end);
  }

  lemma SplitClass(r: Row, end: char)
    requires Canonical(r) && end != '\''
    ensures Split(AfterProfile(r, [end]), '\'')
         == [CAST, r.tupleClass] + ([", decode(", r.digest] + [", ", "hex", "))" + [end]])
  {
    PartsArePlain(r);
    SplitQuoted(CAST, r.tupleClass, AfterClass(r, [end]));
    SplitQuoted(", decode(", r.digest, AfterDigest([end]));
    SplitEnd(end);
  }

  lemma RowFromParts(p: seq<string>, r: Row, end: char)
    requires p == ["    (", r.profile]
               + ([CAST, r.tupleClass] + ([", decode(", r.digest] + [", ", "hex", "))" + [end]]))
    ensures RowOf(p, end) == Ok(r)
  {
  }

  lemma SplitEnd(end: char)
    requires end != '\''
    ensures Split(AfterDigest([end]), '\'') == [", ", "hex", "))" + [end]]
  {
    assert AfterDigest([end]) == ", " + "'" + ("hex" + "'" + ("))" + [end]));
    SplitQuoted(", ", "hex", "))" + [end]);
    SplitNone("))" + [end], '\'');
  }

  lemma {:induction false} ReadsRows(rows: seq<Row>)
    requires rows != [] && AllCanonical(rows)
    ensures ReadRows(RowLines(rows)) == Ok(rows)
  {
    RowLinesAreLines(rows);
    if |rows| == 1 {
      ReadsRow(rows[0], ';');
      assert rows == [rows[0]];
      LastRow(RowLines(rows), rows[0]);
    } else {
      ReadsRow(rows[0], ',');
      ReadsRows(rows[1..]);
      OneMoreRow(RowLines(rows), rows[0], rows[1..]);
    }
  }

  lemma RowLinesAreLines(rows: seq<Row>)
    requires rows != [] && AllCanonical(rows)
    ensures rows == [rows[0]] + rows[1..] && |RowLines(rows)| == |rows|
    ensures RowLines(rows)[0] == RowLine(rows[0], if |rows| == 1 then ";" else ",")
    ensures RowLines(rows)[1..] == RowLines(rows[1..])
  {
    RowLinesAreOk(rows);
  }

  lemma LastRow(lines: seq<string>, r: Row)
    requires |lines| == 1 && ReadRow(lines[0], ';') == Ok(r)
    ensures ReadRows(lines) == Ok([r])
  {
  }

  lemma OneMoreRow(lines: seq<string>, r: Row, rest: seq<Row>)
    requires |lines| > 1 && ReadRow(lines[0], ',') == Ok(r) && ReadRows(lines[1..]) == Ok(rest)
    ensures ReadRows(lines) == Ok([r] + rest)
  {
  }

  lemma HeaderReads(rest: seq<string>)
    ensures ReadStatement(Header() + rest) == ReadRows(rest)
  {
    var h := Header();
    InsertIsInsert();
    CommentsSkipped(h, rest, 5);
    assert (h[5..] + rest)[1..] == rest;
  }

  predicate Word(s: string) { ' ' !in s }

  lemma OneMoreWord(a: string, x: string, rest: seq<string>)
    requires Word(a) && Split(x, ' ') == rest
    ensures Split(a + " " + x, ' ') == [a] + rest
  {
    SplitAt(a, ' ', x);
  }

  lemma ColumnsAreWords()
    ensures Word("(profile,") && Word("tuple_class,") && Word("tuple_digest)") && Word("VALUES")
  {
  }

  lemma TableIsAWord() ensures Word("public.authority_acl_profile_tuple") {}

  lemma ColumnWords()
    ensures Split(COLUMNS, ' ') == ["(profile,", "tuple_class,", "tuple_digest)", "VALUES"]
  {
    ColumnsAreWords();
    SplitNone("VALUES", ' ');
    OneMoreWord("tuple_digest)", "VALUES", ["VALUES"]);
    OneMoreWord("tuple_class,", "tuple_digest)" + " " + "VALUES", ["tuple_digest)", "VALUES"]);
    OneMoreWord("(profile,", "tuple_class," + " " + ("tuple_digest)" + " " + "VALUES"),
                ["tuple_class,", "tuple_digest)", "VALUES"]);
  }

  lemma InsertIsInsert()
    ensures IsInsert(INSERT) && !IsComment(INSERT)
  {
    var table := "public.authority_acl_profile_tuple";
    TableIsAWord();
    ColumnWords();
    var columns := Split(COLUMNS, ' ');
    OneMoreWord(table, COLUMNS, columns);
    OneMoreWord("INTO", table + " " + COLUMNS, [table] + columns);
    OneMoreWord("INSERT", "INTO" + " " + (table + " " + COLUMNS), ["INTO"] + ([table] + columns));
  }

  lemma {:induction false} CommentsSkipped(h: seq<string>, rest: seq<string>, k: nat)
    requires k <= |h| && forall i :: 0 <= i < k ==> IsComment(h[i])
    ensures ReadStatement(h + rest) == ReadStatement(h[k..] + rest)
  {
    if k > 0 {
      assert (h + rest)[1..] == h[1..] + rest;
      CommentsSkipped(h[1..], rest, k - 1);
      assert h[1..][k-1..] == h[k..];
    }
  }

  /** Reading what was rendered gives the rows. */
  lemma ReadWhatWasRendered(rows: seq<Row>)
    requires AllCanonical(rows)
    ensures ReadManifest(Rendered(Header(), rows)) == if rows == [] then Err("no row") else Ok(rows)
  {
    HeaderIsOk();
    RowLinesAreOk(rows);
    var lines := Header() + RowLines(rows);
    SplitText(lines);
    HeaderReads(RowLines(rows));
    if rows != [] { ReadsRows(rows); }
  }

  // ----- the main results -----

  /** Two accepted row lists render to the same text exactly when they hold the same rows, in whatever order. */
  lemma RenderingIsTheRowSet(a: seq<Row>, b: seq<Row>)
    requires AllCanonical(a) && AllCanonical(b)
    ensures Rendered(Header(), SortRows(a)) == Rendered(Header(), SortRows(b)) <==> multiset(a) == multiset(b)
  {
    SortRowsSorts(a);
    SortRowsSorts(b);
    SameRows(a, SortRows(a));
    SameRows(b, SortRows(b));
    if multiset(a) == multiset(b) {
      RowsAreOrdered();
      SortedIsUnique(SortRows(a), SortRows(b), Leq);
    }
    ReadWhatWasRendered(SortRows(a));
    ReadWhatWasRendered(SortRows(b));
  }

  /** Regenerating the block and reading it back gives the rendered manifest; the rest of the source is kept. */
  lemma RegenerateThenRead(source: string, rows: seq<Row>)
    requires WellMarked(source) && rows != [] && AllCanonical(rows)
    ensures var r := Rendered(Header(), SortRows(rows)); var t := ReplaceBlock(source, r);
            && t.Ok? && CheckedInBlock(t.value) == Ok(r) && ReplaceBlock(t.value, r) == t
            && ReadManifest(r) == Ok(SortRows(rows))
            && t.value[..BlockStart(t.value)] == source[..BlockStart(source)]
            && t.value[BlockEnd(t.value)..] == source[BlockEnd(source)..]
  {
    HeaderIsOk();
    SortRowsSorts(rows);
    SameRows(rows, SortRows(rows));
    var r := Rendered(Header(), SortRows(rows));
    RenderedIsBlockText(Header(), SortRows(rows));
    ReadWhatWasRendered(SortRows(rows));
    ReplacementIsWellMarked(source, r);
    ExtractAfterReplace(source, r);
    LastReplacementWins(source, r, r);
  }
}
