/** The export helpers of the dashboard pages: the CSV text built by
    `exportToCSV` in frontend/features.js, the download names derived from
    the uploaded file's name by `name.replace(/\.[^/.]+$/, "") || "report"`,
    and the reading time `Math.max(1, Math.ceil((words || 0) / 200))`. */
module Exports {
  import opened Text
  import opened Seqs
  import opened Json

  // ----- CSV content -----

  /** `"${v}"`. */
  function Quote(t: string): string
  {
    "\"" + t + "\""
  }

  /** `` `${v ?? ""}` ``: missing values are written as the empty text. */
  function CellText(v: Value): (r: Spelling)
    ensures IsNullish(v) ==> r == Spelled("")
    ensures v.Str? ==> r == Spelled(v.s)
  {
    if IsNullish(v) then Spelled("") else JsString(v)
  }

  /** One row: every field quoted, joined by ",". */
  function CsvLine(cells: seq<string>): string
  {
    Join(seq(|cells|, i requires 0 <= i < |cells| => Quote(cells[i])), ",")
  }

  /** `[headers.join(","), ...rows.map(r => r.map(v => `"${v ?? ""}"`).join(","))].join("\n")`,
      with the field texts already spelled. */
  function CsvContent(headers: seq<string>, rows: seq<seq<string>>): string
  {
    Join([Join(headers, ",")] + seq(|rows|, i requires 0 <= i < |rows| => CsvLine(rows[i])), "\n")
  }

  /** The field texts of a row of values; None when a value is one whose
      text the model does not spell. */
  function RowTexts(row: seq<Value>): (r: Option<seq<string>>)
    ensures r.Some? ==> |r.value| == |row|
    ensures r.Some? ==> forall i :: 0 <= i < |row| ==> CellText(row[i]) == Spelled(r.value[i])
    ensures r.None? ==> exists i :: 0 <= i < |row| && CellText(row[i]).Unspelled?
  {
    if row == [] then Some([])
    else
      match CellText(row[0])
      case Unspelled(_) => None
      case Spelled(t) =>
        match RowTexts(row[1..])
        case None => None
        case Some(rest) => Some([t] + rest)
  }

  /** Joining parts that avoid a character, with a separator that avoids
      it, gives a text that avoids it. */
  lemma {:induction false} JoinAvoids(parts: seq<string>, sep: string, c: char)
    requires c !in sep
    requires forall i :: 0 <= i < |parts| ==> c !in parts[i]
    ensures c !in Join(parts, sep)
    decreases parts
  {
    if |parts| > 1 {
      JoinAvoids(parts[1..], sep, c);
    }
  }

  /** The content is one header line and one line per row, provided no
      text contains a line break. */
  lemma CsvLines(headers: seq<string>, rows: seq<seq<string>>)
    requires forall i :: 0 <= i < |headers| ==> '\n' !in headers[i]
    requires forall r, j :: 0 <= r < |rows| && 0 <= j < |rows[r]| ==> '\n' !in rows[r][j]
    ensures var lines := Split(CsvContent(headers, rows), '\n');
            |lines| == |rows| + 1
            && lines[0] == Join(headers, ",")
            && forall r :: 0 <= r < |rows| ==> lines[r + 1] == CsvLine(rows[r])
  {
    var body := seq(|rows|, i requires 0 <= i < |rows| => CsvLine(rows[i]));
    var parts := [Join(headers, ",")] + body;
    JoinAvoids(headers, ",", '\n');
    forall r | 0 <= r < |rows|
      ensures '\n' !in CsvLine(rows[r])
    {
      var q := seq(|rows[r]|, i requires 0 <= i < |rows[r]| => Quote(rows[r][i]));
      forall i | 0 <= i < |q|
        ensures '\n' !in q[i]
      {
        assert q[i] == "\"" + rows[r][i] + "\"";
      }
      JoinAvoids(q, ",", '\n');
    }
    assert forall i :: 0 <= i < |parts| ==> '\n' !in parts[i];
    SplitJoin(parts, '\n');
  }

  /** Every field of a row is written quoted: splitting the line at the
      commas gives back the quoted fields, provided no field contains a
      comma. */
  lemma CsvFieldsQuoted(cells: seq<string>)
    requires |cells| >= 1
    requires forall i :: 0 <= i < |cells| ==> ',' !in cells[i]
    ensures Split(CsvLine(cells), ',') == seq(|cells|, i requires 0 <= i < |cells| => Quote(cells[i]))
  {
    var q := seq(|cells|, i requires 0 <= i < |cells| => Quote(cells[i]));
    forall i | 0 <= i < |q|
      ensures ',' !in q[i]
    {
      assert q[i] == "\"" + cells[i] + "\"";
    }
    SplitJoin(q, ',');
  }

  // ----- file names -----

  /** The position of the last occurrence of c. */
  function LastIndex(s: string, c: char): (r: Option<nat>)
    ensures r.Some? ==> r.value < |s| && s[r.value] == c && c !in s[r.value + 1..]
    ensures r.None? ==> c !in s
  {
    if s == [] then None
    else if s[|s| - 1] == c then Some(|s| - 1)
    else
      var r := LastIndex(s[..|s| - 1], c);
      assert s == s[..|s| - 1] + [s[|s| - 1]];
      r
  }

  /** What `[^/.]+` matches. */
  predicate IsExtension(ext: string)
  {
    |ext| > 0 && '.' !in ext && '/' !in ext
  }

  /** `s.replace(/\.[^/.]+$/, "")`: a run after the last "." holding no
      "/" is removed together with that ".". No earlier "." can start a
      match, since the rest of the name would hold a ".". */
  function StripExtension(s: string): (r: string)
    ensures r <= s
    ensures '.' !in s ==> r == s
  {
    match LastIndex(s, '.')
    case None => s
    case Some(i) => if IsExtension(s[i + 1..]) then s[..i] else s
  }

  /** One extension is removed ... */
  lemma StripsOneExtension(base: string, ext: string)
    requires IsExtension(ext)
    ensures StripExtension(base + "." + ext) == base
  {
    var s := base + "." + ext;
    assert s[|base|] == '.';
    assert s[|base| + 1..] == ext;
    assert s[..|base|] == base;
  }

  /** ... and when the name is changed, what was removed is a "." and an
      extension. */
  lemma StripRemovesExtension(s: string)
    ensures var r := StripExtension(s);
            r == s || (|r| < |s| && s[|r|] == '.' && IsExtension(s[|r| + 1..]) && s == r + "." + s[|r| + 1..])
  {
    var r := StripExtension(s);
    if r != s {
      assert s == s[..|r|] + [s[|r|]] + s[|r| + 1..];
    }
  }

  /** `meta.name?.replace(/\.[^/.]+$/, "") || "report"`: None when the name
      is neither missing nor a string, where the call throws. */
  function ExportStem(name: Value): Option<string>
  {
    if IsNullish(name) then Some("report")
    else if name.Str? then
      var b := StripExtension(name.s);
      Some(if b == "" then "report" else b)
    else None
  }

  /** The stem is never empty; it is "report" for a missing name, and
      otherwise the stripped name when that is non-empty. */
  lemma ExportStemCases(name: Value)
    ensures ExportStem(name).Some? <==> IsNullish(name) || name.Str?
    ensures ExportStem(name).Some? ==> ExportStem(name).value != ""
    ensures IsNullish(name) || name == Str("") ==> ExportStem(name) == Some("report")
    ensures name.Str? && StripExtension(name.s) != "" ==>
              ExportStem(name) == Some(StripExtension(name.s)) && ExportStem(name).value <= name.s
  {
  }

  /** A stem followed by a suffix: ".json", ".csv" or "_report.csv". */
  function ExportName(name: Value, suffix: string): (r: Option<string>)
    ensures r.Some? <==> ExportStem(name).Some?
    ensures r.Some? ==> r.value == ExportStem(name).value + suffix
  {
    match ExportStem(name)
    case None => None
    case Some(stem) => Some(stem + suffix)
  }

  /** Saving "notes.txt" as JSON offers "notes.json": the extension is
      replaced by the suffix. */
  lemma ExtensionReplaced(base: string, ext: string, suffix: string)
    requires base != "" && IsExtension(ext)
    ensures ExportName(Str(base + "." + ext), suffix) == Some(base + suffix)
  {
    StripsOneExtension(base, ext);
  }

  // ----- reading time -----

  function Ceil(x: real): int
  {
    -((-x).Floor)
  }

  /** `Math.max(1, Math.ceil((meta.words || 0) / 200))`; None is NaN. */
  function ReadingTime(words: Value): (r: Option<int>)
    ensures r.Some? ==> r.value >= 1
    ensures !Truthy(words) ==> r == Some(1)
  {
    match JsNumber(Or(words, Num(0.0)))
    case None => None
    case Some(x) => var c := Ceil(x / 200.0); Some(if c > 1 then c else 1)
  }

  /** For a positive word count the time is the number of 200-word
      minutes started. */
  lemma ReadingTimeMinutes(words: real)
    requires words > 0.0
    ensures var m := ReadingTime(Num(words)).value;
            (m - 1) as real * 200.0 < words <= m as real * 200.0
  {
  }
}
