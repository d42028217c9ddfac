// The batch resume parser (batch/batch-parse-resumes.py): name, position and skill extraction from
// the text of a resume, the file id taken from its file name, and the batch over the files not yet
// processed. The text a PDF yields is an input ("" when extraction fails).
module ResumeBatch {
  import opened Wrappers
  import Text
  import Seqs

  const ProcessedFiles: seq<string> := [
    "file_638", "file_639", "file_640", "file_641", "file_642", "file_643",
    "file_644", "file_645", "file_646", "file_647", "file_648"]

  const NameNoise: seq<string> := ["resume", "cv", "curriculum", "profile"]

  const FinancePositions: seq<string> := [
    "finance manager", "financial manager", "accounting manager",
    "finance controller", "chief financial officer", "cfo",
    "finance director", "finance and accounting manager"]

  const SkillKeywords: seq<string> := [
    "sap", "excel", "quickbooks", "erp", "financial accounting",
    "taxation", "payroll", "budgeting", "forecasting", "auditing",
    "ifrs", "gaap", "cost accounting", "management accounting",
    "accounts payable", "accounts receivable", "general ledger"]

  /** s[:n]. */
  function Take(s: string, n: nat): (r: string)
    ensures |r| == (if |s| < n then |s| else n) && r == s[..|r|]
    ensures |s| <= n ==> r == s
  {
    if |s| <= n then s else s[..n]
  }

  // ---------------------------------------------------------------- name

  /** The stripped lines that are not blank, in order. */
  function NonBlank(lines: seq<string>): (r: seq<string>)
    ensures |r| <= |lines|
    ensures forall k :: 0 <= k < |r| ==> r[k] != []
  {
    if lines == [] then []
    else
      var rest := NonBlank(lines[1..]);
      var l := Text.Strip(lines[0]);
      if l != [] then [l] + rest else rest
  }

  /** The kept lines of a concatenation are those of each part, in order. */
  lemma {:induction false} NonBlankAppend(a: seq<string>, b: seq<string>)
    ensures NonBlank(a + b) == NonBlank(a) + NonBlank(b)
  {
    if a != [] {
      assert (a + b)[1..] == a[1..] + b;
      NonBlankAppend(a[1..], b);
    } else {
      assert a + b == b;
    }
  }

  /** A single line is kept, stripped, exactly when it is not blank; no lines keep nothing. */
  lemma NonBlankSingle(l: string)
    ensures NonBlank([l]) == if Text.Strip(l) != [] then [Text.Strip(l)] else []
    ensures NonBlank([]) == []
  {
    assert [l][1..] == [];
  }

  /** Every line that is not blank is kept, stripped. */
  lemma {:induction false} NonBlankComplete(lines: seq<string>)
    ensures forall l :: l in lines && Text.Strip(l) != [] ==> Text.Strip(l) in NonBlank(lines)
  {
    if lines != [] {
      NonBlankComplete(lines[1..]);
      forall l | l in lines && Text.Strip(l) != [] ensures Text.Strip(l) in NonBlank(lines) {
        if l != lines[0] {
          assert l in lines[1..];
        }
      }
    }
  }

  /** The first kept line is the first line that is not blank, stripped. */
  lemma {:induction false} NonBlankFirst(lines: seq<string>, j: nat)
    requires j < |lines| && Text.Strip(lines[j]) != []
    requires forall i :: 0 <= i < j ==> Text.Strip(lines[i]) == []
    ensures NonBlank(lines) != [] && NonBlank(lines)[0] == Text.Strip(lines[j])
  {
    if j > 0 {
      NonBlankFirst(lines[1..], j - 1);
    }
  }

  function NameLines(text: string): seq<string>
  {
    NonBlank(Text.Split(text, '\n'))
  }

  /** Some entry of the list occurs in the text. */
  predicate MentionsAny(text: string, words: seq<string>)
  {
    exists i :: 0 <= i < |words| && Text.Contains(text, words[i])
  }

  /** Too long, or names a resume rather than a person. */
  predicate NotAName(line: string)
  {
    |line| > 50 || MentionsAny(Text.Lower(line), NameNoise)
  }

  /**
   * extract_name: "未知" without a non-blank line; otherwise the first such line, or the second one
   * when the first does not look like a name, cut to 50 characters.
   */
  function ExtractName(text: string): (r: string)
    ensures NameLines(text) == [] ==> r == "未知"
    ensures NameLines(text) != [] ==>
              var lines := NameLines(text);
              0 < |r| <= 50
              && (NotAName(lines[0]) && |lines| > 1 ==> r == Take(lines[1], 50))
              && (!NotAName(lines[0]) ==> r == lines[0])
              && (|lines| == 1 ==> r == Take(lines[0], 50))
  {
    var lines := NameLines(text);
    if lines == [] then "未知"
    else if NotAName(lines[0]) && |lines| > 1 then Take(lines[1], 50)
    else Take(lines[0], 50)
  }

  /** x is the stripped form of one of the lines. */
  predicate StrippedFrom(x: string, lines: seq<string>)
  {
    exists l :: l in lines && x == Text.Strip(l)
  }

  /** Every kept line is the stripped form of a line of the input. */
  lemma {:induction false} NonBlankFrom(lines: seq<string>)
    ensures forall x :: x in NonBlank(lines) ==> StrippedFrom(x, lines)
    decreases |lines|
  {
    if lines != [] {
      NonBlankFrom(lines[1..]);
      var first, rest := Text.Strip(lines[0]), NonBlank(lines[1..]);
      assert NonBlank(lines) == (if first != [] then [first] + rest else rest);
      assert StrippedFrom(first, lines) by {
        assert lines[0] in lines;
      }
      forall x | x in rest ensures StrippedFrom(x, lines) {
        var l :| l in lines[1..] && x == Text.Strip(l);
        assert l in lines;
      }
    }
  }

  /** The name is a non-blank line of the text, stripped and cut to 50 characters. */
  lemma ExtractNameFromLine(text: string)
    requires NameLines(text) != []
    ensures exists l :: l in Text.Split(text, '\n') && Text.Strip(l) != [] && ExtractName(text) == Take(Text.Strip(l), 50)
  {
    var lines := NameLines(text);
    NonBlankFrom(Text.Split(text, '\n'));
    var k := if NotAName(lines[0]) && |lines| > 1 then 1 else 0;
    assert lines[k] in lines;
    var l :| l in Text.Split(text, '\n') && lines[k] == Text.Strip(l);
    assert ExtractName(text) == Take(Text.Strip(l), 50);
  }

  // ---------------------------------------------------------------- position

  /** The index of the first entry that occurs in the text, if any. */
  function FirstMentioned(words: seq<string>, text: string): (r: Option<nat>)
    ensures r.Some? ==>
              r.value < |words| && Text.Contains(text, words[r.value])
              && forall j :: 0 <= j < r.value ==> !Text.Contains(text, words[j])
    ensures r.None? <==> !MentionsAny(text, words)
  {
    if words == [] then None
    else if Text.Contains(text, words[0]) then Some(0)
    else match FirstMentioned(words[1..], text)
      case None => None
      case Some(k) => Some(k + 1)
  }

  /** extract_position: the first listed position the lower-cased text mentions, title-cased; "Finance Manager" by default. */
  function ExtractPosition(text: string): (r: string)
    ensures !MentionsAny(Text.Lower(text), FinancePositions) ==> r == "Finance Manager"
    ensures MentionsAny(Text.Lower(text), FinancePositions) ==>
              exists i :: 0 <= i < |FinancePositions| && r == Text.Title(FinancePositions[i])
                          && Text.Contains(Text.Lower(text), FinancePositions[i])
                          && forall j :: 0 <= j < i ==> !Text.Contains(Text.Lower(text), FinancePositions[j])
  {
    match FirstMentioned(FinancePositions, Text.Lower(text))
    case None => "Finance Manager"
    case Some(i) => Text.Title(FinancePositions[i])
  }

  // ---------------------------------------------------------------- skills

  /** Short keywords are acronyms and are upper-cased; longer ones are title-cased. */
  function Display(k: string): (r: string)
    ensures |r| == |k|
    ensures |k| <= 4 ==> forall i :: 0 <= i < |k| ==> r[i] == Text.UpperChar(k[i])
    ensures |k| > 4 ==> forall i :: 0 <= i < |k| ==>
      r[i] == if i > 0 && Text.IsLetter(k[i - 1]) then Text.LowerChar(k[i]) else Text.UpperChar(k[i])
  {
    if |k| <= 4 then Text.Upper(k) else Text.Title(k)
  }

  function InText(text: string): string -> bool
  {
    (k: string) => Text.Contains(text, k)
  }

  /** The display names of the keywords the text mentions, in keyword order. */
  function Mentioned(keywords: seq<string>, text: string): (r: seq<string>)
    ensures |r| == |Seqs.Filter(keywords, InText(text))|
    ensures forall j :: 0 <= j < |r| ==> r[j] == Display(Seqs.Filter(keywords, InText(text))[j])
  {
    var found := Seqs.Filter(keywords, InText(text));
    seq(|found|, j requires 0 <= j < |found| => Display(found[j]))
  }

  /** Every name found is the display name of a keyword that occurs in the text. */
  lemma MentionedKeywords(keywords: seq<string>, text: string)
    ensures forall s :: s in Mentioned(keywords, text) ==>
      exists k :: k in keywords && Text.Contains(text, k) && s == Display(k)
  {
    var all := Mentioned(keywords, text);
    var found := Seqs.Filter(keywords, InText(text));
    forall s | s in all
      ensures exists k :: k in keywords && Text.Contains(text, k) && s == Display(k)
    {
      var j :| 0 <= j < |all| && all[j] == s;
      var k := found[j];
      assert k in found && InText(text)(k);
    }
  }

  /** The skills shown: at most the first five found, each the display name of a keyword the text mentions. */
  function Shown(keywords: seq<string>, text: string): (r: seq<string>)
    ensures |r| <= 5
    ensures forall s :: s in r ==> exists k :: k in keywords && Text.Contains(text, k) && s == Display(k)
    ensures var all := Mentioned(keywords, text);
      |r| == (if |all| < 5 then |all| else 5) && r == all[..|r|]
  {
    var all := Mentioned(keywords, text);
    MentionedKeywords(keywords, text);
    if |all| <= 5 then all
    else
      assert forall s :: s in all[..5] ==> s in all;
      all[..5]
  }

  /** extract_skills as a string: the shown skills joined by ", ", or "待確認" when none is found. */
  function SkillsLine(keywords: seq<string>, text: string): string
  {
    var shown := Shown(keywords, Text.Lower(text));
    if shown == [] then "待確認" else Text.Join(shown, ", ")
  }

  /** The skills line is "待確認" when no keyword occurs in the lower-cased text, and otherwise joins the
      (non-empty) shown names. */
  lemma SkillsLineCases(keywords: seq<string>, text: string)
    ensures !MentionsAny(Text.Lower(text), keywords) ==> SkillsLine(keywords, text) == "待確認"
    ensures MentionsAny(Text.Lower(text), keywords) ==>
      var shown := Shown(keywords, Text.Lower(text));
      shown != [] && SkillsLine(keywords, text) == Text.Join(shown, ", ")
  {
    var low := Text.Lower(text);
    var found := Seqs.Filter(keywords, InText(low));
    if MentionsAny(low, keywords) {
      var i :| 0 <= i < |keywords| && Text.Contains(low, keywords[i]);
      assert keywords[i] in found;
    }
  }

  /** One more keyword adds its display name exactly when the text contains it. */
  lemma MentionedSnoc(keywords: seq<string>, k: string, text: string)
    ensures Mentioned(keywords + [k], text)
         == Mentioned(keywords, text) + (if Text.Contains(text, k) then [Display(k)] else [])
  {
    var found := InText(text);
    Seqs.FilterAppend(keywords, [k], found);
    var hits := Seqs.Filter(keywords, found);
    var more := Seqs.Filter(keywords + [k], found);
    assert Seqs.Filter([k], found) == if found(k) then [k] else [];
    assert more == hits + (if found(k) then [k] else []);
    var a := Mentioned(keywords + [k], text);
    var b := Mentioned(keywords, text) + (if Text.Contains(text, k) then [Display(k)] else []);
    assert |a| == |b|;
    forall j | 0 <= j < |a| ensures a[j] == b[j] {
      if j < |hits| {
        assert more[j] == hits[j];
      }
    }
  }

  /** The keyword loop of extract_skills: the display name of every keyword the text mentions. */
  method CollectSkills(keywords: seq<string>, lower: string) returns (skills: seq<string>)
    ensures skills == Mentioned(keywords, lower)
  {
    skills := [];
    for i := 0 to |keywords|
      invariant skills == Mentioned(keywords[..i], lower)
    {
      var k := keywords[i];
      assert keywords[..i + 1] == keywords[..i] + [k];
      MentionedSnoc(keywords[..i], k, lower);
      if Text.Contains(lower, k) {
        skills := skills + [Display(k)];
      }
    }
    assert keywords[..|keywords|] == keywords;
  }

  /** extract_skills over a keyword list (the script's is SkillKeywords): at most five skills, joined; "待確認" when none is found. */
  method ExtractSkills(keywords: seq<string>, text: string) returns (r: string)
    ensures r == SkillsLine(keywords, text)
  {
    var skills := CollectSkills(keywords, Text.Lower(text));
    if skills == [] {
      r := "待確認";
    } else {
      r := Text.Join(if |skills| <= 5 then skills else skills[..5], ", ");
    }
  }

  // ---------------------------------------------------------------- files

  /** The text before the first occurrence of pat, or the whole text when pat does not occur. */
  function BeforeFirst(s: string, pat: string): (r: string)
    requires |pat| > 0
    ensures Text.StartsWith(s, r)
    ensures forall i :: 0 <= i < |r| ==> !Text.OccursAt(s, pat, i)
    ensures |r| < |s| ==> Text.OccursAt(s, pat, |r|)
    decreases |s|
  {
    if |s| < |pat| then s
    else if s[..|pat|] == pat then []
    else
      var rest := BeforeFirst(s[1..], pat);
      ShiftOccurs(s, pat, |rest|);
      forall i | 1 <= i <= |rest| ensures !Text.OccursAt(s, pat, i) {
        ShiftOccurs(s, pat, i - 1);
      }
      assert ([s[0]] + rest)[1..] == rest;
      [s[0]] + rest
  }

  /** An occurrence in the tail is an occurrence in the text, one place further on. */
  lemma ShiftOccurs(s: string, pat: string, i: nat)
    requires |s| > 0
    ensures Text.OccursAt(s, pat, i + 1) <==> Text.OccursAt(s[1..], pat, i)
  {
    if i + 1 + |pat| <= |s| {
      assert s[1..][i..i + |pat|] == s[i + 1..i + 1 + |pat|];
    }
  }

  /** file_link: the name before the first "---", otherwise the name with ".pdf" removed. */
  function FileId(filename: string): (r: string)
    ensures Text.Contains(filename, "---") ==>
              Text.StartsWith(filename, r) && Text.OccursAt(filename, "---", |r|)
              && forall i :: 0 <= i < |r| ==> !Text.OccursAt(filename, "---", i)
    ensures !Text.Contains(filename, "---") ==>
              r == Text.ReplaceAll(filename, ".pdf", "") && forall c :: c in r ==> c in filename
  {
    if Text.Contains(filename, "---") then BeforeFirst(filename, "---") else Text.ReplaceAll(filename, ".pdf", "")
  }

  /** The row a parsed resume becomes. */
  datatype Parsed = Parsed(
    name: string,
    contact: string,
    position: string,
    skills: string,
    experienceYears: string,
    education: string,
    fileLink: string,
    status: string,
    consultant: string,
    notes: string,
    createdDate: string,
    updatedDate: string)

  /** parse_resume: nothing for a file that yields no text. */
  function ParseResume(filename: string, text: string): Option<Parsed>
  {
    if text == "" then None
    else Some(Parsed(ExtractName(text), "待補充", ExtractPosition(text), SkillsLine(SkillKeywords, text), "待確認", "待確認",
                     FileId(filename), "PDF已解析", "Jacky", "LinkedIn公開搜尋候選人", "2026-02-12", "2026-02-12"))
  }

  /** Only empty text gives no row; a row carries the extracted name, position and skills and the file id. */
  lemma ParseResumeFields(filename: string, text: string)
    ensures ParseResume(filename, text).None? <==> text == ""
    ensures text != "" ==>
              var p := ParseResume(filename, text).value;
              p.name == ExtractName(text) && p.position == ExtractPosition(text)
              && p.skills == SkillsLine(SkillKeywords, text) && p.fileLink == FileId(filename)
  {
  }

  /** A PDF file: its name and the text extracted from it. */
  datatype Pdf = Pdf(name: string, text: string)

  predicate Processed(name: string)
  {
    MentionsAny(name, ProcessedFiles)
  }

  function Fresh(): Pdf -> bool
  {
    (f: Pdf) => !Processed(f.name)
  }

  /** The files whose names mention no processed id, in order. */
  function Unprocessed(files: seq<Pdf>): (r: seq<Pdf>)
    ensures forall f :: f in r <==> f in files && !Processed(f.name)
  {
    Seqs.Filter(files, Fresh())
  }

  function ParseOf(): Pdf -> Option<Parsed>
  {
    (f: Pdf) => ParseResume(f.name, f.text)
  }

  /** The loop of main: the rows of the files that parse, in order. */
  method KeepParsed(todo: seq<Pdf>, parse: Pdf -> Option<Parsed>) returns (results: seq<Parsed>)
    ensures results == Seqs.Collect(todo, parse)
  {
    results := [];
    for i := 0 to |todo|
      invariant results == Seqs.Collect(todo[..i], parse)
    {
      assert todo[..i + 1][..i] == todo[..i];
      var c := parse(todo[i]);
      if c.Some? {
        results := results + [c.value];
      }
    }
    assert todo[..|todo|] == todo;
  }

  /** main: parses every unprocessed file, keeping the rows of the ones that yield text. */
  method BatchParse(files: seq<Pdf>) returns (results: seq<Parsed>)
    ensures results == Seqs.Collect(Unprocessed(files), ParseOf())
  {
    results := KeepParsed(Unprocessed(files), ParseOf());
  }

  /** Every row comes from a file that is not yet processed, at most one row per file. */
  lemma BatchSources(files: seq<Pdf>, parse: Pdf -> Option<Parsed>)
    ensures |Seqs.Collect(Unprocessed(files), parse)| <= |files|
    ensures forall p :: p in Seqs.Collect(Unprocessed(files), parse) ==>
      exists f :: f in files && !Processed(f.name) && parse(f) == Some(p)
  {
    var r := Seqs.Collect(Unprocessed(files), parse);
    forall p | p in r
      ensures exists f :: f in files && !Processed(f.name) && parse(f) == Some(p)
    {
      var j :| 0 <= j < |r| && r[j] == p;
      var f :| f in Unprocessed(files) && parse(f) == Some(r[j]);
    }
  }
}
