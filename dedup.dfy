// Cross-platform candidate deduplication and the recommendation history (scripts/dedup_engine.py).
// md5 is left uninterpreted: a hashed fingerprint records the text that was hashed. The history
// file is the value the engine starts from and the value it last wrote; clock readings are parameters.
module Dedup {
  import opened Wrappers
  import opened Text
  import Seqs

  /** A fingerprint: the 16-character md5 prefix of some text, or the plain "name_company" key. */
  datatype Fingerprint = Hashed(source: string) | Plain(text: string)

  /** A field of a candidate record: a string, a number, a list of strings, the unordered union a
      merge leaves behind (Python's list(set(...))), the fingerprint merge_candidates attaches, or null. */
  datatype Value = Str(s: string) | Num(n: int) | Items(list: seq<string>) | ItemSet(members: set<string>) | Tag(fp: Fingerprint) | Null

  type Candidate = map<string, Value>

  /** Python truthiness of a field. */
  predicate Truthy(v: Value)
  {
    match v
    case Str(s) => s != ""
    case Num(n) => n != 0
    case Items(l) => l != []
    case ItemSet(m) => m != {}
    case Tag(_) => true
    case Null => false
  }

  /** candidate.get(key, '') for a text field. */
  function FieldText(c: Candidate, key: string): string
  {
    if key in c && c[key].Str? then c[key].s else ""
  }

  // ---------------------------------------------------------------- normalisation

  /** The traditional-to-simplified surname table (the entries mapping a character to itself are left implicit). */
  function Simplified(ch: char): (r: char)
    ensures r != ch ==> !IsUpper(r) && !IsSpace(r) && r !in "陳張劉黃吳鄭楊許"
  {
    match ch
    case '陳' => '陈'
    case '張' => '张'
    case '劉' => '刘'
    case '黃' => '黄'
    case '吳' => '吴'
    case '鄭' => '郑'
    case '楊' => '杨'
    case '許' => '许'
    case _ => ch
  }

  /** normalize_name: lower-cased, every whitespace character removed, surnames simplified; "" stays "". */
  function NormalizeName(name: string): (r: string)
    ensures name == "" ==> r == ""
    ensures forall i :: 0 <= i < |r| ==> !IsSpace(r[i]) && !IsUpper(r[i]) && Simplified(r[i]) == r[i]
    ensures r == MapChars(RemoveIf(name, IsSpace), NameChar)
  {
    if name == "" then ""
    else
      var low := Lower(Strip(name));
      var r := MapChars(RemoveIf(low, IsSpace), Simplified);
      NormalizedChars(low, r);
      NameCharsInOrder(name, r);
      r
  }

  /** A character of a normalised name: lower-cased, then its surname simplified. */
  function NameChar(c: char): char
  {
    Simplified(LowerChar(c))
  }

  /** The normalising pipeline keeps exactly the non-space characters of the name, in order, each one normalised. */
  lemma NameCharsInOrder(name: string, r: string)
    requires r == MapChars(RemoveIf(Lower(Strip(name)), IsSpace), Simplified)
    ensures r == MapChars(RemoveIf(name, IsSpace), NameChar)
  {
    var kept := RemoveIf(name, IsSpace);
    RemoveSpaceLower(Strip(name));
    RemoveIfStrip(name, IsSpace);
    assert RemoveIf(Lower(Strip(name)), IsSpace) == Lower(kept);
    SimplifiedLower(kept);
  }

  /** Simplifying lower-cased text is normalising it character by character. */
  lemma SimplifiedLower(kept: string)
    ensures MapChars(Lower(kept), Simplified) == MapChars(kept, NameChar)
  {
    var r, t := MapChars(Lower(kept), Simplified), MapChars(kept, NameChar);
    assert |r| == |t|;
    forall i | 0 <= i < |r| ensures r[i] == t[i] {
      assert r[i] == Simplified(Lower(kept)[i]);
    }
  }

  /** Squeezing the spaces out of lower-cased text and simplifying the surnames leaves only normalised characters. */
  lemma NormalizedChars(low: string, r: string)
    requires forall i :: 0 <= i < |low| ==> !IsUpper(low[i])
    requires r == MapChars(RemoveIf(low, IsSpace), Simplified)
    ensures forall i :: 0 <= i < |r| ==> !IsSpace(r[i]) && !IsUpper(r[i]) && Simplified(r[i]) == r[i]
  {
    var squeezed := RemoveIf(low, IsSpace);
    forall i | 0 <= i < |squeezed|
      ensures !IsUpper(squeezed[i])
    {
      assert squeezed[i] in low;
      var j :| 0 <= j < |low| && low[j] == squeezed[i];
    }
    forall i | 0 <= i < |r|
      ensures !IsSpace(r[i]) && !IsUpper(r[i]) && Simplified(r[i]) == r[i]
    {
      assert r[i] == Simplified(squeezed[i]);
      SimplifiedChar(squeezed[i]);
    }
  }

  /** A lower-case, non-space character simplifies to one that is still both and simplifies no further. */
  lemma SimplifiedChar(c: char)
    requires !IsUpper(c) && !IsSpace(c)
    ensures !IsSpace(Simplified(c)) && !IsUpper(Simplified(c)) && Simplified(Simplified(c)) == Simplified(c)
  {
    if Simplified(c) != c {
      assert Simplified(c) !in "陳張劉黃吳鄭楊許";
    }
  }

  /** Normalising a normalised name changes nothing. */
  lemma NormalizeNameIdempotent(name: string)
    ensures NormalizeName(NormalizeName(name)) == NormalizeName(name)
  {
    var r := NormalizeName(name);
    if r != "" {
      StripNoEdges(r, IsSpace);
      assert Lower(r) == r;
      RemoveIfNone(r, IsSpace);
      assert MapChars(r, Simplified) == r;
    }
  }

  /** The company suffixes, removed in this order. */
  const Suffixes: seq<string> := [
    "股份有限公司", "有限公司", "科技股份有限公司",
    "co., ltd.", "co., ltd", "ltd.", "ltd",
    "inc.", "inc", "corporation", "corp.",
    "公司", "company"]

  /** Every occurrence of each pattern removed, pattern after pattern. */
  function RemoveEach(s: string, patterns: seq<string>): (r: string)
    ensures forall c :: c in r ==> c in s
    decreases |patterns|
  {
    if patterns == [] then s
    else if patterns[0] == "" then RemoveEach(s, patterns[1..])
    else RemoveEach(ReplaceAll(s, patterns[0], ""), patterns[1..])
  }

  /** The suffix list removed from lower-cased text: only characters are deleted. */
  function RemoveSuffixes(low: string): (r: string)
    ensures forall c :: c in r ==> c in low
  {
    RemoveEach(low, Suffixes)
  }

  /** normalize_company: lower-cased, the suffixes removed wherever they occur, whitespace removed; "" stays "". */
  function NormalizeCompany(company: string): (r: string)
    ensures company == "" ==> r == ""
    ensures forall i :: 0 <= i < |r| ==> !IsSpace(r[i]) && !IsUpper(r[i])
  {
    if company == "" then ""
    else
      var low := Lower(Strip(company));
      var r := RemoveIf(RemoveSuffixes(low), IsSpace);
      NoUpperLeft(low, r);
      r
  }

  /** Deleting characters from lower-cased text leaves no upper-case letter. */
  lemma NoUpperLeft(low: string, r: string)
    requires forall i :: 0 <= i < |low| ==> !IsUpper(low[i])
    requires forall c :: c in r ==> c in low
    ensures forall i :: 0 <= i < |r| ==> !IsUpper(r[i])
  {
    forall i | 0 <= i < |r|
      ensures !IsUpper(r[i])
    {
      assert r[i] in low;
      var j :| 0 <= j < |low| && low[j] == r[i];
    }
  }

  // ---------------------------------------------------------------- fingerprints

  /** The e-mail as the fingerprint reads it: lower-cased, then stripped. */
  function EmailKey(c: Candidate): string
  {
    Strip(Lower(FieldText(c, "email")))
  }

  /** generate_fingerprint: the e-mail's hash when there is an e-mail; otherwise "name_company", unless both
      parts are empty, in which case the LinkedIn URL's hash, the GitHub URL's hash, or "_" itself. */
  function GenerateFingerprint(c: Candidate): (r: Fingerprint)
    ensures EmailKey(c) != "" ==> r == Hashed(EmailKey(c))
    ensures r.Plain? ==> '_' in r.text
    ensures EmailKey(c) == "" && r.Hashed? ==>
      NormalizeName(FieldText(c, "name")) == "" && NormalizeCompany(FieldText(c, "company")) == ""
      && r.source != "" && (r.source == FieldText(c, "linkedin_url") || r.source == FieldText(c, "github_url"))
    ensures EmailKey(c) == "" && NormalizeName(FieldText(c, "name")) == "" && NormalizeCompany(FieldText(c, "company")) == "" ==>
      && (FieldText(c, "linkedin_url") != "" ==> r == Hashed(FieldText(c, "linkedin_url")))
      && (FieldText(c, "linkedin_url") == "" && FieldText(c, "github_url") != "" ==> r == Hashed(FieldText(c, "github_url")))
      && (FieldText(c, "linkedin_url") == "" && FieldText(c, "github_url") == "" ==> r == Plain("_"))
  {
    var email := EmailKey(c);
    if email != "" then Hashed(email)
    else
      var key := NormalizeName(FieldText(c, "name")) + "_" + NormalizeCompany(FieldText(c, "company"));
      assert key[|NormalizeName(FieldText(c, "name"))|] == '_';
      if key == "_" then
        var linkedin := FieldText(c, "linkedin_url");
        var github := FieldText(c, "github_url");
        if linkedin != "" then Hashed(linkedin)
        else if github != "" then Hashed(github)
        else Plain(key)
      else Plain(key)
  }

  /** candidate.get('email', '').lower() raises on a field that holds null or anything else but text. */
  predicate EmailRaises(c: Candidate)
  {
    "email" in c && !c["email"].Str?
  }

  /** A truthy field that is not text: `.lower()` in the normalisers, or `.encode()` on a URL, raises on it;
      a falsy one is read as "" without touching it. */
  predicate TextRaises(c: Candidate, key: string)
  {
    key in c && Truthy(c[key]) && !c[key].Str?
  }

  /** The URL fallback is reached: no e-mail, and both halves of "name_company" empty. */
  predicate UrlFallback(c: Candidate)
  {
    EmailKey(c) == "" && NormalizeName(FieldText(c, "name")) == "" && NormalizeCompany(FieldText(c, "company")) == ""
  }

  /** The field whose read raises first, in the order generate_fingerprint reads them. */
  function RaisingField(c: Candidate): Option<string>
  {
    if TextRaises(c, "name") then Some("name")
    else if TextRaises(c, "company") then Some("company")
    else if EmailRaises(c) then Some("email")
    else if UrlFallback(c) && TextRaises(c, "linkedin_url") then Some("linkedin_url")
    else if UrlFallback(c) && !("linkedin_url" in c && Truthy(c["linkedin_url"])) && TextRaises(c, "github_url")
    then Some("github_url")
    else None
  }

  /**
   * generate_fingerprint with its error path: AttributeError, naming the field, when a truthy name or company
   * is not text, when the e-mail field is present but not text, or when the URL the fallback hashes is not
   * text; otherwise the fingerprint above.
   */
  function CheckedFingerprint(c: Candidate): (r: Result<Fingerprint, string>)
    ensures TextRaises(c, "name") ==> r == Err("name")
    ensures !TextRaises(c, "name") && TextRaises(c, "company") ==> r == Err("company")
    ensures !TextRaises(c, "name") && !TextRaises(c, "company") && EmailRaises(c) ==> r == Err("email")
    ensures !TextRaises(c, "name") && !TextRaises(c, "company") && !EmailRaises(c) ==>
      && (UrlFallback(c) && TextRaises(c, "linkedin_url") ==> r == Err("linkedin_url"))
      && (UrlFallback(c) && !("linkedin_url" in c && Truthy(c["linkedin_url"])) && TextRaises(c, "github_url")
          ==> r == Err("github_url"))
    ensures r.Err? <==> (TextRaises(c, "name") || TextRaises(c, "company") || EmailRaises(c)
      || (UrlFallback(c) && (TextRaises(c, "linkedin_url")
          || (!("linkedin_url" in c && Truthy(c["linkedin_url"])) && TextRaises(c, "github_url")))))
    ensures r.Ok? ==> r.value == GenerateFingerprint(c)
    ensures r.Ok? && "email" in c && Strip(Lower(c["email"].s)) != "" ==> r.value == Hashed(Strip(Lower(c["email"].s)))
  {
    match RaisingField(c)
    case Some(field) => Err(field)
    case None => Ok(GenerateFingerprint(c))
  }

  /** Without an e-mail, a candidate with a name or a company is keyed by them, and two such candidates
      share a fingerprint exactly when their "name_company" texts agree. */
  lemma FingerprintByName(c1: Candidate, c2: Candidate)
    requires EmailKey(c1) == "" && EmailKey(c2) == ""
    requires NormalizeName(FieldText(c1, "name")) != "" || NormalizeCompany(FieldText(c1, "company")) != ""
    requires NormalizeName(FieldText(c2, "name")) != "" || NormalizeCompany(FieldText(c2, "company")) != ""
    ensures GenerateFingerprint(c1) == GenerateFingerprint(c2) <==>
      NormalizeName(FieldText(c1, "name")) + "_" + NormalizeCompany(FieldText(c1, "company"))
      == NormalizeName(FieldText(c2, "name")) + "_" + NormalizeCompany(FieldText(c2, "company"))
  {
    var n1, k1 := NormalizeName(FieldText(c1, "name")), NormalizeCompany(FieldText(c1, "company"));
    var n2, k2 := NormalizeName(FieldText(c2, "name")), NormalizeCompany(FieldText(c2, "company"));
    assert GenerateFingerprint(c1) == Plain(n1 + "_" + k1) by { assert |n1 + "_" + k1| > 1; }
    assert GenerateFingerprint(c2) == Plain(n2 + "_" + k2) by { assert |n2 + "_" + k2| > 1; }
  }

  // ---------------------------------------------------------------- merging

  /** The strings of a list field, as set() reads them; absent and non-list fields give none. */
  function ItemsOf(c: Candidate, key: string): set<string>
  {
    if key !in c then {}
    else
      match c[key]
      case Items(l) => set x | x in l
      case ItemSet(m) => m
      case _ => {}
  }

  const Years := "years_of_experience"

  /** c1 with skills and platforms replaced by the unions of both records' lists. */
  function United(c1: Candidate, c2: Candidate): (r: Candidate)
    ensures r.Keys == c1.Keys + {"skills", "platforms"}
    ensures ItemsOf(r, "skills") == ItemsOf(c1, "skills") + ItemsOf(c2, "skills")
    ensures ItemsOf(r, "platforms") == ItemsOf(c1, "platforms") + ItemsOf(c2, "platforms")
    ensures forall k :: k in c1 && k !in {"skills", "platforms"} ==> r[k] == c1[k]
  {
    c1["skills" := ItemSet(ItemsOf(c1, "skills") + ItemsOf(c2, "skills"))]
      ["platforms" := ItemSet(ItemsOf(c1, "platforms") + ItemsOf(c2, "platforms"))]
  }

  /** Every key of c2 that base lacks or holds falsy takes c2's value. */
  function Filled(base: Candidate, c2: Candidate): (r: Candidate)
    ensures r.Keys == base.Keys + c2.Keys
    ensures forall k :: k in base && Truthy(base[k]) ==> r[k] == base[k]
    ensures forall k :: k in c2 && (k !in base || !Truthy(base[k])) ==> r[k] == c2[k]
    ensures forall k :: k in base && k !in c2 ==> r[k] == base[k]
  {
    map k | k in base.Keys + c2.Keys :: if k in c2 && (k !in base || !Truthy(base[k])) then c2[k] else base[k]
  }

  /** A filled-in list field still holds the union: a falsy union is only replaced by a field with no items. */
  lemma FilledKeepsItems(base: Candidate, c1: Candidate, c2: Candidate, key: string)
    requires key in base && base[key] == ItemSet(ItemsOf(c1, key) + ItemsOf(c2, key))
    ensures ItemsOf(Filled(base, c2), key) == ItemsOf(c1, key) + ItemsOf(c2, key)
  {
  }

  /** _merge_candidate_data: c1's copy with skills and platforms united, absent or falsy fields filled from c2,
      and the larger experience when both give one. */
  function MergeData(c1: Candidate, c2: Candidate): (r: Candidate)
    ensures r.Keys == c1.Keys + c2.Keys + {"skills", "platforms"}
    ensures ItemsOf(r, "skills") == ItemsOf(c1, "skills") + ItemsOf(c2, "skills")
    ensures ItemsOf(r, "platforms") == ItemsOf(c1, "platforms") + ItemsOf(c2, "platforms")
    ensures forall k :: k in c1 && Truthy(c1[k]) && k !in {"skills", "platforms", Years} ==> r[k] == c1[k]
    ensures forall k :: k in c2 && k !in {"skills", "platforms", Years} && (k !in c1 || !Truthy(c1[k])) ==> r[k] == c2[k]
    ensures Years in c1 && Years in c2 && c1[Years].Num? && c2[Years].Num? ==>
      r[Years].Num? && r[Years].n >= c1[Years].n && r[Years].n >= c2[Years].n
      && (r[Years].n == c1[Years].n || r[Years].n == c2[Years].n)
    ensures forall k :: k in c1 && k !in c2 && k !in {"skills", "platforms"} ==> r[k] == c1[k]
    ensures forall k :: k in c2 && k !in c1 && k !in {"skills", "platforms"} ==> r[k] == c2[k]
    ensures Years in c1 && Years in c2 && !(c1[Years].Num? && c2[Years].Num?) ==>
      r[Years] == (if Truthy(c1[Years]) then c1[Years] else c2[Years])
  {
    var base := United(c1, c2);
    var filled := Filled(base, c2);
    FilledKeepsItems(base, c1, c2, "skills");
    FilledKeepsItems(base, c1, c2, "platforms");
    if Years in c1 && Years in c2 && c1[Years].Num? && c2[Years].Num? then
      filled[Years := Num(if c1[Years].n >= c2[Years].n then c1[Years].n else c2[Years].n)]
    else filled
  }

  /** The merged record is at least as complete as either input: a field truthy in one of them stays truthy. */
  lemma MergeKeepsTruthy(c1: Candidate, c2: Candidate, k: string)
    requires k != Years
    requires (k in c1 && Truthy(c1[k])) || (k in c2 && Truthy(c2[k]))
    requires k in {"skills", "platforms"} ==> ItemsOf(c1, k) + ItemsOf(c2, k) != {}
    ensures Truthy(MergeData(c1, c2)[k])
  {
    var r := MergeData(c1, c2);
    if k in {"skills", "platforms"} {
      assert ItemsOf(r, k) != {};
    }
  }

  /** The dictionary merge_candidates builds: fingerprints in insertion order and the entry kept for each. */
  datatype Table<V> = Table(keys: seq<Fingerprint>, entries: map<Fingerprint, V>)

  /** One item into the dictionary under its key: merged into the entry there, or added as `first`. */
  function InsertBy<V>(t: Table<V>, fp: Fingerprint, item: V, merge: (V, V) -> V, first: V): Table<V>
  {
    if fp in t.entries then Table(t.keys, t.entries[fp := merge(t.entries[fp], item)])
    else Table(t.keys + [fp], t.entries[fp := first])
  }

  function TableBy<V>(items: seq<V>, key: V -> Fingerprint, merge: (V, V) -> V, first: V -> V): Table<V>
  {
    if items == [] then Table([], map[])
    else
      var n := |items| - 1;
      InsertBy(TableBy(items[..n], key, merge, first), key(items[n]), items[n], merge, first(items[n]))
  }

  function KeysOf<V>(items: seq<V>, key: V -> Fingerprint): (r: seq<Fingerprint>)
    ensures |r| == |items| && forall i :: 0 <= i < |items| ==> r[i] == key(items[i])
  {
    seq(|items|, i requires 0 <= i < |items| => key(items[i]))
  }

  /** Keys without repeats, exactly the dictionary's keys, and every entry marked with its own key. */
  ghost predicate WellFormed<V>(t: Table<V>, marked: (V, Fingerprint) -> bool)
  {
    Seqs.NoDup(t.keys) && (forall fp :: fp in t.entries <==> fp in t.keys)
    && (forall fp :: fp in t.entries ==> marked(t.entries[fp], fp))
  }

  /** The dictionary's keys are the distinct keys in first-occurrence order, and exactly its keys. */
  lemma {:induction false} TableByKeys<V>(items: seq<V>, key: V -> Fingerprint, merge: (V, V) -> V, first: V -> V)
    ensures var t := TableBy(items, key, merge, first);
      t.keys == Seqs.Dedup(KeysOf(items, key)) && forall fp :: fp in t.entries <==> fp in t.keys
  {
    if items != [] {
      var n := |items| - 1;
      TableByKeys(items[..n], key, merge, first);
      assert KeysOf(items, key)[..n] == KeysOf(items[..n], key);
    }
  }

  /** Every entry keeps the mark its first item gave it when merges preserve marks. */
  lemma {:induction false} TableByMarked<V>(items: seq<V>, key: V -> Fingerprint, merge: (V, V) -> V, first: V -> V,
                                            marked: (V, Fingerprint) -> bool)
    requires forall x :: marked(first(x), key(x))
    requires forall a, x, fp :: marked(a, fp) ==> marked(merge(a, x), fp)
    ensures forall fp :: fp in TableBy(items, key, merge, first).entries ==>
      marked(TableBy(items, key, merge, first).entries[fp], fp)
  {
    if items != [] {
      var n := |items| - 1;
      TableByMarked(items[..n], key, merge, first, marked);
      var t := TableBy(items[..n], key, merge, first);
      var x := items[n];
      var k := key(x);
      if k in t.entries {
        var e := t.entries[k];
        MergeKeepsMark(merge, marked, e, x, k);
        assert TableBy(items, key, merge, first).entries == t.entries[k := merge(e, x)];
      } else {
        assert marked(first(x), key(x));
      }
    }
  }

  lemma MergeKeepsMark<V>(merge: (V, V) -> V, marked: (V, Fingerprint) -> bool, e: V, x: V, fp: Fingerprint)
    requires forall a, y, fp' :: marked(a, fp') ==> marked(merge(a, y), fp')
    requires marked(e, fp)
    ensures marked(merge(e, x), fp)
  {
  }

  /** A key is among the distinct keys exactly when some item has it. */
  lemma DistinctKeysMembers<V>(items: seq<V>, key: V -> Fingerprint)
    ensures forall fp :: fp in Seqs.Dedup(KeysOf(items, key)) <==> exists i :: 0 <= i < |items| && key(items[i]) == fp
  {
    var keys := KeysOf(items, key);
    forall fp
      ensures fp in Seqs.Dedup(keys) <==> exists i :: 0 <= i < |items| && key(items[i]) == fp
    {
      if fp in keys {
        var i :| 0 <= i < |items| && keys[i] == fp;
      }
    }
  }

  /** Together: a well-formed dictionary whose keys are the distinct keys in first-occurrence order. */
  lemma TableByShape<V>(items: seq<V>, key: V -> Fingerprint, merge: (V, V) -> V, first: V -> V,
                        marked: (V, Fingerprint) -> bool)
    requires forall x :: marked(first(x), key(x))
    requires forall a, x, fp :: marked(a, fp) ==> marked(merge(a, x), fp)
    ensures WellFormed(TableBy(items, key, merge, first), marked)
    ensures TableBy(items, key, merge, first).keys == Seqs.Dedup(KeysOf(items, key))
  {
    TableByKeys(items, key, merge, first);
    TableByMarked(items, key, merge, first, marked);
  }

  /** list(fingerprint_map.values()). */
  function Values<V>(t: Table<V>, none: V): (r: seq<V>)
    ensures |r| == |t.keys|
    ensures forall i :: 0 <= i < |t.keys| && t.keys[i] in t.entries ==> r[i] == t.entries[t.keys[i]]
  {
    seq(|t.keys|, i requires 0 <= i < |t.keys| => if t.keys[i] in t.entries then t.entries[t.keys[i]] else none)
  }

  /** In a well-formed table each value carries the mark of the key it is listed under. */
  lemma ValuesMarked<V>(t: Table<V>, none: V, marked: (V, Fingerprint) -> bool)
    requires WellFormed(t, marked)
    ensures forall i :: 0 <= i < |t.keys| ==> marked(Values(t, none)[i], t.keys[i])
  {
    var r := Values(t, none);
    forall i | 0 <= i < |t.keys| ensures marked(r[i], t.keys[i]) {
      assert t.keys[i] in t.entries;
    }
  }

  /** A new entry: the candidate tagged with its fingerprint. */
  function Tagged(c: Candidate): Candidate
  {
    c["fingerprint" := Tag(GenerateFingerprint(c))]
  }

  predicate TaggedWith(c: Candidate, fp: Fingerprint)
  {
    "fingerprint" in c && c["fingerprint"] == Tag(fp)
  }

  /** What merge_candidates returns. */
  function Merged(cs: seq<Candidate>): seq<Candidate>
  {
    Values(TableBy(cs, GenerateFingerprint, MergeData, Tagged), map[])
  }

  /** A merge keeps the tag of the record merged into. */
  lemma MergeKeepsTag(a: Candidate, c: Candidate, fp: Fingerprint)
    requires TaggedWith(a, fp)
    ensures TaggedWith(MergeData(a, c), fp)
  {
    assert Truthy(a["fingerprint"]);
    assert "fingerprint" !in {"skills", "platforms", Years};
  }

  /** Every entry of the dictionary is tagged with its own fingerprint, and the keys are exactly the entries'. */
  lemma MergedWellFormed(cs: seq<Candidate>)
    ensures WellFormed(TableBy(cs, GenerateFingerprint, MergeData, Tagged), TaggedWith)
    ensures TableBy(cs, GenerateFingerprint, MergeData, Tagged).keys == Seqs.Dedup(KeysOf(cs, GenerateFingerprint))
  {
    forall a, x, fp | TaggedWith(a, fp)
      ensures TaggedWith(MergeData(a, x), fp)
    {
      MergeKeepsTag(a, x, fp);
    }
    TableByShape(cs, GenerateFingerprint, MergeData, Tagged, TaggedWith);
  }

  /** One record per distinct fingerprint, in first-occurrence order, each tagged with it; never more than the input. */
  lemma MergedShape(cs: seq<Candidate>)
    ensures var fps := Seqs.Dedup(KeysOf(cs, GenerateFingerprint));
      |Merged(cs)| == |fps| <= |cs| && Seqs.NoDup(fps)
      && (forall fp :: fp in fps <==> exists i :: 0 <= i < |cs| && GenerateFingerprint(cs[i]) == fp)
      && forall i :: 0 <= i < |fps| ==> TaggedWith(Merged(cs)[i], fps[i])
  {
    MergedWellFormed(cs);
    ValuesMarked(TableBy(cs, GenerateFingerprint, MergeData, Tagged), map[], TaggedWith);
    DistinctKeysMembers(cs, GenerateFingerprint);
  }

  /** The dictionary after one more candidate is the previous one with that candidate inserted. */
  lemma TableByNext(cs: seq<Candidate>, i: nat)
    requires i < |cs|
    ensures TableBy(cs[..i + 1], GenerateFingerprint, MergeData, Tagged)
      == InsertBy(TableBy(cs[..i], GenerateFingerprint, MergeData, Tagged), GenerateFingerprint(cs[i]), cs[i], MergeData, Tagged(cs[i]))
  {
    assert cs[..i + 1][..i] == cs[..i];
  }

  /** No earlier candidate has the same fingerprint: merge_candidates stores this one's own dict. */
  predicate FirstOfItsKind(cs: seq<Candidate>, i: nat)
    requires i < |cs|
  {
    NewKey(KeysOf(cs, GenerateFingerprint), i)
  }

  /** The key at i does not occur before it. */
  predicate NewKey(keys: seq<Fingerprint>, i: nat)
    requires i < |keys|
  {
    forall j :: 0 <= j < i ==> keys[j] != keys[i]
  }

  /** A candidate is the first of its fingerprint exactly when the dictionary so far lacks that fingerprint. */
  lemma FirstIffAbsent<V>(items: seq<V>, key: V -> Fingerprint, merge: (V, V) -> V, first: V -> V, i: nat)
    requires i < |items|
    ensures key(items[i]) in TableBy(items[..i], key, merge, first).entries <==> !NewKey(KeysOf(items, key), i)
  {
    TableByKeys(items[..i], key, merge, first);
    DistinctKeysMembers(items[..i], key);
    var keys := KeysOf(items, key);
    if !NewKey(keys, i) {
      var j :| 0 <= j < i && keys[j] == keys[i];
      assert items[..i][j] == items[j];
    }
  }

  /** The caller's list after i steps: first occurrences before i tagged, everything else as given. */
  ghost predicate TaggedUpTo(cs: seq<Candidate>, callers: seq<Candidate>, i: nat)
    requires i <= |cs|
  {
    |callers| == |cs| && (forall k :: i <= k < |cs| ==> callers[k] == cs[k])
    && forall k :: 0 <= k < i ==> callers[k] == if FirstOfItsKind(cs, k) then Tagged(cs[k]) else cs[k]
  }

  /** One more step of the caller's list: the candidate is tagged exactly when it is the first of its kind. */
  lemma TaggedUpToNext(cs: seq<Candidate>, callers: seq<Candidate>, i: nat)
    requires i < |cs| && TaggedUpTo(cs, callers, i)
    ensures FirstOfItsKind(cs, i) ==> TaggedUpTo(cs, callers[i := Tagged(cs[i])], i + 1)
    ensures !FirstOfItsKind(cs, i) ==> TaggedUpTo(cs, callers, i + 1)
  {
  }

  /**
   * merge_candidates: one pass filling the fingerprint dictionary. The caller's list is modelled as the
   * second result: the dict of each first occurrence of a fingerprint gains its 'fingerprint' entry in
   * place, and every other dict is left as it was.
   */
  method MergeCandidates(cs: seq<Candidate>) returns (r: seq<Candidate>, callers: seq<Candidate>)
    ensures r == Merged(cs)
    ensures |callers| == |cs|
    ensures forall i :: 0 <= i < |cs| ==> callers[i] == if FirstOfItsKind(cs, i) then Tagged(cs[i]) else cs[i]
  {
    var keys: seq<Fingerprint> := [];
    var entries: map<Fingerprint, Candidate> := map[];
    callers := cs;
    for i := 0 to |cs|
      invariant Table(keys, entries) == TableBy(cs[..i], GenerateFingerprint, MergeData, Tagged)
      invariant |callers| == |cs| && TaggedUpTo(cs, callers, i)
    {
      TableByNext(cs, i);
      FirstIffAbsent(cs, GenerateFingerprint, MergeData, Tagged, i);
      TaggedUpToNext(cs, callers, i);
      var c := cs[i];
      var fp := GenerateFingerprint(c);
      if fp in entries {
        entries := entries[fp := MergeData(entries[fp], c)];
      } else {
        var tagged := c["fingerprint" := Tag(fp)];
        entries := entries[fp := tagged];
        keys := keys + [fp];
        callers := callers[i := tagged];
      }
    }
    assert cs[..|cs|] == cs;
    r := Values(Table(keys, entries), map[]);
  }

  // ---------------------------------------------------------------- the recommendation history

  /** One entry of the history file. */
  datatype Record = Record(
    fingerprint: Fingerprint,
    candidateName: string,
    firstRecommended: int,
    lastUpdated: int,
    jdId: string,
    status: string,
    platforms: Value)

  /** A record counts for a job filter; the empty filter (no jd_id given) admits every record. */
  predicate ForJob(r: Record, jd: string)
  {
    jd == "" || r.jdId == jd
  }

  /** The fingerprints recommended for the filter. */
  function Recommended(h: seq<Record>, jd: string): set<Fingerprint>
  {
    if h == [] then {}
    else Recommended(h[..|h| - 1], jd) + (if ForJob(h[|h| - 1], jd) then {h[|h| - 1].fingerprint} else {})
  }

  /** A fingerprint is recommended for the filter exactly when some record for the filter carries it. */
  lemma {:induction false} RecommendedIff(h: seq<Record>, jd: string, fp: Fingerprint)
    ensures fp in Recommended(h, jd) <==> exists k :: 0 <= k < |h| && ForJob(h[k], jd) && h[k].fingerprint == fp
  {
    if h != [] {
      var init := h[..|h| - 1];
      RecommendedIff(init, jd, fp);
      assert forall k :: 0 <= k < |init| ==> init[k] == h[k];
    }
  }

  /**
   * candidate.get('fingerprint', generate_fingerprint(candidate)): the fingerprint a candidate carries, or
   * the one computed for it. Only a tag merge_candidates stored counts as carried; any other stored value
   * is recomputed.
   */
  function StoredFingerprint(c: Candidate): Fingerprint
  {
    if "fingerprint" in c && c["fingerprint"].Tag? then c["fingerprint"].fp else GenerateFingerprint(c)
  }

  /** On the records merge_candidates returns, the stored fingerprint is the one the merge keyed them by,
      so filtering or marking merged candidates uses the merge's own fingerprints. */
  lemma MergedStoredFingerprint(cs: seq<Candidate>)
    ensures var fps := Seqs.Dedup(KeysOf(cs, GenerateFingerprint));
      |Merged(cs)| == |fps| && forall i :: 0 <= i < |fps| ==> StoredFingerprint(Merged(cs)[i]) == fps[i]
  {
    MergedShape(cs);
  }

  /** The items whose key is not among the given ones, in their order. */
  function KeepUnlisted<V(!new)>(items: seq<V>, key: V -> Fingerprint, listed: set<Fingerprint>): seq<V>
  {
    Seqs.Filter(items, x => key(x) !in listed)
  }

  /** Exactly the listed items are dropped, and the kept ones keep their order. */
  lemma KeepUnlistedExact<V(!new)>(items: seq<V>, key: V -> Fingerprint, listed: set<Fingerprint>)
    ensures var r := KeepUnlisted(items, key, listed);
      (forall x :: x in r <==> x in items && key(x) !in listed)
      && |r| == |items| - Seqs.Count(items, x => key(x) in listed)
  {
    Seqs.CountIsFilterLength(items, x => key(x) !in listed);
    CountComplement(items, x => key(x) !in listed, x => key(x) in listed);
  }

  lemma KeepUnlistedAppend<V(!new)>(items: seq<V>, x: V, key: V -> Fingerprint, listed: set<Fingerprint>)
    ensures KeepUnlisted(items + [x], key, listed) == KeepUnlisted(items, key, listed) + (if key(x) !in listed then [x] else [])
  {
    Seqs.FilterAppend(items, [x], y => key(y) !in listed);
  }

  lemma {:induction false} CountComplement<T>(s: seq<T>, p: T -> bool, q: T -> bool)
    requires forall x :: p(x) <==> !q(x)
    ensures Seqs.Count(s, p) + Seqs.Count(s, q) == |s|
  {
    if s != [] { CountComplement(s[1..], p, q); }
  }

  predicate Matches(r: Record, fp: Fingerprint, jd: string)
  {
    r.fingerprint == fp && r.jdId == jd
  }

  /** Index of the first record for the fingerprint and job, or |h|. */
  function FirstMatch(h: seq<Record>, fp: Fingerprint, jd: string): (k: nat)
    ensures k <= |h|
    ensures k < |h| ==> Matches(h[k], fp, jd)
    ensures forall j :: 0 <= j < k ==> !Matches(h[j], fp, jd)
  {
    if h == [] then 0 else if Matches(h[0], fp, jd) then 0 else 1 + FirstMatch(h[1..], fp, jd)
  }

  /** update_status: the first record for the fingerprint and job gets the status and the time; none, no change. */
  function WithStatus(h: seq<Record>, fp: Fingerprint, jd: string, status: string, now: int): seq<Record>
  {
    var k := FirstMatch(h, fp, jd);
    if k < |h| then h[k := h[k].(status := status, lastUpdated := now)] else h
  }

  /** mark_as_recommended for one fingerprint: update its record for the job, or append a new one. */
  function MarkOne(h: seq<Record>, fp: Fingerprint, name: string, platforms: Value, jd: string, status: string, now: int): seq<Record>
  {
    if FirstMatch(h, fp, jd) < |h| then WithStatus(h, fp, jd, status, now)
    else h + [Record(fp, name, now, now, jd, status, platforms)]
  }

  function PlatformsOf(c: Candidate): Value
  {
    if "platforms" in c then c["platforms"] else Items([])
  }

  /** The record fields a candidate contributes. */
  datatype Mark = Mark(fp: Fingerprint, name: string, platforms: Value)

  function MarkOf(c: Candidate): Mark
  {
    Mark(StoredFingerprint(c), FieldText(c, "name"), PlatformsOf(c))
  }

  function MarkAllBy<V>(h: seq<Record>, items: seq<V>, mark: V -> Mark, jd: string, status: string, now: int): seq<Record>
  {
    if items == [] then h
    else
      var m := mark(items[|items| - 1]);
      MarkOne(MarkAllBy(h, items[..|items| - 1], mark, jd, status, now), m.fp, m.name, m.platforms, jd, status, now)
  }

  /** The history after mark_as_recommended. */
  function MarkAll(h: seq<Record>, cs: seq<Candidate>, jd: string, status: string, now: int): seq<Record>
  {
    MarkAllBy(h, cs, MarkOf, jd, status, now)
  }

  /** No two records share a fingerprint and a job. */
  predicate UniquePairs(h: seq<Record>)
  {
    forall i, j :: 0 <= i < j < |h| ==> !Matches(h[j], h[i].fingerprint, h[i].jdId)
  }

  /** Some record for the fingerprint and job holds the status. */
  predicate HasStatus(h: seq<Record>, fp: Fingerprint, jd: string, status: string)
  {
    exists k :: 0 <= k < |h| && Matches(h[k], fp, jd) && h[k].status == status
  }

  /** update_status changes one record, the first match, which is the only one when pairs are unique. */
  lemma WithStatusEffect(h: seq<Record>, fp: Fingerprint, jd: string, status: string, now: int)
    ensures var r := WithStatus(h, fp, jd, status, now);
      |r| == |h|
      && (forall k :: 0 <= k < |h| ==> r[k].fingerprint == h[k].fingerprint && r[k].jdId == h[k].jdId
                                       && r[k].firstRecommended == h[k].firstRecommended)
      && (forall k :: 0 <= k < |h| && k != FirstMatch(h, fp, jd) ==> r[k] == h[k])
      && (FirstMatch(h, fp, jd) < |h| <==> HasStatus(r, fp, jd, status))
      && (UniquePairs(h) ==> UniquePairs(r))
  {
    var r := WithStatus(h, fp, jd, status, now);
    var m := FirstMatch(h, fp, jd);
    if HasStatus(r, fp, jd, status) {
      var k :| 0 <= k < |r| && Matches(r[k], fp, jd) && r[k].status == status;
      assert m <= k;
    }
    if m < |h| {
      assert Matches(r[m], fp, jd) && r[m].status == status;
    }
  }

  /** Marking one fingerprint keeps pairs unique, leaves it recorded for the job with the status, and keeps
      every earlier record's identity; statuses already recorded for the job survive. */
  lemma MarkOneEffect(h: seq<Record>, fp: Fingerprint, name: string, platforms: Value, jd: string, status: string, now: int)
    requires UniquePairs(h)
    ensures var r := MarkOne(h, fp, name, platforms, jd, status, now);
      UniquePairs(r) && HasStatus(r, fp, jd, status)
      && |h| <= |r| <= |h| + 1
      && (forall k :: 0 <= k < |h| ==> r[k].fingerprint == h[k].fingerprint && r[k].jdId == h[k].jdId)
      && (forall fp' :: HasStatus(h, fp', jd, status) ==> HasStatus(r, fp', jd, status))
  {
    var r := MarkOne(h, fp, name, platforms, jd, status, now);
    if FirstMatch(h, fp, jd) < |h| {
      WithStatusEffect(h, fp, jd, status, now);
      forall fp' | HasStatus(h, fp', jd, status)
        ensures HasStatus(r, fp', jd, status)
      {
        var k :| 0 <= k < |h| && Matches(h[k], fp', jd) && h[k].status == status;
        assert r[k].status == status;
      }
    } else {
      assert Matches(r[|h|], fp, jd);
      forall fp' | HasStatus(h, fp', jd, status)
        ensures HasStatus(r, fp', jd, status)
      {
        var k :| 0 <= k < |h| && Matches(h[k], fp', jd) && h[k].status == status;
        assert r[k] == h[k];
      }
    }
  }

  /** Marking never creates two records for one fingerprint and job, and afterwards every item marked is
      recorded for the job with the status. */
  lemma {:induction false} MarkAllByEffect<V>(h: seq<Record>, items: seq<V>, mark: V -> Mark, jd: string, status: string, now: int)
    requires UniquePairs(h)
    ensures var r := MarkAllBy(h, items, mark, jd, status, now);
      UniquePairs(r) && |h| <= |r| <= |h| + |items|
      && (forall k :: 0 <= k < |h| ==> r[k].fingerprint == h[k].fingerprint && r[k].jdId == h[k].jdId)
      && forall i :: 0 <= i < |items| ==> HasStatus(r, mark(items[i]).fp, jd, status)
  {
    if items != [] {
      var n := |items| - 1;
      MarkAllByEffect(h, items[..n], mark, jd, status, now);
      var mid := MarkAllBy(h, items[..n], mark, jd, status, now);
      var m := mark(items[n]);
      MarkOneEffect(mid, m.fp, m.name, m.platforms, jd, status, now);
      forall i | 0 <= i < n
        ensures HasStatus(MarkAllBy(h, items, mark, jd, status, now), mark(items[i]).fp, jd, status)
      {
        assert items[i] == items[..n][i];
      }
    }
  }

  /** mark_as_recommended never creates two records for one candidate and job, keeps every existing record's
      identity, and leaves every candidate marked recorded for the job with the status. */
  lemma MarkAllEffect(h: seq<Record>, cs: seq<Candidate>, jd: string, status: string, now: int)
    requires UniquePairs(h)
    ensures var r := MarkAll(h, cs, jd, status, now);
      UniquePairs(r) && |h| <= |r| <= |h| + |cs|
      && (forall k :: 0 <= k < |h| ==> r[k].fingerprint == h[k].fingerprint && r[k].jdId == h[k].jdId)
      && forall i :: 0 <= i < |cs| ==> HasStatus(r, StoredFingerprint(cs[i]), jd, status)
  {
    MarkAllByEffect(h, cs, MarkOf, jd, status, now);
  }

  /** The counts get_recommendation_stats reports. */
  datatype Stats = Stats(total: nat, contacted: nat, skipped: nat, pending: nat)

  /** One record counted: total always, then the counter named by the status; a status literally "total"
      counts in total twice. */
  function Tally(s: Stats, status: string): Stats
  {
    var t := s.(total := s.total + 1);
    if status == "total" then t.(total := t.total + 1)
    else if status == "contacted" then t.(contacted := t.contacted + 1)
    else if status == "skipped" then t.(skipped := t.skipped + 1)
    else if status == "pending" then t.(pending := t.pending + 1)
    else t
  }

  function StatsOf(h: seq<Record>, jd: string): Stats
  {
    if h == [] then Stats(0, 0, 0, 0)
    else
      var s := StatsOf(h[..|h| - 1], jd);
      if ForJob(h[|h| - 1], jd) then Tally(s, h[|h| - 1].status) else s
  }

  /** contacted + skipped + pending never exceeds total, and total counts every record for the filter once
      (twice for a record whose status is "total"). */
  lemma {:induction false} StatsBound(h: seq<Record>, jd: string)
    ensures var s := StatsOf(h, jd);
      s.contacted + s.skipped + s.pending <= s.total
      && Seqs.Count(h, r => ForJob(r, jd)) <= s.total <= 2 * Seqs.Count(h, r => ForJob(r, jd))
  {
    if h != [] {
      var init := h[..|h| - 1];
      StatsBound(init, jd);
      assert h == init + [h[|h| - 1]];
      Seqs.CountAppend(init, [h[|h| - 1]], r => ForJob(r, jd));
    }
  }

  /** The engine: the history in memory and what the history file holds. */
  class DedupEngine {
    var history: seq<Record>
    var file: Option<seq<Record>>

    /** Loads the history file, or starts with no records when there is none. */
    constructor (stored: Option<seq<Record>>)
      ensures file == stored
      ensures history == if stored.Some? then stored.value else []
    {
      file := stored;
      history := if stored.Some? then stored.value else [];
    }

    /** filter_already_recommended: collect the recommended fingerprints, then keep the others. */
    method FilterAlreadyRecommended(cs: seq<Candidate>, jd: string) returns (r: seq<Candidate>)
      ensures r == KeepUnlisted(cs, StoredFingerprint, Recommended(history, jd))
    {
      var recommended := RecommendedFor(jd);
      r := [];
      for i := 0 to |cs|
        invariant r == KeepUnlisted(cs[..i], StoredFingerprint, recommended)
      {
        assert cs[..i + 1] == cs[..i] + [cs[i]];
        KeepUnlistedAppend(cs[..i], cs[i], StoredFingerprint, recommended);
        var fp := StoredFingerprint(cs[i]);
        if fp !in recommended {
          r := r + [cs[i]];
        }
      }
      assert cs[..|cs|] == cs;
    }

    /** The first loop of filter_already_recommended. */
    method RecommendedFor(jd: string) returns (recommended: set<Fingerprint>)
      ensures recommended == Recommended(history, jd)
    {
      recommended := {};
      for k := 0 to |history|
        invariant recommended == Recommended(history[..k], jd)
      {
        assert history[..k + 1][..k] == history[..k];
        if jd != "" && history[k].jdId != jd {
          continue;
        }
        recommended := recommended + {history[k].fingerprint};
      }
      assert history[..|history|] == history;
    }

    /** mark_as_recommended, then the history is written out. */
    method MarkAsRecommended(cs: seq<Candidate>, jd: string, status: string, now: int)
      modifies this
      ensures history == MarkAll(old(history), cs, jd, status, now)
      ensures file == Some(history)
    {
      for i := 0 to |cs|
        invariant history == MarkAll(old(history), cs[..i], jd, status, now)
      {
        assert cs[..i + 1][..i] == cs[..i];
        var c := cs[i];
        var fp := StoredFingerprint(c);
        var k := 0;
        while k < |history| && !Matches(history[k], fp, jd)
          invariant k <= |history|
          invariant forall j :: 0 <= j < k ==> !Matches(history[j], fp, jd)
        {
          k := k + 1;
        }
        assert k == FirstMatch(history, fp, jd);
        if k < |history| {
          history := history[k := history[k].(status := status, lastUpdated := now)];
        } else {
          history := history + [Record(fp, FieldText(c, "name"), now, now, jd, status, PlatformsOf(c))];
        }
      }
      assert cs[..|cs|] == cs;
      file := Some(history);
    }

    /** update_status, then the history is written out. */
    method UpdateStatus(fp: Fingerprint, jd: string, status: string, now: int)
      modifies this
      ensures history == WithStatus(old(history), fp, jd, status, now)
      ensures file == Some(history)
    {
      var k := 0;
      while k < |history|
        invariant k <= |history|
        invariant forall j :: 0 <= j < k ==> !Matches(history[j], fp, jd)
      {
        if Matches(history[k], fp, jd) {
          history := history[k := history[k].(status := status, lastUpdated := now)];
          break;
        }
        k := k + 1;
      }
      file := Some(history);
    }

    /** get_recommendation_stats. */
    method RecommendationStats(jd: string) returns (s: Stats)
      ensures s == StatsOf(history, jd)
    {
      s := Stats(0, 0, 0, 0);
      for k := 0 to |history|
        invariant s == StatsOf(history[..k], jd)
      {
        assert history[..k + 1][..k] == history[..k];
        if jd != "" && history[k].jdId != jd {
          continue;
        }
        s := Tally(s, history[k].status);
      }
      assert history[..|history|] == history;
    }
  }
}
