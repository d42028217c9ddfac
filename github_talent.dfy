// GitHub talent search (skills/headhunter/scripts/github-talent-search.py): the user-search query
// and URL, the scan of the search page's refs for usernames (unique, stop-listed, stopped at
// max_results), the classification of a profile page's ref names into e-mail, twitter, website
// and followers, the location taken from the page text, and the search-then-profile driver.
// Browser snapshots are parameters: `searchOf` gives the refs of a search page and `pageOf` a
// user's profile page (None when its JSON cannot be parsed).
module GithubTalent {
  import opened Wrappers
  import opened Text
  import opened Seqs
  import opened Pattern

  // ---------------------------------------------------------------- the search URL

  /** The query: the location, then each of the other clauses whose value is truthy. */
  function Query(location: string, language: string, minRepos: int, minFollowers: int): (q: string)
    ensures StartsWith(q, "location:" + location)
  {
    var head := "location:" + location;
    var q := head
      + (if language != "" then " language:" + language else "")
      + (if minRepos != 0 then " repos:>" + IntToString(minRepos) else "")
      + (if minFollowers != 0 then " followers:>" + IntToString(minFollowers) else "");
    assert q[..|head|] == head;
    q
  }

  /** Each optional clause is present exactly when its value is truthy: a falsy value adds nothing. */
  lemma QueryClauses(location: string, language: string, minRepos: int, minFollowers: int)
    ensures language != "" ==> Contains(Query(location, language, minRepos, minFollowers), " language:" + language)
    ensures minRepos != 0 ==> Contains(Query(location, language, minRepos, minFollowers), " repos:>" + IntToString(minRepos))
    ensures minFollowers != 0 ==> Contains(Query(location, language, minRepos, minFollowers), " followers:>" + IntToString(minFollowers))
    ensures language == "" && minRepos == 0 && minFollowers == 0 ==> Query(location, language, minRepos, minFollowers) == "location:" + location
  {
    var a := "location:" + location;
    var b := if language != "" then " language:" + language else "";
    var c := if minRepos != 0 then " repos:>" + IntToString(minRepos) else "";
    var d := if minFollowers != 0 then " followers:>" + IntToString(minFollowers) else "";
    assert Query(location, language, minRepos, minFollowers) == a + b + c + d;
    PiecesOccur(a, b, c, d);
  }

  lemma PiecesOccur(a: string, b: string, c: string, d: string)
    ensures Contains(a + b + c + d, b) && Contains(a + b + c + d, c) && Contains(a + b + c + d, d)
  {
    var q := a + b + c + d;
    assert q[|a|..|a| + |b|] == b;
    assert OccursAt(q, b, |a|);
    assert q[|a| + |b|..|a| + |b| + |c|] == c;
    assert OccursAt(q, c, |a| + |b|);
    assert q[|a| + |b| + |c|..] == d;
    assert OccursAt(q, d, |a| + |b| + |c|);
  }

  const SearchPrefix: string := "https://github.com/search?q="
  const SearchSuffix: string := "&type=users"

  function SpaceToPlus(c: char): char { if c == ' ' then '+' else c }

  /** The search URL: the query with every space turned into '+'. */
  function SearchUrl(query: string): (u: string)
    ensures |u| == |SearchPrefix| + |query| + |SearchSuffix|
    ensures StartsWith(u, SearchPrefix) && EndsWith(u, SearchSuffix)
    ensures forall k :: 0 <= k < |query| ==> u[|SearchPrefix| + k] == (if query[k] == ' ' then '+' else query[k])
  {
    var u := SearchPrefix + MapChars(query, SpaceToPlus) + SearchSuffix;
    assert u[..|SearchPrefix|] == SearchPrefix;
    assert u[|u| - |SearchSuffix|..] == SearchSuffix;
    u
  }

  /** The search URL holds no space at all. */
  lemma SearchUrlHasNoSpace(query: string)
    ensures ' ' !in SearchUrl(query)
  {
    var u := SearchUrl(query);
    assert ' ' !in SearchPrefix && ' ' !in SearchSuffix;
    forall k | |SearchPrefix| <= k < |SearchPrefix| + |query| ensures u[k] != ' ' {
      assert u[k] == u[|SearchPrefix| + (k - |SearchPrefix|)];
    }
    FramedNoSpace(SearchPrefix, query, SearchSuffix, u);
  }

  /** Text framed by a space-free prefix and suffix, with no space in between, holds no space. */
  lemma FramedNoSpace(pre: string, q: string, suf: string, u: string)
    requires |u| == |pre| + |q| + |suf| && StartsWith(u, pre) && EndsWith(u, suf)
    requires forall k :: |pre| <= k < |pre| + |q| ==> u[k] != ' '
    requires ' ' !in pre && ' ' !in suf
    ensures ' ' !in u
  {
    forall k | 0 <= k < |u| ensures u[k] != ' ' {
      if k < |pre| {
        assert u[k] == u[..|pre|][k] == pre[k];
      } else if k >= |pre| + |q| {
        var j := k - (|pre| + |q|);
        assert u[k] == u[|u| - |suf|..][j] == suf[j];
      }
    }
  }

  // ---------------------------------------------------------------- usernames

  /** A ref of a snapshot: its key in the refs object, its accessible name and role. */
  datatype Ref = Ref(id: string, name: string, role: string)

  datatype User = User(username: string, ref: string)

  const UserChar: Class := Union(Union(Letter, Digit), Chars("_-"))

  /** ^[a-zA-Z0-9_-]+$ */
  const UsernamePattern: seq<Atom> := [Plus(UserChar), End]

  predicate IsUserChar(c: char)
  {
    IsLetter(c) || IsDigit(c) || c == '_' || c == '-'
  }

  lemma UserCharIn(c: char)
    ensures In(c, UserChar) <==> IsUserChar(c)
  {
    assert In(c, UserChar) <==> In(c, Union(Letter, Digit)) || In(c, Chars("_-"));
    assert c in "_-" <==> c == '_' || c == '-';
  }

  predicate UserShaped(s: string)
  {
    s != [] && forall k :: 0 <= k < |s| ==> IsUserChar(s[k])
  }

  /** The username test: the whole name is username characters, or all but a final newline (where `$` also matches). */
  lemma UsernamePatternIff(s: string)
    ensures MatchesAtStart(UsernamePattern, s) <==>
            UserShaped(s) || (s != [] && s[|s| - 1] == '\n' && UserShaped(s[..|s| - 1]))
  {
    var p := UsernamePattern;
    if MatchesAtStart(p, s) {
      var b := Match(p, s, 0).value;
      MatchSound(p, s, 0);
      SpellsFit(p, s, 0, b);
      RepAt(p, s, 0, b, 0);
      EndAt(p, s, 0, b, 1);
      forall x | 0 <= x < b[0] ensures IsUserChar(s[x]) { UserCharIn(s[x]); }
      if b[0] < |s| {
        assert UserShaped(s[..|s| - 1]);
      }
    }
    if UserShaped(s) || (s != [] && s[|s| - 1] == '\n' && UserShaped(s[..|s| - 1])) {
      var e := if UserShaped(s) then |s| else |s| - 1;
      assert forall x :: 0 <= x < e ==> IsUserChar(s[x]) by {
        if e < |s| { assert forall x :: 0 <= x < e ==> s[..|s| - 1][x] == s[x]; }
      }
      forall x | 0 <= x < e ensures In(s[x], UserChar) { UserCharIn(s[x]); }
      var b := [e, e];
      forall k | 0 <= k < 2 ensures Fits(p[k], s, Prev(0, b, k), b[k]) {
        if k == 0 {
          FitsRep(UserChar, 1, Unbounded, false, s, 0, e);
        } else {
          FitsEnd(s, e);
        }
      }
      SpellsAll(p, s, 0, b);
      MatchComplete(p, s, 0, b);
    }
  }

  /** Link names that are site navigation rather than users, compared in lower case. */
  const StopList: seq<string> :=
    ["code", "repositories", "issues", "pull", "discussions", "users", "more", "javascript", "python",
     "java", "html", "c++", "c#", "css", "php", "homepage", "pricing", "sign", "advanced", "search", "sponsorable"]

  /** A ref that reads as a username link. */
  predicate IsUsername(r: Ref)
  {
    r.role == "link" && r.name != "" && !StartsWith(r.name, "Page") && r.name != "Follow"
    && MatchesAtStart(UsernamePattern, r.name) && |r.name| < 40
    && Lower(r.name) !in StopList
  }

  function Names(users: seq<User>): (r: seq<string>)
    ensures |r| == |users| && forall k :: 0 <= k < |users| ==> r[k] == users[k].username
  {
    seq(|users|, k requires 0 <= k < |users| => users[k].username)
  }

  /** One ref: a username link not yet listed is appended. */
  function Admit(users: seq<User>, r: Ref): seq<User>
  {
    if IsUsername(r) && r.name !in Names(users) then users + [User(r.name, r.id)] else users
  }

  /** The scan from refs on, with users found so far: stop as soon as the list holds maxResults. */
  function Pick(refs: seq<Ref>, maxResults: int, users: seq<User>): seq<User>
    decreases |refs|
  {
    if refs == [] then users
    else
      var next := Admit(users, refs[0]);
      if |next| >= maxResults then next else Pick(refs[1..], maxResults, next)
  }

  /** search_github_users as a value: nothing when the snapshot cannot be parsed. */
  function Usernames(snapshot: Option<seq<Ref>>, maxResults: int): seq<User>
  {
    if snapshot.None? then [] else Pick(snapshot.value, maxResults, [])
  }

  /** The ref loop of search_github_users. */
  method ScanUsernames(snapshot: Option<seq<Ref>>, maxResults: int) returns (users: seq<User>)
    ensures users == Usernames(snapshot, maxResults)
  {
    if snapshot.None? {
      return [];
    }
    var refs := snapshot.value;
    users := [];
    var i := 0;
    while i < |refs|
      invariant 0 <= i <= |refs|
      invariant Pick(refs[i..], maxResults, users) == Pick(refs, maxResults, [])
    {
      ghost var before := users;
      var ref := refs[i];
      if ref.role == "link" && ref.name != "" && !StartsWith(ref.name, "Page") && ref.name != "Follow" {
        if MatchesAtStart(UsernamePattern, ref.name) && |ref.name| < 40 {
          if Lower(ref.name) !in StopList {
            if ref.name !in Names(users) {
              users := users + [User(ref.name, ref.id)];
            }
          }
        }
      }
      assert users == Admit(before, ref);
      if |users| >= maxResults {
        assert Pick(refs[i..], maxResults, before) == users;
        return;
      }
      assert refs[i..][1..] == refs[i + 1..];
      i := i + 1;
    }
  }

  /** search_github_users: build the query and URL, take that page's snapshot, scan it. */
  method SearchGithubUsers(location: string, language: string, minRepos: int, minFollowers: int, maxResults: int,
                           searchOf: string -> Option<seq<Ref>>)
    returns (users: seq<User>)
    ensures users == Usernames(searchOf(SearchUrl(Query(location, language, minRepos, minFollowers))), maxResults)
  {
    var url := SearchUrl(Query(location, language, minRepos, minFollowers));
    users := ScanUsernames(searchOf(url), maxResults);
  }

  /** Every listed user is a username link of the snapshot, under its own ref id. */
  lemma {:induction false} PickFromRefs(refs: seq<Ref>, maxResults: int, users: seq<User>)
    ensures forall u :: u in Pick(refs, maxResults, users) ==>
              u in users || exists r :: r in refs && IsUsername(r) && u == User(r.name, r.id)
    decreases |refs|
  {
    if refs != [] {
      PickFromRefs(refs[1..], maxResults, Admit(users, refs[0]));
      assert forall r :: r in refs[1..] ==> r in refs;
    }
  }

  /** Usernames are never listed twice. */
  lemma {:induction false} PickDistinct(refs: seq<Ref>, maxResults: int, users: seq<User>)
    requires NoDup(Names(users))
    ensures NoDup(Names(Pick(refs, maxResults, users)))
    decreases |refs|
  {
    if refs != [] {
      var next := Admit(users, refs[0]);
      assert NoDup(Names(next)) by {
        if next != users {
          assert Names(next) == Names(users) + [refs[0].name];
        }
      }
      PickDistinct(refs[1..], maxResults, next);
    }
  }

  /** The list only grows by one per ref, and not past maxResults once it starts below it. */
  lemma {:induction false} PickBounded(refs: seq<Ref>, maxResults: int, users: seq<User>)
    ensures |Pick(refs, maxResults, users)| <= |users| + |refs|
    ensures |users| < maxResults ==> |Pick(refs, maxResults, users)| <= maxResults
    decreases |refs|
  {
    if refs != [] {
      PickBounded(refs[1..], maxResults, Admit(users, refs[0]));
    }
  }

  /** A list that ends below maxResults was never cut short: it holds every username link. */
  lemma {:induction false} PickComplete(refs: seq<Ref>, maxResults: int, users: seq<User>)
    requires |Pick(refs, maxResults, users)| < maxResults
    ensures forall r :: r in refs && IsUsername(r) ==> r.name in Names(Pick(refs, maxResults, users))
    ensures forall n :: n in Names(users) ==> n in Names(Pick(refs, maxResults, users))
    decreases |refs|
  {
    if refs != [] {
      var next := Admit(users, refs[0]);
      PickComplete(refs[1..], maxResults, next);
      assert forall n :: n in Names(users) ==> n in Names(next) by {
        if next != users {
          assert Names(next) == Names(users) + [refs[0].name];
        }
      }
      assert IsUsername(refs[0]) ==> refs[0].name in Names(next) by {
        if IsUsername(refs[0]) && refs[0].name !in Names(users) {
          assert Names(next) == Names(users) + [refs[0].name];
        }
      }
      assert forall r :: r in refs ==> r == refs[0] || r in refs[1..];
    }
  }

  /** The result of the search: at most maxResults users (at most one when maxResults is not positive), all distinct username links. */
  lemma UsernamesSound(snapshot: Option<seq<Ref>>, maxResults: int)
    ensures var users := Usernames(snapshot, maxResults);
      NoDup(Names(users)) && |users| <= (if maxResults >= 1 then maxResults else 1)
      && forall u :: u in users ==> exists r :: r in snapshot.value && IsUsername(r) && u == User(r.name, r.id)
  {
    if snapshot.Some? {
      var refs := snapshot.value;
      PickDistinct(refs, maxResults, []);
      PickFromRefs(refs, maxResults, []);
      if maxResults >= 1 {
        PickBounded(refs, maxResults, []);
      } else if refs != [] {
        assert |Admit([], refs[0])| <= 1;
      }
    }
  }

  /** The search page lists "Page 2" and "Follow" links and "python": none of them becomes a user. */
  lemma NavigationIsNotUser(id: string)
    ensures !IsUsername(Ref(id, "Follow", "link")) && !IsUsername(Ref(id, "Page 2", "link"))
    ensures !IsUsername(Ref(id, "Python", "link"))
  {
    assert Lower("Python") == "python";
    assert StopList[8] == "python";
  }

  // ---------------------------------------------------------------- the profile page

  const GithubSite: string := "https://github.com/"

  datatype Profile = Profile(
    username: string, url: string,
    name: Option<string>, bio: Option<string>, location: Option<string>, email: Option<string>,
    company: Option<string>, website: Option<string>, twitter: Option<string>,
    repos: Option<string>, followers: Option<string>)

  /** The profile before anything is read from the page. */
  function Blank(username: string): Profile
  {
    Profile(username, GithubSite + username, None, None, None, None, None, None, None, None, None)
  }

  /** A parsed profile snapshot: the names of its refs in order, and its text. */
  datatype ProfilePage = ProfilePage(names: seq<string>, text: string)

  // (\d+(?:,\d+)*(?:\.\d+)?[kK]?) by hand: every part after the first digits is optional, so
  // the greedy choice at each part is the one the engine keeps.

  /** (?:,\d+)* from i: as many comma-and-digits groups as follow. */
  function CommaGroups(s: string, i: nat): (e: nat)
    requires i <= |s|
    ensures i <= e <= |s|
    ensures forall x :: i <= x < e ==> IsDigit(s[x]) || s[x] == ','
    decreases |s| - i
  {
    if i + 1 < |s| && s[i] == ',' && IsDigit(s[i + 1]) then CommaGroups(s, i + 1 + Run(s, i + 1, Digit)) else i
  }

  /** (?:\.\d+)? from i. */
  function Fraction(s: string, i: nat): (e: nat)
    requires i <= |s|
    ensures i <= e <= |s|
    ensures forall x :: i <= x < e ==> IsDigit(s[x]) || s[x] == '.'
  {
    if i + 1 < |s| && s[i] == '.' && IsDigit(s[i + 1]) then i + 1 + Run(s, i + 1, Digit) else i
  }

  /** [kK]? from i. */
  function KiloSuffix(s: string, i: nat): (e: nat)
    requires i <= |s|
    ensures i <= e <= |s|
    ensures forall x :: i <= x < e ==> s[x] == 'k' || s[x] == 'K'
  {
    if i < |s| && (s[i] == 'k' || s[i] == 'K') then i + 1 else i
  }

  predicate CountChar(c: char)
  {
    IsDigit(c) || c == ',' || c == '.' || c == 'k' || c == 'K'
  }

  /** The first follower count in a name: it starts at the first digit and is a piece of the name. */
  function FollowersOf(s: string): (r: Option<string>)
    ensures r.None? <==> forall k :: 0 <= k < |s| ==> !IsDigit(s[k])
    ensures r.Some? ==> r.value != [] && IsDigit(r.value[0]) && Contains(s, r.value)
    ensures r.Some? ==> forall k :: 0 <= k < |r.value| ==> CountChar(r.value[k])
  {
    var i := SkipFrom(s, c => !IsDigit(c), 0);
    if i == |s| then None
    else
      var a := i + Run(s, i, Digit);
      var e := KiloSuffix(s, Fraction(s, CommaGroups(s, a)));
      assert OccursAt(s, s[i..e], i);
      Some(s[i..e])
  }

  predicate EmailLike(name: string)
  {
    '@' in name && '.' in name
  }

  predicate TwitterLike(name: string)
  {
    Contains(name, "twitter.com") || Contains(name, "x.com")
  }

  /** One ref name: e-mail, else a link (twitter or website), else a follower count; later names overwrite. */
  function Classify(p: Profile, name: string): Profile
  {
    if EmailLike(name) then p.(email := Some(name))
    else if StartsWith(name, "http") then
      if TwitterLike(name) then p.(twitter := Some(name)) else p.(website := Some(name))
    else if Contains(Lower(name), "followers") then
      match FollowersOf(name)
      case Some(n) => p.(followers := Some(n))
      case None => p
    else p
  }

  function ClassifyAll(p: Profile, names: seq<string>): Profile
    decreases |names|
  {
    if names == [] then p else Classify(ClassifyAll(p, names[..|names| - 1]), names[|names| - 1])
  }

  // What each field takes from a single name, in the order the branches test them.
  function EmailName(n: string): Option<string> { if EmailLike(n) then Some(n) else None }
  function TwitterName(n: string): Option<string>
  {
    if !EmailLike(n) && StartsWith(n, "http") && TwitterLike(n) then Some(n) else None
  }
  function WebsiteName(n: string): Option<string>
  {
    if !EmailLike(n) && StartsWith(n, "http") && !TwitterLike(n) then Some(n) else None
  }
  function FollowersName(n: string): Option<string>
  {
    if !EmailLike(n) && !StartsWith(n, "http") && Contains(Lower(n), "followers") then FollowersOf(n) else None
  }

  /** One name touches at most one of the four fields, the one its branch names. */
  lemma ClassifyFields(p: Profile, n: string)
    ensures var q := Classify(p, n);
      q.email == (if EmailName(n).Some? then EmailName(n) else p.email)
      && q.twitter == (if TwitterName(n).Some? then TwitterName(n) else p.twitter)
      && q.website == (if WebsiteName(n).Some? then WebsiteName(n) else p.website)
      && q.followers == (if FollowersName(n).Some? then FollowersName(n) else p.followers)
      && q.(email := p.email, twitter := p.twitter, website := p.website, followers := p.followers) == p
  {
  }

  /** Each field the ref names fill holds what the last name qualifying for it gives; the rest stay as they were. */
  lemma {:induction false} ClassifyAllLast(p: Profile, names: seq<string>)
    requires p.email.None? && p.twitter.None? && p.website.None? && p.followers.None?
    ensures var q := ClassifyAll(p, names);
      q.email == LastSome(names, EmailName) && q.twitter == LastSome(names, TwitterName)
      && q.website == LastSome(names, WebsiteName) && q.followers == LastSome(names, FollowersName)
      && q.(email := None, twitter := None, website := None, followers := None) == p
    decreases |names|
  {
    if names != [] {
      var n := |names| - 1;
      ClassifyAllLast(p, names[..n]);
      ClassifyFields(ClassifyAll(p, names[..n]), names[n]);
    }
  }

  /** "https://box.com" holds "x.com", so it is filed as twitter, not as the website. */
  lemma BoxComIsTwitter()
    ensures TwitterName("https://box.com") == Some("https://box.com")
    ensures WebsiteName("https://box.com").None?
  {
    assert OccursAt("https://box.com", "x.com", 10);
    assert !EmailLike("https://box.com") by {
      assert forall k :: 0 <= k < |"https://box.com"| ==> "https://box.com"[k] != '@';
    }
  }

  const QuotePattern: seq<Atom> := [Lit("\""), Plus(Not(Chars("\""))), Lit("\"")]

  /** What a capture of [^"]+ right after a quote says: a non-empty, quote-free text standing after a quote. */
  lemma QuotedFacts(p: seq<Atom>, line: string, r: Option<string>)
    requires |p| == 3 && p[0] == Lit("\"") && p[1] == Plus(Not(Chars("\""))) && r == Capture(p, line, 1)
    ensures r.Some? ==> r.value != [] && '"' !in r.value && Contains(line, "\"" + r.value)
  {
    if r.Some? {
      var v := r.value;
      forall c | c in v ensures c != '"' {
        assert !In(c, Chars("\""));
      }
      CaptureAfterLit(p, line, 1, "\"");
    }
  }

  /** "([^"]+)": the first non-empty quoted text of a line. */
  function QuotedOf(line: string): (r: Option<string>)
    ensures r.Some? <==> Found(QuotePattern, line)
    ensures r.Some? ==> r.value != [] && '"' !in r.value && Contains(line, "\"" + r.value)
  {
    var r := Capture(QuotePattern, line, 1);
    QuotedFacts(QuotePattern, line, r);
    r
  }

  /** A line's location: its quoted text, when it mentions "location" in any case. */
  function LocationOf(line: string): (r: Option<string>)
    ensures r.Some? ==> Contains(Lower(line), "location") && r == QuotedOf(line)
    ensures Contains(Lower(line), "location") ==> r == QuotedOf(line)
    ensures !Contains(Lower(line), "location") ==> r.None?
  {
    if Contains(Lower(line), "location") then QuotedOf(line) else None
  }

  /** get_user_profile as a value: the blank profile when the page cannot be parsed. */
  function ProfileOf(username: string, page: Option<ProfilePage>): (p: Profile)
    ensures p.username == username && p.url == GithubSite + username
    ensures p.name.None? && p.bio.None? && p.company.None? && p.repos.None?
  {
    if page.None? then Blank(username)
    else
      ClassifyAllLast(Blank(username), page.value.names);
      ClassifyAll(Blank(username), page.value.names).(location := FirstSome(Split(page.value.text, '\n'), LocationOf))
  }

  /** get_user_profile: classify each ref name, then take the location from the first line that gives one. */
  method GetUserProfile(username: string, page: Option<ProfilePage>) returns (p: Profile)
    ensures p == ProfileOf(username, page)
  {
    p := Blank(username);
    if page.None? {
      return;
    }
    var names := page.value.names;
    for i := 0 to |names|
      invariant p == ClassifyAll(Blank(username), names[..i])
    {
      var name := names[i];
      if '@' in name && '.' in name {
        p := p.(email := Some(name));
      } else if StartsWith(name, "http") {
        if Contains(name, "twitter.com") || Contains(name, "x.com") {
          p := p.(twitter := Some(name));
        } else {
          p := p.(website := Some(name));
        }
      } else if Contains(Lower(name), "followers") {
        var m := FollowersOf(name);
        if m.Some? {
          p := p.(followers := m);
        }
      }
      assert names[..i + 1][..i] == names[..i];
    }
    assert names[..|names|] == names;
    ghost var classified := p;
    ClassifyAllLast(Blank(username), names);
    var lines := Split(page.value.text, '\n');
    for i := 0 to |lines|
      invariant p == classified.(location := FirstSome(lines[..i], LocationOf))
    {
      if Contains(Lower(lines[i]), "location") && p.location.None? {
        var m := QuotedOf(lines[i]);
        if m.Some? {
          p := p.(location := m);
        }
      }
      assert lines[..i + 1][..i] == lines[..i];
    }
    assert lines[..|lines|] == lines;
  }

  // ---------------------------------------------------------------- search and extract

  /** A result: the full profile, or only the username and profile URL. */
  datatype Outcome = Detailed(profile: Profile) | Brief(username: string, url: string)

  /** The outcome for one user. */
  function OutcomeOf(u: User, getDetails: bool, pageOf: string -> Option<ProfilePage>): Outcome
  {
    if getDetails then Detailed(ProfileOf(u.username, pageOf(u.username))) else Brief(u.username, GithubSite + u.username)
  }

  /** search_and_extract: search, then one outcome per user found, in order. */
  method SearchAndExtract(location: string, language: string, minRepos: int, minFollowers: int, maxResults: int,
                          getDetails: bool, searchOf: string -> Option<seq<Ref>>, pageOf: string -> Option<ProfilePage>)
    returns (results: seq<Outcome>)
    ensures var users := Usernames(searchOf(SearchUrl(Query(location, language, minRepos, minFollowers))), maxResults);
      |results| == |users| && forall i :: 0 <= i < |users| ==> results[i] == OutcomeOf(users[i], getDetails, pageOf)
  {
    var users := SearchGithubUsers(location, language, minRepos, minFollowers, maxResults, searchOf);
    if users == [] {
      return [];
    }
    results := [];
    if getDetails {
      for i := 0 to |users|
        invariant |results| == i
        invariant forall j :: 0 <= j < i ==> results[j] == OutcomeOf(users[j], getDetails, pageOf)
      {
        var profile := GetUserProfile(users[i].username, pageOf(users[i].username));
        results := results + [Detailed(profile)];
      }
    } else {
      results := seq(|users|, i requires 0 <= i < |users| => Brief(users[i].username, GithubSite + users[i].username));
    }
  }
}
