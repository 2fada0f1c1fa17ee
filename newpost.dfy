/** Post scaffolding (scripts/new-post.py): the slug, the metadata template and the file guards. */
module NewPost {
  import opened Text

  // ---- slugify ----

  /** The characters the first substitution keeps: `[\w\s-]`. */
  predicate Kept(c: char) {
    IsWordChar(c) || IsPySpace(c) || c == '-'
  }

  /** The characters the second substitution collapses: `[-\s]`. */
  predicate IsSeparator(c: char) {
    c == '-' || IsPySpace(c)
  }

  /** A lower-case word character. */
  predicate IsLowerWordChar(c: char) {
    'a' <= c <= 'z' || '0' <= c <= '9' || c == '_'
  }

  /** A character a slug may contain: a lower-case word character or a hyphen. */
  predicate IsSlugChar(c: char) {
    IsLowerWordChar(c) || c == '-'
  }

  /** Never two hyphens in a row. */
  predicate NoDoubleHyphen(s: string) {
    forall i, j :: 0 <= i < |s| && j == i + 1 && j < |s| ==> !(s[i] == '-' && s[j] == '-')
  }

  /** Slug shape: slug characters only, and never two hyphens in a row. */
  predicate IsSlug(s: string) {
    (forall i :: 0 <= i < |s| ==> IsSlugChar(s[i])) && NoDoubleHyphen(s)
  }

  /** `re.sub(r'[^\w\s-]', '', text)`: deletes every other character, keeping the order. */
  function StripSpecial(s: string): (r: string)
    ensures |r| <= |s|
    ensures forall i :: 0 <= i < |r| ==> Kept(r[i])
    ensures (forall i :: 0 <= i < |s| ==> Kept(s[i])) ==> r == s
  {
    if s == [] then []
    else (if Kept(s[0]) then [s[0]] else []) + StripSpecial(s[1..])
  }

  /** Drops a leading run of separators. */
  function DropSeparators(s: string): (r: string)
    ensures |r| <= |s| && r == s[|s| - |r|..]
    ensures r == [] || !IsSeparator(r[0])
  {
    if s != [] && IsSeparator(s[0]) then DropSeparators(s[1..]) else s
  }

  /**
   * `re.sub(r'[-\s]+', '-', s)`: each maximal run of separators becomes one hyphen; every
   * other character is copied. The result starts with a hyphen iff the input starts with
   * a separator, and never has two hyphens in a row.
   */
  function CollapseSeparators(s: string): (r: string)
    decreases |s|
    ensures (r == []) <==> (s == [])
    ensures (r != [] && r[0] == '-') <==> (s != [] && IsSeparator(s[0]))
    ensures NoDoubleHyphen(r)
  {
    if s == [] then []
    else if IsSeparator(s[0]) then "-" + CollapseSeparators(DropSeparators(s[1..]))
    else [s[0]] + CollapseSeparators(s[1..])
  }

  /**
   * Collapsing introduces no character but the hyphen: when every character of the input
   * is a separator or satisfies `ok`, every character of the result is a hyphen or a
   * non-separator satisfying `ok`.
   */
  lemma {:induction false} CollapseKeepsChars(s: string, ok: char -> bool)
    requires forall i :: 0 <= i < |s| ==> ok(s[i]) || IsSeparator(s[i])
    ensures forall i :: 0 <= i < |CollapseSeparators(s)| ==>
              CollapseSeparators(s)[i] == '-' || (ok(CollapseSeparators(s)[i]) && !IsSeparator(CollapseSeparators(s)[i]))
    decreases |s|
  {
    if s != [] {
      if IsSeparator(s[0]) {
        var rest := DropSeparators(s[1..]);
        assert forall i :: 0 <= i < |rest| ==> rest[i] == s[|s| - |rest| + i];
        CollapseKeepsChars(rest, ok);
      } else {
        assert forall i :: 0 <= i < |s| - 1 ==> s[1..][i] == s[i + 1];
        CollapseKeepsChars(s[1..], ok);
      }
    }
  }

  /** A kept character lower-cases to a lower-case word character or a separator. */
  lemma LowerKept(c: char)
    requires Kept(c)
    ensures IsLowerWordChar(LowerChar(c)) || IsSeparator(LowerChar(c))
  {
  }

  /** Lower-casing kept characters gives lower-case word characters and separators. */
  lemma LowerKeptString(t: string)
    requires forall i :: 0 <= i < |t| ==> Kept(t[i])
    ensures forall i :: 0 <= i < |Lower(t)| ==> IsLowerWordChar(Lower(t)[i]) || IsSeparator(Lower(t)[i])
  {
    forall i | 0 <= i < |t|
      ensures IsLowerWordChar(Lower(t)[i]) || IsSeparator(Lower(t)[i])
    {
      LowerKept(t[i]);
    }
  }

  /** Collapsing a string of lower-case word characters and separators gives a slug. */
  lemma CollapseGivesSlug(l: string)
    requires forall i :: 0 <= i < |l| ==> IsLowerWordChar(l[i]) || IsSeparator(l[i])
    ensures IsSlug(CollapseSeparators(l))
  {
    CollapseKeepsChars(l, IsLowerWordChar);
  }

  /** `slugify`. */
  function Slugify(text: string): (slug: string)
    ensures IsSlug(slug)
    ensures forall i :: 0 <= i < |slug| ==> !IsPySpace(slug[i])
  {
    var kept := StripSpecial(text);
    var trimmed := Trim(kept, Python);
    TrimKeepsClass(kept, Python, Kept);
    var lowered := Lower(trimmed);
    LowerKeptString(trimmed);
    CollapseGivesSlug(lowered);
    CollapseSeparators(lowered)
  }

  /** A string with no two separators in a row and no whitespace collapses to itself. */
  lemma {:induction false} CollapseFixesSlugs(s: string)
    requires forall i :: 0 <= i < |s| ==> !IsPySpace(s[i])
    requires NoDoubleHyphen(s)
    ensures CollapseSeparators(s) == s
    decreases |s|
  {
    if s != [] {
      if IsSeparator(s[0]) {
        assert s[0] == '-';
        assert DropSeparators(s[1..]) == s[1..];
      }
      CollapseFixesSlugs(s[1..]);
    }
  }

  /** `slugify` leaves a slug as it is. */
  lemma SlugifyFixesSlugs(s: string)
    requires IsSlug(s)
    ensures Slugify(s) == s
  {
    assert forall i :: 0 <= i < |s| ==> Kept(s[i]) && !IsPySpace(s[i]) by {
      forall i | 0 <= i < |s|
        ensures Kept(s[i]) && !IsPySpace(s[i])
      {
        assert IsSlugChar(s[i]);
      }
    }
    var kept := StripSpecial(s);
    assert kept == s;
    TrimNoSpace(s, Python);
    var trimmed := Trim(kept, Python);
    assert trimmed == s;
    LowerFixesSlugs(s);
    CollapseFixesSlugs(s);
    assert Slugify(s) == CollapseSeparators(Lower(trimmed));
  }

  /** Lower-casing leaves slug characters alone. */
  lemma LowerFixesSlugs(s: string)
    requires forall i :: 0 <= i < |s| ==> IsSlugChar(s[i])
    ensures Lower(s) == s
  {
    assert forall i :: 0 <= i < |s| ==> Lower(s)[i] == s[i];
  }

  /** `slugify` is idempotent. */
  lemma SlugifyIdempotent(text: string)
    ensures Slugify(Slugify(text)) == Slugify(text)
  {
    SlugifyFixesSlugs(Slugify(text));
  }

  /** Deleting characters works piecewise. */
  lemma {:induction false} StripSpecialAppend(a: string, b: string)
    ensures StripSpecial(a + b) == StripSpecial(a) + StripSpecial(b)
    decreases |a|
  {
    if a == [] {
      assert a + b == b;
    } else {
      assert (a + b)[1..] == a[1..] + b;
      StripSpecialAppend(a[1..], b);
    }
  }

  /** A separator-free prefix is copied unchanged. */
  lemma {:induction false} CollapseAppend(a: string, b: string)
    requires forall i :: 0 <= i < |a| ==> !IsSeparator(a[i])
    ensures CollapseSeparators(a + b) == a + CollapseSeparators(b)
    decreases |a|
  {
    if a == [] {
      assert a + b == b;
    } else {
      assert (a + b)[0] == a[0] && (a + b)[1..] == a[1..] + b;
      assert CollapseSeparators(a + b) == [a[0]] + CollapseSeparators(a[1..] + b);
      CollapseAppend(a[1..], b);
      assert a == [a[0]] + a[1..];
    }
  }

  /** Lower-casing works piecewise. */
  lemma LowerAppend(a: string, b: string)
    ensures Lower(a + b) == Lower(a) + Lower(b)
  {
    assert forall i :: 0 <= i < |a + b| ==> Lower(a + b)[i] == (Lower(a) + Lower(b))[i];
  }

  /** A space, then a separator-free word: one hyphen, then the word. */
  lemma CollapseSpaceWord(w: string, rest: string)
    requires w != []
    requires forall i :: 0 <= i < |w| ==> !IsSeparator(w[i])
    ensures CollapseSeparators(" " + w + rest) == "-" + w + CollapseSeparators(rest)
  {
    var t := " " + w + rest;
    assert t[0] == ' ' && t[1..] == w + rest;
    assert (w + rest)[0] == w[0];
    assert DropSeparators(w + rest) == w + rest;
    CollapseAppend(w, rest);
  }

  /** Three separator-free words joined by single spaces collapse to hyphenated words. */
  lemma CollapseThreeWords(w1: string, w2: string, w3: string)
    requires w2 != [] && w3 != []
    requires forall i :: 0 <= i < |w1| ==> !IsSeparator(w1[i])
    requires forall i :: 0 <= i < |w2| ==> !IsSeparator(w2[i])
    requires forall i :: 0 <= i < |w3| ==> !IsSeparator(w3[i])
    ensures CollapseSeparators(w1 + (" " + w2 + (" " + w3))) == w1 + ("-" + w2 + ("-" + w3))
  {
    var t3 := " " + w3;
    CollapseSpaceWord(w3, []);
    assert " " + w3 + [] == t3;
    assert CollapseSeparators([]) == [];
    assert CollapseSeparators(t3) == "-" + w3;
    var t2 := " " + w2 + t3;
    CollapseSpaceWord(w2, t3);
    assert CollapseSeparators(t2) == "-" + w2 + ("-" + w3);
    CollapseAppend(w1, t2);
  }

  /** Deleting characters from five pieces. */
  lemma StripSpecialFive(a: string, b: string, c: string, d: string, e: string)
    ensures StripSpecial(a + b + c + d + e)
            == StripSpecial(a) + StripSpecial(b) + StripSpecial(c) + StripSpecial(d) + StripSpecial(e)
  {
    StripSpecialAppend(a + b + c + d, e);
    StripSpecialAppend(a + b + c, d);
    StripSpecialAppend(a + b, c);
    StripSpecialAppend(a, b);
  }

  lemma StripHello()
    ensures StripSpecial("Hello") == "Hello"
  {
  }

  lemma StripWorld()
    ensures StripSpecial(" World") == " World"
  {
  }

  lemma StripYear()
    ensures StripSpecial(" 2024") == " 2024"
  {
  }

  lemma StripPunctuation()
    ensures StripSpecial(",") == [] && StripSpecial("!") == []
  {
  }

  lemma ExamplePieces()
    ensures "Hello, World! 2024" == "Hello" + "," + " World" + "!" + " 2024"
    ensures "Hello" + [] + " World" + [] + " 2024" == "Hello World 2024"
  {
  }

  lemma StripSpecialExample()
    ensures StripSpecial("Hello, World! 2024") == "Hello World 2024"
  {
    ExamplePieces();
    StripSpecialFive("Hello", ",", " World", "!", " 2024");
    StripHello();
    StripWorld();
    StripYear();
    StripPunctuation();
  }

  lemma TrimExample()
    ensures Trim("Hello World 2024", Python) == "Hello World 2024"
  {
    assert TrimStart("Hello World 2024", Python) == "Hello World 2024";
  }

  lemma LowerExample()
    ensures Lower("Hello World 2024") == "hello world 2024"
  {
    assert "Hello World 2024" == "Hello" + " World" + " 2024";
    LowerHello();
    LowerWorld();
    LowerYear();
    LowerThree("Hello", " World", " 2024", "hello", " world", " 2024");
    assert "hello" + " world" + " 2024" == "hello world 2024";
  }

  /** Lower-casing three pieces one at a time. */
  lemma LowerThree(a: string, b: string, c: string, la: string, lb: string, lc: string)
    requires Lower(a) == la && Lower(b) == lb && Lower(c) == lc
    ensures Lower(a + b + c) == la + lb + lc
  {
    LowerAppend(a + b, c);
    LowerAppend(a, b);
  }

  lemma LowerHello()
    ensures Lower("Hello") == "hello"
  {
    var r := Lower("Hello");
    assert r[0] == LowerChar('H') == 'h';
  }

  lemma LowerWorld()
    ensures Lower(" World") == " world"
  {
    var r := Lower(" World");
    assert r[1] == LowerChar('W') == 'w';
  }

  lemma LowerYear()
    ensures Lower(" 2024") == " 2024"
  {
    var r := Lower(" 2024");
    assert forall i :: 0 <= i < |r| ==> r[i] == " 2024"[i];
  }

  lemma CollapseExample()
    ensures CollapseSeparators("hello world 2024") == "hello-world-2024"
  {
    assert "hello world 2024" == "hello" + (" " + "world" + (" " + "2024"));
    CollapseThreeWords("hello", "world", "2024");
    assert "hello" + ("-" + "world" + ("-" + "2024")) == "hello-world-2024";
  }

  /** The worked example from the script's own usage. */
  lemma SlugifyExample()
    ensures Slugify("Hello, World! 2024") == "hello-world-2024"
  {
    StripSpecialExample();
    TrimExample();
    LowerExample();
    CollapseExample();
  }

  // ---- the post template ----

  /** The moment the post is created: its year and its `%Y-%m-%d %H:%M` stamp. */
  datatype Timestamp = Timestamp(year: nat, stamp: string)

  const AuthorAndSummary := "\nAuthor: Bryan Howard\nSummary: Brief description of the post content\n"
  const StatusDraft := "Status: draft"
  const Body := "\n\nWrite your post content here...\n\n## Section Example\n\nContent goes here.\n\n---\n\n*End of post*\n"

  /** The metadata header and placeholder body of a new post. */
  function Template(title: string, now: Timestamp): (t: string)
    ensures Contains(t, "Title: " + title)
    ensures Contains(t, "Slug: " + Slugify(title))
    ensures Contains(t, StatusDraft)
  {
    var titleLine := "Title: " + title;
    var slugLine := "Slug: " + Slugify(title);
    var meta := "\nDate: " + now.stamp + "\nCategory: General\nTags: \n";
    var heading := "\n\n# " + title;
    ContainsEnd([], titleLine);
    assert [] + titleLine == titleLine;
    ContainsExtend(titleLine, meta, titleLine);
    ContainsExtend(titleLine + meta, slugLine, titleLine);
    ContainsMiddle(titleLine + meta, slugLine, AuthorAndSummary);
    ContainsExtend(titleLine + meta + slugLine, AuthorAndSummary, titleLine);
    ContainsExtend(titleLine + meta + slugLine + AuthorAndSummary, StatusDraft, titleLine);
    ContainsExtend(titleLine + meta + slugLine + AuthorAndSummary, StatusDraft, slugLine);
    ContainsEnd(titleLine + meta + slugLine + AuthorAndSummary, StatusDraft);
    var t := titleLine + meta + slugLine + AuthorAndSummary + StatusDraft;
    ContainsExtend(t, heading, titleLine);
    ContainsExtend(t, heading, slugLine);
    ContainsExtend(t, heading, StatusDraft);
    ContainsExtend(t + heading, Body, titleLine);
    ContainsExtend(t + heading, Body, slugLine);
    ContainsExtend(t + heading, Body, StatusDraft);
    t + heading + Body
  }

  /** The directory the post goes in: `content/blog/<year>`. */
  function YearDir(now: Timestamp): string {
    "content/blog/" + NatToString(now.year)
  }

  /** The post file: `<year dir>/<slug>.md`. */
  function PostPath(title: string, now: Timestamp): string {
    YearDir(now) + "/" + Slugify(title) + ".md"
  }

  // ---- create_blog_post ----

  /** How `create_blog_post` ends: a file written, or one of its errors (exit 1). */
  datatype Outcome = Created(path: string) | MissingTitle | MkdirFailed | AlreadyExists(path: string)

  /** The directories `mkdir(parents=True, exist_ok=True)` makes for the year directory. */
  function PostDirs(now: Timestamp): set<string> {
    {"content", "content/blog", YearDir(now)}
  }

  /** One of those directories is a file: `mkdir` raises and the script ends with a traceback. */
  predicate MkdirBlocked(files: map<string, string>, now: Timestamp) {
    "content" in files || "content/blog" in files || YearDir(now) in files
  }

  /** `post_file.exists()` once the directories are made: a file or a directory at the post path. */
  predicate PathTaken(title: string, now: Timestamp, files: map<string, string>, dirs: set<string>) {
    PostPath(title, now) in files || PostPath(title, now) in dirs + PostDirs(now)
  }

  /** The content tree: file contents by path, and the directories that exist. */
  class ContentStore {
    var files: map<string, string>
    var dirs: set<string>

    constructor (files: map<string, string>, dirs: set<string>)
      ensures this.files == files && this.dirs == dirs
    {
      this.files := files;
      this.dirs := dirs;
    }

    /**
     * `create_blog_post`: an empty title is refused before anything happens; the year
     * directory is made next, which fails when a file is in the way; an existing post
     * file (or directory) is refused and left untouched.
     */
    method CreateBlogPost(title: string, now: Timestamp) returns (outcome: Outcome)
      modifies this
      ensures title == "" ==> outcome == MissingTitle && files == old(files) && dirs == old(dirs)
      ensures title != "" && MkdirBlocked(old(files), now) ==>
                outcome == MkdirFailed && files == old(files) && dirs == old(dirs)
      ensures title != "" && !MkdirBlocked(old(files), now) ==> dirs == old(dirs) + PostDirs(now)
      ensures title != "" && !MkdirBlocked(old(files), now) && PathTaken(title, now, old(files), old(dirs)) ==>
                outcome == AlreadyExists(PostPath(title, now)) && files == old(files)
      ensures title != "" && !MkdirBlocked(old(files), now) && !PathTaken(title, now, old(files), old(dirs)) ==>
                outcome == Created(PostPath(title, now))
                && files == old(files)[PostPath(title, now) := Template(title, now)]
    {
      if title == "" {
        return MissingTitle;
      }
      var slug := Slugify(title);
      var yearDir := "content/blog/" + NatToString(now.year);
      if "content" in files || "content/blog" in files || yearDir in files {
        return MkdirFailed;
      }
      dirs := dirs + {"content", "content/blog", yearDir};
      var postFile := yearDir + "/" + slug + ".md";
      if postFile in files || postFile in dirs {
        return AlreadyExists(postFile);
      }
      files := files[postFile := Template(title, now)];
      return Created(postFile);
    }

    /** The command line: exactly one argument (the title), exit status 0 only on success. */
    method Run(args: seq<string>, now: Timestamp) returns (code: int)
      modifies this
      ensures |args| != 2 ==> code == 1 && files == old(files) && dirs == old(dirs)
      ensures code == 0 || code == 1
      ensures code == 0 <==> |args| == 2 && args[1] != "" && !MkdirBlocked(old(files), now)
                             && !PathTaken(args[1], now, old(files), old(dirs))
      ensures code == 0 ==> files == old(files)[PostPath(args[1], now) := Template(args[1], now)]
      ensures code == 1 ==> files == old(files)
    {
      if |args| != 2 {
        return 1;
      }
      var outcome := CreateBlogPost(args[1], now);
      code := if outcome.Created? then 0 else 1;
    }
  }
}
