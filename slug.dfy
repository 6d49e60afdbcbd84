/** Slug derivation of the client sync layer:
    `title.toLowerCase().replace(/[^a-z0-9]+/g, '-').replace(/^-|-$/g, '')`,
    with `'new-project-' + Date.now()` (or `'new-post-' + …`) standing in for
    an empty title. */
module Slug {
  import opened Text

  predicate IsSlugChar(c: char) { ('a' <= c <= 'z') || ('0' <= c <= '9') }

  predicate SlugAlphabet(s: string) {
    forall i :: 0 <= i < |s| ==> IsSlugChar(s[i]) || s[i] == '-'
  }

  predicate DashPairAt(s: string, i: nat)
    requires i + 1 < |s|
  {
    s[i] == '-' && s[i + 1] == '-'
  }

  predicate NoDoubleDash(s: string) {
    forall i: nat :: i + 1 < |s| ==> !DashPairAt(s, i)
  }

  lemma NoDoubleDashSlice(s: string, a: nat, b: nat)
    requires NoDoubleDash(s) && a <= b <= |s|
    ensures NoDoubleDash(s[a..b])
  {
    forall i: nat | i + 1 < b - a
      ensures !DashPairAt(s[a..b], i)
    {
      assert !DashPairAt(s, a + i);
    }
  }

  lemma NoDoubleDashCons(c: char, r: string)
    requires NoDoubleDash(r) && (c == '-' ==> r == [] || r[0] != '-')
    ensures NoDoubleDash([c] + r)
  {
    var s := [c] + r;
    forall i: nat | i + 1 < |s|
      ensures !DashPairAt(s, i)
    {
      if i > 0 {
        assert !DashPairAt(r, i - 1);
      }
    }
  }

  /** What a slug looks like: lower-case letters, digits and single '-'
      separators, never at either end. */
  predicate IsSlug(s: string) {
    SlugAlphabet(s) && NoDoubleDash(s) && (s != [] ==> s[0] != '-' && s[|s| - 1] != '-')
  }

  /** The letters and digits of a string, in order. */
  function Letters(s: string): string {
    if s == [] then [] else (if IsSlugChar(s[0]) then [s[0]] else []) + Letters(s[1..])
  }

  /** Drops the rest of a run of characters outside `[a-z0-9]`. */
  function SkipRun(s: string): (r: string)
    ensures |r| <= |s| && r == s[|s| - |r|..]
    ensures r == [] || IsSlugChar(r[0])
  {
    if s == [] || IsSlugChar(s[0]) then s else SkipRun(s[1..])
  }

  /** `replace(/[^a-z0-9]+/g, '-')`: every maximal run of other characters
      becomes one '-'. */
  function Collapse(s: string): (r: string)
    ensures SlugAlphabet(r) && NoDoubleDash(r)
    ensures (r == []) == (s == [])
    ensures r != [] ==> (r[0] == '-' <==> !IsSlugChar(s[0]))
    decreases |s|
  {
    if s == [] then []
    else if IsSlugChar(s[0]) then
      NoDoubleDashCons(s[0], Collapse(s[1..]));
      [s[0]] + Collapse(s[1..])
    else
      NoDoubleDashCons('-', Collapse(SkipRun(s[1..])));
      "-" + Collapse(SkipRun(s[1..]))
  }

  /** `replace(/^-|-$/g, '')`: one leading and one trailing '-' go. */
  function TrimDashes(s: string): (r: string)
    ensures SlugAlphabet(s) && NoDoubleDash(s) ==> IsSlug(r)
  {
    var a := if |s| > 0 && s[0] == '-' then s[1..] else s;
    var r := if |a| > 0 && a[|a| - 1] == '-' then a[..|a| - 1] else a;
    if SlugAlphabet(s) && NoDoubleDash(s) then
      NoDoubleDashSlice(s, |s| - |a|, |s| - |a| + |r|);
      assert |s| > 1 ==> !DashPairAt(s, 0) && !DashPairAt(s, |s| - 2);
      assert r == s[|s| - |a|..|s| - |a| + |r|];
      r
    else r
  }

  /** The slug of a title. */
  function Slugify(title: string): (r: string)
    ensures IsSlug(r)
  {
    TrimDashes(Collapse(JsLower(title)))
  }

  /** The slug the writer sends: the title's, or that of the placeholder
      `fallback + Date.now()` when the title is empty. */
  function SlugFor(title: string, fallback: string, now: nat): string {
    Slugify(if title != "" then title else fallback + NatToString(now))
  }

  lemma {:induction false} LettersConcat(a: string, b: string)
    ensures Letters(a + b) == Letters(a) + Letters(b)
  {
    if a == [] {
      assert a + b == b;
    } else {
      assert (a + b)[0] == a[0] && (a + b)[1..] == a[1..] + b;
      LettersConcat(a[1..], b);
    }
  }

  lemma {:induction false} LettersOfSkipRun(s: string)
    ensures Letters(SkipRun(s)) == Letters(s)
  {
    if s != [] && !IsSlugChar(s[0]) {
      LettersOfSkipRun(s[1..]);
    }
  }

  lemma {:induction false} LettersOfCollapse(s: string)
    ensures Letters(Collapse(s)) == Letters(s)
    decreases |s|
  {
    if s != [] {
      if IsSlugChar(s[0]) {
        LettersConcat([s[0]], Collapse(s[1..]));
        LettersOfCollapse(s[1..]);
      } else {
        LettersConcat("-", Collapse(SkipRun(s[1..])));
        LettersOfCollapse(SkipRun(s[1..]));
        LettersOfSkipRun(s[1..]);
      }
    }
  }

  lemma LettersOfTrimDashes(s: string)
    ensures Letters(TrimDashes(s)) == Letters(s)
  {
    var a := if |s| > 0 && s[0] == '-' then s[1..] else s;
    if |s| > 0 && s[0] == '-' {
      assert s == "-" + s[1..];
      LettersConcat("-", s[1..]);
    }
    if |a| > 0 && a[|a| - 1] == '-' {
      assert a == a[..|a| - 1] + "-";
      LettersConcat(a[..|a| - 1], "-");
    }
  }

  /** The slug keeps exactly the title's letters and digits, lower-cased and
      in order: only separators are added or dropped. */
  lemma SlugKeepsLettersAndDigits(title: string)
    ensures Letters(Slugify(title)) == Letters(JsLower(title))
  {
    LettersOfTrimDashes(Collapse(JsLower(title)));
    LettersOfCollapse(JsLower(title));
  }

  /** A string already in slug shape passes through the run replacement
      unchanged. */
  lemma {:induction false} CollapseKeepsSlugShape(s: string)
    requires SlugAlphabet(s) && NoDoubleDash(s)
    ensures Collapse(s) == s
    decreases |s|
  {
    if s != [] {
      if IsSlugChar(s[0]) {
        NoDoubleDashSlice(s, 1, |s|);
        assert s[1..|s|] == s[1..];
        CollapseKeepsSlugShape(s[1..]);
        assert s == [s[0]] + s[1..];
      } else {
        assert |s| > 1 ==> !DashPairAt(s, 0);
        assert SkipRun(s[1..]) == s[1..];
        NoDoubleDashSlice(s, 1, |s|);
        assert s[1..|s|] == s[1..];
        CollapseKeepsSlugShape(s[1..]);
        assert s == "-" + s[1..];
      }
    }
  }

  lemma {:induction false} JsLowerKeepsSlugAlphabet(s: string)
    requires SlugAlphabet(s)
    ensures JsLower(s) == s
  {
    if s != [] {
      JsLowerKeepsSlugAlphabet(s[1..]);
      assert s == [s[0]] + s[1..];
    }
  }

  /** Deriving a slug from a slug changes nothing. */
  lemma SlugifyIdempotent(title: string)
    ensures Slugify(Slugify(title)) == Slugify(title)
  {
    var u := Slugify(title);
    JsLowerKeepsSlugAlphabet(u);
    CollapseKeepsSlugShape(u);
  }

  /** A title has the empty slug exactly when its lower case has no letters
      or digits. */
  lemma EmptySlugIffNoLetters(title: string)
    ensures Slugify(title) == "" <==> Letters(JsLower(title)) == ""
  {
    var u := Slugify(title);
    SlugKeepsLettersAndDigits(title);
    if u != "" {
      assert IsSlugChar(u[0]);
      assert Letters(u) == [u[0]] + Letters(u[1..]);
    }
  }

  /** U+0130 lower-cases to "i" and a combining dot, which the slug keeps
      apart from the rest of the word: "\U{130}stanbul" gives "i-stanbul". */
  lemma DottedCapitalISlug(word: string)
    requires word != "" && IsSlug(word)
    ensures Slugify("\U{130}" + word) == "i-" + word
  {
    DottedCapitalILower(word);
    DottedCapitalICollapse(word);
    var c := "i-" + word;
    assert c[0] == 'i' && c[|c| - 1] == word[|word| - 1];
  }

  lemma DottedCapitalILower(word: string)
    requires SlugAlphabet(word)
    ensures JsLower("\U{130}" + word) == "i\U{307}" + word
  {
    var t := "\U{130}" + word;
    assert t[0] == '\U{130}' && t[1..] == word;
    JsLowerKeepsSlugAlphabet(word);
  }

  lemma DottedCapitalICollapse(word: string)
    requires word != "" && IsSlug(word)
    ensures Collapse("i\U{307}" + word) == "i-" + word
  {
    var l := "i\U{307}" + word;
    assert l[0] == 'i' && l[1..] == "\U{307}" + word;
    assert ("\U{307}" + word)[1..] == word;
    assert SkipRun(word) == word by {
      assert IsSlugChar(word[0]);
    }
    CollapseKeepsSlugShape(word);
  }

  /** The Kelvin sign lower-cases to the letter k. */
  lemma KelvinSignSlug()
    ensures Slugify("\U{212A}") == "k"
  {
  }

  lemma SlugShapeConcat(a: string, b: string)
    requires SlugAlphabet(a) && NoDoubleDash(a) && SlugAlphabet(b) && NoDoubleDash(b)
    requires a == [] || b == [] || a[|a| - 1] != '-' || b[0] != '-'
    ensures SlugAlphabet(a + b) && NoDoubleDash(a + b)
  {
    var s := a + b;
    forall i | 0 <= i < |s|
      ensures IsSlugChar(s[i]) || s[i] == '-'
    {
      if i >= |a| {
        assert s[i] == b[i - |a|];
      }
    }
    forall i: nat | i + 1 < |s|
      ensures !DashPairAt(s, i)
    {
      if i + 1 < |a| {
        assert !DashPairAt(a, i);
      } else if i >= |a| {
        assert !DashPairAt(b, i - |a|);
      }
    }
  }

  /** The placeholder slug sent for an untitled element is the placeholder
      itself, as long as the fallback prefix is already slug-shaped and ends
      in '-' ('new-project-', 'new-post-'). */
  lemma UntitledSlug(fallback: string, now: nat)
    requires |fallback| >= 2 && fallback[|fallback| - 1] == '-' && IsSlug(fallback[..|fallback| - 1])
    ensures SlugFor("", fallback, now) == fallback + NatToString(now)
  {
    var stem, digits := fallback[..|fallback| - 1], NatToString(now);
    var s := fallback + digits;
    assert fallback == stem + "-";
    SlugShapeConcat(stem, "-");
    assert SlugAlphabet(digits) && NoDoubleDash(digits) by {
      forall i: nat | i + 1 < |digits| ensures !DashPairAt(digits, i) {
        assert IsDigit(digits[i]);
      }
    }
    SlugShapeConcat(fallback, digits);
    JsLowerKeepsSlugAlphabet(s);
    CollapseKeepsSlugShape(s);
    assert s[0] == stem[0];
    assert s[|s| - 1] == digits[|digits| - 1] && IsDigit(digits[|digits| - 1]);
  }
}
