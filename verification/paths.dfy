/** The file names and URL segments ezlo derives from its stored state:
    the slug of an idea, the random draft file, the banner image beside it,
    and the two places in the site tree that `publish` writes to. */
module Paths {

  predicate EndsWith(s: string, suffix: string)
  {
    |suffix| <= |s| && s[|s| - |suffix|..] == suffix
  }

  predicate IsUpper(c: char)
  {
    'A' <= c <= 'Z'
  }

  /** Lower-casing of one character, on the ASCII letters. */
  function LowerChar(c: char): (r: char)
    ensures !IsUpper(r)
    ensures IsUpper(c) ==> r as int == c as int + 32
    ensures !IsUpper(c) ==> r == c
  {
    if IsUpper(c) then (c as int + 32) as char else c
  }

  /** `s.replace(/ /g, '-')`: every space becomes a hyphen. */
  function Hyphenate(s: string): (r: string)
    ensures |r| == |s|
    ensures forall i :: 0 <= i < |s| ==> r[i] == (if s[i] == ' ' then '-' else s[i])
  {
    if s == [] then [] else [if s[0] == ' ' then '-' else s[0]] + Hyphenate(s[1..])
  }

  /** `s.toLowerCase()`, on ASCII text. */
  function Lower(s: string): (r: string)
    ensures |r| == |s|
    ensures forall i :: 0 <= i < |s| ==> r[i] == LowerChar(s[i])
  {
    if s == [] then [] else [LowerChar(s[0])] + Lower(s[1..])
  }

  /** The slug `publish` derives from the active idea: spaces to hyphens,
      then lower case. Nothing else is escaped. */
  function Slug(idea: string): (r: string)
    ensures |r| == |idea|
    ensures ' ' !in r
    ensures forall i :: 0 <= i < |r| ==> !IsUpper(r[i])
    ensures forall i :: 0 <= i < |idea| && idea[i] != ' ' ==> r[i] == LowerChar(idea[i])
    ensures forall i :: 0 <= i < |idea| && idea[i] == ' ' ==> r[i] == '-'
  {
    Lower(Hyphenate(idea))
  }

  /** Slugging a slug changes nothing. */
  lemma {:induction false} SlugIdempotent(idea: string)
    ensures Slug(Slug(idea)) == Slug(idea)
  {
    var s := Slug(idea);
    forall i | 0 <= i < |s|
      ensures Slug(s)[i] == s[i]
    {
      assert s[i] != ' ' && !IsUpper(s[i]);
    }
  }

  /** A character the idea does not hold and that neither step introduces
      stays out of the slug; in particular a one-line idea gives a one-line slug. */
  lemma {:induction false} SlugKeepsOut(idea: string, c: char)
    requires c !in idea && c != '-' && !IsUpper(c) && !('a' <= c <= 'z')
    ensures c !in Slug(idea)
  {
    var s := Slug(idea);
    forall i | 0 <= i < |s|
      ensures s[i] != c
    {
      if idea[i] != ' ' {
        if IsUpper(idea[i]) {
          assert 'a' <= s[i] <= 'z';
        } else {
          assert s[i] == idea[i];
        }
      }
    }
  }

  /** The draft file `draft new` creates: a random stem with ".md", resolved
      against the program's directory. */
  function DraftFilePath(dir: string, stem: string): (r: string)
    ensures |r| == |dir| + |stem| + 4
    ensures EndsWith(r, ".md")
    ensures r[..|dir| + 1] == dir + "/"
    ensures r[|dir| + 1..|r| - 3] == stem
  {
    dir + "/" + stem + ".md"
  }

  /** `path.replace(/\.md$/, '.png')`: a trailing ".md" becomes ".png";
      any other path is returned as it is. */
  function BannerPath(path: string): (r: string)
    ensures EndsWith(path, ".md") ==> EndsWith(r, ".png") && r[..|r| - 4] == path[..|path| - 3]
    ensures !EndsWith(path, ".md") ==> r == path
  {
    if EndsWith(path, ".md") then path[..|path| - 3] + ".png" else path
  }

  /** The banner of a fresh draft sits beside it, under the same stem. */
  lemma BannerOfDraft(dir: string, stem: string)
    ensures BannerPath(DraftFilePath(dir, stem)) == dir + "/" + stem + ".png"
  {
    var p := DraftFilePath(dir, stem);
    assert p[..|p| - 3] == dir + "/" + stem;
  }

  /** Two drafts ending in ".md" never share a banner path. */
  lemma BannerPathInjective(p: string, q: string)
    requires EndsWith(p, ".md") && EndsWith(q, ".md")
    requires BannerPath(p) == BannerPath(q)
    ensures p == q
  {
    assert p == p[..|p| - 3] + ".md";
    assert q == q[..|q| - 3] + ".md";
  }

  /** Where `publish` writes the article: `<site>/content/posts/<slug>.md`. */
  function PostTarget(site: string, slug: string): (r: string)
    ensures |r| == |site| + |slug| + 18
    ensures r[..|site|] == site
    ensures r[|site|..|site| + 15] == "/content/posts/"
    ensures r[|site| + 15..|r| - 3] == slug
    ensures EndsWith(r, ".md")
  {
    site + "/content/posts/" + slug + ".md"
  }

  /** Where `publish` copies the banner: `<site>/static/<slug>.png`. */
  function BannerTarget(site: string, slug: string): (r: string)
    ensures |r| == |site| + |slug| + 12
    ensures r[..|site|] == site
    ensures r[|site|..|site| + 8] == "/static/"
    ensures r[|site| + 8..|r| - 4] == slug
    ensures EndsWith(r, ".png")
  {
    site + "/static/" + slug + ".png"
  }

  /** Within one site, different slugs publish to different files. */
  lemma TargetsInjective(site: string, a: string, b: string)
    ensures PostTarget(site, a) == PostTarget(site, b) ==> a == b
    ensures BannerTarget(site, a) == BannerTarget(site, b) ==> a == b
  {
    if PostTarget(site, a) == PostTarget(site, b) {
      var r := PostTarget(site, a);
      assert a == r[|site| + 15..|r| - 3];
    }
    if BannerTarget(site, a) == BannerTarget(site, b) {
      var r := BannerTarget(site, a);
      assert a == r[|site| + 8..|r| - 4];
    }
  }

  /** The slug is not injective: distinct ideas can collide on one target. */
  lemma SlugCollision()
    ensures Slug("A b") == Slug("a-b") == "a-b"
  {
    assert Hyphenate("A b") == "A-b";
    assert Hyphenate("a-b") == "a-b";
  }
}
