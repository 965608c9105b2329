/** The article `publish` writes: a front-matter block for the static-site
    generator followed by the draft text. `Lines` splits text at '\n' the way
    a reader of the file does, and serves as the reference against which the
    block's layout is stated. */
module Article {
  import opened Paths

  /** The front-matter block, with the publication time, the idea as title,
      the slug as URL and the banner under the site root. */
  function FrontMatter(date: string, title: string, slug: string): (r: string)
    ensures "---\n" <= r
    ensures EndsWith(r, "\n---\n\n")
  {
    "---\ndate: " + date + "\ntitle: \"" + title + "\"\nurl: " + slug +
    "\ncover:\n  image: /" + slug + ".png\n---\n\n"
  }

  /** The lines of `s`, split at every '\n'; a text ending in '\n' has an
      empty last line. */
  function Lines(s: string): (r: seq<string>)
    ensures |r| >= 1
    ensures forall i :: 0 <= i < |r| ==> '\n' !in r[i]
    decreases |s|
  {
    if s == [] then [""]
    else
      var rest := Lines(s[1..]);
      if s[0] == '\n' then [""] + rest
      else [[s[0]] + rest[0]] + rest[1..]
  }

  /** One line, a newline, then the rest. */
  lemma {:induction false} LinesCons(line: string, rest: string)
    requires '\n' !in line
    ensures Lines(line + "\n" + rest) == [line] + Lines(rest)
    decreases |line|
  {
    var s := line + "\n" + rest;
    if line == [] {
      assert s == "\n" + rest;
      assert s[1..] == rest;
    } else {
      assert s[0] == line[0];
      assert s[1..] == line[1..] + "\n" + rest;
      LinesCons(line[1..], rest);
      assert [line[0]] + line[1..] == line;
    }
  }

  /** The header lines a published article starts with. */
  function HeaderLines(date: string, title: string, slug: string): (r: seq<string>)
    ensures |r| == 8 && r[0] == r[6] == "---" && r[7] == ""
  {
    ["---",
     "date: " + date,
     "title: \"" + title + "\"",
     "url: " + slug,
     "cover:",
     "  image: /" + slug + ".png",
     "---",
     ""]
  }

  /** The template's pieces, nested to the right. */
  lemma FrontMatterNested(date: string, title: string, slug: string, draft: string)
    ensures FrontMatter(date, title, slug) + draft ==
      "---\ndate: " + (date + ("\ntitle: \"" + (title + ("\"\nurl: " + (slug +
      ("\ncover:\n  image: /" + (slug + (".png\n---\n\n" + draft))))))))
  {
  }

  /** The last pieces of the template, grouped as lines. */
  lemma PiecesTail(slug: string, draft: string)
    ensures "\ncover:\n  image: /" + (slug + (".png\n---\n\n" + draft)) ==
      "\n" + ("cover:" + "\n" + (("  image: /" + slug + ".png") + "\n" + ("---" + "\n" + ("" + "\n" + draft))))
  {
  }

  /** The first pieces of the template, grouped as lines. */
  lemma PiecesHead(date: string, title: string, slug: string, rest: string)
    ensures "---\ndate: " + (date + ("\ntitle: \"" + (title + ("\"\nurl: " + (slug + ("\n" + rest)))))) ==
      "---" + "\n" + (("date: " + date) + "\n" + (("title: \"" + title + "\"") + "\n" + (("url: " + slug) + "\n" + rest)))
  {
  }

  /** Lines of the first four header lines and whatever follows them. */
  lemma {:induction false} HeadLines(date: string, title: string, slug: string, rest: string)
    requires '\n' !in date && '\n' !in title && '\n' !in slug
    ensures Lines("---" + "\n" + (("date: " + date) + "\n" + (("title: \"" + title + "\"") + "\n" +
      (("url: " + slug) + "\n" + rest)))) ==
      ["---", "date: " + date, "title: \"" + title + "\"", "url: " + slug] + Lines(rest)
  {
    var l1, l2, l3 := "date: " + date, "title: \"" + title + "\"", "url: " + slug;
    var t3 := l3 + "\n" + rest;
    var t2 := l2 + "\n" + t3;
    var t1 := l1 + "\n" + t2;
    assert '\n' !in l1 && '\n' !in l2 && '\n' !in l3;
    calc {
      Lines("---" + "\n" + t1);
      { LinesCons("---", t1); }
      ["---"] + Lines(t1);
      { LinesCons(l1, t2); }
      ["---"] + ([l1] + Lines(t2));
      { LinesCons(l2, t3); }
      ["---"] + ([l1] + ([l2] + Lines(t3)));
      { LinesCons(l3, rest); }
      ["---"] + ([l1] + ([l2] + ([l3] + Lines(rest))));
      ["---", l1, l2, l3] + Lines(rest);
    }
  }

  /** Lines of the last four header lines followed by the draft. */
  lemma {:induction false} TailLines(slug: string, draft: string)
    requires '\n' !in slug
    ensures Lines("cover:" + "\n" + (("  image: /" + slug + ".png") + "\n" + ("---" + "\n" + ("" + "\n" + draft)))) ==
      ["cover:", "  image: /" + slug + ".png", "---", ""] + Lines(draft)
  {
    var l5 := "  image: /" + slug + ".png";
    var t7 := "" + "\n" + draft;
    var t6 := "---" + "\n" + t7;
    var t5 := l5 + "\n" + t6;
    LinesCons("cover:", t5);
    LinesCons(l5, t6);
    LinesCons("---", t7);
    LinesCons("", draft);
  }

  /** A published article reads as eight header lines (date, quoted title,
      URL slug and cover image between two "---" rules, then a blank line),
      followed by exactly the lines of the draft. */
  lemma {:induction false} PublishedLines(date: string, title: string, slug: string, draft: string)
    requires '\n' !in date && '\n' !in title && '\n' !in slug
    ensures Lines(FrontMatter(date, title, slug) + draft) == HeaderLines(date, title, slug) + Lines(draft)
  {
    var t4 := "cover:" + "\n" + (("  image: /" + slug + ".png") + "\n" + ("---" + "\n" + ("" + "\n" + draft)));
    FrontMatterNested(date, title, slug, draft);
    PiecesTail(slug, draft);
    PiecesHead(date, title, slug, t4);
    HeadLines(date, title, slug, t4);
    TailLines(slug, draft);
  }
}
