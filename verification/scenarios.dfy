/** Runs of several commands in a row, stated as clients of the session:
    what a user sees after a sequence of invocations. */
module Scenarios {
  import opened Paths
  import opened Article
  import opened Ideas
  import opened Cli

  /** Running `body` twice appends both generated texts, in order: the body
      accumulates rather than being replaced. */
  method BodyTwice(s: Session, first: string, second: string)
    requires Configured(s.store) && Truthy(s.store.draftThesis) && Truthy(s.store.draftPath)
    modifies s
    ensures s.store == old(s.store) && s.images == old(s.images)
    ensures var p := s.store.draftPath.value;
      s.files == old(s.files)[p := (if p in old(s.files) then old(s.files)[p] else "") + first + second]
  {
    var p := s.store.draftPath.value;
    var st1 := s.WriteBody(Some(first));
    var st2 := s.WriteBody(Some(second));
  }

  /** `thesis i` followed by `banner gen`, for an idea listed once: the
      banner lookup misses the entry `thesis` tagged, so the list keeps the
      thesis marker and never gets the banner marker. */
  method ThesisThenBanner(s: Session, i: nat, thesis: string, imageOk: bool)
    requires Configured(s.store) && s.store.prevIdeas.Some?
    requires IdeaAt(s.store.prevIdeas.value, i)
    requires forall j :: 0 <= j < |s.store.prevIdeas.value| && j != i ==>
      s.store.prevIdeas.value[j] != s.store.prevIdeas.value[i]
    modifies s
    ensures s.store.prevIdeas == Some(MarkAt(old(s.store.prevIdeas.value), i, ThesisMark))
    ensures s.store.draftIdea == Some(old(s.store.prevIdeas.value[i]))
    ensures s.store.draftThesis == Some(thesis)
  {
    var ideas := s.store.prevIdeas.value;
    var st1 := s.SelectIdea(i, Some(thesis));
    ThesisTagHidesIdea(ideas, i);
    var st2 := s.MakeBanner(imageOk);
  }

  /** `draft new` followed by `banner gen`: the banner is stored beside the
      new draft, under the same random stem. */
  method NewDraftThenBanner(s: Session, dir: string, stem: string)
    requires Configured(s.store) && s.store.prevIdeas.Some? && Truthy(s.store.draftIdea)
    modifies s
    ensures s.store.draftPath == Some(dir + "/" + stem + ".md")
    ensures s.store.draftBanner == Some(dir + "/" + stem + ".png")
    ensures dir + "/" + stem + ".png" in s.images
  {
    s.NewDraft(dir, stem);
    BannerOfDraft(dir, stem);
    var status := s.MakeBanner(true);
  }

  /** Publishing twice, at two different times, leaves the article of the
      second run: the header is put on a fresh copy of the draft each time,
      so it does not stack, and the draft itself is untouched. */
  method RepublishIsStable(s: Session, now1: string, now2: string)
    requires Configured(s.store)
    requires s.store.draftIdea.Some? && s.store.draftPath.Some? && s.store.draftBanner.Some?
    requires s.store.draftPath.value in s.files && s.store.draftBanner.value in s.images
    requires s.store.draftPath.value != PostTarget(s.store.sitePath.value, Slug(s.store.draftIdea.value))
    modifies s
    ensures s.store == old(s.store)
    ensures var target := PostTarget(s.store.sitePath.value, Slug(s.store.draftIdea.value));
      s.files == old(s.files)[target := FrontMatter(now2, s.store.draftIdea.value, Slug(s.store.draftIdea.value)) +
                                        old(s.files)[s.store.draftPath.value]]
  {
    var st1 := s.Publish(now1);
    var st2 := s.Publish(now2);
  }

  /** Ideas ["A", "B"], `thesis 1` with the thesis "T": the thesis is stored,
      idea 1 carries the thesis marker, idea 0 is untouched. */
  method ThesisExample() returns (s: Session, status: Status)
    ensures status == Done
    ensures s.store.draftThesis == Some("T") && s.store.draftIdea == Some("B")
    ensures s.store.prevIdeas == Some(["A", ThesisMark + " B"])
  {
    var store := Store(Some("key"), Some("/site"), None, Some(["A", "B"]), None, None, None, None);
    s := new Session(store, map[], {});
    status := s.SelectIdea(1, Some("T"));
    assert Marked(ThesisMark, "B") == ThesisMark + " B";
    assert MarkAt(["A", "B"], 1, ThesisMark) == ["A", ThesisMark + " B"];
  }

  /** After `publish` the article at `<site>/content/posts/<slug>.md` reads
      as the eight header lines, with the idea as its title and the slug as
      its URL, followed by the lines of the draft. */
  method PublishReadsBack(s: Session, now: string)
    requires Configured(s.store)
    requires s.store.draftIdea.Some? && s.store.draftPath.Some? && s.store.draftBanner.Some?
    requires s.store.draftPath.value in s.files && s.store.draftBanner.value in s.images
    requires '\n' !in now && '\n' !in s.store.draftIdea.value
    modifies s
    ensures s.store == old(s.store)
    ensures var idea := s.store.draftIdea.value;
      var target := PostTarget(s.store.sitePath.value, Slug(idea));
      target in s.files &&
      Lines(s.files[target]) == HeaderLines(now, idea, Slug(idea)) + Lines(old(s.files)[s.store.draftPath.value])
    ensures BannerTarget(s.store.sitePath.value, Slug(s.store.draftIdea.value)) in s.images
  {
    var idea := s.store.draftIdea.value;
    var draft := s.files[s.store.draftPath.value];
    var status := s.Publish(now);
    SlugKeepsOut(idea, '\n');
    PublishedLines(now, idea, Slug(idea), draft);
  }
}
