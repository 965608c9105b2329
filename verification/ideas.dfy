/** The idea list: how `ideas gen` grows it, and how `thesis` and
    `banner gen` tag one of its entries with a status marker. */
module Ideas {

  /** The "thesis generated" marker as it stands in the source file: the
      UTF-8 bytes of a check-mark emoji read back as Windows-1252 text. Only
      its being a fixed, non-empty prefix matters here. */
  const ThesisMark: string := "\U{e2}\U{153}\U{2026}"

  /** The "banner generated" marker, mis-encoded in the same way (a framed
      picture emoji with its variation selector). */
  const BannerMark: string := "\U{f0}\U{178}\U{2013}\U{bc}\U{ef}\U{b8}"

  /** An idea tagged with a marker: the marker, one space, the idea. */
  function Marked(mark: string, idea: string): (r: string)
    requires mark != ""
    ensures |r| > |idea|
    ensures r != idea
    ensures r[|r| - |idea|..] == idea
  {
    mark + " " + idea
  }

  /** `ideas.indexOf(x)`: the first position holding `x`, or -1. */
  function IndexOf(ideas: seq<string>, x: string): (k: int)
    ensures -1 <= k < |ideas|
    ensures k == -1 <==> x !in ideas
    ensures 0 <= k ==> ideas[k] == x && forall j :: 0 <= j < k ==> ideas[j] != x
  {
    if ideas == [] then -1
    else if ideas[0] == x then 0
    else
      var k := IndexOf(ideas[1..], x);
      if k == -1 then -1 else k + 1
  }

  /** The list `thesis` writes back: entry `i` replaced by its tagged copy. */
  function MarkAt(ideas: seq<string>, i: nat, mark: string): (r: seq<string>)
    requires i < |ideas| && mark != ""
    ensures |r| == |ideas|
    ensures r[i] == Marked(mark, ideas[i])
    ensures forall j :: 0 <= j < |ideas| && j != i ==> r[j] == ideas[j]
  {
    ideas[i := Marked(mark, ideas[i])]
  }

  /** The list `banner gen` writes back: the first entry equal to `idea`
      replaced by its tagged copy. When no entry equals it, JavaScript
      assigns to index -1, which is not an array element, and the list
      written back is the one read. */
  function MarkFirst(ideas: seq<string>, idea: string, mark: string): (r: seq<string>)
    requires mark != ""
    ensures |r| == |ideas|
    ensures idea !in ideas ==> r == ideas
    ensures idea in ideas ==>
      var k := IndexOf(ideas, idea);
      r[k] == Marked(mark, idea) && (forall j :: 0 <= j < k ==> ideas[j] != idea) &&
      forall j :: 0 <= j < |ideas| && j != k ==> r[j] == ideas[j]
  {
    var k := IndexOf(ideas, idea);
    if k >= 0 then ideas[k := Marked(mark, idea)] else ideas
  }

  /** `[...prevIdeas, ...ideas]`: the stored list followed by the new ideas. */
  function AppendIdeas(prev: seq<string>, added: seq<string>): (r: seq<string>)
    ensures |r| == |prev| + |added|
    ensures r[..|prev|] == prev
    ensures r[|prev|..] == added
  {
    prev + added
  }

  /** After `thesis i` has tagged entry i, `banner gen` looks the untagged
      idea up again. Entry i no longer equals it, so the thesis marker there
      is never replaced by the banner marker; and when the idea was listed
      only once, the banner lookup finds nothing and the list is unchanged. */
  lemma ThesisTagHidesIdea(ideas: seq<string>, i: nat)
    requires i < |ideas|
    ensures var t := MarkAt(ideas, i, ThesisMark);
      MarkFirst(t, ideas[i], BannerMark)[i] == t[i]
    ensures (forall j :: 0 <= j < |ideas| && j != i ==> ideas[j] != ideas[i]) ==>
      var t := MarkAt(ideas, i, ThesisMark);
      MarkFirst(t, ideas[i], BannerMark) == t
  {
    var idea := ideas[i];
    var t := MarkAt(ideas, i, ThesisMark);
    assert t[i] != idea;
    if forall j :: 0 <= j < |ideas| && j != i ==> ideas[j] != idea {
      assert forall j :: 0 <= j < |t| ==> t[j] != idea;
      assert idea !in t;
    }
  }
}
