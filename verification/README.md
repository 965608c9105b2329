# ezlo draft workflow, modelled in Dafny

ezlo is a command-line assistant that drafts blog articles with a
generative-AI service and publishes them into a Hugo site. Its own logic is
a command-driven state machine over a small key/value store. The store holds
the configuration (`apiKey`, `sitePath`, `blogNiche`), the list of article
ideas (`prevIdeas`, where entries may carry a status marker), and the active
draft (`draftPath`, `draftIdea`, `draftThesis`, `draftBanner`). This project
models that state machine and proves what each command does to it.

Modules:

- `Paths` (paths.dfy): the slug of an idea, the random draft file, the
  banner path derived from the draft path, and the two publish targets.
- `Article` (article.dfy): the front-matter block `publish` puts before the
  article, plus a line splitter `Lines` used as its reference reader.
- `Ideas` (ideas.dfy): the two status markers, `indexOf`, how `thesis` tags
  entry i, how `banner gen` tags the first entry equal to the active idea,
  and how `ideas gen` appends.
- `Cli` (cli.dfy): the store as a `Store` record and the `Session` class.
  The class holds the store, the text files on disk (`files`, a map from
  path to contents) and the image files on disk (`images`, a set of paths).
  It has one method per command, one per store-updating generator tail, and
  `Dispatch` for one run of the program. The methods for commands that can
  end early return a `Status`: `Done`, `Refused` (a message and an early
  return), or `Threw` (an uncaught error, leaving the state as it was at the
  throw). `Config`, `ClearIdeas` and `NewDraft` always complete and return
  nothing.
- `Scenarios` (scenarios.dfy): sequences of commands, written as clients of
  `Session`.

Every answer from outside the program is a parameter of the command it
serves. That covers the chat replies for ideas, thesis and body, whether the
image request succeeds, the random draft stem, the clock, the config
answers, and the text saved in the editor.

Behaviours the model keeps as the code has them:

- `banner gen` looks the active idea up with `indexOf`. But `thesis` has
  already replaced that entry with its marked copy. So after `thesis`, the
  lookup misses the tagged entry. For an idea listed once, the list is
  written back unchanged (`Ideas.ThesisTagHidesIdea`,
  `Scenarios.ThesisThenBanner`).
- `body` appends to the draft, so two runs append twice
  (`Scenarios.BodyTwice`).
- `publish` writes the header only to the copy in the site tree
  (index.js:203-211). It does not touch the draft or the store, so
  publishing again, even at a later time, does not stack headers
  (`Scenarios.RepublishIsStable`).
- `publish` copies the draft to its target before it copies the banner
  (index.js:203-204). A missing banner therefore throws after the bare
  draft copy has already been written, and `Cli.Session.Publish` states
  that outcome.
- Some commands read `prevIdeas` before it has ever been set. `thesis`,
  `banner gen`, `ideas gen` and the `ideas` listing then dereference
  `undefined` and throw, and nothing changes.
- `publish` checks `draftIdea` only for presence. An empty idea still
  publishes, with an empty slug.

## Model

| member | source | states |
|---|---|---|
| `Paths.Hyphenate` | index.js:198 | same length; each space becomes '-', every other character is kept |
| `Paths.Lower` | index.js:198 | same length; each character is lower-cased (ASCII letters) |
| `Paths.Slug` | index.js:198 | the slug has the idea's length, no space, no upper-case ASCII letter; position by position it is '-' for a space and the lower-cased character otherwise |
| `Paths.SlugIdempotent` | index.js:198 | slugging a slug gives the same slug |
| `Paths.SlugKeepsOut` | index.js:198 | a character that is absent from the idea, is not '-' and is not an ASCII letter is absent from the slug (so a one-line idea has a one-line slug) |
| `Paths.SlugCollision` | index.js:198-201 | distinct ideas ("A b", "a-b") share one slug, so they publish to the same files |
| `Paths.DraftFilePath` | index.js:85-86 | the new draft path is the program directory, '/', the random stem and ".md", each piece at its own position; it ends in ".md" |
| `Paths.BannerPath` | index.js:339 | a path ending in ".md" gets ".png" in its place, with the rest kept; any other path is returned unchanged |
| `Paths.BannerOfDraft` | index.js:339 | the banner of a fresh draft is `<dir>/<stem>.png`, beside the draft |
| `Paths.BannerPathInjective` | index.js:339 | two ".md" drafts with the same banner path are the same draft |
| `Paths.PostTarget` | index.js:200 | the article target is the site path, "/content/posts/", the slug, ".md" |
| `Paths.BannerTarget` | index.js:201 | the banner target is the site path, "/static/", the slug, ".png" |
| `Paths.TargetsInjective` | index.js:200-201 | within one site, equal article targets or equal banner targets mean equal slugs |
| `Article.FrontMatter` | index.js:207 | the block starts with "---\n" and ends with "\n---\n\n" |
| `Article.PublishedLines` | index.js:207-209 | for one-line date and idea, the published article splits into exactly `---`, `date: <now>`, `title: "<idea>"`, `url: <slug>`, `cover:`, `  image: /<slug>.png`, `---`, an empty line, then the draft's own lines |
| `Ideas.Marked` | index.js:131 | a tagged idea is longer than the idea, differs from it, and ends with it |
| `Ideas.IndexOf` | index.js:167 | -1 exactly when the idea is absent; otherwise the position of its first occurrence |
| `Ideas.MarkAt` | index.js:131 | length kept, entry i becomes marker + " " + entry, every other entry unchanged |
| `Ideas.MarkFirst` | index.js:167-174 | length kept; if the idea is absent, the list is unchanged; otherwise only its first occurrence is tagged |
| `Ideas.AppendIdeas` | index.js:263-266 | the old list is a prefix, the new ideas follow in order, and the lengths add |
| `Ideas.ThesisTagHidesIdea` | index.js:131-174 | after `thesis` tags entry i, `banner gen` never overwrites entry i; if the idea was listed once, the list is left unchanged |
| `Cli.AppendFile` | index.js:290 | the file ends with the appended text after its old contents (created empty if missing); no other file changes |
| `Cli.Session.Config` | index.js:45-56 | `sitePath`, `apiKey` and `blogNiche` hold exactly the entered values; no other key changes |
| `Cli.Session.ClearIdeas` | index.js:61-65 | `prevIdeas` becomes empty whatever it held; no other key changes |
| `Cli.Session.GenerateIdeas` | index.js:245-270 | with an array reply, `prevIdeas` becomes the old list followed by the new ideas; with any other reply, or no list to join, the store is unchanged (a failed request or a missing list throws) |
| `Cli.Session.NewDraft` | index.js:84-96 | only `draftPath` changes, to the new ".md" path, and that file is created empty |
| `Cli.Session.EditDraft` | index.js:97-107 | without a draft the command is refused; otherwise the saved text replaces the draft and nothing else changes |
| `Cli.Session.GenerateThesis` | index.js:285-297 | `draftThesis` becomes the reply; the reply is appended to the draft only when a draft path is set; a failed request changes nothing |
| `Cli.Session.SelectIdea` | index.js:119-138 | a missing list throws, and an absent, out-of-range, negative or empty entry is refused, with no change in either case; otherwise only entry i is tagged, `draftIdea` is the untagged entry, and the thesis is stored and appended to the draft (or, on a failed request, only the tagging and `draftIdea` remain) |
| `Cli.Session.GenerateBody` | index.js:313-322 | the store is unchanged; the reply is appended to the draft when a draft path is set |
| `Cli.Session.WriteBody` | index.js:150-163 | without a thesis the command is refused with no generation and no change; otherwise as `GenerateBody` |
| `Cli.Session.GenerateBanner` | index.js:325-348 | on success `draftBanner` becomes the draft path with ".md" replaced by ".png", and that image exists; a failed request or a missing draft path throws with no change |
| `Cli.Session.MakeBanner` | index.js:164-179 | a missing list throws, and a missing or empty active idea is refused, with no change in either case; otherwise at most the first entry equal to the idea is tagged, then the banner is generated |
| `Cli.Session.Publish` | index.js:193-213 | the store never changes. Without an idea, or without a draft file, it throws with no change. Without a banner it throws after copying the bare draft to the target. Otherwise the target holds the front matter followed by the draft, and the banner is copied to its target |
| `Cli.Session.Dispatch` | index.js:13-213 | when the OpenAI client cannot be built at start-up, every command throws with no change; otherwise with no arguments nothing changes, `config` always runs, and without a non-empty API key and site path every other command is refused with no change; once configured, `ideas clear`, `ideas gen`, `draft new`, `draft edit`, `thesis i`, `body`, `banner gen` and `publish` each have exactly the effect and status of their method above, `ideas` throws only without a list, and the read-only commands change nothing |
| `Scenarios.BodyTwice` | index.js:317-322 | two `body` runs leave the draft as old contents + first + second, with the store unchanged |
| `Scenarios.ThesisThenBanner` | index.js:164-174 | `thesis i` then `banner gen` leaves `prevIdeas` with only the thesis tag at i and no banner tag |
| `Scenarios.NewDraftThenBanner` | index.js:339-346 | `draft new` then `banner gen` stores the banner as `<dir>/<stem>.png` and creates it |
| `Scenarios.RepublishIsStable` | index.js:203-211 | publishing at one time and again at a later time leaves the target holding only the second run's header over the unchanged draft, and the store unchanged |
| `Scenarios.ThesisExample` | index.js:119-138 | ideas ["A","B"], `thesis 1` with reply "T": thesis "T", active idea "B", list ["A", marker + " B"] |
| `Scenarios.PublishReadsBack` | index.js:193-211 | after `publish`, the article at the target reads as the eight header lines followed by the draft's lines, and the banner is at its target |

## Left out

- The chat, image and speech requests are external services. Their replies
  are parameters: an `IdeasReply`, an optional text, and an image
  success flag.
- The SimplDB store file and the `.env` loading are disk persistence in a
  foreign library. The store is the in-memory `Store` record.
- The OpenAI client is built at start-up, before any command, from the
  stored `apiKey` (index.js:13-15). Whether its constructor succeeds depends
  on that foreign library and on the process environment (an
  `OPENAI_API_KEY` variable, possibly loaded from `.env`). It is the
  `clientOk` flag of `Env`. When it is false, `Dispatch` throws for every
  command, `config` and help included.
- The `readline` prompts for `config` become the command's arguments. `nano`
  in `draft edit` becomes the optional text saved. Opening the banner
  (`banner` with no argument) is left out: it changes no state.
- The banner download over HTTPS is not modelled. Only the image file's
  existence is tracked, not its bytes.
- The `audio` preview server is network I/O with concurrent requests. It is
  not modelled, and in `Dispatch` the command changes nothing.
- `Math.random` and `new Date().toISOString()` are the `stem` and `now`
  parameters.
- Console output and the help text are printing only. So are the read-only
  branches `ideas`, `draft` and `thesis` with no index; `Dispatch` leaves
  the state unchanged for all of them.
- The callbacks of `fs.writeFile` and `fs.appendFile` are not awaited, so
  their order against `db.set` is not modelled. Each command is atomic.
- Argument parsing is not modelled: `Thesis(index)` carries the integer
  `parseInt` produced, and an argument that does not parse is `ThesisShow`.
- Store values of unexpected types are not modelled (an idea that is not a
  string, or a `prevIdeas` that is not an array). Every stored value is a
  string or a list of strings.
- `path.resolve` normalisation is not modelled: `DraftFilePath` joins the
  directory and the file name with '/'.
- Text files and image files live in two separate namespaces, so a
  non-".md" draft path equal to its own banner path is not modelled. Copy
  failures from a missing site directory are not modelled either.
- Paths.Lower: lower-cases the ASCII letters only. JavaScript's
  `toLowerCase` also maps other letters and can change a string's length,
  so the slug properties agree with the code for ASCII ideas only.
- The two status markers are the code points the file actually holds: the
  UTF-8 bytes of the intended emoji, read back as Windows-1252. They are
  treated as fixed prefixes.
