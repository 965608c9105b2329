/** The command dispatcher of ezlo: two positional tokens select one
    operation, which reads and writes the persistent key/value store, the
    draft text file and the site tree. Every answer from outside the
    program (the chat model's replies, the image request, the random file
    stem, the clock, the editor) is a parameter of the command it serves. */
module Cli {
  import opened Paths
  import opened Article
  import opened Ideas

  datatype Option<T> = None | Some(value: T)

  /** The persistent store, one field per key the program uses; a key
      never written reads back as None. */
  datatype Store = Store(
    apiKey: Option<string>,
    sitePath: Option<string>,
    blogNiche: Option<string>,
    prevIdeas: Option<seq<string>>,
    draftPath: Option<string>,
    draftIdea: Option<string>,
    draftThesis: Option<string>,
    draftBanner: Option<string>)

  /** JavaScript truthiness of a stored string: present and not empty. */
  predicate Truthy(v: Option<string>)
  {
    v.Some? && v.value != ""
  }

  /** The program does anything beyond `config` only once both the API key
      and the site path hold a non-empty value. */
  predicate Configured(st: Store)
  {
    Truthy(st.apiKey) && Truthy(st.sitePath)
  }

  /** How a command ends: normally, by an early return after a message, or
      by an uncaught error that leaves the state as it was at that point. */
  datatype Status = Done | Refused | Threw

  /** The chat model's answer to the ideas prompt: the request fails, its
      `ideas` member is not an array, or it is an array of ideas. */
  datatype IdeasReply = RequestFailed | NotAnArray | IdeaArray(items: seq<string>)

  datatype Command =
    | Help
    | Config(sitePath: string, apiKey: string, blogNiche: string)
    | IdeasClear | IdeasGen | IdeasList
    | DraftNew | DraftEdit | DraftShow
    | Thesis(index: int) | ThesisShow
    | Body
    | BannerGen | BannerShow
    | Publish
    | Audio
    | Unknown

  /** What the outside world answers while one command runs. */
  datatype Env = Env(
    clientOk: bool,           // whether the OpenAI client, built before any command, is constructed
    ideas: IdeasReply,        // reply to the ideas prompt
    text: Option<string>,     // reply to the thesis or body prompt; None when the request fails
    imageOk: bool,            // whether the image request succeeds
    programDir: string,       // the directory new drafts are created in
    stem: string,             // the random stem of a new draft's name
    now: string,              // the current time, as an ISO 8601 string
    edited: Option<string>)   // the draft text saved in the editor; None when nothing is saved

  /** `fs.appendFile`: the file gets `text` at its end, and is created
      empty first when it does not exist; no other file changes. */
  function AppendFile(files: map<string, string>, path: string, text: string): (r: map<string, string>)
    ensures path in r && r[path] == (if path in files then files[path] else "") + text
    ensures forall q :: q != path ==> (q in r <==> q in files)
    ensures forall q :: q != path && q in files ==> r[q] == files[q]
  {
    files[path := (if path in files then files[path] else "") + text]
  }

  /** An index `thesis` accepts: it names an entry, and the entry is not empty. */
  predicate IdeaAt(ideas: seq<string>, i: int)
  {
    0 <= i < |ideas| && ideas[i] != ""
  }

  class Session {
    /** The key/value store. */
    var store: Store
    /** Text files on disk, by path. */
    var files: map<string, string>
    /** Image files on disk, by path; their bytes are not modelled. */
    var images: set<string>

    constructor (store: Store, files: map<string, string>, images: set<string>)
      ensures this.store == store && this.files == files && this.images == images
    {
      this.store := store;
      this.files := files;
      this.images := images;
    }

    /** `config`: the three answers are stored under their keys. */
    method Config(sitePath: string, apiKey: string, blogNiche: string)
      modifies this`store
      ensures store == old(store).(sitePath := Some(sitePath), apiKey := Some(apiKey), blogNiche := Some(blogNiche))
    {
      store := store.(sitePath := Some(sitePath));
      store := store.(apiKey := Some(apiKey));
      store := store.(blogNiche := Some(blogNiche));
    }

    /** `ideas clear`. */
    method ClearIdeas()
      modifies this`store
      ensures store == old(store).(prevIdeas := Some([]))
    {
      store := store.(prevIdeas := Some([]));
    }

    /** `ideas gen` (generateIdeas): the new ideas go after the stored ones
      when the reply holds an array; the list must exist, since the prompt
      joins it. */
    method GenerateIdeas(reply: IdeasReply) returns (status: Status)
      modifies this`store
      ensures status == (if old(store).prevIdeas.None? || reply.RequestFailed? then Threw else Done)
      ensures store == if old(store).prevIdeas.Some? && reply.IdeaArray?
                       then old(store).(prevIdeas := Some(AppendIdeas(old(store).prevIdeas.value, reply.items)))
                       else old(store)
    {
      if store.prevIdeas.None? {
        return Threw;
      }
      var prevIdeas := store.prevIdeas.value;
      match reply
      case RequestFailed =>
        status := Threw;
      case NotAnArray =>
        status := Done;
      case IdeaArray(items) =>
        store := store.(prevIdeas := Some(AppendIdeas(prevIdeas, items)));
        status := Done;
    }

    /** `draft new`: an empty file under a random name in the program's
      directory becomes the draft. */
    method NewDraft(programDir: string, stem: string)
      modifies this`store, this`files
      ensures store == old(store).(draftPath := Some(DraftFilePath(programDir, stem)))
      ensures files == old(files)[DraftFilePath(programDir, stem) := ""]
    {
      var path := DraftFilePath(programDir, stem);
      files := files[path := ""];
      store := store.(draftPath := Some(path));
    }

    /** `draft edit`: the draft is opened in an editor; whatever is saved
      replaces its text. */
    method EditDraft(edited: Option<string>) returns (status: Status)
      modifies this`files
      ensures status == (if Truthy(store.draftPath) then Done else Refused)
      ensures files == if Truthy(store.draftPath) && edited.Some?
                       then old(files)[store.draftPath.value := edited.value]
                       else old(files)
    {
      if !Truthy(store.draftPath) {
        return Refused;
      }
      if edited.Some? {
        files := files[store.draftPath.value := edited.value];
      }
      status := Done;
    }

    /** The tail of generateThesis: the thesis goes to the end of the draft
      when there is one, and into the store. */
    method GenerateThesis(reply: Option<string>) returns (status: Status)
      modifies this`store, this`files
      ensures status == (if reply.None? then Threw else Done)
      ensures store == if reply.None? then old(store) else old(store).(draftThesis := reply)
      ensures files == if reply.Some? && Truthy(store.draftPath)
                       then AppendFile(old(files), store.draftPath.value, reply.value)
                       else old(files)
    {
      if reply.None? {
        return Threw;
      }
      var content := reply.value;
      var path := store.draftPath;
      if Truthy(path) {
        files := AppendFile(files, path.value, content);
      }
      store := store.(draftThesis := Some(content));
      status := Done;
    }

    /** `thesis i`: entry i is tagged with the thesis marker in place, the
      untagged entry becomes the active idea, and a thesis is generated. */
    method SelectIdea(index: int, reply: Option<string>) returns (status: Status)
      modifies this`store, this`files
      ensures old(store).prevIdeas.None? ==>
        status == Threw && store == old(store) && files == old(files)
      ensures old(store).prevIdeas.Some? && !IdeaAt(old(store).prevIdeas.value, index) ==>
        status == Refused && store == old(store) && files == old(files)
      ensures old(store).prevIdeas.Some? && IdeaAt(old(store).prevIdeas.value, index) ==>
        var ideas := old(store).prevIdeas.value;
        var tagged := old(store).(prevIdeas := Some(MarkAt(ideas, index, ThesisMark)), draftIdea := Some(ideas[index]));
        status == (if reply.None? then Threw else Done) &&
        store == (if reply.None? then tagged else tagged.(draftThesis := reply)) &&
        files == if reply.Some? && Truthy(old(store).draftPath)
                 then AppendFile(old(files), old(store).draftPath.value, reply.value)
                 else old(files)
    {
      if store.prevIdeas.None? {
        return Threw;
      }
      var allIdeas := store.prevIdeas.value;
      if !IdeaAt(allIdeas, index) {
        return Refused;
      }
      var idea := allIdeas[index];
      allIdeas := allIdeas[index := Marked(ThesisMark, idea)];
      store := store.(prevIdeas := Some(allIdeas));
      store := store.(draftIdea := Some(idea));
      status := GenerateThesis(reply);
    }

    /** generateBody: the generated body goes to the end of the draft, when
      there is one; the store is left alone. */
    method GenerateBody(reply: Option<string>) returns (status: Status)
      modifies this`files
      ensures status == (if reply.None? then Threw else Done)
      ensures files == if reply.Some? && Truthy(store.draftPath)
                       then AppendFile(old(files), store.draftPath.value, reply.value)
                       else old(files)
    {
      if reply.None? {
        return Threw;
      }
      if Truthy(store.draftPath) {
        files := AppendFile(files, store.draftPath.value, reply.value);
      }
      status := Done;
    }

    /** `body`: needs a thesis; nothing is generated without one. */
    method WriteBody(reply: Option<string>) returns (status: Status)
      modifies this`files
      ensures !Truthy(store.draftThesis) ==> status == Refused && files == old(files)
      ensures Truthy(store.draftThesis) ==>
        status == (if reply.None? then Threw else Done) &&
        files == if reply.Some? && Truthy(store.draftPath)
                 then AppendFile(old(files), store.draftPath.value, reply.value)
                 else old(files)
    {
      if !Truthy(store.draftThesis) {
        return Refused;
      }
      status := GenerateBody(reply);
    }

    /** generateBanner: the image is written beside the draft, under the
      draft's name with ".png" for ".md", and that path is stored. */
    method GenerateBanner(imageOk: bool) returns (status: Status)
      modifies this`store, this`images
      ensures status == (if imageOk && old(store).draftPath.Some? then Done else Threw)
      ensures store == if status == Done
                       then old(store).(draftBanner := Some(BannerPath(old(store).draftPath.value)))
                       else old(store)
      ensures images == if status == Done
                        then old(images) + {BannerPath(old(store).draftPath.value)}
                        else old(images)
    {
      if !imageOk || store.draftPath.None? {
        return Threw;
      }
      var path := BannerPath(store.draftPath.value);
      images := images + {path};
      store := store.(draftBanner := Some(path));
      status := Done;
    }

    /** `banner gen`: the first entry equal to the active idea is tagged with
      the banner marker in place (none when no entry equals it), then the
      banner is generated. */
    method MakeBanner(imageOk: bool) returns (status: Status)
      modifies this`store, this`images
      ensures old(store).prevIdeas.None? ==>
        status == Threw && store == old(store) && images == old(images)
      ensures old(store).prevIdeas.Some? && !Truthy(old(store).draftIdea) ==>
        status == Refused && store == old(store) && images == old(images)
      ensures old(store).prevIdeas.Some? && Truthy(old(store).draftIdea) ==>
        var tagged := old(store).(prevIdeas := Some(MarkFirst(old(store).prevIdeas.value, old(store).draftIdea.value, BannerMark)));
        var ok := imageOk && old(store).draftPath.Some?;
        status == (if ok then Done else Threw) &&
        store == (if ok then tagged.(draftBanner := Some(BannerPath(old(store).draftPath.value))) else tagged) &&
        images == if ok then old(images) + {BannerPath(old(store).draftPath.value)} else old(images)
    {
      if store.prevIdeas.None? {
        return Threw;
      }
      var allIdeas := store.prevIdeas.value;
      var idea := store.draftIdea;
      if !Truthy(idea) {
        return Refused;
      }
      var ideaIndex := IndexOf(allIdeas, idea.value);
      if ideaIndex >= 0 {
        allIdeas := allIdeas[ideaIndex := Marked(BannerMark, idea.value)];
      }
      store := store.(prevIdeas := Some(allIdeas));
      status := GenerateBanner(imageOk);
    }

    /** `publish`: the draft is copied to the site's posts under the idea's
      slug, the banner to the site's static files, and the copy gets the
      front matter in front of it. The store and the draft stay as they
      are. The draft is copied before the banner, so a missing banner
      leaves the bare copy behind. */
    method Publish(now: string) returns (status: Status)
      requires Configured(store)
      modifies this`files, this`images
      ensures store.draftIdea.None? || store.draftPath.None? || store.draftPath.value !in old(files) ==>
        status == Threw && files == old(files) && images == old(images)
      ensures store.draftIdea.Some? && store.draftPath.Some? && store.draftPath.value in old(files) ==>
        var slug := Slug(store.draftIdea.value);
        var target := PostTarget(store.sitePath.value, slug);
        var draft := old(files)[store.draftPath.value];
        if store.draftBanner.None? || store.draftBanner.value !in old(images) then
          status == Threw && files == old(files)[target := draft] && images == old(images)
        else
          status == Done &&
          files == old(files)[target := FrontMatter(now, store.draftIdea.value, slug) + draft] &&
          images == old(images) + {BannerTarget(store.sitePath.value, slug)}
    {
      var sitePath := store.sitePath.value;
      var draftPath := store.draftPath;
      var draftBanner := store.draftBanner;
      var draftIdea := store.draftIdea;
      if draftIdea.None? {
        return Threw;
      }
      var slug := Slug(draftIdea.value);
      var targetPath := PostTarget(sitePath, slug);
      var targetBanner := BannerTarget(sitePath, slug);
      if draftPath.None? || draftPath.value !in files {
        return Threw;
      }
      files := files[targetPath := files[draftPath.value]];
      if draftBanner.None? || draftBanner.value !in images {
        return Threw;
      }
      images := images + {targetBanner};
      var article := files[targetPath];
      var frontMatter := FrontMatter(now, draftIdea.value, slug);
      article := frontMatter + article;
      files := files[targetPath := article];
      status := Done;
    }

    /** One run of the program. The OpenAI client is built first, for every
      command; when its construction fails, the run throws before anything
      else. Without arguments it prints help; `config` always runs; every
      other command first checks the configuration, then runs the operation
      it names. */
    method Dispatch(cmd: Command, env: Env) returns (status: Status)
      modifies this`store, this`files, this`images
      ensures !env.clientOk ==>
        status == Threw && store == old(store) && files == old(files) && images == old(images)
      ensures env.clientOk && cmd.Help? ==>
        status == Done && store == old(store) && files == old(files) && images == old(images)
      ensures env.clientOk && cmd.Config? ==>
        status == Done && files == old(files) && images == old(images) &&
        store == old(store).(sitePath := Some(cmd.sitePath), apiKey := Some(cmd.apiKey), blogNiche := Some(cmd.blogNiche))
      ensures env.clientOk && !cmd.Help? && !cmd.Config? && !Configured(old(store)) ==>
        status == Refused && store == old(store) && files == old(files) && images == old(images)
      ensures cmd in {IdeasList, DraftShow, ThesisShow, BannerShow, Audio, Unknown} ==>
        store == old(store) && files == old(files) && images == old(images)
      ensures env.clientOk && Configured(old(store)) && cmd.IdeasList? ==>
        status == (if old(store).prevIdeas.None? then Threw else Done)
      ensures env.clientOk && Configured(old(store)) && cmd.IdeasClear? ==>
        status == Done && files == old(files) && images == old(images) &&
        store == old(store).(prevIdeas := Some([]))
      ensures env.clientOk && Configured(old(store)) && cmd.IdeasGen? ==>
        status == (if old(store).prevIdeas.None? || env.ideas.RequestFailed? then Threw else Done) &&
        files == old(files) && images == old(images) &&
        store == if old(store).prevIdeas.Some? && env.ideas.IdeaArray?
                 then old(store).(prevIdeas := Some(AppendIdeas(old(store).prevIdeas.value, env.ideas.items)))
                 else old(store)
      ensures env.clientOk && Configured(old(store)) && cmd.DraftNew? ==>
        status == Done && images == old(images) &&
        store == old(store).(draftPath := Some(DraftFilePath(env.programDir, env.stem))) &&
        files == old(files)[DraftFilePath(env.programDir, env.stem) := ""]
      ensures env.clientOk && Configured(old(store)) && cmd.DraftEdit? ==>
        status == (if Truthy(old(store).draftPath) then Done else Refused) &&
        store == old(store) && images == old(images) &&
        files == if Truthy(old(store).draftPath) && env.edited.Some?
                 then old(files)[old(store).draftPath.value := env.edited.value]
                 else old(files)
      ensures env.clientOk && Configured(old(store)) && cmd.Thesis? ==>
        images == old(images) &&
        if old(store).prevIdeas.None? then
          status == Threw && store == old(store) && files == old(files)
        else if !IdeaAt(old(store).prevIdeas.value, cmd.index) then
          status == Refused && store == old(store) && files == old(files)
        else
          var ideas := old(store).prevIdeas.value;
          var tagged := old(store).(prevIdeas := Some(MarkAt(ideas, cmd.index, ThesisMark)), draftIdea := Some(ideas[cmd.index]));
          status == (if env.text.None? then Threw else Done) &&
          store == (if env.text.None? then tagged else tagged.(draftThesis := env.text)) &&
          files == if env.text.Some? && Truthy(old(store).draftPath)
                   then AppendFile(old(files), old(store).draftPath.value, env.text.value)
                   else old(files)
      ensures env.clientOk && Configured(old(store)) && cmd.Body? ==>
        store == old(store) && images == old(images) &&
        if !Truthy(old(store).draftThesis) then
          status == Refused && files == old(files)
        else
          status == (if env.text.None? then Threw else Done) &&
          files == if env.text.Some? && Truthy(old(store).draftPath)
                   then AppendFile(old(files), old(store).draftPath.value, env.text.value)
                   else old(files)
      ensures env.clientOk && Configured(old(store)) && cmd.BannerGen? ==>
        files == old(files) &&
        if old(store).prevIdeas.None? then
          status == Threw && store == old(store) && images == old(images)
        else if !Truthy(old(store).draftIdea) then
          status == Refused && store == old(store) && images == old(images)
        else
          var tagged := old(store).(prevIdeas := Some(MarkFirst(old(store).prevIdeas.value, old(store).draftIdea.value, BannerMark)));
          var ok := env.imageOk && old(store).draftPath.Some?;
          status == (if ok then Done else Threw) &&
          store == (if ok then tagged.(draftBanner := Some(BannerPath(old(store).draftPath.value))) else tagged) &&
          images == if ok then old(images) + {BannerPath(old(store).draftPath.value)} else old(images)
      ensures env.clientOk && Configured(old(store)) && cmd.Publish? ==>
        var st := old(store);
        store == st &&
        if st.draftIdea.None? || st.draftPath.None? || st.draftPath.value !in old(files) then
          status == Threw && files == old(files) && images == old(images)
        else
          var slug := Slug(st.draftIdea.value);
          var target := PostTarget(st.sitePath.value, slug);
          var draft := old(files)[st.draftPath.value];
          if st.draftBanner.None? || st.draftBanner.value !in old(images) then
            status == Threw && files == old(files)[target := draft] && images == old(images)
          else
            status == Done &&
            files == old(files)[target := FrontMatter(env.now, st.draftIdea.value, slug) + draft] &&
            images == old(images) + {BannerTarget(st.sitePath.value, slug)}
    {
      if !env.clientOk {
        return Threw;
      }
      if cmd.Help? {
        return Done;
      }
      if cmd.Config? {
        Config(cmd.sitePath, cmd.apiKey, cmd.blogNiche);
        return Done;
      }
      if !Configured(store) {
        return Refused;
      }
      match cmd
      case IdeasClear =>
        ClearIdeas();
        status := Done;
      case IdeasGen =>
        status := GenerateIdeas(env.ideas);
      case IdeasList =>
        status := if store.prevIdeas.None? then Threw else Done;
      case DraftNew =>
        NewDraft(env.programDir, env.stem);
        status := Done;
      case DraftEdit =>
        status := EditDraft(env.edited);
      case Thesis(index) =>
        status := SelectIdea(index, env.text);
      case Body =>
        status := WriteBody(env.text);
      case BannerGen =>
        status := MakeBanner(env.imageOk);
      case Publish =>
        status := Publish(env.now);
      case _ =>
        status := Done;
    }
  }
}
