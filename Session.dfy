/**
 One pass of the Streamlit script's `main`: the excluded-directory input, the
 per-session state (`st.session_state`) that is filled in lazily and kept across
 passes, and the calls into the document loader, the index builders and the chat
 engines, which are opaque: only the fact that a call was made, and with which
 arguments, is recorded.
 */
module App {
  import opened Wrappers
  import opened Strings
  import opened GithubUrl

  /** The directories to exclude: empty unless the checkbox is ticked and the text box
      is non-empty; otherwise the comma-separated fields of the text, each with the
      surrounding white space removed. */
  function ExcludedDirs(checked: bool, text: string): (dirs: seq<string>)
    ensures !checked || text == "" ==> dirs == []
    ensures checked && text != "" ==>
      && |dirs| == Count(text, ',') + 1
      && forall k :: 0 <= k < |dirs| ==> dirs[k] == Strip(Split(text, ',')[k], PyWhitespace)
    ensures forall k :: 0 <= k < |dirs| ==>
      && ',' !in dirs[k]
      && (dirs[k] != "" ==> dirs[k][0] !in PyWhitespace && dirs[k][|dirs[k]| - 1] !in PyWhitespace)
  {
    if checked && text != "" then
      var fields := Split(text, ',');
      seq(|fields|, k requires 0 <= k < |fields| => Strip(fields[k], PyWhitespace))
    else
      []
  }

  /** Entering the fields `f1,f2,...,fn` (none containing a comma) yields exactly the
      stripped fields, in order. */
  lemma ExcludedDirsOfFields(fields: seq<string>)
    requires |fields| > 0 && forall k :: 0 <= k < |fields| ==> ',' !in fields[k]
    requires Join(fields, ',') != ""
    ensures |ExcludedDirs(true, Join(fields, ','))| == |fields|
    ensures forall k :: 0 <= k < |fields| ==>
      ExcludedDirs(true, Join(fields, ','))[k] == Strip(fields[k], PyWhitespace)
  {
    SplitJoin(fields, ',');
  }

  /** Opaque handle of an object built by a library: a GitHub client, a document set,
      an index or a chat engine. Handles of different objects differ. */
  datatype Handle = Handle(id: nat)

  datatype IndexKind = VectorStore | SummaryStore

  /** The arguments of `load_documents` other than the client. */
  datatype LoadRequest = LoadRequest(owner: Option<string>, repo: Option<string>,
                                     excludedDirs: seq<string>, branch: string)

  /** A call into a library, as recorded in the services' log, with the handles it
      acted on and the handle of the object it built. */
  datatype ExternalCall =
    | GithubClientCreated(client: Handle)
    | DocumentsLoaded(client: Handle, request: LoadRequest, documents: Handle)
    | VectorIndexCreated(documents: Handle, chunkSize: nat, chunkOverlap: nat, index: Handle)
    | SummaryIndexCreated(documents: Handle, summary: Handle)
    | ChatEngineCreated(over: IndexKind, index: Handle, engine: Handle)
    | SummaryQueried(engine: Handle, question: string)
    | Chatted(engine: Handle, question: string)

  /** How many calls of each kind a log holds. */
  datatype Tally = Tally(clients: nat, loads: nat, vectorIndices: nat, summaryIndices: nat,
                         vectorEngines: nat, summaryEngines: nat, queries: nat, chats: nat)

  const NoCalls: Tally := Tally(0, 0, 0, 0, 0, 0, 0, 0)

  /** `t` with the counter for the kind of `c` increased by one. */
  function Record(t: Tally, c: ExternalCall): Tally
  {
    match c
    case GithubClientCreated(_) => t.(clients := t.clients + 1)
    case DocumentsLoaded(_, _, _) => t.(loads := t.loads + 1)
    case VectorIndexCreated(_, _, _, _) => t.(vectorIndices := t.vectorIndices + 1)
    case SummaryIndexCreated(_, _) => t.(summaryIndices := t.summaryIndices + 1)
    case ChatEngineCreated(over, _, _) =>
      if over == VectorStore then t.(vectorEngines := t.vectorEngines + 1)
      else t.(summaryEngines := t.summaryEngines + 1)
    case SummaryQueried(_, _) => t.(queries := t.queries + 1)
    case Chatted(_, _) => t.(chats := t.chats + 1)
  }

  function Flag(b: bool): nat { if b then 1 else 0 }

  ghost function TallyOf(log: seq<ExternalCall>): Tally
  {
    if log == [] then NoCalls else Record(TallyOf(log[..|log| - 1]), log[|log| - 1])
  }

  /** Appending a call to a log records it in the tally. */
  lemma TallyGrows(log: seq<ExternalCall>, c: ExternalCall)
    ensures TallyOf(log + [c]) == Record(TallyOf(log), c)
  {
    assert (log + [c])[..|log|] == log;
  }

  /** A call that loads no documents and builds no index. */
  predicate BuildsNothing(c: ExternalCall)
  {
    !c.DocumentsLoaded? && !c.VectorIndexCreated? && !c.SummaryIndexCreated?
  }

  /** Calls that load no documents and build no index leave those counts as they are. */
  lemma {:induction false} BuildCountsKept(log: seq<ExternalCall>, more: seq<ExternalCall>)
    requires forall k :: 0 <= k < |more| ==> BuildsNothing(more[k])
    ensures TallyOf(log + more).loads == TallyOf(log).loads
    ensures TallyOf(log + more).vectorIndices == TallyOf(log).vectorIndices
    ensures TallyOf(log + more).summaryIndices == TallyOf(log).summaryIndices
    decreases |more|
  {
    if more == [] {
      assert log + more == log;
    } else {
      var init := more[..|more| - 1];
      assert log + more == (log + init) + [more[|more| - 1]];
      TallyGrows(log + init, more[|more| - 1]);
      BuildCountsKept(log, init);
    }
  }

  /** Regrouping a concatenation of three sequences; the methods below call it to
      line up the log a sequence of calls leaves with the calls they promise. */
  lemma ConcatAssoc<T>(x: seq<T>, y: seq<T>, z: seq<T>)
    ensures x + (y + z) == x + y + z
  {
  }

  /** The size of the token windows and their overlap given to the retrieval index. */
  const ChunkSize: nat := 512
  const ChunkOverlap: nat := 128

  /** The libraries behind the application: the GitHub reader, the vector and summary
      indices and the Gemini chat engines. Each method stands for one library call; it
      records the call in `log`, and a call that builds an object returns a handle no
      earlier call has returned (`issued` counts the handles given out). Nothing else
      about the objects is modelled. */
  class Services {
    ghost var log: seq<ExternalCall>
    var issued: nat

    constructor ()
      ensures log == [] && issued == 0
    {
      log := [];
      issued := 0;
    }

    /** A handle that no earlier call has returned. */
    method NewHandle() returns (h: Handle)
      modifies this`issued
      ensures h == Handle(old(issued)) && issued == old(issued) + 1
    {
      h := Handle(issued);
      issued := issued + 1;
    }

    /** `GithubClient(github_token=..., verbose=True)`. */
    method NewGithubClient() returns (client: Handle)
      modifies this
      ensures log == old(log) + [GithubClientCreated(client)]
      ensures client == Handle(old(issued)) && issued == old(issued) + 1
    {
      client := NewHandle();
      log := log + [GithubClientCreated(client)];
    }

    /** `load_documents`: `GithubRepositoryReader(...).load_data(branch=branch)`. */
    method LoadDocuments(client: Handle, request: LoadRequest) returns (documents: Handle)
      modifies this
      ensures log == old(log) + [DocumentsLoaded(client, request, documents)]
      ensures documents == Handle(old(issued)) && issued == old(issued) + 1
    {
      documents := NewHandle();
      log := log + [DocumentsLoaded(client, request, documents)];
    }

    /** `create_index`: a vector-store index over token windows of the documents. */
    method CreateIndex(documents: Handle, chunkSize: nat, chunkOverlap: nat) returns (index: Handle)
      modifies this
      ensures log == old(log) + [VectorIndexCreated(documents, chunkSize, chunkOverlap, index)]
      ensures index == Handle(old(issued)) && issued == old(issued) + 1
    {
      index := NewHandle();
      log := log + [VectorIndexCreated(documents, chunkSize, chunkOverlap, index)];
    }

    /** `create_summary`: a summary index over the whole documents. */
    method CreateSummary(documents: Handle) returns (summary: Handle)
      modifies this
      ensures log == old(log) + [SummaryIndexCreated(documents, summary)]
      ensures summary == Handle(old(issued)) && issued == old(issued) + 1
    {
      summary := NewHandle();
      log := log + [SummaryIndexCreated(documents, summary)];
    }

    /** `index.as_chat_engine(chat_mode=ChatMode.CONTEXT)` on the index `index` of kind `over`. */
    method AsChatEngine(index: Handle, over: IndexKind) returns (engine: Handle)
      modifies this
      ensures log == old(log) + [ChatEngineCreated(over, index, engine)]
      ensures engine == Handle(old(issued)) && issued == old(issued) + 1
    {
      engine := NewHandle();
      log := log + [ChatEngineCreated(over, index, engine)];
    }

    /** `engine.query(question)`; the response is not kept. */
    method Query(engine: Handle, question: string)
      modifies this
      ensures log == old(log) + [SummaryQueried(engine, question)] && issued == old(issued)
    {
      log := log + [SummaryQueried(engine, question)];
    }

    /** `str(engine.chat(question).response)`. */
    method Chat(engine: Handle, question: string) returns (answer: string)
      modifies this
      ensures log == old(log) + [Chatted(engine, question)] && issued == old(issued)
    {
      answer := "";
      log := log + [Chatted(engine, question)];
    }
  }

  /** One question and the chat engine's answer to it. */
  datatype ChatEntry = ChatEntry(question: string, answer: string)

  /** The session's fields at one moment; `initialized` is whether the key
      `github_client` is present in `st.session_state`, and `documents` is the
      document set the two indices were built from. */
  datatype Snapshot = Snapshot(
    initialized: bool,
    githubClient: Option<Handle>,
    documents: Option<Handle>,
    index: Option<Handle>,
    summary: Option<Handle>,
    queryEngine: Option<Handle>,
    summaryQueryEngine: Option<Handle>,
    chatHistory: seq<ChatEntry>)

  const EmptySession: Snapshot := Snapshot(false, None, None, None, None, None, None, [])

  /** The state after the initialisation block: unchanged when it had run before,
      otherwise all handles None and the history empty. */
  function AfterInit(s: Snapshot): (t: Snapshot)
    ensures t.initialized
    ensures s.initialized ==> t == s
    ensures !s.initialized ==>
      t.githubClient == t.documents == t.index == t.summary == t.queryEngine ==
      t.summaryQueryEngine == None && t.chatHistory == []
  {
    if s.initialized then s else EmptySession.(initialized := true)
  }

  /** What one pass of the script does for the inputs it reads. */
  datatype Inputs = Inputs(
    link: string,            // the repository text box
    url: ParsedUrl,          // urlparse(link)
    branch: string,          // the branch text box
    excludeChecked: bool,    // the "Exclude specific directories" checkbox
    excludeText: string,     // the excluded-directories text box
    question: string,        // the question text area
    submitPressed: bool)     // the "Submit Question" button

  /** Which branch of `main` a pass ends in. */
  datatype Outcome = NoRepoLink | InvalidUrl | RepoNotFound | RepoReady

  /** A question is asked when the button is pressed and the question is non-empty. */
  predicate Asks(pressed: bool, question: string)
  {
    pressed && question != ""
  }

  /** The branch a pass ends in: it reaches the repository only for a non-empty link to a
      valid GitHub URL whose stripped path holds a "/" and whose page answers 200. */
  function PassOutcome(input: Inputs, statusCode: string -> int): (o: Outcome)
    ensures o == NoRepoLink <==> input.link == ""
    ensures o == InvalidUrl <==> input.link != "" && !IsValidGithubUrl(input.url)
    ensures o == RepoReady <==>
      input.link != "" && IsValidGithubUrl(input.url) && '/' in StrippedPath(input.url) &&
      statusCode(GithubPagePrefix + StrippedPath(input.url)) == StatusOk
  {
    if input.link == "" then NoRepoLink
    else if !IsValidGithubUrl(input.url) then InvalidUrl
    else if !CheckGithubRepoExists(input.url, statusCode) then RepoNotFound
    else RepoReady
  }

  /** `(user, repo)` as `main` unpacks it from `extract_github_details`. */
  function OwnerOf(details: Option<(string, string)>): Option<string>
  {
    if details.Some? then Some(details.value.0) else None
  }

  function RepoOf(details: Option<(string, string)>): Option<string>
  {
    if details.Some? then Some(details.value.1) else None
  }

  /** The document request a pass makes if it needs documents: the extracted owner and
      repository (both None when the extraction fails), the excluded directories and the
      branch as typed. */
  function DocumentsRequest(input: Inputs): (r: LoadRequest)
    ensures r.branch == input.branch
    ensures r.excludedDirs == ExcludedDirs(input.excludeChecked, input.excludeText)
    ensures ExtractGithubDetails(input.url).None? ==> r.owner.None? && r.repo.None?
    ensures ExtractGithubDetails(input.url).Some? ==>
      r.owner.Some? && r.repo.Some? && (r.owner.value, r.repo.value) == ExtractGithubDetails(input.url).value
  {
    var details := ExtractGithubDetails(input.url);
    LoadRequest(OwnerOf(details), RepoOf(details),
                ExcludedDirs(input.excludeChecked, input.excludeText), input.branch)
  }

  /** A snapshot holding a client, both indices with their documents and both engines. */
  predicate Ready(t: Snapshot)
  {
    t.githubClient.Some? && t.documents.Some? && t.index.Some? && t.summary.Some? &&
    t.queryEngine.Some? && t.summaryQueryEngine.Some?
  }

  /** The library calls that take state `s` (after the initialisation block) to the ready
      state `t`: t's client, if there was none; if either index was missing, t's
      documents loaded for `request` with t's client, and t's two indices built from
      them; and each of t's engines that was missing, built over the index of its own
      kind. */
  ghost function SetupCalls(s: Snapshot, t: Snapshot, request: LoadRequest): seq<ExternalCall>
    requires Ready(t)
  {
    (if s.githubClient.None? then [GithubClientCreated(t.githubClient.value)] else [])
    + (if s.index.None? || s.summary.None? then
         [DocumentsLoaded(t.githubClient.value, request, t.documents.value),
          VectorIndexCreated(t.documents.value, ChunkSize, ChunkOverlap, t.index.value),
          SummaryIndexCreated(t.documents.value, t.summary.value)]
       else [])
    + (if s.queryEngine.None? then
         [ChatEngineCreated(VectorStore, t.index.value, t.queryEngine.value)] else [])
    + (if s.summaryQueryEngine.None? then
         [ChatEngineCreated(SummaryStore, t.summary.value, t.summaryQueryEngine.value)] else [])
  }

  /** The library calls for the question box in the ready state `t`: for an asked
      question, a query to the summary engine and a chat with the vector engine; none
      otherwise. */
  ghost function QuestionCalls(t: Snapshot, pressed: bool, question: string): seq<ExternalCall>
    requires Ready(t)
  {
    if Asks(pressed, question) then
      [SummaryQueried(t.summaryQueryEngine.value, question), Chatted(t.queryEngine.value, question)]
    else []
  }

  /** The library calls of a pass that reaches the repository. */
  ghost function PassCalls(s: Snapshot, t: Snapshot, request: LoadRequest, pressed: bool, question: string): seq<ExternalCall>
    requires Ready(t)
  {
    SetupCalls(s, t, request) + QuestionCalls(t, pressed, question)
  }

  /** Once both indices exist, a pass loads no documents and builds no index, whatever
      the link, branch or excluded directories. */
  lemma BuiltIndicesAreReused(s: Snapshot, t: Snapshot, request: LoadRequest, pressed: bool,
                              question: string, log: seq<ExternalCall>)
    requires s.index.Some? && s.summary.Some? && Ready(t)
    ensures var after := TallyOf(log + PassCalls(s, t, request, pressed, question));
      && after.loads == TallyOf(log).loads
      && after.vectorIndices == TallyOf(log).vectorIndices
      && after.summaryIndices == TallyOf(log).summaryIndices
  {
    var calls := PassCalls(s, t, request, pressed, question);
    assert forall k :: 0 <= k < |calls| ==> BuildsNothing(calls[k]);
    BuildCountsKept(log, calls);
  }

  /** `h`, if present, was given out before the services issued handle number `n`. */
  predicate IssuedBefore(h: Option<Handle>, n: nat)
  {
    h.Some? ==> h.value.id < n
  }

  /** `st.session_state` of one browser session, with the libraries it calls. */
  class Session {
    var initialized: bool
    var githubClient: Option<Handle>
    ghost var documents: Option<Handle>
    var index: Option<Handle>
    var summary: Option<Handle>
    var queryEngine: Option<Handle>
    var summaryQueryEngine: Option<Handle>
    var chatHistory: seq<ChatEntry>
    const services: Services

    ghost function View(): Snapshot
      reads this
    {
      Snapshot(initialized, githubClient, documents, index, summary, queryEngine,
               summaryQueryEngine, chatHistory)
    }

    /** The state stays consistent with the calls made on its behalf: each handle is
        built once and kept, the two indices are built together from one document set
        and differ, the two engines differ, each history entry follows one query to
        each engine, and every recorded question is non-empty. */
    ghost predicate Valid()
      reads this, services
    {
      && (!initialized ==> View() == EmptySession)
      && (index.Some? <==> summary.Some?)
      && (documents.Some? <==> index.Some?)
      && (index.Some? ==> githubClient.Some? && index != summary)
      && (queryEngine.Some? ==> index.Some?)
      && (summaryQueryEngine.Some? ==> summary.Some?)
      && (queryEngine.Some? <==> summaryQueryEngine.Some?)
      && (queryEngine.Some? ==> queryEngine != summaryQueryEngine)
      && (chatHistory != [] ==> queryEngine.Some? && summaryQueryEngine.Some?)
      && (forall k :: 0 <= k < |chatHistory| ==> chatHistory[k].question != "")
      && IssuedBefore(githubClient, services.issued) && IssuedBefore(documents, services.issued)
      && IssuedBefore(index, services.issued) && IssuedBefore(summary, services.issued)
      && IssuedBefore(queryEngine, services.issued)
      && IssuedBefore(summaryQueryEngine, services.issued)
      && TallyOf(services.log) == Tally(
           Flag(githubClient.Some?), Flag(index.Some?), Flag(index.Some?), Flag(summary.Some?),
           Flag(queryEngine.Some?), Flag(summaryQueryEngine.Some?), |chatHistory|, |chatHistory|)
    }

    /** A new browser session: `st.session_state` holds no keys yet. */
    constructor ()
      ensures Valid() && fresh(services)
      ensures View() == EmptySession && services.log == []
    {
      initialized := false;
      githubClient, documents, index, summary := None, None, None, None;
      queryEngine, summaryQueryEngine := None, None;
      chatHistory := [];
      services := new Services();
    }

    /** The block guarded by `'github_client' not in st.session_state`. */
    method InitializeOnce()
      requires Valid()
      modifies this
      ensures Valid() && View() == AfterInit(old(View()))
    {
      if !initialized {
        githubClient := None;
        documents := None;
        index := None;
        summary := None;
        queryEngine := None;
        summaryQueryEngine := None;
        chatHistory := [];
        initialized := true;
      }
    }

    /** `if st.session_state.github_client is None`: create the client. */
    method ConnectGithub()
      requires Valid() && initialized
      modifies this`githubClient, services
      ensures Valid() && githubClient.Some?
      ensures old(githubClient).Some? ==> githubClient == old(githubClient)
      ensures services.log == old(services.log) +
        (if old(githubClient).None? then [GithubClientCreated(githubClient.value)] else [])
    {
      if githubClient.None? {
        ghost var log0 := services.log;
        var client := services.NewGithubClient();
        TallyGrows(log0, GithubClientCreated(client));
        githubClient := Some(client);
      }
    }

    /** `if st.session_state.index is None or st.session_state.summary is None`: load
        the documents with the session's client and build both indices from them. */
    method BuildIndices(request: LoadRequest)
      requires Valid() && initialized && githubClient.Some?
      modifies this`documents, this`index, this`summary, services
      ensures Valid() && documents.Some? && index.Some? && summary.Some?
      ensures old(index).Some? ==>
        documents == old(documents) && index == old(index) && summary == old(summary)
      ensures services.log == old(services.log) +
        (if old(index).None? || old(summary).None? then
           [DocumentsLoaded(githubClient.value, request, documents.value),
            VectorIndexCreated(documents.value, ChunkSize, ChunkOverlap, index.value),
            SummaryIndexCreated(documents.value, summary.value)]
         else [])
    {
      if index.None? || summary.None? {
        ghost var log0 := services.log;
        var loaded := services.LoadDocuments(githubClient.value, request);
        TallyGrows(log0, DocumentsLoaded(githubClient.value, request, loaded));
        ghost var log1 := services.log;
        var built := services.CreateIndex(loaded, ChunkSize, ChunkOverlap);
        TallyGrows(log1, VectorIndexCreated(loaded, ChunkSize, ChunkOverlap, built));
        ghost var log2 := services.log;
        var summarized := services.CreateSummary(loaded);
        TallyGrows(log2, SummaryIndexCreated(loaded, summarized));
        documents := Some(loaded);
        index := Some(built);
        summary := Some(summarized);
      }
    }

    /** Build each chat engine that is None from the index of its own kind. */
    method BuildChatEngines()
      requires Valid() && index.Some? && summary.Some?
      modifies this`queryEngine, this`summaryQueryEngine, services
      ensures Valid() && queryEngine.Some? && summaryQueryEngine.Some?
      ensures old(queryEngine).Some? ==> queryEngine == old(queryEngine)
      ensures old(summaryQueryEngine).Some? ==> summaryQueryEngine == old(summaryQueryEngine)
      ensures services.log == old(services.log)
        + (if old(queryEngine).None? then
             [ChatEngineCreated(VectorStore, index.value, queryEngine.value)] else [])
        + (if old(summaryQueryEngine).None? then
             [ChatEngineCreated(SummaryStore, summary.value, summaryQueryEngine.value)] else [])
    {
      if queryEngine.None? {
        ghost var log0 := services.log;
        var engine := services.AsChatEngine(index.value, VectorStore);
        TallyGrows(log0, ChatEngineCreated(VectorStore, index.value, engine));
        queryEngine := Some(engine);
      }
      if summaryQueryEngine.None? {
        ghost var log0 := services.log;
        var engine := services.AsChatEngine(summary.value, SummaryStore);
        TallyGrows(log0, ChatEngineCreated(SummaryStore, summary.value, engine));
        summaryQueryEngine := Some(engine);
      }
    }

    /** The "Submit Question" button: an asked question goes to the summary engine as a
        query and to the vector engine as a chat, and one entry holding it is appended;
        otherwise nothing happens. */
    method SubmitQuestion(pressed: bool, question: string)
      requires Valid() && queryEngine.Some? && summaryQueryEngine.Some?
      modifies this`chatHistory, services
      ensures Valid()
      ensures |chatHistory| == |old(chatHistory)| + Flag(Asks(pressed, question))
      ensures chatHistory[..|old(chatHistory)|] == old(chatHistory)
      ensures Asks(pressed, question) ==> chatHistory[|old(chatHistory)|].question == question
      ensures services.log == old(services.log) +
        (if Asks(pressed, question) then
           [SummaryQueried(summaryQueryEngine.value, question), Chatted(queryEngine.value, question)]
         else [])
    {
      if pressed && question != "" {
        TallyGrows(services.log, SummaryQueried(summaryQueryEngine.value, question));
        services.Query(summaryQueryEngine.value, question);
        TallyGrows(services.log, Chatted(queryEngine.value, question));
        var answer := services.Chat(queryEngine.value, question);
        chatHistory := chatHistory + [ChatEntry(question, answer)];
      }
    }

    /** Client, indices and chat engines, each made only if it is missing. */
    method PrepareRepository(request: LoadRequest)
      requires Valid() && initialized
      modifies this`githubClient, this`documents, this`index, this`summary, this`queryEngine,
               this`summaryQueryEngine, services
      ensures Valid() && Ready(View())
      ensures services.log == old(services.log) + SetupCalls(old(View()), View(), request)
      ensures old(githubClient).Some? ==> githubClient == old(githubClient)
      ensures old(index).Some? ==>
        documents == old(documents) && index == old(index) && summary == old(summary)
      ensures old(queryEngine).Some? ==> queryEngine == old(queryEngine)
      ensures old(summaryQueryEngine).Some? ==> summaryQueryEngine == old(summaryQueryEngine)
    {
      ghost var s0, log0 := View(), services.log;
      ConnectGithub();
      ghost var a := if s0.githubClient.None? then [GithubClientCreated(githubClient.value)] else [];
      BuildIndices(request);
      ghost var b := if s0.index.None? || s0.summary.None? then
                       [DocumentsLoaded(githubClient.value, request, documents.value),
                        VectorIndexCreated(documents.value, ChunkSize, ChunkOverlap, index.value),
                        SummaryIndexCreated(documents.value, summary.value)] else [];
      BuildChatEngines();
      ghost var c := if s0.queryEngine.None? then
                       [ChatEngineCreated(VectorStore, index.value, queryEngine.value)] else [];
      ghost var d := if s0.summaryQueryEngine.None? then
                       [ChatEngineCreated(SummaryStore, summary.value, summaryQueryEngine.value)] else [];
      assert services.log == log0 + a + b + c + d;
      assert SetupCalls(s0, View(), request) == a + b + c + d;
      ConcatAssoc(log0, a + b + c, d);
      ConcatAssoc(log0, a + b, c);
      ConcatAssoc(log0, a, b);
    }

    /** The part of a pass after the existence check: client, indices, chat engines and
        the question. */
    method ServeRepository(request: LoadRequest, pressed: bool, question: string)
      requires Valid() && initialized
      modifies this, services
      ensures Valid() && initialized && Ready(View())
      ensures services.log == old(services.log) + PassCalls(old(View()), View(), request, pressed, question)
      ensures old(githubClient).Some? ==> githubClient == old(githubClient)
      ensures old(index).Some? ==>
        documents == old(documents) && index == old(index) && summary == old(summary)
      ensures old(queryEngine).Some? ==> queryEngine == old(queryEngine)
      ensures old(summaryQueryEngine).Some? ==> summaryQueryEngine == old(summaryQueryEngine)
      ensures |chatHistory| == |old(chatHistory)| + Flag(Asks(pressed, question))
      ensures chatHistory[..|old(chatHistory)|] == old(chatHistory)
      ensures Asks(pressed, question) ==> chatHistory[|old(chatHistory)|].question == question
    {
      ghost var s0, log0 := View(), services.log;
      PrepareRepository(request);
      ghost var setup := SetupCalls(s0, View(), request);
      SubmitQuestion(pressed, question);
      assert SetupCalls(s0, View(), request) == setup;
      ConcatAssoc(log0, setup, QuestionCalls(View(), pressed, question));
    }

    /** One pass of `main` over the session state. */
    method Run(input: Inputs, statusCode: string -> int) returns (outcome: Outcome)
      requires Valid()
      modifies this, services
      ensures Valid() && initialized
      ensures outcome == PassOutcome(input, statusCode)
      ensures outcome != RepoReady ==>
        View() == AfterInit(old(View())) && services.log == old(services.log)
      ensures outcome == RepoReady ==>
        && Ready(View())
        && services.log == old(services.log) +
             PassCalls(AfterInit(old(View())), View(), DocumentsRequest(input),
                       input.submitPressed, input.question)
      ensures outcome == RepoReady && old(initialized) ==>
        && (old(githubClient).Some? ==> githubClient == old(githubClient))
        && (old(index).Some? ==> documents == old(documents) && index == old(index) && summary == old(summary))
        && (old(queryEngine).Some? ==> queryEngine == old(queryEngine))
        && (old(summaryQueryEngine).Some? ==> summaryQueryEngine == old(summaryQueryEngine))
      ensures var before := AfterInit(old(View())).chatHistory;
        && |chatHistory| == |before| + Flag(outcome == RepoReady && Asks(input.submitPressed, input.question))
        && chatHistory[..|before|] == before
        && (outcome == RepoReady && Asks(input.submitPressed, input.question) ==> chatHistory[|before|].question == input.question)
    {
      InitializeOnce();
      if input.link == "" {
        return NoRepoLink;
      }
      if !IsValidGithubUrl(input.url) {
        return InvalidUrl;
      }
      if !CheckGithubRepoExists(input.url, statusCode) {
        return RepoNotFound;
      }
      var details := ExtractGithubDetails(input.url);
      var excludedDirs := ExcludedDirs(input.excludeChecked, input.excludeText);
      ServeRepository(LoadRequest(OwnerOf(details), RepoOf(details), excludedDirs, input.branch),
                      input.submitPressed, input.question);
      outcome := RepoReady;
    }
  }
}
