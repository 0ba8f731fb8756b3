# github_summarizer in Dafny

A model of the Streamlit application `app.py`, which takes a GitHub repository link,
checks it, loads the repository's files into a vector index and a summary index,
and answers questions about the code through two chat engines. The model has three
parts:

- **`Strings`** (`Strings.dfy`): the Python `str` operations the application relies
  on. These are `strip` with a character set and without one (Python's `isspace`
  characters), `count`, `split` with and without the limit 1, and `join` as the
  inverse of `split`.
- **`GithubUrl`** (`GithubUrl.dfy`): the three URL helpers. These are the format
  check `is_valid_github_url`, the owner/repository extraction
  `extract_github_details`, and `check_github_repo_exists`. The URL arrives already
  split into scheme, network location and path, which is what `urlparse` returns.
  The HTTP request is a parameter: a function from the requested page to the status
  code of the response.
- **`App`** (`Session.dfy`):
  - The excluded-directories comprehension.
  - The per-session state `st.session_state`, as the class `Session`, whose fields
    the passes of the script fill in lazily.
  - The library calls. These are the class `Services`: each method records one call
    and its arguments in a ghost log. A call that builds an object returns a handle
    that no earlier call returned. Nothing else about the object is modelled.

  `Session.Run` is one pass of `main` over the session state. Every logged call
  names the handles it acted on and the handle of the object it built: the client
  and the documents it was used to load, the document set each index was built
  from, the index each chat engine was built over, and the engine each question
  went to. The session's fields hold exactly the handles those calls returned. The session also keeps a ghost field
  `documents`, the document set its indices came from, which `app.py` does not
  store. The invariant `Session.Valid` ties the state to the log:
  - The GitHub client, the documents and the two indices, and each chat engine are
    each created at most once, and only while the field that holds them is missing.
  - The two indices exist together or not at all and are distinct handles. The same
    holds for the two engines.
  - Every entry of the chat history follows exactly one query to each engine, and
    every recorded question is non-empty.

Behaviours of `app.py` that a reader might not expect, which the model reproduces:

- `is_valid_github_url` accepts any path that starts with "/". It does not check
  that the path is `/<owner>/<repo>`. The lemma `GithubUrl.ValidUrlWithoutOwnerAndRepo`
  exhibits such a URL. It passes the format check and the existence check probes a
  page for it. Yet the extractor yields no owner and no repository, and the
  documents are requested with `None` for both.
- The indices are built whenever either of them is missing. This happens even when
  the branch box is empty. Only the table that echoes user, repository and branch
  depends on the branch being non-empty.
- Changing the link does not reset the session. Once both indices exist, later
  passes reuse them whatever the link, branch or excluded directories say
  (`App.BuiltIndicesAreReused`).
- The summary engine's answer to a question is computed but not stored. Only the
  chat engine's answer goes into the history.

## Model

| member | source | states |
|---|---|---|
| Strings.Count | app.py:56 | the count is at most the length; it is zero exactly when the character does not occur |
| Strings.CountConcat | app.py:56 | counting distributes over concatenation |
| Strings.IndexOf | app.py:57 | the position of the first occurrence, or the length when there is none |
| Strings.IndexOfFirst | app.py:57 | in `a + [c] + b` with no `c` in `a`, the first `c` is at `|a|` |
| Strings.FirstSplitUnique | app.py:57 | a string can be cut at its first `c` in only one way |
| Strings.SplitFirst | app.py:57 | `split(c, 1)`: one part (the whole string) when `c` does not occur; otherwise two parts joined by `c` that give back the string, the first free of `c` |
| Strings.Split | app.py:171 | `split(c)`: one more part than occurrences of `c`, no part contains `c`, and joining the parts with `c` gives back the string |
| Strings.SplitAfterFirst | app.py:171 | splitting `a + [c] + b`, with no `c` in `a`, yields `a` followed by the parts of `b` |
| Strings.SplitJoin | app.py:171 | splitting the join of `c`-free parts gives back those parts, so `split` and `join` are inverses |
| Strings.StripLeft | app.py:55 | `lstrip`: a suffix of the input whose dropped prefix is all in the set and whose first character is not |
| Strings.StripRight | app.py:55 | `rstrip`: a prefix of the input whose dropped suffix is all in the set and whose last character is not |
| Strings.Strip | app.py:55 | `strip`: no longer than the input, neither end in the set, and no character that is not in the input |
| Strings.StripIsTrim | app.py:71 | `strip` drops a run of set characters from each end and keeps the middle unchanged |
| Strings.TrimOfTrims | app.py:71 | an `lstrip` followed by an `rstrip` is such a trim |
| Strings.StripUnique | app.py:71 | any trim of a string equals its `strip`, so `strip` is characterised by the trim property |
| Strings.StripIdempotent | app.py:171 | stripping twice equals stripping once |
| GithubUrl.StrippedPath | app.py:55 | `path.strip("/")` neither starts nor ends with "/" |
| GithubUrl.IsValidGithubUrl | app.py:62-66 | valid exactly when the scheme is "http" or "https", the network location is "github.com" and the path starts with "/" |
| GithubUrl.ExtractGithubDetails | app.py:52-60 | None exactly when the stripped path does not hold exactly one "/"; otherwise two non-empty, "/"-free names that joined by "/" give the stripped path |
| GithubUrl.ExtractGithubDetailsExactly | app.py:52-60 | the extractor yields `(owner, repo)` if and only if the stripped path is `owner/repo` with neither name containing "/" |
| GithubUrl.RepoPathSplit | app.py:71-72 | the two-name unpacking fails (ValueError) exactly when the stripped path has no "/"; otherwise the path is the first name, "/", and the rest |
| GithubUrl.RepoProbeUrl | app.py:73 | a page is requested exactly when the stripped path has a "/", and it is "https://github.com/" followed by the stripped path |
| GithubUrl.CheckGithubRepoExists | app.py:68-77 | False when the stripped path has no "/"; otherwise True exactly when the requested page answers 200 |
| GithubUrl.ExtractAgreesWithRepoPathSplit | app.py:57 | whenever the extractor yields a pair, the existence check splits the path into the same pair |
| GithubUrl.SlashedNameStrips | app.py:55 | "/" + name, with an optional trailing "/", strips to the name |
| GithubUrl.RepoUrlRoundTrip | app.py:52-77 | `<http(s)>://github.com/owner/repo[/]` is valid, extracts to `(owner, repo)`, and probes `https://github.com/owner/repo` |
| GithubUrl.ValidUrlWithoutOwnerAndRepo | app.py:52-77 | `https://github.com/owner/repo/more` is valid and its probed page is `owner` and `repo/more`, but the extractor yields None |
| App.ExcludedDirs | app.py:163-171 | empty unless the box is ticked and the text is non-empty; otherwise one entry per comma-separated field, the field with white space stripped, so no entry holds a comma or starts or ends with white space |
| App.ExcludedDirsOfFields | app.py:171 | typing the comma-joined fields yields exactly those fields, stripped, in order |
| App.TallyGrows | app.py:178-238 | appending a call to the log counts it once under its kind |
| App.BuildCountsKept | app.py:178-192 | calls that neither load documents nor build an index leave those counts unchanged |
| App.BuiltIndicesAreReused | app.py:178 | once both indices exist, a pass loads no documents and builds no index, whatever its inputs |
| App.AfterInit | app.py:118-124 | the state after the initialisation block: unchanged if it ran before, otherwise all handles None and the history empty |
| App.PassOutcome | app.py:129-133 | it stops at "no link" exactly when the link is empty; at "invalid URL" exactly when the link is non-empty and the URL fails the format check; and it reaches the repository if and only if the link is non-empty, the URL is valid, the stripped path has a "/", and its page answers 200 (so "not found" is the remaining case) |
| App.DocumentsRequest | app.py:137-182 | the documents are requested for the typed branch and the excluded directories of the inputs; owner and repository are both None when the extractor fails, and otherwise are exactly the extracted pair |
| App.Services.NewHandle | app.py:135-192 | hands out the next unused handle number |
| App.Services.NewGithubClient | app.py:135 | returns a handle no earlier call returned and records the creation of that client |
| App.Services.LoadDocuments | app.py:17-42 | returns a new handle and records one document load with its client, owner, repository, excluded directories and branch and that handle |
| App.Services.CreateIndex | app.py:44-46 | returns a new handle and records one vector-index build with its documents, chunk size and overlap and that handle |
| App.Services.CreateSummary | app.py:48-50 | returns a new handle and records one summary-index build with its documents and that handle |
| App.Services.AsChatEngine | app.py:190-192 | returns a new handle and records one chat-engine creation with the index it is built over and that handle |
| App.Services.Query | app.py:228 | records one query with the engine handle it was sent to |
| App.Services.Chat | app.py:229 | records one chat call with the engine handle it was sent to |
| App.Session.constructor | app.py:118 | a new session holds no keys and no calls have been made |
| App.Session.InitializeOnce | app.py:118-124 | the state becomes `AfterInit` of the old state and the invariant is kept |
| App.Session.ConnectGithub | app.py:134-135 | a client exists afterwards; an existing one is kept; otherwise the field holds the client just created |
| App.Session.BuildIndices | app.py:178-187 | both indices exist afterwards; existing ones are kept; only when either was missing are the documents loaded with the session's client and both indices built from those documents, and then `index` holds the vector index built and `summary` the summary index built |
| App.Session.BuildChatEngines | app.py:189-192 | both engines exist afterwards; each existing one is kept; a missing `queryEngine` becomes the engine just built over `index`, and a missing `summaryQueryEngine` the one just built over `summary` |
| App.Session.SubmitQuestion | app.py:225-238 | an asked question goes as a query to the summary engine and as a chat to the vector engine, and one entry holding it is appended; otherwise nothing changes; earlier entries are kept |
| App.Session.PrepareRepository | app.py:134-192 | client, indices and engines exist afterwards; existing ones are kept; the calls made are exactly those for the missing ones |
| App.Session.ServeRepository | app.py:134-238 | the ready state plus the question: the calls are the setup calls followed by the question's calls; the history grows by one entry exactly when a question is asked |
| App.Session.Run | app.py:117-238 | the outcome is `PassOutcome`; a pass that stops before the repository only runs the initialisation block and makes no call; a pass that reaches it makes exactly the calls for what is missing plus the question's, keeps what existed, and extends the history by the asked question |

## Left out

- The page layout, headings, HTML tables, chat-history rendering and error messages
  (app.py:81-99, 141-161, 194-223) are not modelled. They only display.
- The environment and secret setup, `nest_asyncio` and the Gemini model settings
  (app.py:101-115) are not modelled. This includes their `except ValueError`
  branches. Those are reached only for a key holding a NUL character or a lone
  surrogate, which `os.environ` rejects.
- `urlparse` is not modelled. It includes lower-casing of the scheme. The model
  starts from its scheme, network location and path.
- The HTTP request (app.py:74-75) is an oracle from a page to a status code.
  Network errors and any other exception it raises are not modelled. So is a
  `ValueError` raised by `requests` itself, which the source would also turn into
  False.
- GitHub reading, file filtering (including the image/PDF/CSV extension list),
  embedding, indexing and answering happen inside libraries that are not part of
  this model. `Services` records each call and its arguments, and returns a fresh
  handle or an empty answer.
- App.Services.Chat: the answer text is not modelled. The model returns "" where the
  source stores `str(response)`.
- Exceptions raised by the library calls are not modelled. They would end the pass
  part-way.
- The two `ThreadPoolExecutor` blocks are modelled as sequential calls. Each waits
  for its results before the state is updated, so only the order between the two
  index builds, and between the two queries, is fixed where the source leaves it
  open.
- The summary engine's response is not kept: `Query` returns nothing, matching the
  source, which discards it.
