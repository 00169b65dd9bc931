# ChatNexus session core, modelled in Dafny

ChatNexus is a single-page Streamlit app. It downloads a web article, keeps its text, and answers questions about it through a hosted language model. This project models the logic behind that page in `python.py`:

- **Extraction** (`extraction.dfy`): the record that `extract_website_content` builds after download and parse. The record holds text, title, publish date, top image, length and timestamp. An article with empty text is a failure.
- **Generation** (`generation.dfy`): `generate_response`. The text is cut to its first 5000 characters. The cut text and the question go verbatim into a fixed prompt template, with the template's whitespace reproduced exactly. The completion service's reply is returned unchanged, or a fixed apology when the call fails.
- **Session** (`session.dfy`): `st.session_state` as the class `ChatSession`. It has the stored content, the message log and the analytics (`totalQuestions`, `websitesAnalyzed`, `lastActivity`). Its four transitions are `Analyze`, `Ask`, `ClearChat` and `ResetAnalysis`. A ghost field `exchanges` holds the question/answer pairs since the last clear. The invariant `Valid()` ties `exchanges` to the log and to the counter. It also says that a session without content has an empty log, and that stored content is well-formed, comes with at least one analyzed site and has a `lastActivity`. The lemmas turn this into the log's shape: `2 * totalQuestions` entries that alternate user, assistant, starting with user. `Flatten`/`Unflatten` show that this shape describes exactly the logs made of question/answer pairs.

The foreign parts are parameters:
- The article download and parse arrives as `Option<Article>`. `None` means one of them raised.
- The Gemini call is a function `Completion = string -> Option<string>` applied to the exact prompt.
- `datetime.now()` readings are opaque `Timestamp` strings passed in. The extraction timestamp and `last_activity` come from two separate clock readings.

`Session.EndToEndScenario` is a client method. It analyzes a page whose text is "hello world" and checks that the stored length is 11. It then asks one question and checks the resulting log, counter and set of sites.

Python's truthiness tests are written out. `if url:` and `if user_input:` mean a non-empty string. `if content:` and `if st.session_state.website_content:` mean `Some`, because the record is a non-empty dict. Python slices count code points, and so does Dafny's `string` (a sequence of Unicode characters).

## Model

| member | source | states |
|---|---|---|
| Extraction.ExtractWebsiteContent | python.py:214-229 | fails exactly when there is no article or its text is empty; on success the record has the article's title, text, date and image, the build time as timestamp, and `length` equal to the character count of the text |
| Extraction.ExtractionDeterminedByArticle | python.py:214-221 | two articles with text that yield the same record are the same article (the record loses nothing) |
| Generation.TruncateContext | python.py:234-235 | the context is a prefix of the text, of length `min(|text|, 5000)` |
| Generation.TruncationSplitsText | python.py:234-235 | the cut followed by the rest of the text is the text; more than 5000 characters gives exactly the first 5000, otherwise the whole text |
| Generation.TruncationIdempotent | python.py:234-235 | cutting an already cut context changes nothing |
| Generation.TruncationIgnoresSuffix | python.py:234-235 | once the text has 5000 characters, anything appended does not change the context |
| Generation.BuildPrompt | python.py:237-246 | the prompt is the fixed head, then the context verbatim, then the fixed question marker, then the query verbatim, then the fixed instructions; its length is the sum of the parts |
| Generation.PromptInjective | python.py:237-246 | for contexts of equal length, equal prompts imply equal contexts and equal queries |
| Generation.PromptFor | python.py:234-246 | the prompt sent contains the truncated text and the query verbatim, at fixed positions |
| Generation.GenerateResponse | python.py:231-252 | a failed completion call yields exactly the fixed apology; otherwise the answer is the service's reply to that prompt, unchanged |
| Generation.ResponseIgnoresSuffix | python.py:234-252 | the answer is the same whatever follows the first 5000 characters of the text |
| Session.FlattenShape | python.py:309-318 | a log built from N question/answer pairs has 2N entries alternating user, assistant, starting with user |
| Session.FlattenAppend | python.py:313-318 | recording one more exchange appends exactly its user entry and then its assistant entry |
| Session.UnflattenFlatten | python.py:313-318 | reading the pairs back from a log of pairs gives those pairs |
| Session.FlattenUnflatten | python.py:313-318 | every even-length alternating log is the log of the pairs read back from it |
| Session.ChatSession.constructor | python.py:254-264 | the initial state: no content, empty log, zero questions, no sites, no last activity |
| Session.ChatSession.Analyze | python.py:287-297 | succeeds exactly when the URL is non-empty and extraction succeeds. On success it replaces the content with the new record, adds the URL to the set (the count grows only for a new URL) and sets `lastActivity`. On failure the state is unchanged. The log and the counter are untouched either way |
| Session.ChatSession.Ask | python.py:300-318 | answers exactly when content is stored and the input is non-empty. It then adds 1 to the counter, appends the user entry and then the assistant entry whose content is `GenerateResponse` applied to the stored text, and sets `lastActivity`. Otherwise nothing changes. Content and sites are never changed |
| Session.ChatSession.ClearChat | python.py:197-199 | empties the log and zeroes the counter; content, sites and last activity are unchanged |
| Session.ChatSession.ResetAnalysis | python.py:201-205 | whatever the prior state: no content, empty log, zero questions, no sites; last activity unchanged |
| Session.LogShape | python.py:197-205 | in every valid session the log has `2 * totalQuestions` entries alternating user, assistant, starting with user |
| Session.MessagesNeedContent | python.py:300 | a non-empty log exists only while the question interface is enabled |

## Left out

- Article download and parse (python.py:210-212): network I/O and a third-party heuristic; the outcome is the `Option<Article>` input.
- The Gemini client, its API key and the startup stop when the key is missing (python.py:20-30, 248): a foreign service and environment; the reply is the `Completion` function's value.
- `datetime.now()` (python.py:220, 294, 311): the readings are opaque parameters.
- NLTK download and logging (python.py:11-18, 228, 251): side-effect plumbing with no effect on state.
- Page configuration, CSS, markdown and HTML rendering, columns, spinners, the display loops and `st.experimental_rerun` (python.py:33-195, 266-375 outside the state updates): presentation only.
- The UI guards on the two buttons: "Clear Chat History" appears only when the log is non-empty (python.py:362), "Reset Analysis" only while content is stored (python.py:366). The methods are modelled as the callbacks themselves, which work in every state.
- Streamlit's session persistence and reruns: the state is the fields of one `ChatSession` object.
- The `analytics` dict is flattened into three fields of `ChatSession`; roles are the datatype `Role` rather than the strings "user" and "assistant".
- `top_image` is a string, as the article library returns it (empty when there is none). The publish date is an opaque optional timestamp.
