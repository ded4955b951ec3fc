# arxiv-classifier, modelled in Dafny

arxiv-classifier collects recent arXiv papers and optionally translates each one into Chinese
through a chat-completion service. It then classifies each paper into categories with the same service
and writes a Markdown report grouped by category. This project models the sequential logic of
that pipeline and proves what it guarantees. The pieces are:

- `seqs.dfy` (`Seqs`): output built by appending, for each input in turn, what a function gives for
  it. This is the shape of the report loops and the scraping loop.
- `wrappers.dfy` (`Wrappers`): `Option` for Python's `None` and for raised calls, and `Result` for
  constructors that raise.
- `text.dfy` (`Text`): the parts of Python's `str` the pipeline relies on. These are `isspace`,
  `strip()`, `replace(p, '')`, `sep.join`, `split('\n')` and `split()`, with their laws. For
  example, `' '.join(ws).split() == ws`, and joining the pieces of a split restores the string.
- `values.dfy` (`Values`): the dynamically typed value a classifier returns. It is `None`, a
  string or a list of strings, with Python's truthiness and iteration (a string iterates its characters).
- `ai_client.dfy` (`AiClient`): `ByteDanceAIClient`. It covers the prompt defaulting, the message
  layout of `generate_messages`, the `use_ai` gate, and the rule that every failure becomes `None`.
- `classifier.dfy` (`Classifier`): the three `BytedanceClassifier` variants. They share the
  prompt template, the constructor's assertion and its `IndexError`, and the `"Global"` fallback.
- `translator.dfy` (`Translator`): `BytedanceTranslator.translate`, which falls back to the input text.
- `ordered_dict.dfy` (`OrderedDict`): a Python dict of lists with insertion order, as the merge
  loops build it.
- `pipeline.dfy` (`Pipeline`): codes/main.py. It covers `formatted_papers`, `process_paper` and the
  category merge loop.
- `root_main.dfy` (`RootMain`): the aggregation loop of the top-level main.py.
- `writer.dfy` (`Writer`): `MarkdownWriter`. It covers the abstract wrapper, the report's line
  list and the joined text.
- `fetcher.dfy` (`Fetcher`): the two `ArxivFetcher`s. Each scans API results in order, stops at
  the first one published before the window, and skips those published after its end.
- `scraper.dfy` (`Scraper`): the two `ArxivWebScraper`s. It covers the skip rules, field
  defaults, URLs, the `max_results` cap and the abstract-source preference.

Everything the program gets from outside is a parameter:
- the chat service (`seq<Message> -> Option<string>`, `None` when the call raises);
- JSON decoding (`string -> Option<Value>`);
- the arXiv API (`Search -> seq<ArxivResult>`);
- listing and abstract pages (already located elements, each field `None` when absent);
- the clock (whole seconds, or ready-formatted date strings).

Loops that change state in place are methods with loop invariants. Each method is proved equal to
a specification function, and the lemmas state the source's guarantees about those functions:
- `Pipeline.MergeResults` is proved against `Merged`, with its inner loop `FileUnderAll` proved
  against `AppendAll`;
- `RootMain.Aggregate` against `Run`, with its inner loop `CreateKeys` proved against `EnsureKeys`;
- `Writer.AddWrappedWords`, `AddLines` and `WritePapers` against `Chunks`, `AbstractLines` and
  `DocumentLines`;
- `Fetcher.Scan` against `Collected`;
- `Scraper.CollectEntries` against `Parsed` and `Capped`.

## Model

| member | source | states |
|---|---|---|
| AiClient.NewClient | codes/bytedance_ai_tools/bytedance_ai_client.py:6-26 | The endpoint exists exactly when AI is enabled. The default system prompt is the given one when it is non-empty, else the fixed assistant prompt, so it is never empty. |
| AiClient.Or | codes/bytedance_ai_tools/bytedance_ai_client.py:43 | `s or default`: `None` and the empty string both give the default, any other string itself. |
| AiClient.GenerateMessages | codes/bytedance_ai_tools/bytedance_ai_client.py:28-50 | A system message with the explicit or default prompt comes first, then the user message, then the additional messages in order. The length is 2 plus their count. |
| AiClient.GenerateResponse | codes/bytedance_ai_tools/bytedance_ai_client.py:52-94 | `None` when AI is off or the call fails. Otherwise the stripped reply, decoded when JSON is asked for, and `None` when decoding fails. A non-`None` result always comes from the service's answer to the generated messages. |
| AiClient.PlainResponseIgnoresParser | codes/bytedance_ai_tools/bytedance_ai_client.py:86-90 | Without JSON decoding the decoder plays no part, and the result is never a list. |
| AiClient.ResponseDependsOnSentMessages | codes/bytedance_ai_tools/bytedance_ai_client.py:75-84 | The result depends on the service only through its answer to the one message list sent. |
| Classifier.PromptTemplateLines | codes/bytedance_ai_tools/bytedance_classifier.py:5-6 | For a title and an abstract without line breaks, the prompt is exactly two lines, `Title: …` and `Abstract: …`. |
| Classifier.SystemPrompt | codes/bytedance_ai_tools/bytedance_classifier.py:8-12 | In the indexed style (this file and bytedance_ai_tools/bytedance_classifier.py) the example answer quotes the first two categories, and fewer than two categories raise `IndexError`. The fixed-example style of bytedance_classifier.py never indexes the categories and never fails. A prompt that is built is never empty. |
| Classifier.NewClassifier | bytedance_ai_tools/bytedance_classifier.py:15-22 | An empty category list fails the assertion. One category passes it but raises `IndexError` for the indexed prompt; for the fixed-example prompt of bytedance_classifier.py only the empty list fails. Otherwise the client is set up with the category prompt and the given `use_ai`. |
| Classifier.ClassifyPaper | codes/bytedance_ai_tools/bytedance_classifier.py:25-44 | The result is never `None`. It is the string "Global" when AI is off, the call fails, or decoding gives nothing. Otherwise it is the decoded, stripped answer to the templated prompt. The thread-pool variant in bytedance_ai_tools/bytedance_classifier.py and the asynchronous one in bytedance_classifier.py have the same gate and fallback. |
| Classifier.ClassifyDependsOnRequestOnly | codes/bytedance_ai_tools/bytedance_classifier.py:29-40 | The classification depends on the service only through its answer to the system prompt and the templated user message. |
| Classifier.ClassifyPaperListed | codes/bytedance_ai_tools/bytedance_classifier.py:44 | Corrected fallback: the list `["Global"]`. It agrees with `ClassifyPaper` wherever that one does not fall back. |
| Translator.NewTranslator | codes/bytedance_ai_tools/bytedance_translator.py:6-13 | The client is built with the fixed translation prompt, and its endpoint exists exactly when AI is on. |
| Translator.Translate | codes/bytedance_ai_tools/bytedance_translator.py:15-32 | The identity when AI is off or the call fails. Otherwise the stripped answer of the service to the text. The thread-pool variant in bytedance_ai_tools/bytedance_translator.py behaves the same. |
| Translator.TranslateDependsOnRequestOnly | bytedance_ai_tools/bytedance_translator.py:20-26 | The translation depends on the service only through its answer to the translation prompt and the text. |
| OrderedDict.EnsureKey | codes/main.py:116-117 | A missing key is created with an empty list at the end of the order. No list changes. |
| OrderedDict.Append | codes/main.py:116-118 | The value is appended to the key's list only. The key is created at the end of the order on first use, and the dict stays well formed. |
| OrderedDict.GetAppendAll | codes/main.py:115-118 | Appending under each name of a list adds the value to the list of `c` once per occurrence of `c`. |
| OrderedDict.AppendAllKeys | codes/main.py:115-117 | The keys afterwards are the old ones plus the names. |
| OrderedDict.AppendAllKeyOrder | codes/main.py:116-117 | The new keys follow the old ones, in the order of their first occurrence. |
| OrderedDict.FirstOccAppend | codes/main.py:113-117 | Collecting first occurrences over two runs of names is collecting them over the first, then over the second. |
| OrderedDict.TotalSizeAppendAll | codes/main.py:115-118 | Appending under `n` names stores exactly `n` more values. |
| Pipeline.FormatPapers | codes/main.py:84-88 | Same length and order. The title is copied, the url is taken from `arxiv_url`, and the abstract defaults to `''`. |
| Pipeline.ProcessPaper | codes/main.py:23-57 | The result is `(None, None)` exactly when a translation call or the classification call raises. Translation on: title and abstract are translated by separate calls and the url is copied. Translation off: the paper is unchanged. Classification sees the original text, and with classification off the labels are exactly `["others"]`. |
| Pipeline.LabelsIgnoreTranslation | codes/main.py:49-50 | How the paper is translated does not change its labels. |
| Pipeline.Enrich | codes/main.py:109 | With the repository's translator and classifier as the calls, nothing raises and the url is kept. Classification off gives `["others"]`; otherwise the classifier's answer. |
| Pipeline.LabelsOf | codes/main.py:114-115 | A surviving result yields at least one category name. |
| Pipeline.MergeResults | codes/main.py:113-118 | The merge loop computes `Merged` of the results. |
| Pipeline.FileUnderAll | codes/main.py:115-118 | The inner loop appends the paper under each category of its list, in order, creating missing keys. |
| Pipeline.SingleLabelStep | codes/main.py:114-118 | A result labelled with a one-element list `[c]` adds its paper under `c` and changes no other list. |
| Pipeline.MergedLists | codes/main.py:113-118 | Each category's list is exactly its bucket: each surviving result's paper, once per occurrence of the category in its labels, in result order. |
| Pipeline.MergedKeys | codes/main.py:113-117 | The dict is well formed. Its keys are exactly the categories of the surviving results. |
| Pipeline.MergedKeyOrder | codes/main.py:113-117 | The keys, in the order `write_papers` prints them, are the surviving results' categories in the order they first occur across the results. |
| Pipeline.MergedTotal | codes/main.py:113-118 | The total number of entries equals the sum of the label-list lengths of the surviving results. |
| Pipeline.FailedResultAddsNothing | codes/main.py:114 | A `(None, None)` result or an empty label list adds no key and no paper. |
| Pipeline.MergedSingle | codes/main.py:115-118 | A single surviving result is filed under each of its categories, in order. |
| Pipeline.LettersOfGlobal | codes/main.py:115-117 | The letters of "Global" create the keys "G", "l", "o", "b", "a", in that order. |
| Pipeline.LetterCounts | codes/main.py:115-118 | The letters of "Global" name "l" twice and never "Global". |
| Pipeline.GlobalCharacters | codes/main.py:115 | Iterating the string "Global" yields its six one-letter strings. |
| Pipeline.LettersDict | codes/main.py:115-118 | Filing one paper under those letters gives the keys in first-occurrence order, the paper twice under "l", and nothing under "Global". |
| Pipeline.GlobalStringFiledUnderLetters | codes/main.py:115 | A result labelled with the string "Global" is filed under "G", "l", "o", "b" and "a", twice under "l", and never under "Global". |
| Pipeline.FallbackFiledUnderLetters | codes/bytedance_ai_tools/bytedance_classifier.py:44 | When the classification call fails, the fallback string is filed under its letters. |
| Pipeline.ListedFallbackFiledUnderGlobal | codes/main.py:113-118 | With the corrected fallback, such a paper is filed once, under "Global" alone. |
| Pipeline.EnrichAll | codes/main.py:109 | One result per paper, in input order. |
| Pipeline.Categorize | codes/main.py:84-118 | Formatting, enrichment and merge compose to `Merged` of the enriched formatted papers. |
| Pipeline.AllOthersMerged | codes/main.py:52 | Results that all carry `["others"]` are filed in order under that single key. |
| Pipeline.ClassificationOffFilesUnderOthers | codes/main.py:49-52 | With classification off, every paper is filed exactly once, under "others", in input order, keeping its url. With translation also off, each paper is filed unchanged. |
| RootMain.EnsureKeysEffect | main.py:20-22 | The inner loop creates a key for every category iterated. It changes no list. |
| RootMain.EnsureKeysTotal | main.py:20-22 | The inner loop stores nothing. |
| RootMain.CreateKeys | main.py:20-22 | The inner loop creates the missing keys of the list without changing a list. Afterwards the loop variable holds the list's last category, or its old value when the list is empty. |
| RootMain.Aggregate | main.py:16-23 | The nested loop returns the dict `Run` computes, or the exception `Run` raises. |
| RootMain.RunErrSticky | main.py:18-23 | An exception ends the script, so later papers change nothing. |
| RootMain.RunStopped | main.py:18-23 | Once a paper raises, the outcome of the whole run is the outcome up to that paper. |
| RootMain.StepOk | main.py:19-23 | One paper succeeds exactly when its classification is iterable and either its list is non-empty or an earlier paper bound `category`. |
| RootMain.RunCategory | main.py:20-23 | The loop variable always holds the last category iterated so far. |
| RootMain.RunSucceeds | main.py:18-23 | The script succeeds exactly when every classification is iterable and the first paper's list is non-empty. |
| RootMain.EmptyFirstListUnbound | main.py:20-23 | An empty first list makes the append read an unbound `category`. |
| RootMain.RunKeys | main.py:20-22 | The keys are exactly the categories iterated. |
| RootMain.EnsureKeysKeyOrder | main.py:20-22 | The inner loop adds the names the dict lacks, in the order they first occur. |
| RootMain.RunKeyOrder | main.py:18-23 | The keys are the categories iterated, in the order of their first occurrence; the append never creates a key. |
| RootMain.RunLists | main.py:23 | Each title goes once, in paper order, under the last category iterated up to its paper, and under no other. |
| RootMain.RunTotal | main.py:18-23 | The dict holds exactly one title per paper. |
| RootMain.EnsureKeysTwo | main.py:20-22 | For two different categories, the inner loop creates both keys, in order, each with an empty list. |
| RootMain.LastCategoryOnly | main.py:23 | A paper classified `[a, b]` with `a != b` is filed under `b` alone, and `a` keeps an empty list. |
| RootMain.FiledEachSucceeds | main.py:18-23 | The corrected loop fails only on a non-iterable classification. |
| RootMain.FiledEachLists | main.py:20-23 | Under the corrected loop, each category's list holds each title once per occurrence of the category in that paper's list. |
| RootMain.FiledEachBothCategories | main.py:23 | The corrected loop files a paper classified `[a, b]` with `a != b` under both `a` and `b`. |
| Writer.Quoted | codes/markdown/writer.py:56-60 | One line per chunk: the quote prefix, then the chunk's words joined by blanks. |
| Writer.AddWrappedWords | codes/markdown/writer.py:48-60 | The wrapping loop appends exactly the quoted chunks of the line's words. |
| Writer.AddLine | codes/markdown/writer.py:47-62 | A line is wrapped when it is longer than 200 characters, and otherwise quoted as it is. |
| Writer.AddLines | codes/markdown/writer.py:46-62 | The loop appends each line's output in order. |
| Writer.AddAbstractLines | codes/markdown/writer.py:37-62 | `_add_abstract_lines` appends exactly the output of the abstract's `'\n'`-separated lines, in order. |
| Writer.WrapKeepsWords | codes/markdown/writer.py:51-58 | The emitted chunks and the current one spell the words read so far: none lost, duplicated or reordered. |
| Writer.ChunksKeepWords | codes/markdown/writer.py:48-60 | The chunks of a long line, read in order, are exactly `line.split()`. |
| Writer.WrapLineKeepsWords | codes/markdown/writer.py:48-60 | Splitting the text of every emitted chunk again gives back `line.split()` in order. |
| Writer.WrapBudget | codes/markdown/writer.py:52-58 | The length counter keeps its meaning, and every emitted chunk fits the budget. |
| Writer.ChunkWidths | codes/markdown/writer.py:52-58 | The first chunk has at most 199 characters. Every later chunk is non-empty and, unless it is a single word, has at most 200. |
| Writer.EmptyFirstChunk | codes/markdown/writer.py:51-56 | A long line yields no chunk only when it has no words. Its first chunk is empty, so a bare `"  > "` is emitted, exactly when its first word has 200 or more characters. |
| Writer.AbstractBlockSplit | codes/markdown/writer.py:45-46 | The abstract is handled line by line: the first line's output comes first. |
| Writer.ShortAbstract | codes/markdown/writer.py:61-62 | A one-line abstract of at most 200 characters is emitted verbatim behind `"  > "`. |
| Writer.AbstractBlockQuoted | codes/markdown/writer.py:45-62 | Every output line of an abstract starts with `"  > "`. |
| Writer.AddPaper | codes/markdown/writer.py:28-30 | A paper contributes its link line, its abstract lines and a blank line. |
| Writer.AddPapers | codes/markdown/writer.py:27-30 | A category's papers are written in list order. |
| Writer.AddCategory | codes/markdown/writer.py:25-30 | A category contributes its `"\n## category"` heading, then its papers' lines. |
| Writer.WritePapers | codes/markdown/writer.py:16-33 | The text is the header, then per category in dict order a heading and its papers, all joined with `"\n"`. |
| Writer.DocumentHeadings | codes/markdown/writer.py:21-30 | The report has exactly one `"\n## category"` line per category, in the dict's order, and no other line starting with a newline. |
| Writer.CategoriesHeadings | codes/markdown/writer.py:25-26 | The category blocks' headings are the categories', in order. |
| Writer.PapersNoHeadings | codes/markdown/writer.py:27-30 | No line of a paper looks like a heading. |
| Fetcher.SortCriterionOf | url_tools/arxiv_fetcher.py:14-22 | "relevance" and "relevant" map to Relevance. "submittedDate" and "submitted" map to SubmittedDate. Every other string, including "lastUpdatedDate" and "last", maps to LastUpdatedDate. |
| Fetcher.NewFetcher | url_tools/arxiv_fetcher.py:6-26 | Fails exactly when the query is empty. Otherwise it keeps the size, the query and the mapped sort order. |
| Fetcher.StartDate | url_tools/arxiv_fetcher.py:30-31 | The window starts `days` whole days before its end. |
| Fetcher.ToPaper | url_tools/arxiv_fetcher.py:46-52 | Title, abstract, authors, publication time and url are copied from the result. |
| Fetcher.Scan | url_tools/arxiv_fetcher.py:40-55 | The loop with `break` computes `Collected`. |
| Fetcher.GetRecentPapers | url_tools/arxiv_fetcher.py:28-55 | Sends the configured search and keeps `Collected` of its results for the window ending now. |
| Fetcher.GetRecentPapersFixed | arxiv_fetcher.py:8-35 | The same scan, over the fixed search: "cat:cs.CL", 10 results, newest submissions first. |
| Fetcher.ScanEnd | url_tools/arxiv_fetcher.py:43-44 | The index of the first result older than the window, or the end. |
| Fetcher.CollectedIsFilteredPrefix | url_tools/arxiv_fetcher.py:41-45 | The scan is a take-while (not older than the start) followed by a filter (not after the end). |
| Fetcher.CollectedInWindow | arxiv_fetcher.py:23-25 | Every paper returned was published within `[start, end]` and copies one of the results. |
| Fetcher.CollectedComplete | url_tools/arxiv_fetcher.py:45-53 | Every result before the stop and not after the end is returned. |
| Fetcher.StopsAtOldResult | arxiv_fetcher.py:23-24 | Nothing after a result older than the window is returned, even if it lies in the window. |
| Fetcher.FutureResultSkipped | url_tools/arxiv_fetcher.py:45 | A future-dated result is skipped without stopping the scan. |
| Scraper.GetAbstract | codes/url_tools/arxiv_latest.py:112-142 | Returns the non-empty citation content, stripped. Failing that, the blockquote text without "Abstract:", stripped. Otherwise, or when the request fails, "N/A". |
| Scraper.ParseEntry | codes/url_tools/arxiv_latest.py:50-104 | An entry is skipped exactly when it has no Abstract link, has a PDF link without `href`, or has no meta div. The id is the stripped link text without "arXiv:", and the arXiv url is built from it. The PDF url is `base + href`, or none. The title and the subjects lose their labels and are stripped; the primary subject is only stripped. Each is "N/A" when absent. The authors are stripped. In url_tools/arxiv_latest.py the abstract is the stripped `p.mathjax` text, or "N/A". |
| Scraper.IdFromArxivLink | codes/url_tools/arxiv_latest.py:51-98 | A link reading `arXiv:<n>` gives the id `<n>` and the url `https://arxiv.org/abs/<n>`, when `<n>` does not end in whitespace and does not contain "arXiv:". |
| Scraper.Stripped | codes/url_tools/arxiv_latest.py:74-75 | Each author text is stripped; order and count are kept. |
| Scraper.Zip | codes/url_tools/arxiv_latest.py:46 | The entries pair terms and descriptions position by position, up to the shorter list. |
| Scraper.Record | codes/url_tools/arxiv_latest.py:90-100 | One entry adds at most one record. |
| Scraper.Capped | codes/url_tools/arxiv_latest.py:47-48 | A prefix of the records. With a non-zero cap it has at most cap records (none for a negative cap); `None` or 0 means no cap. |
| Scraper.CollectEntries | codes/url_tools/arxiv_latest.py:46-104 | The entry loop returns the capped records of the entries that are not skipped, in entry order. |
| Scraper.GetLatestPapers | codes/url_tools/arxiv_latest.py:14-110 | Returns nothing when the request fails or `div#dlpage` or `dl#articles` is missing. Otherwise the capped records of `dl#articles`, with abstracts fetched from each paper's page. |
| Scraper.GetLatestPapersFromListing | url_tools/arxiv_latest.py:14-108 | Returns nothing when the request fails or `div#dlpage` is missing. Otherwise the capped records of `div#dlpage`, with abstracts taken from the listing. |
| Scraper.ParsedAppend | url_tools/arxiv_latest.py:42-102 | Records are produced entry by entry: two runs of entries give the records of each, in order. |
| Scraper.ParsedFromEntries | codes/url_tools/arxiv_latest.py:90-100 | Every record comes from an entry that was not skipped, and its arXiv url is its abstract page. |
| Scraper.ParsedCount | url_tools/arxiv_latest.py:48-50 | There are never more records than entries, and none when no entry has an Abstract link. |
| Text.SplitOnJoin | codes/markdown/writer.py:45 | No piece of `split('\n')` holds a line break, and joining the pieces with it restores the abstract. |
| Text.WordsKeepNonSpace | codes/markdown/writer.py:48 | `split()` loses only whitespace: its words, concatenated, are the non-space characters of the line. |
| Text.WordsOfJoin | codes/markdown/writer.py:56 | Joining whitespace-free words with blanks and splitting again gives the words back. |
| Text.RemoveAllAbsent | codes/url_tools/arxiv_latest.py:55 | Removing a pattern that does not occur changes nothing. |
| Text.RemoveAllLeading | codes/url_tools/arxiv_latest.py:55 | A leading "arXiv:" is removed: the rest is treated as if it were not there. |
| Text.StripPrefixed | codes/url_tools/arxiv_latest.py:55 | A text that starts and ends with a non-space character is unchanged by `strip()`. |
| Text.StripRemoveLeading | codes/url_tools/arxiv_latest.py:55 | Stripping `pat + n` and removing `pat` leaves `n`, when the text is trimmed and `pat` does not occur in `n`. |
| Text.JoinLength | codes/markdown/writer.py:56 | A joined text is as long as its pieces plus one separator between each two. |
| Values.Iterate | codes/main.py:115 | Iterating `None` fails. A list yields its items, and a string yields its characters one by one. |
| Values.TruthyIffNonEmptyIteration | codes/main.py:114-115 | A label value is truthy exactly when iterating it succeeds and yields something. |

## Left out

- The thread pool of codes/main.py and the thread pools and event loops of the classifiers and
  translators are concurrency and are not modelled. `executor.map` returns the results in input
  order, so the merge is modelled as one sequential pass over them.
- HTTP requests, HTML parsing, the `arxiv` client and the Ark chat SDK are parameters. A listing
  entry is taken as its already located elements. `find` returning the first match, and the texts
  BeautifulSoup extracts, are not modelled.
- `json.loads` is the parameter `parse`. Only `None`, a string and a list of strings are
  modelled as decoded shapes; numbers, objects and nested lists are not.
- `Classifier.SystemPrompt`: the list is rendered as `['a', 'b']`, without `repr`'s choice of
  quotes and without its escaping (quotes, backslashes, control and non-printable characters).
- `datetime.now`, time zones and `strftime` are left out. The header's dates and the record's
  date are ready-formatted strings, and publication times are whole seconds.
- Writing the report file is left out: `Writer.WritePapers` returns the text it would write.
  Loading the YAML configuration, argument parsing, `print`, `exit(1)` and the demonstration
  blocks are also left out.
- The in-place appends to `markdown_output`, `messages` and `papers` are modelled as sequences
  passed in and returned. Python list aliasing is therefore not modelled.
- `AiClient.GenerateMessages`: modelled as a function. `extend` on a freshly built list has no
  observable aliasing.
- The top-level main.py builds its classifier without `classify_types`, so the assertion always
  fails (`Classifier.NewClassifier` with an empty list). Its `classify_paper` is asynchronous, so
  the script would iterate a coroutine. `RootMain` therefore takes each paper's classification as
  a given value.
- The scraping loop catches any exception while parsing an entry. The only one the modelled
  fields can raise is the `KeyError` of a PDF link without `href`. Other parse failures of the
  HTML library are not modelled.
- `Fetcher.Collected`: the API's `max_results` and paging are part of the `results` parameter.

## Findings

| source | as written | input that shows it | evidently intended | confidence | as-written member | corrected member |
|---|---|---|---|---|---|---|
| main.py:23 | The append is outside the inner loop, so each title goes only under the last category of its list. An empty first list raises UnboundLocalError. | one paper "A" classified `[a, b]` with `a != b`, such as `["x", "y"]`: `a` gets `[]`, `b` gets `["A"]` | The title is appended under every category of its list. | not executed | RootMain.LastCategoryOnly | RootMain.FiledEachLists |
| codes/bytedance_ai_tools/bytedance_classifier.py:44 | The fallback is the string "Global", which codes/main.py:115 iterates letter by letter. | classification call fails: the paper is filed under "G", "l", "o", "b", "a" (twice under "l") and not under "Global" | The fallback is the category list `["Global"]`. | not executed | Pipeline.FallbackFiledUnderLetters | Pipeline.ListedFallbackFiledUnderGlobal |
