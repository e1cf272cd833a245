# podcast-agent, modelled in Dafny

podcast-agent collects the day's new videos from a few YouTube channels and
hands their URLs to a NotebookLM notebook that it drives through a browser.
It then mails a report. A separate path writes a two-host podcast script
from caption text. The model covers the decision logic under the browser,
network and file glue. Every page call, feed read, HTTP request, caption
fetch, file read and clock reading is an input: an oracle function, a value
or a sequence.

One module per source file:

- `Common.dfy` holds the shared pieces. These are optional values, the outcome
  of a call that may raise (`Outcome`), JSON values, and the Python string
  operations the code relies on: `lower`, `strip`, `in`, `join`, `split` and
  `str(int)`.
- `BrowserCookies.dfy` is the lenient cookie rewrite that
  `BrowserFactory._inject_cookies` (lib/browser_utils.py) applies before
  injection.
- `CookieImport.dfy` is the strict rewrite of `import_cookies_from_json`
  (import_cookies.py). It also shows that the injector reads an imported
  cookie exactly as it reads the raw export.
- `Research.dfy` is the feed collector of research_agent.py. It covers:
  - channel-id resolution, with three patterns tried in order;
  - the id cache written back into `CHANNELS`, a class field here;
  - the 24-hour closed window over the first ten feed entries;
  - the caption path.
- `Synthesis.dfy` is the prompt and local-script builders of
  synthesis_agent.py, with their truncation rules.
- `DebugHtml.dfy` is `ButtonParser` of analyze_debug_html.py, as a class whose
  handlers match a pure step function over tokenizer events.
- `NotebookAgent.dfy` is the driver logic of notebooklm_agent.py:
  - the first-selector probe;
  - the source dialog and its 24-cycle poll;
  - notebook deletion and creation;
  - the studio panel;
  - the agent class, whose `Run` composes the result dictionary and always
    ends in `close`.
- `Orchestrator.dfy` is main.py:
  - `run_once`, its early returns and the report mail;
  - the 06:00 schedule;
  - the exception-tolerant daily loop.

Two facts about the agent are proved as the code has them, not as intended:

- `generate_audio_overview` returns True whenever it returns.
- `run` calls `self.get_share_link()`, which the class does not define. The
  run therefore never reports success; see "Findings".

## Model

| member | source | states |
|---|---|---|
| Common.Lower | lib/browser_utils.py:59 | `lower()` keeps the length, lower-cases each ASCII capital and leaves every other character; no capital remains |
| Common.LowerIdempotent | lib/browser_utils.py:59 | lower-casing twice is lower-casing once |
| Common.StripLeft | notebooklm_agent.py:266 | the result is a suffix; everything cut is whitespace; it does not start with whitespace |
| Common.StripRight | analyze_debug_html.py:42 | the result is a prefix; everything cut is whitespace; it does not end with whitespace |
| Common.StripPadded | analyze_debug_html.py:42 | stripping a text padded with one blank on each side gives the text back |
| Common.SplitJoinLines | notebooklm_agent.py:468 | newline-free lines joined by "\n" split back into the same lines |
| Common.NatToString | main.py:100 | `str(n)` is a non-empty string of decimal digits with no leading zero |
| Common.NatToStringRoundTrip | main.py:100 | reading the decimal digits of `str(n)` back gives n |
| BrowserCookies.SameSiteFor | lib/browser_utils.py:59-67 | the result is one of None/Lax/Strict; "None" exactly for the four aliases; "Strict" exactly when no alias, no "lax" and "strict" is contained |
| BrowserCookies.SanitizedCookie | lib/browser_utils.py:56-72 | sameSite holds the mapped value, id/storeId/hostOnly are gone, every other field is copied unchanged, and no field is added |
| BrowserCookies.LowerAccepted | lib/browser_utils.py:59-67 | each accepted value maps onto itself |
| BrowserCookies.SanitizeIdempotent | lib/browser_utils.py:55-74 | sanitising a sanitised cookie changes nothing |
| BrowserCookies.LaxBeforeStrict | lib/browser_utils.py:62-65 | a value containing both "lax" and "strict" becomes "Lax" |
| BrowserCookies.RelaxedIsLax | lib/browser_utils.py:62-63 | "Relaxed" holds "lax" as a substring and becomes "Lax" |
| BrowserCookies.StrictLaxIsLax | lib/browser_utils.py:62-63 | "Strict_Lax" becomes "Lax" because "lax" is tried first |
| BrowserCookies.UpperUnspecifiedIsNone | lib/browser_utils.py:59-61 | "UNSPECIFIED" becomes "None": the test is case-insensitive |
| BrowserCookies.DefaultLax | lib/browser_utils.py:66-67 | no alias, no "lax" and no "strict" gives the default "Lax" |
| BrowserCookies.UnknownDefaultsToLax | lib/browser_utils.py:66-67 | "whatever" gives "Lax" |
| BrowserCookies.SanitizeItem | lib/browser_utils.py:56-74 | one pass of the loop (copy, rewrite sameSite, delete the three fields one by one) computes the sanitised cookie, and raises on a non-object or a non-string sameSite |
| BrowserCookies.SanitizeCookies | lib/browser_utils.py:54-74 | succeeds iff every item sanitises; the output has the input's length and order, item i being item i sanitised |
| BrowserCookies.InjectCookies | lib/browser_utils.py:46-82 | missing file iff skipped; nothing injected iff no or empty `cookies`; injected iff every cookie sanitises and `add_cookies` succeeds, with the sanitised list |
| CookieImport.FixCookie | import_cookies.py:26-31 | exactly "unspecified" becomes "None"; `id` is removed; every other field is kept unchanged; none added |
| CookieImport.ImportCookies | import_cookies.py:16-36 | a state is produced iff the text parsed to a list of objects; it is `{cookies, origins: []}` with each cookie fixed, same length and order |
| CookieImport.FixCookieIdempotent | import_cookies.py:26-31 | the strict rule applied twice is the rule applied once |
| CookieImport.StrictAndLenientDiffer | import_cookies.py:27 | "Unspecified" is kept by the strict rule but becomes "None" under the lenient one |
| CookieImport.AbsorbsUnspecified | import_cookies.py:27-28 | a cookie with "unspecified" sanitises the same whether imported or raw |
| CookieImport.AbsorbsOther | import_cookies.py:30-31 | any other cookie sanitises the same whether imported or raw |
| CookieImport.InjectorAbsorbsImport | import_cookies.py:26-31 | the injector reads every imported cookie exactly as the raw export |
| Research.ResolveChannelId | research_agent.py:53-76 | None iff the page fetch failed or no pattern matched; otherwise the first matching pattern's capture, in the fixed order |
| Research.Cached | research_agent.py:142-148 | handle and name kept; a cached id is kept; the entry holds an id iff it had one or resolution found one |
| Research.RecentAppend | research_agent.py:90-104 | filtering two stretches of a feed is filtering each, in order |
| Research.RecentSingle | research_agent.py:92-102 | an entry before the cutoff is skipped; one inside the window raises when it lacks a title or a video id, and is otherwise kept as a watch-URL record |
| Research.RecentSound | research_agent.py:87-102 | every kept record is inside the window, has the channel name and the watch URL of its id; no entry inside the window is dropped, and every entry inside the window has a title and a video id |
| Research.GetRecentVideosFromRss | research_agent.py:79-104 | the loop computes the filter of the first ten entries with cutoff `now - hours` |
| Research.ExtractTranscript | research_agent.py:107-126 | some text exactly on a successful fetch, the snippets joined by blanks; every failure gives None |
| Research.CaptionedSound | research_agent.py:156-165 | every kept video carries its non-empty caption and its length; every video with caption text is kept; nothing else is added |
| Research.ChannelsAfter | research_agent.py:138-148 | the channel list keeps its length |
| Research.CollectAppend | research_agent.py:181-199 | the result for a concatenation of channel lists is the concatenation of the results |
| Research.SkippedChannel | research_agent.py:184-189 | a channel without id whose resolution fails is skipped and the rest still collected |
| Research.CacheFilled | research_agent.py:142-148 | after a collection every channel whose id could be found holds it |
| Research.CachedIgnoresPages | research_agent.py:184-185 | channels that all hold an id never consult the channel pages and stay unchanged |
| Research.ConfiguredNeverResolves | research_agent.py:40-44 | the configured channels all carry ids, so no page is read and the list stays as configured |
| Research.TwoChannelsOneUnresolved | research_agent.py:181-199 | an unresolvable first channel is skipped and the second one's video is the result |
| Research.ChannelRegistry.KeepCaptioned | research_agent.py:156-165 | the caption loop keeps exactly `Captioned` of the videos |
| Research.ChannelRegistry.ChannelStep | research_agent.py:184-193 | one channel iteration yields the cached entry and the channel's part |
| Research.ChannelRegistry.CollectChannels | research_agent.py:138-167 | the channel loop returns `Collect` of the list and the list with ids written back |
| Research.ChannelRegistry.CollectVideos | research_agent.py:138-199 | the field becomes `ChannelsAfter` of the old list; the result is `Collect` |
| Research.ChannelRegistry.GetRecentVideoUrls | research_agent.py:170-199 | URL-only collection, with the cache update |
| Research.ChannelRegistry.GetRecentVideosWithTranscripts | research_agent.py:129-167 | caption collection, with the cache update |
| Synthesis.PromptTranscript | synthesis_agent.py:59-60 | at most 8000 characters: unchanged; longer: the first 8000 plus the suffix; never longer than 8000 plus the suffix |
| Synthesis.PromptTranscriptIdempotent | synthesis_agent.py:59-60 | cutting a cut transcript changes nothing |
| Synthesis.SectionList | synthesis_agent.py:51-69 | one section per video |
| Synthesis.SectionListAt | synthesis_agent.py:52-62 | section k is video k numbered start + k |
| Synthesis.SectionListAppend | synthesis_agent.py:52 | numbering continues across a concatenation |
| Synthesis.SectionBody | synthesis_agent.py:54-67 | a missing or empty file shows the placeholder; a present one shows the cut transcript; at most 8012 characters |
| Synthesis.SectionNumbered | synthesis_agent.py:62 | a section starts with its heading, whose number reads back as i |
| Synthesis.BuildVideoSections | synthesis_agent.py:47-71 | the loop returns the sections joined by "\n---\n" |
| Synthesis.PromptRecoversSections | synthesis_agent.py:22-44 | the sections are exactly the text between the template's fixed head and tail |
| Synthesis.GenerateScriptWithPrompt | synthesis_agent.py:74-84 | the result is the filled template |
| Synthesis.Excerpt | synthesis_agent.py:110-113 | at most 1000: verbatim; longer: length 800 plus the marker, the first 500 and the last 300 characters kept |
| Synthesis.ExcerptIdempotent | synthesis_agent.py:110-113 | an excerpt is quoted whole |
| Synthesis.RenderAll | synthesis_agent.py:94-133 | one text per script line |
| Synthesis.RenderAllAppend | synthesis_agent.py:133 | rendering distributes over concatenation |
| Synthesis.VideoLinesShape | synthesis_agent.py:101-119 | a video has 5 lines with a file and 3 without, starting with its heading and its channel line |
| Synthesis.AllVideoLinesAppend | synthesis_agent.py:100 | numbering of the video blocks continues across a concatenation |
| Synthesis.AllVideoLinesCount | synthesis_agent.py:100-119 | the video part has 3 lines per video plus 2 per transcript file |
| Synthesis.VideoHeadingAt | synthesis_agent.py:100-102 | video k's block begins with heading number start + k and its channel line |
| Synthesis.LocalScriptShape | synthesis_agent.py:95-131 | 4 opening and 9 closing lines; both counts are len(videos); the prompt sits between two fences at the end |
| Synthesis.LocalScriptVideoLines | synthesis_agent.py:100-119 | the video lines follow the opening unchanged |
| Synthesis.GenerateLocalScript | synthesis_agent.py:87-133 | the loop returns the rendered lines joined by newlines |
| Synthesis.GeneratePodcast | synthesis_agent.py:142-170 | nothing is written iff there are no videos; otherwise the script goes to `podcast_script_<stamp>.md` |
| DebugHtml.ToDictKeys | analyze_debug_html.py:22 | the keys are the attribute names, and a repeated name keeps its last value |
| DebugHtml.IsButtonLikeCases | analyze_debug_html.py:24-29 | raises iff neither tag nor role decides and `class` has no value; accepts iff button tag, button role, or a class string containing a marker |
| DebugHtml.RunGrows | analyze_debug_html.py:37-44 | records are only appended: the old list is a prefix |
| DebugHtml.RunBound | analyze_debug_html.py:31-44 | records plus the open element never exceed the button-like start tags seen |
| DebugHtml.RecordsBounded | analyze_debug_html.py:31-44 | from a fresh parser, records never outnumber button-like start tags |
| DebugHtml.RunTags | analyze_debug_html.py:31-44 | every record's tag is that of a button-like start tag |
| DebugHtml.RecordTagsFromStarts | analyze_debug_html.py:31-40 | from a fresh parser, every record's tag is that of a button-like start tag |
| DebugHtml.IgnoredEvents | analyze_debug_html.py:37-48 | data outside a button and a non-matching end tag change nothing; a matching end tag appends the stripped record and closes |
| DebugHtml.SubstringClassMatches | analyze_debug_html.py:29 | "prefabricated" matches the "fab" marker |
| DebugHtml.ValuelessClass | analyze_debug_html.py:24-29 | a value-less class raises unless the tag or the role already decided |
| DebugHtml.NestedElementText | analyze_debug_html.py:46-48 | a nested ordinary element only adds its text |
| DebugHtml.InnerButtonTakesOver | analyze_debug_html.py:31-35 | a button-like tag inside an open one resets the text and takes over the record |
| DebugHtml.ButtonElementRecorded | analyze_debug_html.py:31-44 | a button-like element with text is recorded with its tag, attributes and stripped text |
| DebugHtml.RecordTextStripped | analyze_debug_html.py:42 | `<button> Add </button>` records "Add" |
| DebugHtml.ButtonParser.constructor | analyze_debug_html.py:13-19 | the parser starts closed, with no tag, attributes, text or records |
| DebugHtml.ButtonParser.HandleStartTag | analyze_debug_html.py:21-35 | raises iff the step raises (state unchanged); otherwise the state is the step's |
| DebugHtml.ButtonParser.HandleEndTag | analyze_debug_html.py:37-44 | the state is the end-tag step's |
| DebugHtml.ButtonParser.HandleData | analyze_debug_html.py:46-48 | the state is the data step's |
| DebugHtml.ButtonParser.Feed | analyze_debug_html.py:21-48 | feeding events gives the state and raise flag of `Run` |
| NotebookAgent.FirstSuccess | notebooklm_agent.py:106-138 | an index found is inside the list |
| NotebookAgent.FirstSuccessSpec | notebooklm_agent.py:106-138 | the index is the least working selector, and there is none iff no selector works |
| NotebookAgent.Probe | notebooklm_agent.py:106-138 | True iff some selector works; tries the selectors in order and none after the first success |
| NotebookAgent.PollFrom | notebooklm_agent.py:522-553 | a poll result is 0 or len(urls) |
| NotebookAgent.Poll | notebooklm_agent.py:521-553 | the 24-cycle loop with its `for`-`else` returns `PollFrom(0, …)` |
| NotebookAgent.PollCauses | notebooklm_agent.py:527-550 | 0 only after an error seen with the overlay open; a raise only from the overlay query; no close and no error means optimistic success |
| NotebookAgent.AddSources | notebooklm_agent.py:409-553 | the result is `AddSourcesOutcome`; the fill, when reached, carries all URLs joined by newlines |
| NotebookAgent.AddSourcesAllOrNothing | notebooklm_agent.py:440-553 | the count is 0 or every URL, and positive only when all four probes succeeded |
| NotebookAgent.FillCarriesAllUrls | notebooklm_agent.py:468-490 | the fill text splits back into the URLs, in order |
| NotebookAgent.ScanTitles | notebooklm_agent.py:263-300 | a deleted title is deletable (it matches, its parent lookup at line 273 returns, its menu opens and both probes succeed), with no earlier title deletable or aborting |
| NotebookAgent.ScanReachesDeletable | notebooklm_agent.py:263-300 | a deletable title with no aborting title before it is reached: it or an earlier one is deleted |
| NotebookAgent.ParentLookupHarmlessWhenFound | notebooklm_agent.py:273 | when every parent lookup returns, the scan as written and the scan without the lookup delete the same title |
| NotebookAgent.DeleteAsWrittenNeverDeletes | notebooklm_agent.py:263-306 | when no parent lookup returns, the deletion as written deletes nothing |
| NotebookAgent.IntendedDeletesFirstMatch | notebooklm_agent.py:263-300 | with the same handles, the scan without the unused lookup deletes a deletable title or an earlier one, where the scan as written deletes none |
| NotebookAgent.DeleteExistingNotebook | notebooklm_agent.py:230-306 | the loop, including the parent lookup of each matching title, deletes the title `DeleteExisting` names and never raises |
| NotebookAgent.NameMatchIgnoresCaseAndBlanks | notebooklm_agent.py:264-267 | a visible title " Daily New " matches the name "daily new" |
| NotebookAgent.HiddenTitleSkipped | notebooklm_agent.py:264 | a hidden title is neither deleted nor aborts the scan, with or without the parent lookup |
| NotebookAgent.CreateNewNotebook | notebooklm_agent.py:308-345 | True iff some create selector works; a rename failure does not matter |
| NotebookAgent.RecreateNotebook | notebooklm_agent.py:213-228 | a failed home navigation raises; otherwise the result is the create probe's, and deletion does not affect it |
| NotebookAgent.SignInPageFails | notebooklm_agent.py:203-205 | landing on the sign-in site is a failed navigation |
| NotebookAgent.OpenStudioPanel | notebooklm_agent.py:586-635 | the result is whether either text wait succeeds; the guide probe runs iff the `tune` scan did not click |
| NotebookAgent.GenerateAudioOverview | notebooklm_agent.py:555-579 | whenever it returns, it returns True; it raises iff a window is shown and Enter cannot be read |
| NotebookAgent.RunNeverSucceeds | notebooklm_agent.py:835-845 | as written, `success` is never True; audio prepared implies all sources added and the created notebook's URL |
| NotebookAgent.RunIntendedSucceeds | notebooklm_agent.py:777-839 | with the defined share-link method, success iff every stage succeeds, and then all sources and the page URL |
| NotebookAgent.RunResultShape | notebooklm_agent.py:807-845 | the count is 0 or every URL; a URL is reported iff the notebook was recreated; success implies audio and sources |
| NotebookAgent.NotebookLMAgent.constructor | notebooklm_agent.py:144-149 | name, headless flag and page selectors set, nothing open |
| NotebookAgent.NotebookLMAgent.Start | notebooklm_agent.py:151-178 | succeeds iff no step fails; a failing step leaves the earlier resources open |
| NotebookAgent.NotebookLMAgent.Close | notebooklm_agent.py:181-192 | driver and context are closed; references stay |
| NotebookAgent.NotebookLMAgent.Run | notebooklm_agent.py:796-848 | every path ends closed; the result is `RunAsWritten` |
| Orchestrator.Urls | main.py:74 | the URLs of the videos, in order |
| Orchestrator.SuccessSubjectCount | main.py:100 | the success subject's count reads back as len(video_urls) |
| Orchestrator.VideoListLines | main.py:91 | one list line per video, in order |
| Orchestrator.VideoListRecoversLines | main.py:91-103 | the video list splits back into one line per video |
| Orchestrator.ReportMail | main.py:93-120 | the mail's success flag is the result's; the subject is the count subject on success and the fixed one otherwise |
| Orchestrator.RunOnce | main.py:45-129 | research raising gives False and no mail; no videos gives True and no mail; otherwise the URLs go to the agent, the result is its `success` (proved False) and the failure mail is composed |
| Orchestrator.NextTarget | main.py:141-145 | the next 06:00 is strictly after now and at most a day later, so 0 < wait ≤ 24h |
| Orchestrator.NextTargetIsEarliest | main.py:141-143 | no 06:00 lies between now and the target |
| Orchestrator.WaitUntil | main.py:151-152 | stops at the first reading at or after the target; none otherwise |
| Orchestrator.LoopReportsSpec | main.py:137-162 | every round up to the first unfinished wait completes with its target and flag |
| Orchestrator.RunRound | main.py:138-160 | a round completes iff its wait ends, a raise recorded as no flag |
| Orchestrator.RunLoop | main.py:132-162 | the loop returns `LoopReports` of the rounds |
| Orchestrator.OutcomesDoNotStopLoop | main.py:155-160 | what `run_once` does, raise included, changes neither the rounds run nor their targets |

## Left out

- Browser, network, feed reader, caption service, file system and SMTP: all oracles or parameters. The debug HTML dumps (`_dump_debug`), the JSON and result files main.py writes, the state file's parsing and the `print` patch are not modelled.
- Common.Lower: folds only the ASCII capitals; Python's `str.lower` also folds other scripts, and no cookie or notebook name in the system needs them.
- Common.StripLeft: `IsSpace` lists Python's whitespace characters but the model does no Unicode normalisation.
- JSON objects are maps, so key order (which `json.dump` would keep) is not modelled.
- Research.GetRecentVideosFromRss: timestamps are whole seconds since the epoch and `now` is a parameter; the ISO-8601 string of `published` is kept as the integer, and the microseconds of `datetime.now` are dropped.
- Research.ResolveChannelId: the three regular expressions are abstract matchers tried in order; their regex semantics are not modelled.
- Synthesis.GeneratePodcast: the dates (`strftime`) are parameters, and the file write is returned as a (path, contents) pair.
- `video.get('channel', 'N/A')` in synthesis_agent.py: a collected video always has a channel, so the default is not modelled.
- `StealthUtils` delays, typing and mouse moves, and every `time.sleep`.
- The deprecated `_click_audio_entry_btn`, `_confirm_generation`, `_check_if_audio_exists` and `_wait_for_audio_generation`: no live path reaches them.
- The lock-file cleanup in `start`: file I/O whose failure is caught.
- `_find_existing_notebook`: no live path calls it. `_dismiss_overlay`: modelled as having no effect on the decisions, since it never raises.
- The JavaScript `closest(...)` search for a title's menu button (notebooklm_agent.py:279-286): `menuOpens` says whether the click it leads to succeeds.
- The element-handle API of the browser automation library: whether `title_el.xpath('..')` (notebooklm_agent.py:273) returns is the oracle `parentLookup` of each title, and its result `card` is never used.
- The first query of `_delete_existing_notebook`, for all menu buttons, is only iterated over with `pass`. The model keeps only whether it raises (`menuQueryOk`).
- NotebookAgent.CreateNewNotebook: renaming is a flag; its keyboard steps are not modelled.
- NotebookAgent.OpenStudioPanel: each of the three waits is a given boolean.
- NotebookAgent.GenerateAudioOverview: `input()` is a stdin outcome.
- The HTML tokenizer of `HTMLParser` and analyze_debug_html.py's `main`: the model starts from the event sequence.
- Orchestrator.RunLoop: `run_loop` never ends; it is modelled over finitely many rounds. Each round's start time, clock readings and `run_once` outcome are inputs. Local time is a microsecond count from a midnight, so daylight-saving changes are not modelled.
- The command line of main.py (`--now`, `--loop`, `--visible` and the exit code).
- auth_manager.py, export_auth.py, gmail_notifier.py, _debug_analyze.py and lib/config.py are not part of this model; the few constants needed are inlined.

## Findings

| source | as written | input that shows it | evidently intended | confidence | as-written member | corrected member |
|---|---|---|---|---|---|---|
| notebooklm_agent.py:838 | `run` calls `self.get_share_link()`, which the class does not define; the `AttributeError` is caught and the result returned with `success` False | any run that adds at least one source and prepares the audio panel (always True at notebooklm_agent.py:579) | call `get_audio_share_link()` (notebooklm_agent.py:777), store the page URL and report success | not executed | NotebookAgent.RunNeverSucceeds | NotebookAgent.RunIntendedSucceeds |
| notebooklm_agent.py:273 | each matching title's handle, from `query_selector_all` of `patchright.sync_api` (line 41), is asked for `title_el.xpath('..')`; that library's element handles have no `xpath` method, so the call raises `AttributeError`, which line 305 prints and ignores | any home page with a visible title equal to the notebook name | drop the unused `card` lookup so that the `closest(...)` search finds the menu and the old notebook is deleted | not executed; depends on the library's element-handle API, which is not part of this model | NotebookAgent.DeleteAsWrittenNeverDeletes | NotebookAgent.IntendedDeletesFirstMatch |

Because of the first defect, `run_once` as written always returns False and
always sends the failure mail after collecting videos
(`Orchestrator.RunOnce`). The agent class and the orchestrator model the
code as written. `RunIntended` is the corrected composition.
Because of the second, each run as written creates a new notebook beside
the old one of the same name. `RecreateNotebook` models the scan as
written (`AsWritten`), with the parent lookup left to the oracle, so that
it holds whichever way the library behaves; `WithoutParentLookup` is the
corrected scan.
