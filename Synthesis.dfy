/** The script writer (synthesis_agent.py): turns the collected videos into
    an LLM prompt and a local two-host script. Reading the transcript files
    is an oracle from file name to contents (None when the file does not
    exist); the formatted dates are parameters; the script file that
    `generate_podcast` writes is returned as a (path, contents) pair. */
module Synthesis {
  import opened Common
  import opened Research

  /** Prompt transcripts longer than this are cut. */
  const PromptTranscriptLimit: nat := 8000
  const TruncationNote: string := "\n... (이하 생략)"
  const NoTranscriptNote: string := "(자막 없음)"
  const SectionSeparator: string := "\n---\n"

  /** The local script quotes long transcripts by their first 500 and last
      300 characters. */
  const ExcerptThreshold: nat := 1000
  const ExcerptHead: nat := 500
  const ExcerptTail: nat := 300
  const ExcerptMarker: string := "\n\n... (중략) ...\n\n"

  /** `PODCAST_PROMPT_TEMPLATE`: the text before and after its single
      `{video_sections}` field. */
  const PromptHead: string :=
    "당신은 한국의 인기 경제/투자 팟캐스트 진행자입니다.\n"
    + "아래 영상들의 자막을 분석하여, 청취자가 쉽게 이해할 수 있는 팟캐스트 대본을 작성해주세요.\n"
    + "\n"
    + "## 작성 규칙\n"
    + "1. **형식**: 두 명의 진행자(A, B)가 대화하는 형식\n"
    + "2. **길이**: 약 3000~5000자\n"
    + "3. **톤**: 전문적이면서도 친근한 대화체\n"
    + "4. **구조**:\n"
    + "   - 🎙️ 오프닝 인사 (오늘의 주제 소개)\n"
    + "   - 📊 핵심 뉴스/인사이트 정리 (영상별)\n"
    + "   - 💡 심층 분석 및 의견\n"
    + "   - 📌 마무리 요약 및 액션 아이템\n"
    + "5. **한국어**로 작성\n"
    + "\n"
    + "## 오늘의 영상 자료\n"
    + "\n"
  const PromptTail: string :=
    "\n"
    + "\n"
    + "## 지시사항\n"
    + "위 영상 자료를 바탕으로 팟캐스트 대본을 작성해주세요.\n"
    + "각 영상의 핵심 포인트를 자연스럽게 대화에 녹여내고,\n"
    + "청취자에게 실질적인 인사이트를 제공하는 것이 목표입니다.\n"

  type FileReader = string -> Option<string>

  function TranscriptFileName(videoId: string): string {
    "transcript_" + videoId + ".txt"
  }

  // ------------------------------------------------------------ the prompt

  /** A transcript as the prompt quotes it. */
  function PromptTranscript(t: string): (r: string)
    ensures |t| <= PromptTranscriptLimit ==> r == t
    ensures |t| > PromptTranscriptLimit ==> r == t[..PromptTranscriptLimit] + TruncationNote
    ensures |r| <= PromptTranscriptLimit + |TruncationNote|
  {
    if |t| > PromptTranscriptLimit then t[..PromptTranscriptLimit] + TruncationNote else t
  }

  /** Cutting is idempotent: the cut text keeps the same first 8000
      characters, so a second cut yields it again. */
  lemma PromptTranscriptIdempotent(t: string)
    ensures PromptTranscript(PromptTranscript(t)) == PromptTranscript(t)
  {
    if |t| > PromptTranscriptLimit {
      var r := PromptTranscript(t);
      assert r[..PromptTranscriptLimit] == t[..PromptTranscriptLimit];
    }
  }

  /** The transcript text of one section: empty when there is no file. */
  function SectionTranscript(v: Video, read: FileReader): string {
    match read(TranscriptFileName(v.videoId))
    case None => ""
    case Some(t) => PromptTranscript(t)
  }

  /** The numbered start of a section's first line. */
  function SectionHeading(i: nat): string {
    "### 영상 " + NatToString(i) + ": "
  }

  /** The title, channel and URL lines and the transcript heading. */
  function SectionFields(v: Video): string {
    v.title + "\n"
    + "- **채널**: " + v.channel + "\n"
    + "- **URL**: " + v.url + "\n"
    + "\n"
    + "**자막 내용:**\n"
  }

  /** An empty transcript is shown as the placeholder. */
  function Shown(t: string): string {
    if t != "" then t else NoTranscriptNote
  }

  function SectionRest(v: Video, read: FileReader): string {
    SectionFields(v) + Shown(SectionTranscript(v, read)) + "\n"
  }

  /** One section, numbered `i`. */
  function SectionText(i: nat, v: Video, read: FileReader): string {
    SectionHeading(i) + SectionRest(v, read)
  }

  /** The sections of `videos`, numbered from `start`. */
  function SectionList(videos: seq<Video>, read: FileReader, start: nat): (r: seq<string>)
    ensures |r| == |videos|
    decreases |videos|
  {
    if videos == [] then [] else [SectionText(start, videos[0], read)] + SectionList(videos[1..], read, start + 1)
  }

  /** Section `k` of the list is the `k`-th video numbered `start + k`. */
  lemma SectionListAt(videos: seq<Video>, read: FileReader, start: nat, k: nat)
    requires k < |videos|
    ensures SectionList(videos, read, start)[k] == SectionText(start + k, videos[k], read)
  {
    var before := videos[..k];
    var tail := videos[k..];
    assert videos == before + tail;
    SectionListAppend(before, tail, read, start);
    assert tail != [] && tail[0] == videos[k];
    var p := SectionList(before, read, start);
    var h := [SectionText(start + k, videos[k], read)];
    var r := SectionList(tail[1..], read, start + k + 1);
    assert SectionList(tail, read, start + k) == h + r;
    assert (p + (h + r))[|p|] == h[0];
  }

  /** Numbering continues across a concatenation. */
  lemma {:induction false} SectionListAppend(a: seq<Video>, b: seq<Video>, read: FileReader, start: nat)
    ensures SectionList(a + b, read, start) == SectionList(a, read, start) + SectionList(b, read, start + |a|)
    decreases |a|
  {
    if a == [] {
      assert a + b == b;
    } else {
      var ab := a + b;
      assert ab != [] && ab[0] == a[0] && ab[1..] == a[1..] + b;
      var h := [SectionText(start, a[0], read)];
      var x := SectionList(a[1..], read, start + 1);
      var y := SectionList(b, read, start + |a|);
      SectionListAppend(a[1..], b, read, start + 1);
      assert SectionList(ab, read, start) == h + (x + y);
      assert SectionList(a, read, start) == h + x;
      ConcatAssoc(h, x, y);
    }
  }

  lemma SectionListSnoc(videos: seq<Video>, read: FileReader, i: nat)
    requires i < |videos|
    ensures SectionList(videos[..i + 1], read, 1) == SectionList(videos[..i], read, 1) + [SectionText(i + 1, videos[i], read)]
  {
    SectionListAppend(videos[..i], [videos[i]], read, 1);
    assert videos[..i + 1] == videos[..i] + [videos[i]];
    assert [videos[i]][1..] == [];
    assert [SectionText(1 + i, videos[i], read)] + [] == [SectionText(1 + i, videos[i], read)];
  }

  /** A missing or empty transcript file shows the placeholder; a present one
      shows the (possibly cut) transcript, never more than 8012 characters. */
  lemma SectionBody(v: Video, read: FileReader)
    ensures read(TranscriptFileName(v.videoId)).None? || read(TranscriptFileName(v.videoId)) == Some("")
            ==> SectionRest(v, read) == SectionFields(v) + NoTranscriptNote + "\n"
    ensures read(TranscriptFileName(v.videoId)).Some? && read(TranscriptFileName(v.videoId)).value != ""
            ==> SectionRest(v, read) == SectionFields(v) + PromptTranscript(read(TranscriptFileName(v.videoId)).value) + "\n"
    ensures |SectionTranscript(v, read)| <= PromptTranscriptLimit + |TruncationNote|
  {
  }

  /** The heading of section `i` names its number, which reads back as `i`. */
  lemma SectionNumbered(i: nat, v: Video, read: FileReader)
    ensures StartsWith(SectionText(i, v, read), SectionHeading(i))
    ensures StartsWith(SectionHeading(i), "### 영상 ")
    ensures DigitsValue(SectionHeading(i)[|"### 영상 "|..|SectionHeading(i)| - 2]) == i
  {
    var h := SectionHeading(i);
    assert (h + SectionRest(v, read))[..|h|] == h;
    var n := NatToString(i);
    assert h == "### 영상 " + n + ": ";
    assert h[..|"### 영상 "|] == "### 영상 ";
    assert h[|"### 영상 "|..|h| - 2] == n;
    NatToStringRoundTrip(i);
  }

  /** `build_video_sections`. */
  method BuildVideoSections(videos: seq<Video>, read: FileReader) returns (r: string)
    ensures r == Join(SectionList(videos, read, 1), SectionSeparator)
  {
    var sections: seq<string> := [];
    var i := 0;
    while i < |videos|
      invariant 0 <= i <= |videos|
      invariant sections == SectionList(videos[..i], read, 1)
    {
      var transcript := "";
      var file := read(TranscriptFileName(videos[i].videoId));
      if file.Some? {
        transcript := file.value;
        if |transcript| > PromptTranscriptLimit {
          transcript := transcript[..PromptTranscriptLimit] + TruncationNote;
        }
      }
      assert transcript == SectionTranscript(videos[i], read);
      var section := SectionHeading(i + 1) + (SectionFields(videos[i]) + Shown(transcript) + "\n");
      SectionListSnoc(videos, read, i);
      sections := sections + [section];
      i := i + 1;
    }
    assert videos[..i] == videos;
    return Join(sections, SectionSeparator);
  }

  /** The filled-in template. */
  function Prompt(videoSections: string): string {
    PromptHead + videoSections + PromptTail
  }

  /** The sections can be read back out of the prompt: they are everything
      between the fixed head and the fixed tail. */
  lemma PromptRecoversSections(videoSections: string)
    ensures StartsWith(Prompt(videoSections), PromptHead)
    ensures Prompt(videoSections)[|PromptHead|..|Prompt(videoSections)| - |PromptTail|] == videoSections
    ensures Prompt(videoSections)[|Prompt(videoSections)| - |PromptTail|..] == PromptTail
  {
    var p := Prompt(videoSections);
    assert p[..|PromptHead|] == PromptHead;
    assert p[|PromptHead|..|p| - |PromptTail|] == videoSections;
  }

  /** `generate_script_with_prompt`. */
  method GenerateScriptWithPrompt(videos: seq<Video>, read: FileReader) returns (r: string)
    ensures r == Prompt(Join(SectionList(videos, read, 1), SectionSeparator))
  {
    var videoSections := BuildVideoSections(videos, read);
    r := PromptHead + videoSections + PromptTail;
  }

  // ------------------------------------------------------------ the local script

  /** The excerpt quoted for one video. */
  function Excerpt(t: string): (r: string)
    ensures |t| <= ExcerptThreshold ==> r == t
    ensures |t| > ExcerptThreshold ==>
              |r| == ExcerptHead + |ExcerptMarker| + ExcerptTail
              && r[..ExcerptHead] == t[..ExcerptHead]
              && r[|r| - ExcerptTail..] == t[|t| - ExcerptTail..]
    ensures |r| <= ExcerptThreshold
  {
    if |t| > ExcerptThreshold then t[..ExcerptHead] + ExcerptMarker + t[|t| - ExcerptTail..] else t
  }

  /** An excerpt is short enough to be quoted whole. */
  lemma ExcerptIdempotent(t: string)
    ensures Excerpt(Excerpt(t)) == Excerpt(t)
  {
  }

  /** The lines of the local script, by role; `Render` gives each its text. */
  datatype ScriptLine =
    | TitleLine(today: string)
    | OpeningHeading
    | Greeting(today: string)
    | CountIntro(n: nat)
    | VideoHeading(i: nat, title: string)
    | ChannelLine(channel: string, url: string)
    | SummaryIntro
    | Quote(excerpt: string)
    | SummaryOutro
    | NoTranscript
    | ClosingHeading
    | RecapQuestion
    | CountRecap(n: nat)
    | SignOff
    | PromptHeading
    | PromptIntro
    | Fence
    | PromptText(prompt: string)

  function Render(l: ScriptLine): string {
    match l
    case TitleLine(today) => "# 🎙️ 데일리 투자 브리핑 — " + today + "\n"
    case OpeningHeading => "## 오프닝\n"
    case Greeting(today) => "**A**: 안녕하세요! " + today + " 데일리 투자 브리핑입니다."
    case CountIntro(n) => "**B**: 오늘은 총 " + NatToString(n) + "개의 영상에서 핵심 인사이트를 정리해봤습니다.\n"
    case VideoHeading(i, title) => "---\n## 📊 영상 " + NatToString(i) + ": " + title
    case ChannelLine(channel, url) => "*채널: " + channel + " | [영상 링크](" + url + ")*\n"
    case SummaryIntro => "**A**: 이 영상의 핵심 내용을 정리해보면..."
    case Quote(excerpt) => "\n> " + excerpt + "\n"
    case SummaryOutro => "**B**: 흥미로운 포인트네요. 다음 영상으로 넘어가볼까요?\n"
    case NoTranscript => "**A**: 안타깝게도 이 영상은 자막이 제공되지 않아 내용을 확인할 수 없었습니다.\n"
    case ClosingHeading => "---\n## 📌 마무리\n"
    case RecapQuestion => "**A**: 오늘 브리핑 내용 정리해볼까요?"
    case CountRecap(n) => "**B**: 네, 오늘은 총 " + NatToString(n) + "개 영상의 핵심을 다뤘습니다."
    case SignOff => "**A**: 내일도 새로운 인사이트로 찾아뵙겠습니다. 감사합니다! 🎙️\n"
    case PromptHeading => "\n---\n## 🤖 LLM 프롬프트 (향후 AI 생성용)\n"
    case PromptIntro => "아래 프롬프트를 LLM에 전달하면 더 자연스러운 대본을 생성할 수 있습니다:\n"
    case Fence => "```"
    case PromptText(prompt) => prompt
  }

  function RenderAll(ls: seq<ScriptLine>): (r: seq<string>)
    ensures |r| == |ls|
    decreases |ls|
  {
    if ls == [] then [] else [Render(ls[0])] + RenderAll(ls[1..])
  }

  lemma {:induction false} RenderAllAppend(a: seq<ScriptLine>, b: seq<ScriptLine>)
    ensures RenderAll(a + b) == RenderAll(a) + RenderAll(b)
    decreases |a|
  {
    if a == [] {
      assert a + b == b;
    } else {
      assert (a + b)[0] == a[0];
      assert (a + b)[1..] == a[1..] + b;
      RenderAllAppend(a[1..], b);
    }
  }

  /** What the hosts say about one video, given its transcript file. A file
      that exists, even an empty one, is quoted. */
  function Commentary(file: Option<string>): seq<ScriptLine> {
    match file
    case Some(t) => [SummaryIntro, Quote(Excerpt(t)), SummaryOutro]
    case None => [NoTranscript]
  }

  /** The lines of video number `i`. */
  function VideoLines(i: nat, v: Video, read: FileReader): seq<ScriptLine> {
    [VideoHeading(i, v.title), ChannelLine(v.channel, v.url)] + Commentary(read(TranscriptFileName(v.videoId)))
  }

  /** Every video opens with its numbered heading and its channel line. */
  lemma VideoLinesShape(i: nat, v: Video, read: FileReader)
    ensures var r := VideoLines(i, v, read);
            |r| == (if read(TranscriptFileName(v.videoId)).Some? then 5 else 3)
            && r[0] == VideoHeading(i, v.title) && r[1] == ChannelLine(v.channel, v.url)
  {
  }

  function AllVideoLines(videos: seq<Video>, read: FileReader, start: nat): seq<ScriptLine>
    decreases |videos|
  {
    if videos == [] then [] else VideoLines(start, videos[0], read) + AllVideoLines(videos[1..], read, start + 1)
  }

  lemma {:induction false} AllVideoLinesAppend(a: seq<Video>, b: seq<Video>, read: FileReader, start: nat)
    ensures AllVideoLines(a + b, read, start) == AllVideoLines(a, read, start) + AllVideoLines(b, read, start + |a|)
    decreases |a|
  {
    if a == [] {
      assert a + b == b;
    } else {
      var ab := a + b;
      assert ab != [] && ab[0] == a[0] && ab[1..] == a[1..] + b;
      var h := VideoLines(start, a[0], read);
      var x := AllVideoLines(a[1..], read, start + 1);
      var y := AllVideoLines(b, read, start + |a|);
      AllVideoLinesAppend(a[1..], b, read, start + 1);
      assert AllVideoLines(ab, read, start) == h + (x + y);
      assert AllVideoLines(a, read, start) == h + x;
      ConcatAssoc(h, x, y);
    }
  }

  lemma AllVideoLinesSnoc(videos: seq<Video>, read: FileReader, i: nat)
    requires i < |videos|
    ensures AllVideoLines(videos[..i + 1], read, 1) == AllVideoLines(videos[..i], read, 1) + VideoLines(i + 1, videos[i], read)
  {
    AllVideoLinesAppend(videos[..i], [videos[i]], read, 1);
    assert videos[..i + 1] == videos[..i] + [videos[i]];
    assert [videos[i]][1..] == [];
    assert VideoLines(1 + i, videos[i], read) + [] == VideoLines(1 + i, videos[i], read);
  }

  /** How many of the videos have a transcript file. */
  function WithFile(videos: seq<Video>, read: FileReader): nat
    decreases |videos|
  {
    if videos == [] then 0
    else (if read(TranscriptFileName(videos[0].videoId)).Some? then 1 else 0) + WithFile(videos[1..], read)
  }

  /** Every video has three lines, and two more when its file exists. */
  lemma {:induction false} AllVideoLinesCount(videos: seq<Video>, read: FileReader, start: nat)
    ensures |AllVideoLines(videos, read, start)| == 3 * |videos| + 2 * WithFile(videos, read)
    decreases |videos|
  {
    if videos != [] {
      AllVideoLinesCount(videos[1..], read, start + 1);
      VideoLinesShape(start, videos[0], read);
    }
  }

  /** Video number `start + k` begins with its numbered heading and its
      channel line, right after the lines of the videos before it (whose
      number `AllVideoLinesCount` gives). */
  lemma VideoHeadingAt(videos: seq<Video>, read: FileReader, start: nat, k: nat)
    requires k < |videos|
    ensures var at := |AllVideoLines(videos[..k], read, start)|;
            at + 1 < |AllVideoLines(videos, read, start)|
            && AllVideoLines(videos, read, start)[at] == VideoHeading(start + k, videos[k].title)
            && AllVideoLines(videos, read, start)[at + 1] == ChannelLine(videos[k].channel, videos[k].url)
  {
    var before := videos[..k];
    var tail := videos[k..];
    assert videos == before + tail;
    AllVideoLinesAppend(before, tail, read, start);
    assert tail != [] && tail[0] == videos[k];
    var p := AllVideoLines(before, read, start);
    var h := VideoLines(start + k, videos[k], read);
    var r := AllVideoLines(tail[1..], read, start + k + 1);
    VideoLinesShape(start + k, videos[k], read);
    assert AllVideoLines(tail, read, start + k) == h + r;
    assert (p + (h + r))[|p|] == h[0] && (p + (h + r))[|p| + 1] == h[1];
  }

  function Opening(today: string, n: nat): seq<ScriptLine> {
    [TitleLine(today), OpeningHeading, Greeting(today), CountIntro(n)]
  }

  function Closing(n: nat, prompt: string): seq<ScriptLine> {
    [ClosingHeading, RecapQuestion, CountRecap(n), SignOff, PromptHeading, PromptIntro, Fence, PromptText(prompt), Fence]
  }

  /** The lines of the local script; `today` is the formatted date. */
  function LocalScriptLines(videos: seq<Video>, read: FileReader, today: string, prompt: string): seq<ScriptLine> {
    Opening(today, |videos|) + AllVideoLines(videos, read, 1) + Closing(|videos|, prompt)
  }

  /** The text `generate_local_script` returns. */
  function LocalScript(videos: seq<Video>, read: FileReader, today: string): string {
    Join(RenderAll(LocalScriptLines(videos, read, today, Prompt(Join(SectionList(videos, read, 1), SectionSeparator)))), "\n")
  }

  /** The script opens with four lines and closes with nine, the prompt in a
      fenced block; in between each video has three lines, two more when its
      transcript file exists; both counts it announces are the number of
      videos. */
  lemma LocalScriptShape(videos: seq<Video>, read: FileReader, today: string, prompt: string)
    ensures var ls := LocalScriptLines(videos, read, today, prompt);
            var n := |ls|;
            n == 4 + 3 * |videos| + 2 * WithFile(videos, read) + 9
            && ls[3] == CountIntro(|videos|) && ls[n - 7] == CountRecap(|videos|)
            && ls[n - 3] == Fence && ls[n - 2] == PromptText(prompt) && ls[n - 1] == Fence
  {
    AllVideoLinesCount(videos, read, 1);
    Framed(Opening(today, |videos|), AllVideoLines(videos, read, 1), Closing(|videos|, prompt));
  }

  lemma Framed(o: seq<ScriptLine>, m: seq<ScriptLine>, c: seq<ScriptLine>)
    requires |o| == 4 && |c| == 9
    ensures var ls := o + m + c;
            var n := |ls|;
            n == 13 + |m| && ls[3] == o[3]
            && ls[n - 7] == c[2] && ls[n - 3] == c[6] && ls[n - 2] == c[7] && ls[n - 1] == c[8]
  {
  }

  /** The video lines follow the four opening lines unchanged. */
  lemma LocalScriptVideoLines(videos: seq<Video>, read: FileReader, today: string, prompt: string)
    ensures var ls := LocalScriptLines(videos, read, today, prompt);
            var m := AllVideoLines(videos, read, 1);
            4 + |m| <= |ls| && ls[4..4 + |m|] == m
  {
    var o := Opening(today, |videos|);
    var m := AllVideoLines(videos, read, 1);
    var ls := o + m + Closing(|videos|, prompt);
    assert |o| == 4;
    assert ls[4..4 + |m|] == m;
  }

  /** `generate_local_script`. */
  method GenerateLocalScript(videos: seq<Video>, read: FileReader, today: string) returns (r: string)
    ensures r == LocalScript(videos, read, today)
  {
    var lines := Opening(today, |videos|);
    var i := 0;
    while i < |videos|
      invariant 0 <= i <= |videos|
      invariant lines == Opening(today, |videos|) + AllVideoLines(videos[..i], read, 1)
    {
      AllVideoLinesSnoc(videos, read, i);
      lines := lines + VideoLines(i + 1, videos[i], read);
      i := i + 1;
    }
    assert videos[..i] == videos;
    var prompt := GenerateScriptWithPrompt(videos, read);
    lines := lines + Closing(|videos|, prompt);
    return Join(RenderAll(lines), "\n");
  }

  /** `generate_podcast`: no videos, no file; otherwise the script is written
      to `podcast_script_<stamp>.md` in the output directory, where `stamp`
      is the date as YYYYMMDD. */
  method GeneratePodcast(videos: seq<Video>, read: FileReader, today: string, stamp: string, outputDir: string)
    returns (written: Option<(string, string)>)
    ensures written.None? <==> videos == []
    ensures written.Some? ==>
              written.value.0 == outputDir + "/podcast_script_" + stamp + ".md"
              && written.value.1 == LocalScript(videos, read, today)
  {
    if videos == [] {
      return None;
    }
    var script := GenerateLocalScript(videos, read, today);
    var outputPath := outputDir + "/podcast_script_" + stamp + ".md";
    return Some((outputPath, script));
  }
}
