/** The orchestrator (main.py): one run collects the recent videos, hands
    their URLs to the NotebookLM agent and reports the outcome by mail; the
    loop runs it every day at 06:00. The clock, the mail transport and the
    JSON files are outside the model: clock readings are inputs, and the
    mail is returned instead of sent. */
module Orchestrator {
  import opened Common
  import opened Research
  import NotebookAgent

  // ---------------------------------------------------------------- run_once

  /** The name of the notebook the agent rebuilds. */
  const NotebookName: string := "Daily new"

  datatype Mail = Mail(subject: string, body: string, success: bool)

  /** `[v["url"] for v in videos]`. */
  function Urls(videos: seq<Video>): (r: seq<string>)
    ensures |r| == |videos| && forall i :: 0 <= i < |videos| ==> r[i] == videos[i].url
  {
    seq(|videos|, i requires 0 <= i < |videos| => videos[i].url)
  }

  const SuccessSubjectHead: string := "NotebookLM 소스 추가 완료 ("
  const SuccessSubjectTail: string := "개)"
  const FailureSubject: string := "NotebookLM 작업 실패"

  function SuccessSubject(n: nat): string {
    SuccessSubjectHead + NatToString(n) + SuccessSubjectTail
  }

  /** The success subject carries the number of submitted URLs, and it can
      be read back from between the fixed head and tail. */
  lemma SuccessSubjectCount(n: nat)
    ensures var s := SuccessSubject(n);
            |SuccessSubjectHead| + |SuccessSubjectTail| < |s|
            && s[..|SuccessSubjectHead|] == SuccessSubjectHead
            && s[|s| - |SuccessSubjectTail|..] == SuccessSubjectTail
            && DigitsValue(s[|SuccessSubjectHead|..|s| - |SuccessSubjectTail|]) == n
  {
    var s := SuccessSubject(n);
    var digits := NatToString(n);
    assert s[|SuccessSubjectHead|..|s| - |SuccessSubjectTail|] == digits;
    NatToStringRoundTrip(n);
  }

  /** A line of the video list in the success mail. */
  function VideoListLine(v: Video): string {
    "- " + v.title + " (" + v.channel + ")"
  }

  function VideoListLines(videos: seq<Video>): (r: seq<string>)
    ensures |r| == |videos| && forall i :: 0 <= i < |videos| ==> r[i] == VideoListLine(videos[i])
  {
    seq(|videos|, i requires 0 <= i < |videos| => VideoListLine(videos[i]))
  }

  /** The video list lists every video, one line each, in order. */
  lemma VideoListRecoversLines(videos: seq<Video>)
    requires |videos| >= 1
    requires forall i :: 0 <= i < |videos| ==> '\n' !in videos[i].title && '\n' !in videos[i].channel
    ensures SplitLines(Join(VideoListLines(videos), "\n")) == VideoListLines(videos)
  {
    var lines := VideoListLines(videos);
    forall k | 0 <= k < |lines|
      ensures '\n' !in lines[k]
    {
      assert lines[k] == "- " + videos[k].title + " (" + videos[k].channel + ")";
    }
    SplitJoinLines(lines);
  }

  function SuccessBody(videos: seq<Video>): string {
    "✅ [성공] 총 " + NatToString(|videos|) + "개의 영상 소스가 추가되었습니다.\n\n"
    + "<영상 목록>\n" + Join(VideoListLines(videos), "\n") + "\n\n"
    + "\U{1F449} NotebookLM에 접속하여 '생성' 버튼을 눌러주세요."
  }

  function FailureBody(result: NotebookAgent.RunResult, n: nat): string {
    "⚠️ [실패] 작업을 완료하지 못했습니다.\n"
    + "- 소스 추가: " + NatToString(result.sourcesAdded) + "/" + NatToString(n) + "\n"
    + "- 오디오 준비: " + (if result.audioGenerated then "성공" else "실패")
  }

  /** The notification for an agent result. */
  function ReportMail(videos: seq<Video>, result: NotebookAgent.RunResult): (m: Mail)
    ensures m.success == result.success
    ensures m.subject == (if result.success then SuccessSubject(|videos|) else FailureSubject)
  {
    if result.success then Mail(SuccessSubject(|videos|), SuccessBody(videos), true)
    else Mail(FailureSubject, FailureBody(result, |videos|), false)
  }

  /** `run_once`. `researchNow` is the research clock in seconds and `env`
      the world the agent meets. The result is the return value, the mail
      sent if any, and the URLs handed to the agent if it was started. */
  method RunOnce(registry: ChannelRegistry, web: Web, researchNow: int, env: NotebookAgent.AgentEnv, headless: bool)
    returns (ok: bool, mail: Option<Mail>, submitted: Option<seq<string>>)
    modifies registry
    ensures registry.channels == ChannelsAfter(old(registry.channels), UrlsOnly, RecentHours, researchNow, web)
    ensures var research := Collect(old(registry.channels), UrlsOnly, RecentHours, researchNow, web);
            && (research.Raised? ==> !ok && mail.None? && submitted.None?)
            && (research == Ok([]) ==> ok && mail.None? && submitted.None?)
            && (research.Ok? && research.value != [] ==>
                  var videos := research.value;
                  var result := NotebookAgent.RunAsWritten(Urls(videos), env, headless, NotebookName, NotebookAgent.PageSelectors);
                  submitted == Some(Urls(videos)) && ok == result.success && mail == Some(ReportMail(videos, result))
                  && !ok && mail.value.subject == FailureSubject)
  {
    var research := registry.GetRecentVideoUrls(RecentHours, researchNow, web);
    if research.Raised? {
      return false, None, None;
    }
    var videos := research.value;
    if videos == [] {
      return true, None, None;
    }
    var videoUrls := Urls(videos);
    var agent := new NotebookAgent.NotebookLMAgent(NotebookName, headless);
    var result := agent.Run(videoUrls, env);
    NotebookAgent.RunNeverSucceeds(videoUrls, env, headless, NotebookName, NotebookAgent.PageSelectors);
    return result.success, Some(ReportMail(videos, result)), Some(videoUrls);
  }

  // ---------------------------------------------------------------- run_loop

  /** Local wall-clock time in microseconds, the resolution of `datetime`,
      counted from a midnight. */
  const Day: int := 86_400_000_000
  const ScheduleOffset: int := 6 * 3_600_000_000

  /** The next 06:00:00.000000 strictly after `now`: today's, or tomorrow's
      once today's is reached. */
  function NextTarget(now: int): (t: int)
    ensures now < t <= now + Day
    ensures t % Day == ScheduleOffset
  {
    var midnight := now - now % Day;
    var today := midnight + ScheduleOffset;
    DayArithmetic(now);
    if now >= today then today + Day else today
  }

  lemma DayArithmetic(now: int)
    ensures 0 <= now % Day < Day
    ensures (now - now % Day + ScheduleOffset) % Day == ScheduleOffset
    ensures (now - now % Day + ScheduleOffset + Day) % Day == ScheduleOffset
  {
    var q := now / Day;
    assert now - now % Day == q * Day;
    assert (q * Day + ScheduleOffset) % Day == ScheduleOffset;
    assert q * Day + ScheduleOffset + Day == (q + 1) * Day + ScheduleOffset;
    assert ((q + 1) * Day + ScheduleOffset) % Day == ScheduleOffset;
  }

  /** No 06:00 lies strictly between `now` and the target. */
  lemma NextTargetIsEarliest(now: int, t: int)
    requires now < t && t % Day == ScheduleOffset
    ensures NextTarget(now) <= t
  {
  }

  /** The inner wait: the clock is read before each one-minute sleep until a
      reading reaches the target. `checks` is the index of that reading;
      None when the given readings never reach it (the wait is still on). */
  method WaitUntil(target: int, clock: seq<int>) returns (checks: Option<nat>)
    ensures checks.Some? ==> checks.value < |clock| && clock[checks.value] >= target
                             && forall j :: 0 <= j < checks.value ==> clock[j] < target
    ensures checks.None? ==> forall j :: 0 <= j < |clock| ==> clock[j] < target
  {
    var i := 0;
    while i < |clock| && clock[i] < target
      invariant 0 <= i <= |clock|
      invariant forall j :: 0 <= j < i ==> clock[j] < target
      decreases |clock| - i
    {
      i := i + 1;
    }
    if i < |clock| {
      return Some(i);
    }
    return None;
  }

  /** One round of the loop: the time it starts at, the clock readings of
      its wait, and what `run_once` does (returns a flag or raises). */
  datatype Round = Round(now: int, clock: seq<int>, outcome: Outcome<bool>)

  /** What a completed round leaves: its target and the flag, None when
      `run_once` raised and the exception was caught. */
  datatype RoundReport = RoundReport(target: int, status: Option<bool>)

  predicate Reaches(r: Round) {
    exists j :: 0 <= j < |r.clock| && r.clock[j] >= NextTarget(r.now)
  }

  function Report(r: Round): RoundReport {
    RoundReport(NextTarget(r.now), if r.outcome.Raised? then None else Some(r.outcome.value))
  }

  /** The loop over the rounds: it stops only at a wait that does not end. */
  function LoopReports(rounds: seq<Round>): (rs: seq<RoundReport>)
    ensures |rs| <= |rounds|
    decreases |rounds|
  {
    if rounds == [] || !Reaches(rounds[0]) then []
    else [Report(rounds[0])] + LoopReports(rounds[1..])
  }

  /** Every round up to the first wait that does not end completes, with its
      own target and flag; that wait is where the reports stop. */
  lemma {:induction false} LoopReportsSpec(rounds: seq<Round>)
    ensures var rs := LoopReports(rounds);
            && (forall i :: 0 <= i < |rs| ==> rs[i] == Report(rounds[i]) && Reaches(rounds[i]))
            && (|rs| < |rounds| ==> !Reaches(rounds[|rs|]))
    decreases |rounds|
  {
    if rounds != [] && Reaches(rounds[0]) {
      LoopReportsSpec(rounds[1..]);
    }
  }

  lemma LoopReportsFrom(rounds: seq<Round>, i: nat)
    requires i < |rounds|
    ensures LoopReports(rounds[i..]) ==
              if Reaches(rounds[i]) then [Report(rounds[i])] + LoopReports(rounds[i + 1..]) else []
  {
    assert rounds[i..][0] == rounds[i] && rounds[i..][1..] == rounds[i + 1..];
  }

  /** One pass of the outer loop: wait for the next 06:00, then run once,
      catching whatever it raises. None when the wait does not end. */
  method RunRound(round: Round) returns (report: Option<RoundReport>)
    ensures report == if Reaches(round) then Some(Report(round)) else None
  {
    var target := NextTarget(round.now);
    var checks := WaitUntil(target, round.clock);
    if checks.None? {
      return None;
    }
    var status: Option<bool> := None;
    match round.outcome {
      case Ok(success) => status := Some(success);
      case Raised =>  // caught and logged; the loop goes on
    }
    return Some(RoundReport(target, status));
  }

  /** `run_loop`, observed over finitely many rounds. */
  method RunLoop(rounds: seq<Round>) returns (reports: seq<RoundReport>)
    ensures reports == LoopReports(rounds)
  {
    reports := [];
    var i := 0;
    while i < |rounds|
      invariant 0 <= i <= |rounds|
      invariant LoopReports(rounds) == reports + LoopReports(rounds[i..])
      decreases |rounds| - i
    {
      var report := RunRound(rounds[i]);
      LoopReportsFrom(rounds, i);
      if report.None? {
        assert reports + [] == reports;
        return;
      }
      reports := reports + [report.value];
      i := i + 1;
    }
    assert rounds[i..] == [];
  }

  /** An exception from `run_once` never ends the loop: the rounds that run
      and their targets depend only on the clock. */
  lemma {:induction false} OutcomesDoNotStopLoop(rounds: seq<Round>, others: seq<Round>)
    requires |rounds| == |others|
    requires forall i :: 0 <= i < |rounds| ==> rounds[i].now == others[i].now && rounds[i].clock == others[i].clock
    ensures |LoopReports(rounds)| == |LoopReports(others)|
    ensures forall i :: 0 <= i < |LoopReports(rounds)| ==> LoopReports(rounds)[i].target == LoopReports(others)[i].target
    decreases |rounds|
  {
    if rounds != [] && Reaches(rounds[0]) {
      assert Reaches(others[0]) by {
        var j :| 0 <= j < |rounds[0].clock| && rounds[0].clock[j] >= NextTarget(rounds[0].now);
        assert others[0].clock[j] >= NextTarget(others[0].now);
      }
      OutcomesDoNotStopLoop(rounds[1..], others[1..]);
    } else if rounds != [] {
      assert !Reaches(others[0]);
    }
  }
}
