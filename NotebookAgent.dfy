/** The decision logic of the NotebookLM driver (notebooklm_agent.py). Every
    browser call is an oracle: a click, fill or wait either succeeds or
    raises (`string -> bool`), a query either answers or raises (`Outcome`),
    and `page.url` at each point of the run is a given string. Sleeps,
    debug dumps and console output are not modelled. */
module NotebookAgent {
  import opened Common

  // ---------------------------------------------------------------- probes

  /** The first selector the oracle accepts. */
  function FirstSuccess(selectors: seq<string>, works: string -> bool): (r: Option<nat>)
    ensures r.Some? ==> r.value < |selectors|
    decreases |selectors|
  {
    if selectors == [] then None
    else if works(selectors[0]) then Some(0)
    else match FirstSuccess(selectors[1..], works)
      case None => None
      case Some(k) => Some(k + 1)
  }

  /** It is the least index whose selector works, and there is none exactly
      when no selector works. */
  lemma {:induction false} FirstSuccessSpec(selectors: seq<string>, works: string -> bool)
    ensures var r := FirstSuccess(selectors, works);
            (r.Some? ==> r.value < |selectors| && works(selectors[r.value])
                         && forall j :: 0 <= j < r.value ==> !works(selectors[j]))
            && (r.None? ==> forall j :: 0 <= j < |selectors| ==> !works(selectors[j]))
    decreases |selectors|
  {
    if selectors != [] && !works(selectors[0]) {
      FirstSuccessSpec(selectors[1..], works);
      assert forall j :: 1 <= j < |selectors| ==> selectors[1..][j - 1] == selectors[j];
    }
  }

  /** `_try_click`, `_try_fill` and `_wait_for_any` share this loop: try the
      selectors in order, stop at the first that does not raise. `tried` is
      the selectors attempted, in order: none after the first success. */
  method Probe(selectors: seq<string>, works: string -> bool) returns (ok: bool, tried: seq<string>)
    ensures ok <==> FirstSuccess(selectors, works).Some?
    ensures ok ==> tried == selectors[..FirstSuccess(selectors, works).value + 1]
    ensures !ok ==> tried == selectors
  {
    tried := [];
    for i := 0 to |selectors|
      invariant tried == selectors[..i]
      invariant forall j :: 0 <= j < i ==> !works(selectors[j])
    {
      tried := tried + [selectors[i]];
      if works(selectors[i]) {
        FirstSuccessSpec(selectors, works);
        var r := FirstSuccess(selectors, works);
        assert r.Some? && r.value == i;
        return true, tried;
      }
    }
    FirstSuccessSpec(selectors, works);
    return false, tried;
  }

  /** A fill oracle with its text fixed, as `_try_fill` uses it. */
  function FillWith(fill: (string, string) -> bool, text: string): string -> bool {
    sel => fill(sel, text)
  }

  // ---------------------------------------------------------------- add_sources

  const AddSourceSelectors: seq<string> := [
    "[aria-label=\"소스 추가\"]", "[aria-label=\"Add source\"]",
    "button:has-text(\"소스 추가\")", "button:has-text(\"Add source\")",
    "button[aria-label=\"노트북 만들기\"]", "button:has(mat-icon:text(\"add\"))"]

  const WebsiteSelectors: seq<string> := [
    "text=웹사이트", "text=Website", "text=웹사이트 URL", "text=Website URL",
    "[data-value=\"WEBSITE\"]", "text=YouTube"]

  const UrlTextareaSelectors: seq<string> := [
    "textarea[formcontrolname=\"urls\"]", "textarea[aria-label=\"URL 입력\"]",
    "textarea[placeholder=\"링크를 붙여넣으세요.\"]", "textarea[placeholder*=\"붙여넣\"]",
    "textarea[placeholder*=\"paste\"]", "textarea[placeholder*=\"Paste\"]",
    "textarea[placeholder*=\"link\"]", "textarea[placeholder*=\"Link\"]",
    ".cdk-overlay-pane textarea", "mat-dialog-container textarea", "add-sources-dialog textarea",
    "textarea.mat-mdc-input-element", "textarea[matinput]"]

  const InsertSelectors: seq<string> := [
    "button:has-text(\"삽입\")", "button:has-text(\"Insert\")", "button:has-text(\"제출\")",
    "button:has-text(\"Submit\")", "button:has-text(\"추가\")", "button:has-text(\"Add\")",
    ".cdk-overlay-pane button.mat-primary", ".cdk-overlay-pane button.mat-accent",
    "mat-dialog-container button.mat-primary"]

  /** 24 cycles of five seconds. */
  const PollCycles: nat := 24

  /** The source dialog as seen by `add_sources`: one click oracle per step,
      the fill oracle, and per poll cycle whether the dialog overlay is still
      open and whether an error element is shown. */
  datatype SourceDialog = SourceDialog(
    addClick: string -> bool,
    websiteClick: string -> bool,
    fill: (string, string) -> bool,
    insertClick: string -> bool,
    overlayOpen: nat -> Outcome<bool>,
    errorShown: nat -> Outcome<bool>)

  /** The completion poll from `cycle` on. A closed overlay means all
      sources were added, an error element means none; a failing error query
      is ignored, a failing overlay query raises, and running out of cycles
      is read as success. */
  function PollFrom(cycle: nat, n: nat, overlayOpen: nat -> Outcome<bool>, errorShown: nat -> Outcome<bool>): (r: Outcome<nat>)
    ensures r.Ok? ==> r.value == 0 || r.value == n
    decreases PollCycles - cycle
  {
    if cycle >= PollCycles then Ok(n)
    else match overlayOpen(cycle)
      case Raised => Raised
      case Ok(open) =>
        if !open then Ok(n)
        else if errorShown(cycle) == Ok(true) then Ok(0)
        else PollFrom(cycle + 1, n, overlayOpen, errorShown)
  }

  /** The poll loop with its `for`-`else`. */
  method Poll(n: nat, overlayOpen: nat -> Outcome<bool>, errorShown: nat -> Outcome<bool>) returns (r: Outcome<nat>)
    ensures r == PollFrom(0, n, overlayOpen, errorShown)
  {
    for cycle := 0 to PollCycles
      invariant PollFrom(0, n, overlayOpen, errorShown) == PollFrom(cycle, n, overlayOpen, errorShown)
    {
      var overlay := overlayOpen(cycle);
      if overlay.Raised? {
        return Raised;
      }
      if !overlay.value {
        return Ok(n);
      }
      var err := errorShown(cycle);  // a raising error query is ignored
      if err == Ok(true) {
        return Ok(0);
      }
    }
    return Ok(n);  // timed out: counted as success
  }

  /** A zero result with at least one URL comes from an error element seen
      while the overlay was open; a raise from a failing overlay query; and a
      poll that never sees the overlay close nor an error ends optimistic. */
  lemma {:induction false} PollCauses(cycle: nat, n: nat, overlayOpen: nat -> Outcome<bool>, errorShown: nat -> Outcome<bool>)
    ensures PollFrom(cycle, n, overlayOpen, errorShown) == Ok(0) && n > 0 ==>
              exists c :: cycle <= c < PollCycles && overlayOpen(c) == Ok(true) && errorShown(c) == Ok(true)
    ensures PollFrom(cycle, n, overlayOpen, errorShown).Raised? ==>
              exists c :: cycle <= c < PollCycles && overlayOpen(c).Raised?
    ensures (forall c :: cycle <= c < PollCycles ==> overlayOpen(c) == Ok(true) && errorShown(c) != Ok(true)) ==>
              PollFrom(cycle, n, overlayOpen, errorShown) == Ok(n)
    decreases PollCycles - cycle
  {
    if cycle < PollCycles {
      PollCauses(cycle + 1, n, overlayOpen, errorShown);
    }
  }

  /** What `add_sources` returns: 0 as soon as one of the four probes
      fails, otherwise the poll's verdict. All URLs go into one fill, joined
      by newlines. */
  function AddSourcesOutcome(urls: seq<string>, d: SourceDialog, ui: Selectors): Outcome<nat> {
    if FirstSuccess(ui.addSource, d.addClick).None? then Ok(0)
    else if FirstSuccess(ui.website, d.websiteClick).None? then Ok(0)
    else if FirstSuccess(ui.urlTextarea, FillWith(d.fill, Join(urls, "\n"))).None? then Ok(0)
    else if FirstSuccess(ui.insert, d.insertClick).None? then Ok(0)
    else PollFrom(0, |urls|, d.overlayOpen, d.errorShown)
  }

  /** `add_sources`. `fillText` is the text handed to the fill probe, when
      that step is reached. */
  method AddSources(urls: seq<string>, d: SourceDialog, ui: Selectors) returns (r: Outcome<nat>, fillText: Option<string>)
    ensures r == AddSourcesOutcome(urls, d, ui)
    ensures fillText.Some? <==>
              FirstSuccess(ui.addSource, d.addClick).Some? && FirstSuccess(ui.website, d.websiteClick).Some?
    ensures fillText.Some? ==> fillText.value == Join(urls, "\n")
  {
    fillText := None;
    var ok, tried := Probe(ui.addSource, d.addClick);
    if !ok {
      return Ok(0), fillText;
    }
    ok, tried := Probe(ui.website, d.websiteClick);
    if !ok {
      return Ok(0), fillText;
    }
    var allUrlsText := Join(urls, "\n");
    fillText := Some(allUrlsText);
    ok, tried := Probe(ui.urlTextarea, FillWith(d.fill, allUrlsText));
    if !ok {
      return Ok(0), fillText;
    }
    ok, tried := Probe(ui.insert, d.insertClick);
    if !ok {
      return Ok(0), fillText;
    }
    r := Poll(|urls|, d.overlayOpen, d.errorShown);
  }

  /** The count is all or nothing, and a positive count means every probe
      found its element. */
  lemma AddSourcesAllOrNothing(urls: seq<string>, d: SourceDialog, ui: Selectors)
    ensures AddSourcesOutcome(urls, d, ui).Ok? ==>
              AddSourcesOutcome(urls, d, ui).value == 0 || AddSourcesOutcome(urls, d, ui).value == |urls|
    ensures AddSourcesOutcome(urls, d, ui).Ok? && AddSourcesOutcome(urls, d, ui).value > 0 ==>
              FirstSuccess(ui.addSource, d.addClick).Some? && FirstSuccess(ui.website, d.websiteClick).Some?
              && FirstSuccess(ui.urlTextarea, FillWith(d.fill, Join(urls, "\n"))).Some?
              && FirstSuccess(ui.insert, d.insertClick).Some?
  {
    var fill := FillWith(d.fill, Join(urls, "\n"));
    if FirstSuccess(ui.addSource, d.addClick).Some? && FirstSuccess(ui.website, d.websiteClick).Some?
       && FirstSuccess(ui.urlTextarea, fill).Some? && FirstSuccess(ui.insert, d.insertClick).Some? {
      assert AddSourcesOutcome(urls, d, ui) == PollFrom(0, |urls|, d.overlayOpen, d.errorShown);
    } else {
      assert AddSourcesOutcome(urls, d, ui) == Ok(0);
    }
  }

  /** The one fill carries every URL: split at its newlines it gives the URLs
      back, in order. */
  lemma FillCarriesAllUrls(urls: seq<string>)
    requires |urls| >= 1
    requires forall k :: 0 <= k < |urls| ==> '\n' !in urls[k]
    ensures SplitLines(Join(urls, "\n")) == urls
  {
    SplitJoinLines(urls);
  }

  // ---------------------------------------------------------------- notebooks

  /** A title element on the home page: its visibility and text queries,
      whether the parent lookup `title_el.xpath('..')` returns (it raises
      when the element handle has no such method), whether its card's menu
      button can be clicked (a missing one makes the click raise), and the
      oracles of the two menu probes that follow. */
  datatype TitleElement = TitleElement(
    visible: Outcome<bool>,
    text: Outcome<string>,
    parentLookup: bool,
    menuOpens: bool,
    deleteClick: string -> bool,
    confirmClick: string -> bool)

  datatype HomePage = HomePage(menuQueryOk: bool, titles: Outcome<seq<TitleElement>>)

  const DeleteMenuSelectors: seq<string> :=
    ["text=Delete", "text=삭제", "button:has-text(\"Delete\")", "button:has-text(\"삭제\")"]

  const ConfirmSelectors: seq<string> :=
    ["dialog button:has-text(\"Delete\")", "dialog button:has-text(\"삭제\")"]

  /** The name test: visible, and the stripped text equals the name after
      case folding. A raising query raises. */
  function TitleMatches(t: TitleElement, name: string): Outcome<bool> {
    match t.visible
    case Raised => Raised
    case Ok(v) =>
      if !v then Ok(false)
      else match t.text
        case Raised => Raised
        case Ok(txt) => Ok(Lower(Strip(txt)) == Lower(name))
  }

  /** The title scan as written, with the parent lookup of each matching
      title before its menu search, or without that lookup, whose result
      (`card`) is never used. */
  datatype ScanCode = AsWritten | WithoutParentLookup

  /** The parent lookup does not stand in the way. */
  predicate ParentFound(t: TitleElement, code: ScanCode) {
    code == WithoutParentLookup || t.parentLookup
  }

  /** A title whose deletion completes: it matches, its parent lookup
      returns, its menu opens, and both the delete item and the confirmation
      are found. */
  predicate Deletable(t: TitleElement, name: string, ui: Selectors, code: ScanCode) {
    TitleMatches(t, name) == Ok(true) && ParentFound(t, code) && t.menuOpens
    && FirstSuccess(ui.deleteMenu, t.deleteClick).Some?
    && FirstSuccess(ui.confirmDelete, t.confirmClick).Some?
  }

  /** Whether the scan from `start` on is cut short by an exception, which
      the caller ignores. */
  predicate Aborts(t: TitleElement, name: string, code: ScanCode) {
    TitleMatches(t, name).Raised?
    || (TitleMatches(t, name) == Ok(true) && (!ParentFound(t, code) || !t.menuOpens))
  }

  /** The index of the title deleted by the scan from `start`, if any. */
  function ScanTitles(titles: seq<TitleElement>, name: string, start: nat, ui: Selectors, code: ScanCode): (r: Option<nat>)
    ensures r.Some? ==> start <= r.value < |titles| && Deletable(titles[r.value], name, ui, code)
                        && forall j :: start <= j < r.value ==>
                             !Deletable(titles[j], name, ui, code) && !Aborts(titles[j], name, code)
    decreases |titles| - start
  {
    if start >= |titles| then None
    else
      var t := titles[start];
      if Aborts(t, name, code) then None
      else if Deletable(t, name, ui, code) then Some(start)
      else ScanTitles(titles, name, start + 1, ui, code)
  }

  /** Conversely, a deletable title is reached unless an earlier title
      aborts the scan, and then it or an earlier one is deleted. */
  lemma {:induction false} ScanReachesDeletable(titles: seq<TitleElement>, name: string, start: nat, j: nat, ui: Selectors, code: ScanCode)
    requires start <= j < |titles| && Deletable(titles[j], name, ui, code)
    requires forall k :: start <= k < j ==> !Aborts(titles[k], name, code)
    ensures ScanTitles(titles, name, start, ui, code).Some? && ScanTitles(titles, name, start, ui, code).value <= j
    decreases j - start
  {
    if start < j && !Deletable(titles[start], name, ui, code) {
      ScanReachesDeletable(titles, name, start + 1, j, ui, code);
    }
  }

  /** When every parent lookup returns, the two scans agree. */
  lemma {:induction false} ParentLookupHarmlessWhenFound(titles: seq<TitleElement>, name: string, start: nat, ui: Selectors)
    requires forall k :: start <= k < |titles| ==> titles[k].parentLookup
    ensures ScanTitles(titles, name, start, ui, AsWritten) == ScanTitles(titles, name, start, ui, WithoutParentLookup)
    decreases |titles| - start
  {
    if start < |titles| {
      ParentLookupHarmlessWhenFound(titles, name, start + 1, ui);
    }
  }

  function DeleteExisting(home: HomePage, name: string, ui: Selectors, code: ScanCode): Option<nat> {
    if !home.menuQueryOk || home.titles.Raised? then None else ScanTitles(home.titles.value, name, 0, ui, code)
  }

  /** With element handles that have no `xpath` method, so that no parent
      lookup returns, the scan as written deletes nothing: the first matching
      title raises and the handler ends the attempt. */
  lemma DeleteAsWrittenNeverDeletes(home: HomePage, name: string, ui: Selectors)
    requires home.titles.Ok? ==> forall k :: 0 <= k < |home.titles.value| ==> !home.titles.value[k].parentLookup
    ensures DeleteExisting(home, name, ui, AsWritten) == None
  {
  }

  /** Without the unused parent lookup, the same handles let the scan delete
      the first deletable title, where the scan as written deletes nothing. */
  lemma IntendedDeletesFirstMatch(titles: seq<TitleElement>, name: string, j: nat, ui: Selectors)
    requires forall k :: 0 <= k < |titles| ==> !titles[k].parentLookup
    requires j < |titles| && Deletable(titles[j], name, ui, WithoutParentLookup)
    requires forall k :: 0 <= k < j ==> !Aborts(titles[k], name, WithoutParentLookup)
    ensures ScanTitles(titles, name, 0, ui, AsWritten) == None
    ensures ScanTitles(titles, name, 0, ui, WithoutParentLookup).Some?
            && ScanTitles(titles, name, 0, ui, WithoutParentLookup).value <= j
  {
    ScanReachesDeletable(titles, name, 0, j, ui, WithoutParentLookup);
  }

  /** `_delete_existing_notebook`: deletes the first deletable title, stops
      early at an exception, and never raises. */
  method DeleteExistingNotebook(home: HomePage, name: string, ui: Selectors, code: ScanCode) returns (deleted: Option<nat>)
    ensures deleted == DeleteExisting(home, name, ui, code)
  {
    if !home.menuQueryOk || home.titles.Raised? {
      return None;
    }
    var titles := home.titles.value;
    for i := 0 to |titles|
      invariant ScanTitles(titles, name, 0, ui, code) == ScanTitles(titles, name, i, ui, code)
    {
      var m := TitleMatches(titles[i], name);
      if m.Raised? {
        return None;
      }
      if m.value {
        if code == AsWritten && !titles[i].parentLookup {
          return None;  // `card = title_el.xpath('..')` raised
        }
        if !titles[i].menuOpens {
          return None;
        }
        var ok, tried := Probe(ui.deleteMenu, titles[i].deleteClick);
        if ok {
          ok, tried := Probe(ui.confirmDelete, titles[i].confirmClick);
          if ok {
            return Some(i);
          }
        }
      }
    }
    return None;
  }

  /** The name match ignores one blank on each side and letter case:
      " Daily New " matches "daily new". */
  lemma NameMatchIgnoresCaseAndBlanks(t: TitleElement, name: string, txt: string)
    requires t.visible == Ok(true) && t.text == Ok(" " + txt + " ")
    requires txt != [] && !IsSpace(txt[0]) && !IsSpace(txt[|txt| - 1])
    requires Lower(txt) == Lower(name)
    ensures TitleMatches(t, name) == Ok(true)
  {
    StripPadded(txt);
  }

  /** A hidden title is never deleted, whatever its text. */
  lemma HiddenTitleSkipped(t: TitleElement, name: string, ui: Selectors, code: ScanCode)
    requires t.visible == Ok(false)
    ensures !Deletable(t, name, ui, code) && !Aborts(t, name, code)
  {
  }

  const CreateSelectors: seq<string> := [
    ".create-new-action-button", ".create-new-button",
    "button:has-text(\"새 노트북\")", "button:has-text(\"New notebook\")",
    "button:has-text(\"새로 만들기\")", "button[aria-label=\"노트북 만들기\"]"]

  /** `_create_new_notebook`. `renameRaises` says whether renaming the new
      notebook fails; that failure is caught, so only the create probe
      decides the result. */
  method CreateNewNotebook(createClick: string -> bool, renameRaises: bool, ui: Selectors) returns (created: bool)
    ensures created <==> exists k :: 0 <= k < |ui.create| && createClick(ui.create[k])
    ensures created == FirstSuccess(ui.create, createClick).Some?
  {
    FirstSuccessSpec(ui.create, createClick);
    var ok, tried := Probe(ui.create, createClick);
    if !ok {
      return false;
    }
    if renameRaises {
      // the rename's exception is caught; the default name is kept
    }
    return true;
  }

  /** `recreate_notebook`: the home-page navigation is the only step that
      can raise; deletion never affects the result. */
  method RecreateNotebook(name: string, homeGotoOk: bool, home: HomePage, createClick: string -> bool, renameRaises: bool, ui: Selectors)
    returns (r: Outcome<bool>, deleted: Option<nat>)
    ensures !homeGotoOk ==> r == Raised && deleted == None
    ensures homeGotoOk ==> r == Ok(FirstSuccess(ui.create, createClick).Some?)
                           && deleted == DeleteExisting(home, name, ui, AsWritten)
  {
    deleted := None;
    if !homeGotoOk {
      return Raised, deleted;
    }
    deleted := DeleteExistingNotebook(home, name, ui, AsWritten);
    var created := CreateNewNotebook(createClick, renameRaises, ui);
    r := Ok(created);
  }

  /** The sign-in site a session without valid cookies is sent to. */
  const SignInHost: string := "accounts.google.com"

  /** `navigate_to_notebooklm`: the page loaded and did not land on the
      sign-in site. */
  function Navigates(gotoOk: bool, url: string): bool {
    gotoOk && !Contains(url, SignInHost)
  }

  /** Landing on any page of the sign-in site is a failed navigation. */
  lemma SignInPageFails(path: string)
    ensures !Navigates(true, "https://" + SignInHost + path)
  {
    var scheme := "https://";
    var url := scheme + SignInHost + path;
    assert url == scheme + (SignInHost + path);
    assert url[|scheme|..] == SignInHost + path;
    assert url[|scheme|..|scheme| + |SignInHost|] == url[|scheme|..][..|SignInHost|];
    ContainsAt(url, SignInHost, |scheme|);
  }

  // ---------------------------------------------------------------- audio

  /** A button on the notebook page, as the `tune` scan queries it. */
  datatype PanelButton = PanelButton(visible: Outcome<bool>, text: Outcome<string>, clickOk: bool)

  datatype StudioPanel = StudioPanel(
    buttons: Outcome<seq<PanelButton>>,
    guideClick: string -> bool,
    koreanTextShown: bool,
    englishTextShown: bool)

  const GuideSelectors: seq<string> := [
    "button[aria-label='노트북 가이드']", "button[aria-label='Notebook guide']",
    ".notebook-guide-toggle", "button:has-text('노트북 가이드')", "button[aria-label='스튜디오']"]

  /** The selector lists of every probe. The specifications and procedures
      are stated for any lists; the agent drives the page with
      `PageSelectors`, the lists of the source. */
  datatype Selectors = Selectors(
    addSource: seq<string>,
    website: seq<string>,
    urlTextarea: seq<string>,
    insert: seq<string>,
    create: seq<string>,
    deleteMenu: seq<string>,
    confirmDelete: seq<string>,
    guide: seq<string>)

  const PageSelectors: Selectors := Selectors(
    AddSourceSelectors, WebsiteSelectors, UrlTextareaSelectors, InsertSelectors,
    CreateSelectors, DeleteMenuSelectors, ConfirmSelectors, GuideSelectors)

  /** Whether the scan from `i` clicks a visible button whose text contains
      "tune"; any exception ends the scan unclicked. */
  function TuneClicked(btns: seq<PanelButton>, i: nat): bool
    decreases |btns| - i
  {
    if i >= |btns| then false
    else match btns[i].visible
      case Raised => false
      case Ok(v) =>
        if !v then TuneClicked(btns, i + 1)
        else match btns[i].text
          case Raised => false
          case Ok(t) => if Contains(t, "tune") then btns[i].clickOk else TuneClicked(btns, i + 1)
  }

  /** `_open_studio_panel`. The result depends only on the two text waits;
      the guide probe runs only when the `tune` scan did not click. */
  method OpenStudioPanel(p: StudioPanel, ui: Selectors) returns (panelShown: bool, guideTried: bool)
    ensures panelShown == (p.koreanTextShown || p.englishTextShown)
    ensures guideTried == !(p.buttons.Ok? && TuneClicked(p.buttons.value, 0))
  {
    var clicked := false;
    if p.buttons.Ok? {
      var btns := p.buttons.value;
      var i := 0;
      while i < |btns|
        invariant 0 <= i <= |btns|
        invariant TuneClicked(btns, 0) == TuneClicked(btns, i)
        invariant !clicked
        decreases |btns| - i
      {
        var b := btns[i];
        if b.visible.Raised? {
          break;
        }
        if b.visible.value {
          if b.text.Raised? {
            break;
          }
          if Contains(b.text.value, "tune") {
            clicked := b.clickOk;  // a raising click leaves `clicked` False
            break;
          }
        }
        i := i + 1;
      }
      assert clicked == TuneClicked(btns, 0);
    }
    guideTried := !clicked;
    if !clicked {
      var tried;
      clicked, tried := Probe(ui.guide, p.guideClick);
    }
    panelShown := p.koreanTextShown || p.englishTextShown;
  }

  /** `generate_audio_overview`: it only opens the panel and, when a window
      is shown, waits for the operator's Enter (`stdin`, which raises on end
      of input). Whenever it returns, it returns True. */
  method GenerateAudioOverview(headless: bool, p: StudioPanel, stdin: Outcome<string>, ui: Selectors) returns (r: Outcome<bool>)
    ensures r.Ok? ==> r.value
    ensures r.Raised? <==> !headless && stdin.Raised?
  {
    var panelShown, _ := OpenStudioPanel(p, ui);  // a failure is only logged
    if !headless && stdin.Raised? {
      return Raised;
    }
    return Ok(true);
  }

  // ---------------------------------------------------------------- run

  /** How `start` fails, if it does: at the driver, at the browser launch or
      at the new page. */
  datatype StartFailure = StartsCleanly | DriverFails | LaunchFails | NewPageFails

  /** Everything `run` reads from the outside world, in order. */
  datatype AgentEnv = AgentEnv(
    startFailure: StartFailure,
    gotoOk: bool,
    urlAfterGoto: string,
    homeGotoOk: bool,
    home: HomePage,
    createClick: string -> bool,
    renameRaises: bool,
    urlAfterCreate: string,
    dialog: SourceDialog,
    panel: StudioPanel,
    stdin: Outcome<string>,
    urlAfterAudio: string)

  /** The result dictionary. */
  datatype RunResult = RunResult(success: bool, notebookUrl: Option<string>, sourcesAdded: nat, audioGenerated: bool)

  const InitialResult: RunResult := RunResult(false, None, 0, false)

  /** The audio step's outcome as `GenerateAudioOverview` computes it. */
  function AudioOutcome(headless: bool, stdin: Outcome<string>): Outcome<bool> {
    if !headless && stdin.Raised? then Raised else Ok(true)
  }

  /** The result of `run`, given what the share-link call does: every
      exception is caught and returns the dictionary as filled so far. */
  function RunSteps(urls: seq<string>, env: AgentEnv, headless: bool, name: string, shareLink: Outcome<string>, ui: Selectors): RunResult {
    if env.startFailure != StartsCleanly || !Navigates(env.gotoOk, env.urlAfterGoto) || !env.homeGotoOk
       || FirstSuccess(ui.create, env.createClick).None?
    then InitialResult
    else
      var r1 := InitialResult.(notebookUrl := Some(env.urlAfterCreate));
      match AddSourcesOutcome(urls, env.dialog, ui)
      case Raised => r1
      case Ok(n) =>
        var r2 := r1.(sourcesAdded := n);
        if n == 0 then r2
        else match AudioOutcome(headless, env.stdin)
          case Raised => r2
          case Ok(a) =>
            var r3 := r2.(audioGenerated := a);
            if !a then r3
            else match shareLink
              case Raised => r3
              case Ok(link) => r3.(notebookUrl := Some(link), success := true)
  }

  /** As written, the share-link call names a method the class does not
      define, so it raises `AttributeError`. */
  function RunAsWritten(urls: seq<string>, env: AgentEnv, headless: bool, name: string, ui: Selectors): RunResult {
    RunSteps(urls, env, headless, name, Raised, ui)
  }

  /** As intended, `get_audio_share_link` returns the page's URL. */
  function RunIntended(urls: seq<string>, env: AgentEnv, headless: bool, name: string, ui: Selectors): RunResult {
    RunSteps(urls, env, headless, name, Ok(env.urlAfterAudio), ui)
  }

  /** As written, `run` never reports success: when it gets past the audio
      step, the share-link call raises and the handler returns the result
      with `success` still False. */
  lemma RunNeverSucceeds(urls: seq<string>, env: AgentEnv, headless: bool, name: string, ui: Selectors)
    ensures !RunAsWritten(urls, env, headless, name, ui).success
    ensures var r := RunAsWritten(urls, env, headless, name, ui);
            r.audioGenerated ==> r.sourcesAdded == |urls| > 0 && r.notebookUrl == Some(env.urlAfterCreate)
  {
    AddSourcesAllOrNothing(urls, env.dialog, ui);
  }

  /** The stages that must all succeed for the run to succeed. */
  predicate ReachesAudio(urls: seq<string>, env: AgentEnv, headless: bool, ui: Selectors) {
    env.startFailure == StartsCleanly && Navigates(env.gotoOk, env.urlAfterGoto) && env.homeGotoOk
    && FirstSuccess(ui.create, env.createClick).Some?
    && AddSourcesOutcome(urls, env.dialog, ui).Ok? && AddSourcesOutcome(urls, env.dialog, ui).value > 0
    && AudioOutcome(headless, env.stdin).Ok?
  }

  /** With the intended share-link call, the run succeeds exactly when every
      stage does, and then reports all sources and the page's URL. */
  lemma RunIntendedSucceeds(urls: seq<string>, env: AgentEnv, headless: bool, name: string, ui: Selectors)
    ensures RunIntended(urls, env, headless, name, ui).success <==> ReachesAudio(urls, env, headless, ui)
    ensures RunIntended(urls, env, headless, name, ui).success ==>
              RunIntended(urls, env, headless, name, ui)
              == RunResult(true, Some(env.urlAfterAudio), |urls|, true)
  {
    AddSourcesAllOrNothing(urls, env.dialog, ui);
  }

  /** Whatever happens, the count is 0 or every URL, and a URL is reported
      only once the notebook was recreated. */
  lemma RunResultShape(urls: seq<string>, env: AgentEnv, headless: bool, name: string, shareLink: Outcome<string>, ui: Selectors)
    ensures var r := RunSteps(urls, env, headless, name, shareLink, ui);
            (r.sourcesAdded == 0 || r.sourcesAdded == |urls|)
            && (r.notebookUrl.Some? <==> env.startFailure == StartsCleanly && Navigates(env.gotoOk, env.urlAfterGoto)
                                         && env.homeGotoOk && FirstSuccess(ui.create, env.createClick).Some?)
            && (r.success ==> r.audioGenerated && r.sourcesAdded > 0)
  {
    AddSourcesAllOrNothing(urls, env.dialog, ui);
  }

  /** The browser resources a session holds open. */
  class NotebookLMAgent {
    const notebookName: string
    const headless: bool
    /** The selector lists the page is driven with. */
    const ui: Selectors
    /** Whether `self.playwright`, `self.context` and `self.page` are set. */
    var playwright: bool
    var context: bool
    var page: bool
    /** Whether the driver runs and the browser context is open. */
    var driverRunning: bool
    var contextOpen: bool

    /** An open resource is always referenced by its field. */
    predicate Valid()
      reads this
    {
      (driverRunning ==> playwright) && (contextOpen ==> context)
    }

    constructor (notebookName: string, headless: bool)
      ensures Valid()
      ensures this.notebookName == notebookName && this.headless == headless && ui == PageSelectors
      ensures !playwright && !context && !page && !driverRunning && !contextOpen
    {
      this.notebookName := notebookName;
      this.headless := headless;
      ui := PageSelectors;
      playwright := false;
      context := false;
      page := false;
      driverRunning := false;
      contextOpen := false;
    }

    /** `start`: the driver, then the persistent context, then the page;
      a failure at one step leaves the earlier ones in place. */
    method Start(failure: StartFailure) returns (ok: bool)
      requires Valid()
      modifies this
      ensures Valid()
      ensures ok <==> failure == StartsCleanly
      ensures playwright == (old(playwright) || failure != DriverFails)
      ensures driverRunning == (old(driverRunning) || failure != DriverFails)
      ensures context == (old(context) || failure == NewPageFails || failure == StartsCleanly)
      ensures contextOpen == (old(contextOpen) || failure == NewPageFails || failure == StartsCleanly)
      ensures page == (old(page) || failure == StartsCleanly)
    {
      if failure == DriverFails {
        return false;
      }
      playwright := true;
      driverRunning := true;
      if failure == LaunchFails {
        return false;
      }
      context := true;
      contextOpen := true;
      if failure == NewPageFails {
        return false;
      }
      page := true;
      return true;
    }

    /** `close`: closes what is set; a failing close is ignored. */
    method Close()
      requires Valid()
      modifies this
      ensures Valid()
      ensures !driverRunning && !contextOpen
      ensures playwright == old(playwright) && context == old(context) && page == old(page)
    {
      if context {
        contextOpen := false;
      }
      if playwright {
        driverRunning := false;
      }
    }

    /** `run`: every path, early return or exception, ends in `close`. */
    method Run(urls: seq<string>, env: AgentEnv) returns (result: RunResult)
      requires Valid()
      modifies this
      ensures Valid()
      ensures !driverRunning && !contextOpen
      ensures result == RunAsWritten(urls, env, headless, notebookName, ui)
    {
      result := InitialResult;
      var started := Start(env.startFailure);
      if !started {
        Close();
        return;
      }
      if !Navigates(env.gotoOk, env.urlAfterGoto) {
        Close();
        return;
      }
      var recreated, _ := RecreateNotebook(notebookName, env.homeGotoOk, env.home, env.createClick, env.renameRaises, ui);
      if recreated != Ok(true) {
        Close();
        return;
      }
      result := result.(notebookUrl := Some(env.urlAfterCreate));
      var added, _ := AddSources(urls, env.dialog, ui);
      if added.Raised? {
        Close();
        return;
      }
      result := result.(sourcesAdded := added.value);
      if added.value == 0 {
        Close();
        return;
      }
      var audio := GenerateAudioOverview(headless, env.panel, env.stdin, ui);
      if audio.Raised? {
        Close();
        return;
      }
      result := result.(audioGenerated := audio.value);
      // audio.value is always True here, so `self.get_share_link()` is
      // reached; the class defines no such method, and the AttributeError
      // is caught with `success` still False
      Close();
    }
  }
}
