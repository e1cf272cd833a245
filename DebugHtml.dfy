/** The button extractor of analyze_debug_html.py: `ButtonParser` receives
    the start-tag, data and end-tag events of an HTML document and collects
    the elements that look like buttons. The tokenizer that produces the
    events is not modelled: the events are the input. */
module DebugHtml {
  import opened Common

  /** An attribute as the tokenizer reports it: a value-less attribute
      (`<div class>`) has value None. */
  type Attr = (string, Option<string>)
  type AttrDict = map<string, Option<string>>

  datatype HtmlEvent =
    | StartTag(tag: string, attrs: seq<Attr>)
    | EndTag(tag: string)
    | Data(text: string)

  datatype ButtonRecord = ButtonRecord(tag: string, attrs: AttrDict, text: string)

  /** `dict(attrs)`. */
  function ToDict(attrs: seq<Attr>): AttrDict
    decreases |attrs|
  {
    if attrs == [] then map[]
    else ToDict(attrs[..|attrs| - 1])[attrs[|attrs| - 1].0 := attrs[|attrs| - 1].1]
  }

  /** The names are those of the attributes, and a repeated name keeps its
      last value. */
  lemma {:induction false} ToDictKeys(attrs: seq<Attr>)
    ensures forall k :: k in ToDict(attrs) <==> exists j :: 0 <= j < |attrs| && attrs[j].0 == k
    ensures forall j :: 0 <= j < |attrs| ==>
              ToDict(attrs)[attrs[j].0] == attrs[j].1 || exists j' :: j < j' < |attrs| && attrs[j'].0 == attrs[j].0
    decreases |attrs|
  {
    if attrs != [] {
      var init := attrs[..|attrs| - 1];
      ToDictKeys(init);
      assert forall j :: 0 <= j < |attrs| - 1 ==> init[j] == attrs[j];
    }
  }

  /** The class words looked for, as substrings of the class string. */
  const ClassMarkers: seq<string> := ["mat-card", "create-new", "project-button", "fab"]

  predicate HasMarker(cls: string) {
    exists m :: m in ClassMarkers && Contains(cls, m)
  }

  predicate RoleIsButton(d: AttrDict) {
    "role" in d && d["role"] == Some("button")
  }

  /** The button-likeness test. The `or` chain short-circuits: the tag is
      checked first, then the role; only then is the class string searched,
      and a class attribute without a value makes that search raise (the
      `in` operator does not accept None). */
  function IsButtonLike(tag: string, d: AttrDict): Outcome<bool> {
    if tag == "button" || RoleIsButton(d) then Ok(true)
    else if "class" !in d then Ok(false)
    else match d["class"]
      case None => Raised
      case Some(cls) =>
        Ok(Contains(cls, "mat-card") || Contains(cls, "create-new")
           || Contains(cls, "project-button") || Contains(cls, "fab"))
  }

  /** The test raises exactly when neither the tag nor the role decides and
      the class attribute has no value; it accepts exactly the button tag, the
      button role, and a class string holding one of the markers. */
  lemma IsButtonLikeCases(tag: string, d: AttrDict)
    ensures IsButtonLike(tag, d).Raised? <==> tag != "button" && !RoleIsButton(d) && "class" in d && d["class"].None?
    ensures IsButtonLike(tag, d) == Ok(true) <==>
              tag == "button" || RoleIsButton(d)
              || ("class" in d && d["class"].Some? && HasMarker(d["class"].value))
  {
    if tag != "button" && !RoleIsButton(d) && "class" in d && d["class"].Some? {
      var cls := d["class"].value;
      if HasMarker(cls) {
        var m :| m in ClassMarkers && Contains(cls, m);
      } else {
        assert !Contains(cls, ClassMarkers[0]) && !Contains(cls, ClassMarkers[1]);
        assert !Contains(cls, ClassMarkers[2]) && !Contains(cls, ClassMarkers[3]);
      }
    }
  }

  /** The five fields of the parser. */
  datatype ParserState = ParserState(
    inButton: bool,
    currentTag: Option<string>,
    currentAttrs: AttrDict,
    currentText: string,
    buttons: seq<ButtonRecord>)

  const Initial: ParserState := ParserState(false, None, map[], "", [])

  /** One handler call; the start-tag handler may raise, and then changes
      nothing. */
  function Step(s: ParserState, e: HtmlEvent): Outcome<ParserState> {
    match e
    case StartTag(tag, attrs) =>
      var d := ToDict(attrs);
      (match IsButtonLike(tag, d)
       case Raised => Raised
       case Ok(b) =>
         // a button-like start tag begins a new record, even inside another
         Ok(if b then s.(inButton := true, currentTag := Some(tag), currentAttrs := d, currentText := "") else s))
    case EndTag(tag) =>
      Ok(if s.inButton && s.currentTag == Some(tag)
         then s.(buttons := s.buttons + [ButtonRecord(tag, s.currentAttrs, Strip(s.currentText))], inButton := false)
         else s)
    case Data(text) =>
      Ok(if s.inButton then s.(currentText := s.currentText + text) else s)
  }

  /** `feed`: the events in order; a raise ends the feed and leaves the state
      reached before the raising event. The flag says whether it raised. */
  function Run(s: ParserState, events: seq<HtmlEvent>): (ParserState, bool)
    decreases |events|
  {
    if events == [] then (s, false)
    else match Step(s, events[0])
      case Raised => (s, true)
      case Ok(t) => Run(t, events[1..])
  }

  function Bit(b: bool): nat {
    if b then 1 else 0
  }

  /** The button-like start tags among the events. */
  function ButtonLikeStarts(events: seq<HtmlEvent>): nat
    decreases |events|
  {
    if events == [] then 0
    else
      (if events[0].StartTag? && IsButtonLike(events[0].tag, ToDict(events[0].attrs)) == Ok(true) then 1 else 0)
      + ButtonLikeStarts(events[1..])
  }

  /** Their tag names. */
  function ButtonLikeTags(events: seq<HtmlEvent>): set<string>
    decreases |events|
  {
    if events == [] then {}
    else
      (if events[0].StartTag? && IsButtonLike(events[0].tag, ToDict(events[0].attrs)) == Ok(true) then {events[0].tag} else {})
      + ButtonLikeTags(events[1..])
  }

  /** Every record, and the open element, carries a tag from `tags`. */
  predicate TagsIn(s: ParserState, tags: set<string>) {
    (forall b :: b in s.buttons ==> b.tag in tags)
    && (s.inButton ==> s.currentTag.Some? && s.currentTag.value in tags)
  }

  /** Records are only ever appended: the earlier list is a prefix. */
  lemma {:induction false} RunGrows(s: ParserState, events: seq<HtmlEvent>)
    ensures |s.buttons| <= |Run(s, events).0.buttons|
    ensures Run(s, events).0.buttons[..|s.buttons|] == s.buttons
    decreases |events|
  {
    if events != [] && Step(s, events[0]).Ok? {
      var t := Step(s, events[0]).value;
      RunGrows(t, events[1..]);
      assert t.buttons[..|s.buttons|] == s.buttons;
    }
  }

  /** Each record, and each open element, is paid for by its own
      button-like start tag. */
  lemma {:induction false} RunBound(s: ParserState, events: seq<HtmlEvent>)
    ensures var t := Run(s, events).0;
            |t.buttons| + Bit(t.inButton) <= |s.buttons| + Bit(s.inButton) + ButtonLikeStarts(events)
    decreases |events|
  {
    if events != [] && Step(s, events[0]).Ok? {
      RunBound(Step(s, events[0]).value, events[1..]);
    }
  }

  /** From a fresh parser, there are never more records than button-like
      start tags. */
  lemma RecordsBounded(events: seq<HtmlEvent>)
    ensures |Run(Initial, events).0.buttons| <= ButtonLikeStarts(events)
  {
    RunBound(Initial, events);
  }

  /** Every record's tag is the tag of a button-like start tag. */
  lemma {:induction false} RunTags(s: ParserState, events: seq<HtmlEvent>, tags: set<string>)
    requires TagsIn(s, tags)
    ensures TagsIn(Run(s, events).0, tags + ButtonLikeTags(events))
    decreases |events|
  {
    if events != [] && Step(s, events[0]).Ok? {
      var t := Step(s, events[0]).value;
      var here := if events[0].StartTag? && IsButtonLike(events[0].tag, ToDict(events[0].attrs)) == Ok(true)
                  then {events[0].tag} else {};
      assert TagsIn(t, tags + here);
      RunTags(t, events[1..], tags + here);
      assert tags + here + ButtonLikeTags(events[1..]) == tags + ButtonLikeTags(events);
    }
  }

  lemma RecordTagsFromStarts(events: seq<HtmlEvent>)
    ensures forall b :: b in Run(Initial, events).0.buttons ==> b.tag in ButtonLikeTags(events)
  {
    RunTags(Initial, events, {});
    assert {} + ButtonLikeTags(events) == ButtonLikeTags(events);
  }

  /** Data outside a button-like element is never recorded, and an end tag
      other than the open element's leaves the state alone. */
  lemma IgnoredEvents(s: ParserState, text: string, tag: string)
    ensures !s.inButton ==> Step(s, Data(text)) == Ok(s)
    ensures !(s.inButton && s.currentTag == Some(tag)) ==> Step(s, EndTag(tag)) == Ok(s)
    ensures s.inButton && s.currentTag == Some(tag) ==>
              Step(s, EndTag(tag)).value.buttons == s.buttons + [ButtonRecord(tag, s.currentAttrs, Strip(s.currentText))]
              && !Step(s, EndTag(tag)).value.inButton
  {
  }

  /** The class search is by substring: "prefabricated" holds "fab". */
  lemma SubstringClassMatches()
    ensures IsButtonLike("div", map["class" := Some("prefabricated")]) == Ok(true)
  {
    ContainsAt("prefabricated", "fab", 3);
  }

  /** A value-less class attribute raises, unless the tag or the role has
      already decided. */
  lemma ValuelessClass()
    ensures IsButtonLike("div", map["class" := None]) == Raised
    ensures IsButtonLike("button", map["class" := None]) == Ok(true)
    ensures IsButtonLike("div", map["role" := Some("button"), "class" := None]) == Ok(true)
  {
  }

  /** One successful step at the head of the events. */
  lemma RunCons(s: ParserState, e: HtmlEvent, rest: seq<HtmlEvent>, t: ParserState)
    requires Step(s, e) == Ok(t)
    ensures Run(s, [e] + rest) == Run(t, rest)
  {
    assert ([e] + rest)[0] == e && ([e] + rest)[1..] == rest;
  }

  /** Inside a button, an ordinary nested element (`<span>text</span>`) only
      contributes its text. */
  lemma NestedElementText(s: ParserState, tag: string, attrs: seq<Attr>, text: string)
    requires s.inButton && s.currentTag != Some(tag)
    requires IsButtonLike(tag, ToDict(attrs)) == Ok(false)
    ensures Run(s, [StartTag(tag, attrs), Data(text), EndTag(tag)])
            == (s.(currentText := s.currentText + text), false)
  {
    var t := s.(currentText := s.currentText + text);
    RunCons(t, EndTag(tag), [], t);
    RunCons(s, Data(text), [EndTag(tag)], t);
    RunCons(s, StartTag(tag, attrs), [Data(text), EndTag(tag)], s);
    assert [StartTag(tag, attrs), Data(text), EndTag(tag)]
           == [StartTag(tag, attrs)] + ([Data(text)] + ([EndTag(tag)] + []));
  }

  /** A button-like start tag inside an open button-like element takes over:
      the outer element's text so far is dropped, and since its end tag no
      longer matches, the outer element is never recorded. */
  lemma InnerButtonTakesOver(s: ParserState, tag: string, attrs: seq<Attr>, outer: string)
    requires s.inButton && s.currentTag == Some(outer) && tag != outer
    requires IsButtonLike(tag, ToDict(attrs)) == Ok(true)
    ensures var t := Step(s, StartTag(tag, attrs)).value;
            t.inButton && t.currentTag == Some(tag) && t.currentText == "" && t.buttons == s.buttons
            && Step(t, EndTag(outer)) == Ok(t)
  {
  }

  /** A button-like element with text inside is recorded with its tag, its
      attributes and its stripped text. */
  lemma ButtonElementRecorded(s: ParserState, tag: string, attrs: seq<Attr>, text: string)
    requires IsButtonLike(tag, ToDict(attrs)) == Ok(true)
    ensures Run(s, [StartTag(tag, attrs), Data(text), EndTag(tag)])
            == (s.(buttons := s.buttons + [ButtonRecord(tag, ToDict(attrs), Strip(text))], inButton := false,
                   currentTag := Some(tag), currentAttrs := ToDict(attrs), currentText := text), false)
  {
    var d := ToDict(attrs);
    var s1 := s.(inButton := true, currentTag := Some(tag), currentAttrs := d, currentText := "");
    assert "" + text == text;
    var s2 := s1.(currentText := text);
    var done := s2.(buttons := s.buttons + [ButtonRecord(tag, d, Strip(text))], inButton := false);
    RunCons(s2, EndTag(tag), [], done);
    RunCons(s1, Data(text), [EndTag(tag)], s2);
    RunCons(s, StartTag(tag, attrs), [Data(text), EndTag(tag)], s1);
    assert [StartTag(tag, attrs), Data(text), EndTag(tag)]
           == [StartTag(tag, attrs)] + ([Data(text)] + ([EndTag(tag)] + []));
  }

  /** The record's text is the stripped text: `<button> Add </button>` gives
      "Add". */
  lemma RecordTextStripped(s: ParserState, word: string)
    requires word != [] && !IsSpace(word[0]) && !IsSpace(word[|word| - 1])
    ensures Run(s, [StartTag("button", []), Data(" " + word + " "), EndTag("button")]).0.buttons
            == s.buttons + [ButtonRecord("button", map[], word)]
  {
    assert ToDict([]) == map[];
    assert IsButtonLike("button", map[]) == Ok(true);
    ButtonElementRecorded(s, "button", [], " " + word + " ");
    StripPadded(word);
  }

  /** The parser object. */
  class ButtonParser {
    var inButton: bool
    var currentTag: Option<string>
    var currentAttrs: AttrDict
    var buttons: seq<ButtonRecord>
    var currentText: string

    function State(): ParserState
      reads this
    {
      ParserState(inButton, currentTag, currentAttrs, currentText, buttons)
    }

    constructor ()
      ensures State() == Initial
    {
      inButton := false;
      currentTag := None;
      currentAttrs := map[];
      buttons := [];
      currentText := "";
    }

    /** `handle_starttag`; `raised` when the button-likeness test raises. */
    method HandleStartTag(tag: string, attrs: seq<Attr>) returns (raised: bool)
      modifies this
      ensures raised <==> Step(old(State()), StartTag(tag, attrs)).Raised?
      ensures raised ==> State() == old(State())
      ensures !raised ==> State() == Step(old(State()), StartTag(tag, attrs)).value
    {
      var attrsDict := ToDict(attrs);
      var isButton := IsButtonLike(tag, attrsDict);
      if isButton.Raised? {
        return true;
      }
      if isButton.value {
        inButton := true;
        currentTag := Some(tag);
        currentAttrs := attrsDict;
        currentText := "";
      }
      return false;
    }

    method HandleEndTag(tag: string)
      modifies this
      ensures State() == Step(old(State()), EndTag(tag)).value
    {
      if inButton && currentTag == Some(tag) {
        buttons := buttons + [ButtonRecord(tag, currentAttrs, Strip(currentText))];
        inButton := false;
      }
    }

    method HandleData(data: string)
      modifies this
      ensures State() == Step(old(State()), Data(data)).value
    {
      if inButton {
        currentText := currentText + data;
      }
    }

    /** `feed`, with the events already tokenized. */
    method Feed(events: seq<HtmlEvent>) returns (raised: bool)
      modifies this
      ensures (State(), raised) == Run(old(State()), events)
    {
      var i := 0;
      while i < |events|
        invariant 0 <= i <= |events|
        invariant Run(old(State()), events) == Run(State(), events[i..])
        decreases |events| - i
      {
        assert events[i..][0] == events[i] && events[i..][1..] == events[i + 1..];
        match events[i] {
          case StartTag(tag, attrs) =>
            raised := HandleStartTag(tag, attrs);
            if raised {
              return;
            }
          case EndTag(tag) =>
            HandleEndTag(tag);
          case Data(text) =>
            HandleData(text);
        }
        i := i + 1;
      }
      assert events[i..] == [];
      raised := false;
    }
  }
}
