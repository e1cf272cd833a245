/** The cookie sanitisation that `BrowserFactory._inject_cookies`
    (lib/browser_utils.py) applies to the saved storage state before handing
    its cookies to the automation library: `sameSite` is mapped onto the three
    values the library accepts, and `id`, `storeId` and `hostOnly` are dropped.
    The state file and the library's `add_cookies` are inputs. */
module BrowserCookies {
  import opened Common

  /** A cookie record: a JSON object. */
  type Cookie = map<string, Json>

  /** Fields the library rejects; removed from every cookie. */
  const StrippedFields: seq<string> := ["id", "storeId", "hostOnly"]

  /** Lower-cased `sameSite` values that become "None". */
  const NoneAliases: seq<string> := ["no_restriction", "unspecified", "none", ""]

  /** The values the library accepts. */
  predicate Accepted(v: string) {
    v == "None" || v == "Lax" || v == "Strict"
  }

  /** The lenient rule, applied to the already lower-cased value: an alias of
      "no restriction" becomes "None"; otherwise "lax" is looked for before
      "strict"; anything else defaults to "Lax". */
  function SameSiteFor(lowered: string): (r: string)
    ensures Accepted(r)
    ensures lowered in NoneAliases <==> r == "None"
    ensures r == "Strict" <==> lowered !in NoneAliases && !Contains(lowered, "lax") && Contains(lowered, "strict")
  {
    if lowered in NoneAliases then "None"
    else if Contains(lowered, "lax") then "Lax"
    else if Contains(lowered, "strict") then "Strict"
    else "Lax"
  }

  /** `cookie.get('sameSite', '')`: a missing field reads as the empty string;
      a value that is not a string has no `.lower()` and raises. */
  function RawSameSite(c: Cookie): Outcome<string> {
    if "sameSite" !in c then Ok("")
    else match c["sameSite"]
      case JStr(s) => Ok(s)
      case _ => Raised
  }

  function StrippedKeys(): set<string> {
    set f | f in StrippedFields
  }

  /** One cookie after sanitisation (when it does not raise). */
  function SanitizedCookie(c: Cookie, sameSite: string): (r: Cookie)
    ensures "sameSite" in r && r["sameSite"] == JStr(SameSiteFor(Lower(sameSite)))
    ensures forall f :: f in StrippedFields ==> f !in r
    ensures forall k :: k in c && k !in StrippedFields && k != "sameSite" ==> k in r && r[k] == c[k]
    ensures forall k :: k in r ==> k in c || k == "sameSite"
  {
    (c - StrippedKeys())["sameSite" := JStr(SameSiteFor(Lower(sameSite)))]
  }

  /** `cookie.copy()` and its rewrite: only a JSON object may be copied and
      queried with `.get`. */
  function SanitizeOne(item: Json): Outcome<Cookie> {
    match item
    case JObj(c) =>
      (match RawSameSite(c)
       case Ok(ss) => Ok(SanitizedCookie(c, ss))
       case Raised => Raised)
    case _ => Raised
  }

  lemma LowerAccepted(v: string)
    requires Accepted(v)
    ensures SameSiteFor(Lower(v)) == v
  {
    if v == "None" {
      assert Lower(v) == "none";
    } else if v == "Lax" {
      assert Lower(v) == "lax";
      LaxMapsToLax();
    } else {
      assert Lower(v) == "strict";
      StrictMapsToStrict();
    }
  }

  lemma LaxMapsToLax()
    ensures SameSiteFor("lax") == "Lax"
  {
    assert Contains("lax", "lax");
  }

  lemma StrictMapsToStrict()
    ensures SameSiteFor("strict") == "Strict"
  {
    NotContainsFirst("strict", "lax");
    assert Contains("strict", "strict");
  }

  /** Sanitising an already sanitised cookie changes nothing: the three
      accepted values are mapped onto themselves. */
  lemma SanitizeIdempotent(item: Json)
    requires SanitizeOne(item).Ok?
    ensures SanitizeOne(JObj(SanitizeOne(item).value)) == SanitizeOne(item)
  {
    var c := SanitizeOne(item).value;
    var v := SameSiteFor(Lower(RawSameSite(item.fields).value));
    assert RawSameSite(c) == Ok(v);
    LowerAccepted(v);
    assert SanitizedCookie(c, v) == c;
  }

  /** A value holding both "lax" and "strict" (and no alias) yields "Lax". */
  lemma LaxBeforeStrict(lowered: string)
    requires lowered !in NoneAliases
    requires Contains(lowered, "lax") && Contains(lowered, "strict")
    ensures SameSiteFor(lowered) == "Lax"
  {
  }

  lemma RelaxedIsLax()
    ensures SameSiteFor(Lower("Relaxed")) == "Lax"
  {
    assert Lower("Relaxed") == "relaxed";
    ContainsAt("relaxed", "lax", 2);
  }

  /** A value holding both words takes the "lax" branch. */
  lemma StrictLaxIsLax()
    ensures SameSiteFor(Lower("Strict_Lax")) == "Lax"
  {
    assert Lower("Strict_Lax") == "strict_lax";
    ContainsAt("strict_lax", "lax", 7);
  }

  /** Case does not matter to the lenient rule. */
  lemma UpperUnspecifiedIsNone()
    ensures SameSiteFor(Lower("UNSPECIFIED")) == "None"
  {
    assert Lower("UNSPECIFIED") == "unspecified";
  }

  /** A value that is no alias and names neither word defaults to "Lax". */
  lemma DefaultLax(lowered: string)
    requires lowered !in NoneAliases && !Contains(lowered, "lax") && !Contains(lowered, "strict")
    ensures SameSiteFor(lowered) == "Lax"
  {
  }

  lemma UnknownDefaultsToLax()
    ensures SameSiteFor(Lower("whatever")) == "Lax"
  {
    LowerNoCapitals("whatever");
    assert "whatever" !in NoneAliases;
    NotContainsFirst("whatever", "lax");
    NotContainsFirst("whatever", "strict");
    DefaultLax("whatever");
  }

  /** One pass of the loop of `_inject_cookies`: the cookie copied,
      `sameSite` overwritten, the incompatible fields deleted one by one. */
  method SanitizeItem(item: Json) returns (r: Outcome<Cookie>)
    ensures r == SanitizeOne(item)
  {
    if !item.JObj? {
      return Raised;
    }
    var s := item.fields;  // cookie.copy()
    var ss := RawSameSite(s);
    if ss.Raised? {
      return Raised;
    }
    var sameSite := JStr(SameSiteFor(Lower(ss.value)));
    s := s["sameSite" := sameSite];
    var k := 0;
    while k < |StrippedFields|
      invariant 0 <= k <= |StrippedFields|
      invariant s == (item.fields - (set f | f in StrippedFields[..k]))["sameSite" := sameSite]
    {
      assert StrippedFields[..k + 1] == StrippedFields[..k] + [StrippedFields[k]];
      if StrippedFields[k] in s {
        s := s - {StrippedFields[k]};
      }
      k := k + 1;
    }
    assert StrippedFields[..k] == StrippedFields;
    return Ok(s);
  }

  /** The loop of `_inject_cookies`: a fresh list, each sanitised copy
      appended. An item that raises aborts the whole loop. */
  method SanitizeCookies(items: seq<Json>) returns (r: Outcome<seq<Cookie>>)
    ensures r.Ok? <==> forall i :: 0 <= i < |items| ==> SanitizeOne(items[i]).Ok?
    ensures r.Ok? ==> |r.value| == |items|
                      && forall i :: 0 <= i < |items| ==> r.value[i] == SanitizeOne(items[i]).value
  {
    var sanitized: seq<Cookie> := [];
    var i := 0;
    while i < |items|
      invariant 0 <= i <= |items|
      invariant |sanitized| == i
      invariant forall j :: 0 <= j < i ==> SanitizeOne(items[j]) == Ok(sanitized[j])
    {
      var c := SanitizeItem(items[i]);
      if c.Raised? {
        return Raised;
      }
      sanitized := sanitized + [c.value];
      i := i + 1;
    }
    return Ok(sanitized);
  }

  /** The state file as the injector finds it. */
  datatype StateFile = Missing | Unreadable | Parsed(doc: Json)

  datatype InjectOutcome =
    | NoStateFile                      // the file does not exist; skipped
    | NothingToInject                  // no `cookies` key, or an empty collection
    | Injected(cookies: seq<Cookie>)   // handed to `add_cookies`
    | InjectionFailed                  // an exception was caught and logged

  /** `'cookies' in state and len(state['cookies']) > 0`, with the Python
      exceptions each shape of document raises. */
  function CookieItems(state: Json): Outcome<Option<seq<Json>>> {
    match state
    case JObj(f) =>
      if "cookies" !in f then Ok(None)
      else (match f["cookies"]
        case JArr(items) => if |items| > 0 then Ok(Some(items)) else Ok(None)
        // a non-empty string or object is iterated, and its members (strings)
        // have no `.copy()`
        case JStr(s) => if |s| > 0 then Raised else Ok(None)
        case JObj(m) => if |m| > 0 then Raised else Ok(None)
        // numbers, booleans and null have no `len()`
        case _ => Raised)
    // `'cookies' in <list>` compares with every element; indexing a list with
    // a string raises
    case JArr(items) => if JStr("cookies") in items then Raised else Ok(None)
    case JStr(s) => if Contains(s, "cookies") then Raised else Ok(None)
    case _ => Raised
  }

  method InjectCookies(file: StateFile, addCookiesSucceeds: bool) returns (o: InjectOutcome)
    ensures file.Missing? <==> o.NoStateFile?
    ensures o.NothingToInject? <==> file.Parsed? && CookieItems(file.doc) == Ok(None)
    ensures o.Injected? <==>
              file.Parsed? && CookieItems(file.doc).Ok? && CookieItems(file.doc).value.Some?
              && (forall i :: 0 <= i < |CookieItems(file.doc).value.value| ==>
                                SanitizeOne(CookieItems(file.doc).value.value[i]).Ok?)
              && addCookiesSucceeds
    ensures o.Injected? ==>
              var items := CookieItems(file.doc).value.value;
              |o.cookies| == |items| > 0
              && forall i :: 0 <= i < |items| ==> o.cookies[i] == SanitizeOne(items[i]).value
  {
    match file
    case Missing => return NoStateFile;
    case Unreadable => return InjectionFailed;
    case Parsed(doc) =>
      var found := CookieItems(doc);
      if found.Raised? {
        return InjectionFailed;
      }
      if found.value.None? {
        return NothingToInject;
      }
      var r := SanitizeCookies(found.value.value);
      if r.Raised? || !addCookiesSucceeds {
        return InjectionFailed;
      }
      return Injected(r.value);
  }
}
