/** `import_cookies_from_json` (import_cookies.py): turns a cookie export
    pasted from a browser into the storage-state document the automation
    library loads. Its rule is strict: only the exact value "unspecified" is
    rewritten. Parsing the pasted text and writing the file are inputs and
    outputs: the parse result is a parameter and the document to be written
    is the result. */
module CookieImport {
  import opened Common
  import BrowserCookies

  /** One exported cookie after the import rule: "unspecified" (exactly,
      case-sensitively) becomes "None", and an `id` field is deleted. */
  function FixCookie(c: map<string, Json>): (r: map<string, Json>)
    ensures "id" !in r
    ensures "sameSite" in c && c["sameSite"] == JStr("unspecified") ==> "sameSite" in r && r["sameSite"] == JStr("None")
    ensures forall k :: k in c && k != "id" && !(k == "sameSite" && c[k] == JStr("unspecified")) ==> k in r && r[k] == c[k]
    ensures forall k :: k in r ==> k in c
  {
    var c1 := if "sameSite" in c && c["sameSite"] == JStr("unspecified") then c["sameSite" := JStr("None")] else c;
    if "id" in c1 then c1 - {"id"} else c1
  }

  /** The document written to the state file. */
  function StateDocument(cookies: seq<Json>): Json {
    JObj(map["cookies" := JArr(cookies), "origins" := JArr([])])
  }

  /** `parsed` is `json.loads(json_content)`, or None when that raised. The
      result is the document written, or None when nothing is written (bad
      JSON, not a list, or an element that is not an object). The cookies are
      rewritten in place in the parsed list, one pass, in order. */
  method ImportCookies(parsed: Option<Json>) returns (state: Option<Json>)
    ensures state.Some? <==> parsed.Some? && parsed.value.JArr?
                             && forall i :: 0 <= i < |parsed.value.items| ==> parsed.value.items[i].JObj?
    ensures state.Some? ==>
              var items := parsed.value.items;
              exists fixed: seq<Json> ::
                && state.value == StateDocument(fixed)
                && |fixed| == |items|
                && forall i :: 0 <= i < |items| ==> fixed[i] == JObj(FixCookie(items[i].fields))
  {
    if parsed.None? || !parsed.value.JArr? {
      return None;
    }
    var cookies := parsed.value.items;
    var i := 0;
    while i < |cookies|
      invariant 0 <= i <= |cookies| == |parsed.value.items|
      invariant forall j :: 0 <= j < i ==> parsed.value.items[j].JObj? && cookies[j] == JObj(FixCookie(parsed.value.items[j].fields))
      invariant cookies[i..] == parsed.value.items[i..]
    {
      if !cookies[i].JObj? {
        return None;  // `.get` on a non-object raises; nothing is written
      }
      var cookie := cookies[i].fields;
      if "sameSite" in cookie && cookie["sameSite"] == JStr("unspecified") {
        cookie := cookie["sameSite" := JStr("None")];
      }
      if "id" in cookie {
        cookie := cookie - {"id"};
      }
      cookies := cookies[i := JObj(cookie)];
      i := i + 1;
    }
    return Some(StateDocument(cookies));
  }

  /** The import rule is idempotent. */
  lemma FixCookieIdempotent(c: map<string, Json>)
    ensures FixCookie(FixCookie(c)) == FixCookie(c)
  {
  }

  /** The strict rule leaves "Unspecified" alone, whereas the injector's
      lenient rule turns it into "None". */
  lemma StrictAndLenientDiffer()
    ensures FixCookie(map["sameSite" := JStr("Unspecified")]) == map["sameSite" := JStr("Unspecified")]
    ensures BrowserCookies.SameSiteFor(Lower("Unspecified")) == "None"
  {
    assert Lower("Unspecified") == "unspecified";
  }

  /** An exported "unspecified" is read as "None" either way. */
  lemma AbsorbsUnspecified(c: map<string, Json>)
    requires "sameSite" in c && c["sameSite"] == JStr("unspecified")
    ensures BrowserCookies.SanitizeOne(JObj(FixCookie(c))) == BrowserCookies.SanitizeOne(JObj(c))
  {
    var f := FixCookie(c);
    assert BrowserCookies.RawSameSite(f) == Ok("None");
    assert BrowserCookies.RawSameSite(c) == Ok("unspecified");
    assert Lower("None") == "none";
    assert Lower("unspecified") == "unspecified";
    assert BrowserCookies.SanitizedCookie(f, "None") == BrowserCookies.SanitizedCookie(c, "unspecified");
  }

  /** Any other cookie differs at most in its `id`, which sanitising drops. */
  lemma AbsorbsOther(c: map<string, Json>)
    requires !("sameSite" in c && c["sameSite"] == JStr("unspecified"))
    ensures BrowserCookies.SanitizeOne(JObj(FixCookie(c))) == BrowserCookies.SanitizeOne(JObj(c))
  {
    var f := FixCookie(c);
    assert BrowserCookies.RawSameSite(f) == BrowserCookies.RawSameSite(c);
    if BrowserCookies.RawSameSite(c).Ok? {
      var ss := BrowserCookies.RawSameSite(c).value;
      assert BrowserCookies.SanitizedCookie(f, ss) == BrowserCookies.SanitizedCookie(c, ss);
    }
  }

  /** What the importer writes is read back by the injector exactly as the
      raw export would have been: every rewrite of the strict rule is one the
      lenient rule performs anyway. */
  lemma InjectorAbsorbsImport(c: map<string, Json>)
    ensures BrowserCookies.SanitizeOne(JObj(FixCookie(c))) == BrowserCookies.SanitizeOne(JObj(c))
  {
    if "sameSite" in c && c["sameSite"] == JStr("unspecified") {
      AbsorbsUnspecified(c);
    } else {
      AbsorbsOther(c);
    }
  }
}
