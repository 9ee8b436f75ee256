// The image-judgment client: the data-URL prefix removal, the clean-up of the
// model's reply text (code fence, "json" tag, surrounding whitespace) and the
// three fixed fallback verdicts. The model call and the JSON parser are
// foreign: the call's outcome and the parser are inputs. Confidences are in
// hundredths.

module Gemini {
  import opened Common
  import opened AlertCatalog
  import opened Detection

  // ---------------------------------------------------------------------------
  // Whitespace and `str.strip()`
  // ---------------------------------------------------------------------------

  /** The characters `str.isspace()` accepts. */
  predicate IsSpace(c: char) {
    var n := c as int;
    (9 <= n <= 13) || (28 <= n <= 32) || n == 0x85 || n == 0xA0 || n == 0x1680 ||
    (0x2000 <= n <= 0x200A) || n == 0x2028 || n == 0x2029 || n == 0x202F || n == 0x205F || n == 0x3000
  }

  predicate AllSpace(s: string) {
    forall k :: 0 <= k < |s| ==> IsSpace(s[k])
  }

  /** `s.lstrip()`. */
  function TrimStart(s: string): (r: string)
    ensures |r| <= |s| && r == s[|s| - |r|..]
    ensures r == [] || !IsSpace(r[0])
  {
    if s != [] && IsSpace(s[0]) then TrimStart(s[1..]) else s
  }

  /** `s.rstrip()`. */
  function TrimEnd(s: string): (r: string)
    ensures |r| <= |s| && r == s[..|r|]
    ensures r == [] || !IsSpace(r[|r| - 1])
  {
    if s != [] && IsSpace(s[|s| - 1]) then TrimEnd(s[..|s| - 1]) else s
  }

  /** `lstrip` drops only whitespace. */
  lemma {:induction false} TrimStartDropsSpace(s: string)
    ensures AllSpace(s[..|s| - |TrimStart(s)|])
  {
    if s != [] && IsSpace(s[0]) {
      TrimStartDropsSpace(s[1..]);
      var m := |s| - |TrimStart(s)|;
      forall i | 0 <= i < m ensures IsSpace(s[i]) {
        if i > 0 { assert s[i] == s[1..][..m - 1][i - 1]; }
      }
    }
  }

  /** `rstrip` drops only whitespace. */
  lemma {:induction false} TrimEndDropsSpace(s: string)
    ensures AllSpace(s[|TrimEnd(s)|..])
  {
    if s != [] && IsSpace(s[|s| - 1]) {
      TrimEndDropsSpace(s[..|s| - 1]);
      var m := |TrimEnd(s)|;
      forall i | m <= i < |s| ensures IsSpace(s[i]) {
        if i < |s| - 1 { assert s[i] == s[..|s| - 1][m..][i - m]; }
      }
    }
  }

  /** `s.strip()`. */
  function Strip(s: string): (r: string)
    ensures |r| <= |s|
    ensures r == [] || (!IsSpace(r[0]) && !IsSpace(r[|r| - 1]))
  {
    TrimEnd(TrimStart(s))
  }

  /** Stripping removes only whitespace, from both ends, and leaves neither end on whitespace. */
  lemma StripShape(s: string)
    ensures var r := Strip(s);
      exists i, j :: 0 <= i <= j <= |s| && r == s[i..j] && AllSpace(s[..i]) && AllSpace(s[j..]) &&
        (r == [] || (!IsSpace(r[0]) && !IsSpace(r[|r| - 1])))
  {
    var t := TrimStart(s);
    var r := TrimEnd(t);
    var i := |s| - |t|;
    var j := i + |r|;
    TrimStartDropsSpace(s);
    TrimEndDropsSpace(t);
    PrefixOfSuffix(s, t, r);
    assert AllSpace(s[j..]);
  }

  /** A prefix `r` of a suffix `t` of `s` is a slice of `s`, and what follows it in `t` is the rest of `s`. */
  lemma PrefixOfSuffix(s: string, t: string, r: string)
    requires |t| <= |s| && t == s[|s| - |t|..]
    requires |r| <= |t| && r == t[..|r|]
    ensures r == s[|s| - |t|..|s| - |t| + |r|]
    ensures s[|s| - |t| + |r|..] == t[|r|..]
  {
  }

  lemma {:induction false} TrimStartKeeps(s: string)
    requires s == [] || !IsSpace(s[0])
    ensures TrimStart(s) == s
  {
  }

  lemma {:induction false} TrimEndKeeps(s: string)
    requires s == [] || !IsSpace(s[|s| - 1])
    ensures TrimEnd(s) == s
  {
  }

  /** Stripping twice is stripping once. */
  lemma StripIdempotent(s: string)
    ensures Strip(Strip(s)) == Strip(s)
  {
    var t := TrimStart(s);
    var r := TrimEnd(t);
    assert r == [] || r[0] == t[0];
    TrimStartKeeps(r);
    TrimEndKeeps(r);
  }

  lemma {:induction false} TrimStartAfterSpace(w: string, s: string)
    requires AllSpace(w)
    ensures TrimStart(w + s) == TrimStart(s)
  {
    if w != [] {
      assert (w + s)[1..] == w[1..] + s;
      TrimStartAfterSpace(w[1..], s);
    } else {
      assert w + s == s;
    }
  }

  lemma {:induction false} TrimEndBeforeSpace(s: string, w: string)
    requires AllSpace(w)
    ensures TrimEnd(s + w) == TrimEnd(s)
  {
    if w != [] {
      assert (s + w)[..|s + w| - 1] == s + w[..|w| - 1];
      TrimEndBeforeSpace(s, w[..|w| - 1]);
    } else {
      assert s + w == s;
    }
  }

  lemma {:induction false} TrimEndAllSpace(w: string)
    requires AllSpace(w)
    ensures TrimEnd(w) == []
  {
    if w != [] {
      TrimEndAllSpace(w[..|w| - 1]);
    }
  }

  /** Whitespace appended to a string survives `lstrip` unless the string was all whitespace. */
  lemma {:induction false} TrimStartBeforeSpace(s: string, w: string)
    requires AllSpace(w)
    ensures AllSpace(s) ==> TrimStart(s + w) == TrimStart(w)
    ensures !AllSpace(s) ==> TrimStart(s + w) == TrimStart(s) + w
  {
    if s == [] {
      assert s + w == w;
    } else if IsSpace(s[0]) {
      assert (s + w)[1..] == s[1..] + w;
      TrimStartBeforeSpace(s[1..], w);
      assert AllSpace(s) ==> AllSpace(s[1..]);
      assert AllSpace(s[1..]) ==> AllSpace(s);
    }
  }

  /** Whitespace around a string does not change what stripping it gives. */
  lemma StripPadded(w1: string, s: string, w2: string)
    requires AllSpace(w1) && AllSpace(w2)
    ensures Strip(w1 + s + w2) == Strip(s)
  {
    assert w1 + s + w2 == w1 + (s + w2);
    TrimStartAfterSpace(w1, s + w2);
    TrimStartBeforeSpace(s, w2);
    if AllSpace(s) {
      assert TrimStart(w2) == [] && TrimStart(s) == [];
    } else {
      TrimEndBeforeSpace(TrimStart(s), w2);
    }
  }

  // ---------------------------------------------------------------------------
  // The code fence and the data-URL prefix
  // ---------------------------------------------------------------------------

  const Fence: string := "```"

  predicate FenceAt(s: string, k: int) {
    0 <= k && k + 3 <= |s| && s[k..k + 3] == Fence
  }

  /** The first code fence of `s` that starts at or after `from`, as `str.split` finds it. */
  function FindFence(s: string, from: nat): (r: Option<nat>)
    ensures r.Some? ==> from <= r.value && FenceAt(s, r.value)
    decreases |s| - from
  {
    if from + 3 > |s| then None
    else if s[from..from + 3] == Fence then Some(from)
    else FindFence(s, from + 1)
  }

  /** No fence starts between `from` and the one found; none at all when none is found. */
  lemma {:induction false} FindFenceFirst(s: string, from: nat, k: nat)
    requires from <= k
    requires FindFence(s, from).None? || k < FindFence(s, from).value
    ensures !FenceAt(s, k)
    decreases |s| - from
  {
    if from + 3 <= |s| && s[from..from + 3] != Fence && from < k {
      FindFenceFirst(s, from + 1, k);
    }
  }

  /** `s.split("```")[1]` for a reply that starts with a fence: the text up to the next fence, or to the end. */
  function FenceBody(s: string): (r: string)
    requires StartsWith(s, Fence)
    ensures FindFence(s, 3).Some? ==> r == s[3..FindFence(s, 3).value]
    ensures FindFence(s, 3).None? ==> r == s[3..]
  {
    match FindFence(s, 3)
    case Some(k) => s[3..k]
    case None => s[3..]
  }

  /** A leading fence reduced to the fenced text, less a leading "json" tag. */
  function Unfence(t: string): (r: string)
    ensures |r| <= |t|
    ensures !StartsWith(t, Fence) ==> r == t
    ensures StartsWith(t, Fence) ==> |r| <= |t| - 3
  {
    if StartsWith(t, Fence) then
      var body := FenceBody(t);
      if StartsWith(body, "json") then body[4..] else body
    else t
  }

  /** The reply text handed to the JSON parser: stripped, unfenced, stripped again. */
  function NormaliseReply(text: string): (r: string)
    ensures |r| <= |text|
    ensures r == [] || (!IsSpace(r[0]) && !IsSpace(r[|r| - 1]))
  {
    var s := Strip(text);
    var u := Unfence(s);
    assert |u| <= |s| <= |text|;
    Strip(u)
  }

  /** A reply without a leading fence is only stripped. */
  lemma NormaliseUnfenced(text: string)
    requires !StartsWith(Strip(text), Fence)
    ensures NormaliseReply(text) == Strip(text)
  {
    StripIdempotent(text);
  }

  /** A reply wrapped as a ```json block yields the stripped block contents. */
  lemma NormaliseFencedJson(body: string)
    requires forall k :: !FenceAt(body, k)
    ensures NormaliseReply("```json\n" + body + "\n```") == Strip(body)
  {
    var s := "```json\n" + body + "\n```";
    var u := "\n" + body + "\n";
    assert NormaliseReply(s) == Strip(u) by {
      FencedJsonIsStripped(body);
      FencedJsonUnfenced(body);
      NormaliseStripped(s, u);
    }
    assert Strip(u) == Strip(body) by {
      NewlineIsSpace();
      StripPadded("\n", body, "\n");
    }
  }

  lemma NormaliseStripped(s: string, u: string)
    requires Strip(s) == s && Unfence(s) == u
    ensures NormaliseReply(s) == Strip(u)
  {
  }

  lemma NewlineIsSpace()
    ensures AllSpace("\n")
  {
    assert "\n"[0] == '\n';
  }

  lemma StripKeeps(s: string)
    requires s == [] || (!IsSpace(s[0]) && !IsSpace(s[|s| - 1]))
    ensures Strip(s) == s
  {
    TrimStartKeeps(s);
    TrimEndKeeps(s);
  }

  lemma FencedJsonIsStripped(body: string)
    ensures Strip("```json\n" + body + "\n```") == "```json\n" + body + "\n```"
  {
    var s := "```json\n" + body + "\n```";
    assert s[0] == '`' && s[|s| - 1] == '`';
    StripKeeps(s);
  }

  lemma FencedJsonUnfenced(body: string)
    requires forall k :: !FenceAt(body, k)
    ensures Unfence("```json\n" + body + "\n```") == "\n" + body + "\n"
  {
    var s := "```json\n" + body + "\n```";
    var inner := "json\n" + body + "\n";
    FencedJsonCloses(body);
    assert s[..3] == Fence;
    assert FenceBody(s) == inner by {
      assert s[3..|body| + 9] == inner;
    }
    assert inner[..4] == "json";
    assert inner[4..] == "\n" + body + "\n";
  }

  /** In a ```json block whose contents hold no fence, the first fence after the opening one is the closing one. */
  lemma FencedJsonCloses(body: string)
    requires forall k :: !FenceAt(body, k)
    ensures FindFence("```json\n" + body + "\n```", 3) == Some(|body| + 9)
  {
    ClosingFenceAt(body);
    NoFenceInside(body);
    FindFenceIs("```json\n" + body + "\n```", 3, |body| + 9);
  }

  lemma ClosingFenceAt(body: string)
    ensures FenceAt("```json\n" + body + "\n```", |body| + 9)
  {
    var s := "```json\n" + body + "\n```";
    assert s[|body| + 9..] == Fence;
  }

  lemma NoFenceInside(body: string)
    requires forall k :: !FenceAt(body, k)
    ensures forall k :: 3 <= k < |body| + 9 ==> !FenceAt("```json\n" + body + "\n```", k)
  {
    forall k | 3 <= k < |body| + 9 ensures !FenceAt("```json\n" + body + "\n```", k) {
      NoFenceBeforeClose(body, k);
    }
  }

  lemma NoFenceBeforeClose(body: string, k: nat)
    requires forall j :: !FenceAt(body, j)
    requires 3 <= k < |body| + 9
    ensures !FenceAt("```json\n" + body + "\n```", k)
  {
    var s := "```json\n" + body + "\n```";
    var n := |body|;
    if k < 8 {
      assert s[k] != '`';
      assert s[k..k + 3][0] == s[k];
    } else if k + 3 <= n + 8 {
      assert s[k..k + 3] == body[k - 8..k - 5];
      assert !FenceAt(body, k - 8);
    } else if k <= n + 8 {
      assert s[n + 8] == '\n';
      assert s[k..k + 3][n + 8 - k] == s[n + 8];
    }
  }

  /** The first fence at or after `from` is the one `FindFence` reports. */
  lemma FindFenceIs(s: string, from: nat, k: nat)
    requires from <= k && FenceAt(s, k)
    requires forall j :: from <= j < k ==> !FenceAt(s, j)
    ensures FindFence(s, from) == Some(k)
  {
    var f := FindFence(s, from);
    if f.None? || f.value > k {
      FindFenceFirst(s, from, k);
    }
  }

  /** `image_data.split(',')[1]` when the data has a comma (the part after a data-URL prefix), else the data. */
  function ImagePayload(data: string): (r: string)
    ensures ',' !in data ==> r == data
    ensures ',' in data ==> ',' !in r
  {
    if ',' in data then AfterFirstComma(data) else data
  }

  /** The text between the first and the second comma, or to the end when there is no second one. */
  function AfterFirstComma(s: string): (r: string)
    requires ',' in s
    ensures ',' !in r
  {
    if s[0] == ',' then UpToComma(s[1..]) else AfterFirstComma(s[1..])
  }

  function UpToComma(s: string): (r: string)
    ensures ',' !in r && StartsWith(s, r)
    ensures r == s || s[|r|] == ','
  {
    if s == [] || s[0] == ',' then [] else [s[0]] + UpToComma(s[1..])
  }

  /** A data URL gives back exactly its base64 payload. */
  lemma {:induction false} ImagePayloadOfDataUrl(prefix: string, payload: string)
    requires ',' !in prefix && ',' !in payload
    ensures ImagePayload(prefix + "," + payload) == payload
  {
    var s := prefix + "," + payload;
    assert s[|prefix|] == ',';
    AfterPrefix(prefix, payload);
    UpToCommaWhole(payload);
  }

  lemma {:induction false} AfterPrefix(prefix: string, payload: string)
    requires ',' !in prefix
    ensures ',' in prefix + "," + payload
    ensures AfterFirstComma(prefix + "," + payload) == UpToComma(payload)
  {
    var s := prefix + "," + payload;
    assert s[|prefix|] == ',';
    if prefix == [] {
      assert s[1..] == payload;
    } else {
      assert s[1..] == prefix[1..] + "," + payload;
      AfterPrefix(prefix[1..], payload);
    }
  }

  lemma {:induction false} UpToCommaWhole(s: string)
    requires ',' !in s
    ensures UpToComma(s) == s
  {
    if s != [] {
      assert s[0] in s;
      UpToCommaWhole(s[1..]);
    }
  }

  // ---------------------------------------------------------------------------
  // Verdicts
  // ---------------------------------------------------------------------------

  /** The fields of the parsed reply the service reads; a missing key is `None` (flags: false). */
  datatype Reply = Reply(
    facesDetected: Option<int>,
    multipleFaces: Option<bool>,
    noFaceDetected: Option<bool>,
    suspiciousActivity: Option<bool>,
    confidence: Option<int>,
    flags: Flags)

  /** What the verdict carries besides its top-level fields. */
  datatype Detail =
    | NotConfiguredNote          // the string "Gemini AI not configured"
    | Parsed(reply: Reply)       // the parsed reply object
    | Unparsed(rawResponse: string)
    | Failed(error: string)

  datatype Verdict = Verdict(
    facesDetected: int,
    multipleFaces: bool,
    noFaceDetected: bool,
    suspiciousActivity: bool,
    confidence: int,
    detail: Detail)

  /** How the foreign part ended: decode, image load and model call either raised or gave a reply text. */
  datatype CallOutcome = Raised(error: string) | Answered(text: string)

  /**
   * What the JSON parser makes of the normalised reply: no JSON at all, a
   * JSON value that is not an object (a list, a number, a string, true,
   * false or null, named by its Python type), or an object.
   */
  datatype JsonValue = Malformed | NonObject(typeName: string) | Object(reply: Reply)

  /** The text of the AttributeError that `.get` raises on a value of that type. */
  function NoGetError(typeName: string): string {
    "'" + typeName + "' object has no attribute 'get'"
  }

  const UnconfiguredConfidence: int := 80
  const UnparsedConfidence: int := 70
  const FailedConfidence: int := 50

  /** A verdict that reports one face and none of the three conditions. */
  predicate Safe(v: Verdict) {
    v.facesDetected == 1 && !v.multipleFaces && !v.noFaceDetected && !v.suspiciousActivity
  }

  /** The top-level fields copied from the reply, each with its default. */
  function FromReply(reply: Reply): (v: Verdict)
    ensures v.detail == Parsed(reply)
    ensures v.facesDetected == reply.facesDetected.GetOr(1) && v.confidence == reply.confidence.GetOr(70)
    ensures v.multipleFaces <==> reply.multipleFaces == Some(true)
    ensures v.noFaceDetected <==> reply.noFaceDetected == Some(true)
    ensures v.suspiciousActivity <==> reply.suspiciousActivity == Some(true)
  {
    Verdict(reply.facesDetected.GetOr(1), reply.multipleFaces.GetOr(false), reply.noFaceDetected.GetOr(false),
      reply.suspiciousActivity.GetOr(false), reply.confidence.GetOr(70), Parsed(reply))
  }

  /**
   * The judgment of one image. Without a configured model the fixed
   * 0.8 verdict; a raised call gives the 0.5 verdict with the error; an
   * unparsable reply the 0.7 verdict keeping the raw text; a reply that is
   * JSON but not an object makes `.get` raise, which the outer handler turns
   * into the 0.5 verdict; otherwise the parsed fields with their defaults.
   */
  function AnalyzeProctoringImage(configured: bool, call: CallOutcome, parse: string -> JsonValue): (v: Verdict)
    ensures !configured ==> Safe(v) && v.confidence == UnconfiguredConfidence && v.detail == NotConfiguredNote
    ensures configured && call.Raised? ==>
      Safe(v) && v.confidence == FailedConfidence && v.detail == Failed(call.error)
    ensures configured && call.Answered? && parse(NormaliseReply(call.text)).Malformed? ==>
      Safe(v) && v.confidence == UnparsedConfidence && v.detail == Unparsed(call.text)
    ensures configured && call.Answered? && parse(NormaliseReply(call.text)).NonObject? ==>
      Safe(v) && v.confidence == FailedConfidence &&
      v.detail == Failed(NoGetError(parse(NormaliseReply(call.text)).typeName))
    ensures configured && call.Answered? && parse(NormaliseReply(call.text)).Object? ==>
      v == FromReply(parse(NormaliseReply(call.text)).reply)
    ensures v.detail.Parsed? || Safe(v)
    ensures v.confidence == FailedConfidence && !v.detail.Parsed? <==>
      configured && (call.Raised? || parse(NormaliseReply(call.text)).NonObject?)
  {
    if !configured then
      Verdict(1, false, false, false, UnconfiguredConfidence, NotConfiguredNote)
    else match call
      case Raised(e) => Verdict(1, false, false, false, FailedConfidence, Failed(e))
      case Answered(text) =>
        match parse(NormaliseReply(text))
        case Malformed => Verdict(1, false, false, false, UnparsedConfidence, Unparsed(text))
        case NonObject(typeName) => Verdict(1, false, false, false, FailedConfidence, Failed(NoGetError(typeName)))
        case Object(reply) => FromReply(reply)
  }

  /**
   * The judgment the live loop's rule table reads from a verdict: the face
   * count and the reply's flags (none for the fallbacks). The unconfigured
   * verdict's detail is a string, which the loop cannot read: that frame fails.
   */
  function JudgmentOf(v: Verdict): (j: Option<Judgment>)
    ensures j.None? <==> v.detail.NotConfiguredNote?
    ensures j.Some? ==> j.value.facesDetected == Some(v.facesDetected)
  {
    match v.detail
    case NotConfiguredNote => None
    case Parsed(reply) => Some(Judgment(Some(v.facesDetected), reply.flags))
    case Unparsed(_) => Some(Judgment(Some(v.facesDetected), NoFlags))
    case Failed(_) => Some(Judgment(Some(v.facesDetected), NoFlags))
  }

  /** A failed call, an unparsable reply or a non-object reply never raises a live violation. */
  lemma FallbacksRaiseNothing(configured: bool, call: CallOutcome, parse: string -> JsonValue)
    requires configured
    requires call.Raised? || !parse(NormaliseReply(call.text)).Object?
    ensures var j := JudgmentOf(AnalyzeProctoringImage(configured, call, parse));
      j.Some? && DetectViolationsFromAnalysis(j.value) == []
  {
    var v := AnalyzeProctoringImage(configured, call, parse);
    assert v.facesDetected == 1 && (v.detail.Failed? || v.detail.Unparsed?);
    assert JudgmentOf(v) == Some(Judgment(Some(1), NoFlags));
    OneFaceNoFlagsRaisesNothing();
  }

  /** One face and no flags raise no live violation. */
  lemma OneFaceNoFlagsRaisesNothing()
    ensures DetectViolationsFromAnalysis(Judgment(Some(1), NoFlags)) == []
  {
  }

  /** A parsed reply's face count and flags reach the rule table unchanged (a missing count reads as one face). */
  lemma ParsedReplyReachesRules(call: CallOutcome, parse: string -> JsonValue, t: AlertType)
    requires call.Answered? && parse(NormaliseReply(call.text)).Object?
    ensures var reply := parse(NormaliseReply(call.text)).reply;
      var j := JudgmentOf(AnalyzeProctoringImage(true, call, parse));
      j.Some? &&
      (t in DetectViolationsFromAnalysis(j.value) <==>
        t != LightingChangeDetected && Fires(t, reply.facesDetected.GetOr(1), reply.flags))
  {
    var j := JudgmentOf(AnalyzeProctoringImage(true, call, parse));
    DetectViolationsFromAnalysisRules(j.value, t);
  }
}
