/** `POST /api/generate` (`src/app/api/generate/route.ts`): validate the
    request, ask the chosen language-model provider for an optimised CV as
    JSON, strip any markdown code fence from the answer, parse it and return
    the LaTeX document the app generator builds from it.

    The provider SDK calls (with their API-key checks), `JSON.parse` and
    `JSON.stringify(DEFAULT_CV, null, 2)` are parameters: `reply` stands for
    the call made to one provider, `parse` for `JSON.parse` read as a
    provider payload. */
module GenerateRoute {
  import opened Wrappers
  import opened Text
  import opened Types
  import opened Sections
  import AppUtils

  /** The request body's two checked fields; a field that is absent, `null`
      or not a string is `None`. */
  datatype RequestBody = RequestBody(jd: Option<string>, provider: Option<string>)

  datatype Vendor = OpenAi | Claude | Gemini

  /** What the call to one provider gives: its API key is unset, it answers
      with text, or it throws an error with a message. */
  datatype Reply = KeyMissing | Answered(text: string) | Thrown(message: string)

  datatype ResponseBody =
    | ErrorBody(error: string)
    | LatexBody(latex: string, optimizedData: Payload)

  datatype Response = Response(status: int, body: ResponseBody)

  const MissingFieldsMessage: string := "Missing 'jd' or 'provider' in request body"
  const InvalidJsonMessage: string := "AI did not return valid JSON"

  const CvHeader: string := "Here is the base CV data:"
  const JdHeader: string := "Here is the target job description:"
  const Instruction: string :=
    "Generate the ATS-optimized JSON response with updated summary, skills (categorized), and experience bullets."

  /** The provider a `provider` value selects; the route tests the three
      names in this order and calls nothing for any other value. */
  function VendorOf(provider: string): Option<Vendor> {
    if provider == "openai" then Some(OpenAi)
    else if provider == "claude" then Some(Claude)
    else if provider == "gemini" then Some(Gemini)
    else None
  }

  /** The error returned when a provider's API key is not set. */
  function KeyMissingMessage(v: Vendor): string {
    match v
    case OpenAi => "OPENAI_API_KEY is not set"
    case Claude => "ANTHROPIC_API_KEY is not set"
    case Gemini => "GOOGLE_API_KEY is not set"
  }

  /** `!body || !body.jd || !body.provider` is false: there is a body, and
      both fields are non-empty strings. */
  predicate Complete(body: Option<RequestBody>) {
    body.Some? && Truthy(body.value.jd) && Truthy(body.value.provider)
  }

  /** The seven lines of the user message, joined by newlines: the CV
      header, the CV as JSON, a blank line, the job-description header, the
      job description, a blank line and the instruction. */
  function UserMessage(cvJson: string, jd: string): (r: string)
    ensures r == CvHeader + "\n" + cvJson + "\n" + "\n" + JdHeader + "\n" + jd + "\n" + "\n" + Instruction
  {
    JoinSeven(CvHeader, cvJson, "", JdHeader, jd, "", Instruction, "\n");
    Join([CvHeader, cvJson, "", JdHeader, jd, "", Instruction], "\n")
  }

  /** Seven lines joined, the third and sixth of them empty. */
  lemma JoinSeven(a: string, b: string, c: string, d: string, e: string, f: string, g: string, sep: string)
    requires c == [] && f == []
    ensures Join([a, b, c, d, e, f, g], sep) == a + sep + b + sep + sep + d + sep + e + sep + sep + g
  {
    assert Join([a], sep) == a;
    assert [a] + [b] == [a, b];
    JoinSnoc([a], b, sep);
    assert [a, b] + [c] == [a, b, c];
    JoinSnoc([a, b], c, sep);
    assert [a, b, c] + [d] == [a, b, c, d];
    JoinSnoc([a, b, c], d, sep);
    assert [a, b, c, d] + [e] == [a, b, c, d, e];
    JoinSnoc([a, b, c, d], e, sep);
    assert [a, b, c, d, e] + [f] == [a, b, c, d, e, f];
    JoinSnoc([a, b, c, d, e], f, sep);
    assert [a, b, c, d, e, f] + [g] == [a, b, c, d, e, f, g];
    JoinSnoc([a, b, c, d, e, f], g, sep);
  }

  /** The job description appears in the user message right after its header line. */
  lemma JobDescriptionPlaced(cvJson: string, jd: string)
    ensures OccursAt(UserMessage(cvJson, jd), JdHeader + "\n" + jd + "\n" + "\n", |CvHeader| + |cvJson| + 3)
  {
    var n := "\n";
    var pre := CvHeader + n + cvJson + n + n;
    var mid := JdHeader + n + jd + n + n;
    Regroup(pre, JdHeader, n, jd, Instruction);
    MiddleOccurs(pre, mid, Instruction);
  }

  /** Five concatenations after `p`, regrouped. */
  lemma Regroup(p: string, h: string, n: string, j: string, z: string)
    ensures p + h + n + j + n + n + z == p + (h + n + j + n + n) + z
  {
    Assoc(p, h, n);
    Assoc(p, h + n, j);
    Assoc(p, h + n + j, n);
    Assoc(p, h + n + j + n, n);
  }

  /** Drop a leading "```json", then a leading "```", then a trailing "```". */
  function Unfence(a: string): string {
    var b := if StartsWith(a, "```json") then a[7..] else a;
    var c := if StartsWith(b, "```") then b[3..] else b;
    if EndsWith(c, "```") then c[..|c| - 3] else c
  }

  /** The clean-up before parsing: trim, remove the fences, trim again. The
      result has no whitespace at either end. */
  function StripFences(text: string): (r: string)
    ensures Trimmed(r)
  {
    Trim(Unfence(Trim(text)))
  }

  /** Text with no fence at either end, once trimmed, is only trimmed. */
  lemma UnfencedOnlyTrimmed(text: string)
    requires !StartsWith(Trim(text), "```") && !EndsWith(Trim(text), "```")
    ensures StripFences(text) == Trim(text)
  {
    var a := Trim(text);
    if StartsWith(a, "```json") {
      StartsWithShorter(a, "```json", "```");
    }
    assert Unfence(a) == a;
    TrimOfTrimmed(a);
  }

  /** A fenced block starts and ends with a backtick, so trimming leaves it alone. */
  lemma FencedTrimmed(t: string)
    requires |t| > 0 && t[0] == '`' && t[|t| - 1] == '`'
    ensures Trim(t) == t
  {
    assert Trimmed(t);
    TrimOfTrimmed(t);
  }

  /** A block fenced as "```json" then "```" gives its content, trimmed. */
  lemma JsonFenceRemoved(content: string)
    requires content == [] || content[0] != '`'
    ensures StripFences("```json" + content + "```") == Trim(content)
  {
    var t := "```json" + content + "```";
    FencedTrimmed(t);
    JsonUnfence(t, content);
  }

  lemma JsonUnfence(t: string, content: string)
    requires t == "```json" + content + "```"
    requires content == [] || content[0] != '`'
    ensures Unfence(t) == content
  {
    assert t[..7] == "```json";
    var b := t[7..];
    assert b == content + "```";
    if content == [] {
      assert StartsWith(b, "```") && b[3..] == [];
    } else {
      assert b[0] == content[0];
      assert b[|b| - 3..] == "```";
      assert b[..|b| - 3] == content;
    }
  }

  /** A block fenced as "```" then "```" gives its content, trimmed, unless
      the content starts with "json" (which the first rule takes as the
      fence's language tag). */
  lemma PlainFenceRemoved(content: string)
    requires content == [] || content[0] != '`'
    requires !StartsWith(content, "json")
    ensures StripFences("```" + content + "```") == Trim(content)
  {
    var t := "```" + content + "```";
    FencedTrimmed(t);
    PlainUnfence(t, content);
  }

  lemma PlainUnfence(t: string, content: string)
    requires t == "```" + content + "```"
    requires !StartsWith(content, "json")
    ensures Unfence(t) == content
  {
    NoJsonTag(t, content);
    assert t[..3] == "```";
    var c := t[3..];
    assert c == content + "```";
    OpenFenceDropped(t, c);
    CloseFenceDropped(c, content);
  }

  /** The leading "```" is removed: what is left is `c`. */
  lemma OpenFenceDropped(t: string, c: string)
    requires !StartsWith(t, "```json") && StartsWith(t, "```") && c == t[3..]
    ensures Unfence(t) == if EndsWith(c, "```") then c[..|c| - 3] else c
  {
  }

  /** A trailing "```" is removed from `content + "```"`. */
  lemma CloseFenceDropped(c: string, content: string)
    requires c == content + "```"
    ensures EndsWith(c, "```") && c[..|c| - 3] == content
  {
    assert c[|c| - 3..] == "```";
  }

  /** "```json" does not start a block whose content does not start with "json". */
  lemma NoJsonTag(t: string, content: string)
    requires t == "```" + content + "```"
    requires !StartsWith(content, "json")
    ensures !StartsWith(t, "```json")
  {
    if |content| >= 4 {
      assert t[3..7] == content[..4];
    } else if |t| >= 7 {
      assert t[3 + |content|] == '`';
    }
  }

  /** The response `POST` gives; `generate` is `generateLatex`, giving the
      document or the message of the error it throws. */
  function Handle(cvJson: string, body: Option<RequestBody>,
                  reply: (Vendor, string) -> Reply, parse: string -> Option<Payload>,
                  generate: Payload -> Result<string, string>): (r: Response)
    ensures r.status in {200, 400, 500, 502}
    ensures r.status == 200 <==> r.body.LatexBody?
  {
    if !Complete(body) then Response(400, ErrorBody(MissingFieldsMessage))
    else
      var user := UserMessage(cvJson, body.value.jd.value);
      var vendor := VendorOf(body.value.provider.value);
      var outcome := if vendor.Some? then reply(vendor.value, user) else Answered("");
      match outcome
      case KeyMissing => Response(500, ErrorBody(KeyMissingMessage(vendor.value)))
      case Thrown(m) => Response(500, ErrorBody(m))
      case Answered(t) => AfterAnswer(if vendor == Some(OpenAi) then Trim(t) else t, parse, generate)
  }

  /** The response once the provider has answered with `text`. */
  function AfterAnswer(text: string, parse: string -> Option<Payload>,
                       generate: Payload -> Result<string, string>): (r: Response)
    ensures r.status in {200, 500, 502}
    ensures r.status == 200 <==> r.body.LatexBody?
    ensures r.status == 200 ==>
              parse(StripFences(text)) == Some(r.body.optimizedData) && generate(r.body.optimizedData) == Success(r.body.latex)
  {
    match parse(StripFences(text))
    case None => Response(502, ErrorBody(InvalidJsonMessage))
    case Some(data) =>
      match generate(data)
      case Failure(m) => Response(500, ErrorBody(m))
      case Success(latex) => Response(200, LatexBody(latex, data))
  }

  /** `generateLatex` of the app generator with `DEFAULT_CV` as `defaults`:
      the document, or the message of the error it throws. */
  function AppGenerator(defaults: Cv, fixed: FixedText): Payload -> Result<string, string> {
    p => AppUtils.Document(AppUtils.MergedCv(defaults, p), fixed)
  }

  /** The clean-up of `responseText` before it is parsed. */
  method CleanResponse(text: string) returns (responseText: string)
    ensures responseText == StripFences(text)
  {
    responseText := Trim(text);
    responseText := RemoveFences(responseText);
    responseText := Trim(responseText);
  }

  /** The three fence checks of the clean-up, in their order. */
  method RemoveFences(text: string) returns (responseText: string)
    ensures responseText == Unfence(text)
  {
    responseText := text;
    if StartsWith(responseText, "```json") {
      responseText := responseText[7..];
    }
    if StartsWith(responseText, "```") {
      responseText := responseText[3..];
    }
    if EndsWith(responseText, "```") {
      responseText := responseText[..|responseText| - 3];
    }
  }

  /** `POST(req)`: early returns for the 400, 500 and 502 outcomes;
      `responseText` is reassigned through the provider branch and the
      fence-stripping steps. */
  method Post(defaults: Cv, fixed: FixedText, cvJson: string, body: Option<RequestBody>,
              reply: (Vendor, string) -> Reply, parse: string -> Option<Payload>)
    returns (resp: Response)
    ensures resp == Handle(cvJson, body, reply, parse, AppGenerator(defaults, fixed))
  {
    if !(body.Some? && Truthy(body.value.jd) && Truthy(body.value.provider)) {
      return Response(400, ErrorBody(MissingFieldsMessage));
    }
    var provider := body.value.provider.value;
    var user := UserMessage(cvJson, body.value.jd.value);
    var responseText: string := "";
    if provider == "openai" {
      match reply(OpenAi, user)
      case KeyMissing => return Response(500, ErrorBody("OPENAI_API_KEY is not set"));
      case Thrown(m) => return Response(500, ErrorBody(m));
      case Answered(t) => responseText := Trim(t);
    } else if provider == "claude" {
      match reply(Claude, user)
      case KeyMissing => return Response(500, ErrorBody("ANTHROPIC_API_KEY is not set"));
      case Thrown(m) => return Response(500, ErrorBody(m));
      case Answered(t) => responseText := t;
    } else if provider == "gemini" {
      match reply(Gemini, user)
      case KeyMissing => return Response(500, ErrorBody("GOOGLE_API_KEY is not set"));
      case Thrown(m) => return Response(500, ErrorBody(m));
      case Answered(t) => responseText := t;
    }
    resp := ParseAndGenerate(defaults, fixed, responseText, parse);
  }

  /** The rest of `POST` once `responseText` holds the answer: clean it,
      parse it (502 on failure) and generate the document (500 when that
      throws). */
  method ParseAndGenerate(defaults: Cv, fixed: FixedText, text: string, parse: string -> Option<Payload>)
    returns (resp: Response)
    ensures resp == AfterAnswer(text, parse, AppGenerator(defaults, fixed))
  {
    var responseText := CleanResponse(text);
    var parsed := parse(responseText);
    if parsed.None? {
      return Response(502, ErrorBody(InvalidJsonMessage));
    }
    var latex := AppUtils.GenerateLatex(defaults, fixed, parsed.value);
    if latex.Failure? {
      return Response(500, ErrorBody(latex.error));
    }
    resp := Response(200, LatexBody(latex.value, parsed.value));
  }

  // ---------------------------------------------------------------------
  // Properties of the route

  /** The request is refused with 400 exactly when `jd` or `provider` is
      missing or empty, and then nothing else happens. */
  lemma RefusesIncomplete(cvJson: string, body: Option<RequestBody>,
                          reply: (Vendor, string) -> Reply, parse: string -> Option<Payload>,
                  generate: Payload -> Result<string, string>)
    ensures Handle(cvJson, body, reply, parse, generate).status == 400 <==> !Complete(body)
    ensures !Complete(body) ==> Handle(cvJson, body, reply, parse, generate).body == ErrorBody(MissingFieldsMessage)
  {
  }

  /** A provider name other than the three leaves the answer empty, which
      `JSON.parse` refuses: the outcome is the 502. */
  lemma UnknownProviderInvalid(cvJson: string, body: Option<RequestBody>,
                               reply: (Vendor, string) -> Reply, parse: string -> Option<Payload>,
                  generate: Payload -> Result<string, string>)
    requires Complete(body) && VendorOf(body.value.provider.value).None?
    requires parse("") == None
    ensures Handle(cvJson, body, reply, parse, generate) == Response(502, ErrorBody(InvalidJsonMessage))
  {
    assert Trim("") == "";
  }

  /** A 502 happens exactly when the stripped answer does not parse; the
      document is then never generated. */
  lemma InvalidJsonOnlyOnParseFailure(cvJson: string, body: Option<RequestBody>,
                                      reply: (Vendor, string) -> Reply, parse: string -> Option<Payload>,
                  generate: Payload -> Result<string, string>)
    requires Complete(body)
    ensures var r := Handle(cvJson, body, reply, parse, generate);
            var vendor := VendorOf(body.value.provider.value);
            var outcome := if vendor.Some? then reply(vendor.value, UserMessage(cvJson, body.value.jd.value)) else Answered("");
            r.status == 502 <==>
              outcome.Answered? &&
              parse(StripFences(if vendor == Some(OpenAi) then Trim(outcome.text) else outcome.text)).None?
  {
  }

  /** An unset API key gives a 500 naming the provider's variable. */
  lemma MissingKeyNamed(cvJson: string, body: Option<RequestBody>,
                        reply: (Vendor, string) -> Reply, parse: string -> Option<Payload>,
                  generate: Payload -> Result<string, string>)
    requires Complete(body) && VendorOf(body.value.provider.value).Some?
    requires reply(VendorOf(body.value.provider.value).value, UserMessage(cvJson, body.value.jd.value)) == KeyMissing
    ensures var provider := body.value.provider.value;
            Handle(cvJson, body, reply, parse, generate)
            == Response(500, ErrorBody(if provider == "openai" then "OPENAI_API_KEY is not set"
                                       else if provider == "claude" then "ANTHROPIC_API_KEY is not set"
                                       else "GOOGLE_API_KEY is not set"))
  {
  }

  /** A 200 happens only after the provider answered; it carries the parse
      of the cleaned answer as the payload, and the document generated from
      that payload. */
  lemma SuccessCarriesDocument(cvJson: string, body: Option<RequestBody>,
                               reply: (Vendor, string) -> Reply, parse: string -> Option<Payload>,
                  generate: Payload -> Result<string, string>)
    requires Complete(body)
    ensures var r := Handle(cvJson, body, reply, parse, generate);
            var vendor := VendorOf(body.value.provider.value);
            var outcome := if vendor.Some? then reply(vendor.value, UserMessage(cvJson, body.value.jd.value)) else Answered("");
            r.status == 200 ==>
              && outcome.Answered?
              && parse(StripFences(if vendor == Some(OpenAi) then Trim(outcome.text) else outcome.text))
                 == Some(r.body.optimizedData)
              && generate(r.body.optimizedData) == Success(r.body.latex)
  {
  }
}
