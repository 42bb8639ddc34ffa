/** `src/utils/index.ts`: the older generator. It merges the provider's
    summary, skills and experience over the default CV exactly as the API's
    generator does, but escapes with `SrcEscape.EscapeLatex` (which also turns
    `**text**` bold), escapes skill labels, links an experience entry to its
    company website, treats missing bullet lists as empty and never throws. */
module SrcUtils {
  import opened Wrappers
  import opened Text
  import opened SrcTypes
  import Types
  import opened Sections
  import opened Reconcile
  import opened Template
  import SrcEscape

  /** `escapeLatex` applied to a string. */
  function Escape(s: string): string {
    SrcEscape.EscapeLatex(Some(s))
  }

  function EscapeAll(xs: seq<string>): (r: seq<string>)
    ensures |r| == |xs| && forall i :: 0 <= i < |xs| ==> r[i] == Escape(xs[i])
  {
    if xs == [] then [] else [Escape(xs[0])] + EscapeAll(xs[1..])
  }

  // ---------------------------------------------------------------------
  // The merge at the top of generateLatex

  /** The CV the template is filled from: the provider's summary if truthy,
      the reconciled skills if the provider sent a skills object, the
      provider's experience array wholesale if present, and every other field
      from the defaults. */
  function MergedCv(defaults: Cv, payload: Payload): (cv: Cv)
    ensures cv.summary == if Types.Truthy(payload.summary) then payload.summary.value else defaults.summary
    ensures payload.skills.None? ==> cv.skills == defaults.skills
    ensures payload.skills.Some? ==> cv.skills == ReconcileSkills(defaults.skills, payload.skills.value)
    ensures cv.experience == if payload.experience.Some? then payload.experience.value else defaults.experience
    ensures cv.(summary := defaults.summary, skills := defaults.skills, experience := defaults.experience) == defaults
  {
    var skills := if payload.skills.Some? then ReconcileSkills(defaults.skills, payload.skills.value)
                  else defaults.skills;
    defaults.(summary := if Types.Truthy(payload.summary) then payload.summary.value else defaults.summary,
              skills := skills,
              experience := if payload.experience.Some? then payload.experience.value else defaults.experience)
  }

  // ---------------------------------------------------------------------
  // generateSkillsSection

  /** The line `addSection` pushes: the escaped label in bold, then the escaped items. */
  function SkillLine(caption: string, items: seq<string>): string {
    SkillOpen + Escape(caption) + ":} " + Join(EscapeAll(items), ", ") + EntryClose
  }

  /** The lines pushed for the first `k` categories. */
  function CategoryLines(sk: Skills, k: nat): seq<string>
    requires k <= 7
  {
    if k == 0 then []
    else
      var c := Types.CategoryAt(k - 1);
      CategoryLines(sk, k - 1) + (if |Types.Get(sk, c)| > 0 then [SkillLine(Label(c), Types.Get(sk, c))] else [])
  }

  /** The line of one category, as a function of the category. */
  function LineOf(sk: Skills): Types.Category -> string {
    c => SkillLine(Label(c), Types.Get(sk, c))
  }

  function SkillLines(sk: Skills, cs: seq<Types.Category>): seq<string> {
    MapSeq(LineOf(sk), cs)
  }

  lemma {:induction false} CategoryLinesShown(sk: Skills, k: nat)
    requires k <= 7
    ensures CategoryLines(sk, k) == SkillLines(sk, Shown(sk, k))
  {
    if k > 0 {
      CategoryLinesShown(sk, k - 1);
      LinesStep(sk, Shown(sk, k - 1), Types.CategoryAt(k - 1));
    }
  }

  /** Showing one more category adds its line, when it has items. */
  lemma LinesStep(sk: Skills, prev: seq<Types.Category>, c: Types.Category)
    ensures SkillLines(sk, prev + (if |Types.Get(sk, c)| > 0 then [c] else []))
         == SkillLines(sk, prev) + (if |Types.Get(sk, c)| > 0 then [SkillLine(Label(c), Types.Get(sk, c))] else [])
  {
    SkillLinesAppend(sk, prev, if |Types.Get(sk, c)| > 0 then [c] else []);
  }

  lemma SkillLinesAppend(sk: Skills, xs: seq<Types.Category>, ys: seq<Types.Category>)
    ensures SkillLines(sk, xs + ys) == SkillLines(sk, xs) + SkillLines(sk, ys)
  {
    MapSeqAppend(LineOf(sk), xs, ys);
  }

  function SkillsSection(sk: Skills): string {
    Join(CategoryLines(sk, 7), SkillSeparator)
  }

  /** `addSection(caption, items)`: pushes a line unless the list is empty.
      It is a closure over `sections` called once per category, in
      declaration order; the ghost parameters name the category `k` whose
      label and list are passed, so that the new lines are those of the
      first `k + 1` categories. */
  method AddSection(sections: seq<string>, caption: string, items: seq<string>, ghost sk: Skills, ghost k: nat)
    returns (r: seq<string>)
    requires k < 7 && caption == Label(Types.CategoryAt(k)) && items == Types.Get(sk, Types.CategoryAt(k))
    requires sections == CategoryLines(sk, k)
    ensures r == CategoryLines(sk, k + 1)
  {
    r := sections;
    if !(|items| > 0) {
      return;
    }
    r := r + [SkillLine(caption, items)];
  }

  /** `generateSkillsSection(skills)`: seven `addSection` calls, then the join. */
  method GenerateSkillsSection(sk: Skills) returns (s: string)
    ensures s == SkillsSection(sk)
  {
    var sections: seq<string> := [];
    sections := AddSection(sections, "Languages", sk.languages, sk, 0);
    sections := AddSection(sections, "Frontend", sk.frontend, sk, 1);
    sections := AddSection(sections, "Backend", sk.backend, sk, 2);
    sections := AddSection(sections, "AI/ML", sk.aiMl, sk, 3);
    sections := AddSection(sections, "Databases", sk.database, sk, 4);
    sections := AddSection(sections, "Cloud & DevOps", sk.cloudDevOps, sk, 5);
    sections := AddSection(sections, "Tools", sk.tools, sk, 6);
    s := Join(sections, SkillSeparator);
  }

  /** A category is rendered exactly when its list is non-empty, and the
      rendered categories keep the declaration order. */
  lemma SkillsSectionCategories(sk: Skills)
    ensures forall c: Types.Category :: c in Shown(sk, 7) <==> |Types.Get(sk, c)| > 0
    ensures InOrder(Shown(sk, 7))
    ensures SkillsSection(sk) == Join(SkillLines(sk, Shown(sk, 7)), SkillSeparator)
  {
    forall c: Types.Category ensures c in Shown(sk, 7) <==> |Types.Get(sk, c)| > 0 {
      ShownMembers(sk, 7, c);
    }
    ShownKeepsOrder(sk, 7);
    CategoryLinesShown(sk, 7);
  }

  /** The section is empty exactly when every category is empty. */
  lemma SkillsSectionEmpty(sk: Skills)
    ensures SkillsSection(sk) == "" <==> forall c: Types.Category :: |Types.Get(sk, c)| == 0
  {
    SkillsSectionCategories(sk);
    var shown := Shown(sk, 7);
    var lines := SkillLines(sk, shown);
    JoinEmpty(lines, SkillSeparator);
    if shown != [] {
      assert |Types.Get(sk, shown[0])| > 0;
    }
  }

  // ---------------------------------------------------------------------
  // generateLatex: the template

  /** The separator after the e-mail link. */
  const MailSeparator: string := "\n        \\kern 5.0 pt\n        \\AND%\n        \\kern 5.0 pt\n        "

  const SlotOpen: string := "\\mbox{\\hrefWithoutArrow{"

  /** The spacing line up of the separator after a website or LinkedIn link. */
  const Pad: string := "                                "

  const WebsiteTail: string := " \n" + Pad + "\\kern 5.0 pt \n" + Pad + "\\AND\n" + Pad + "\\kern 5.0 pt"
  const LinkedInTail: string := " \n" + Pad + "\\kern 5.0 pt\n" + Pad + "\\AND\n" + Pad + "\\kern 5.0 pt"

  /** A contact link followed by `tail`; nothing when the URL is empty. */
  function LinkSlot(url: string, display: string, tail: string): string {
    if url == "" then "" else SlotOpen + url + "}{" + Escape(display) + "}}" + tail
  }

  /** The website's display text: the first `https://www.`, then the first
      `http://www.`, removed. */
  function StripWww(url: string): string {
    ReplaceFirst(ReplaceFirst(url, "https://www.", ""), "http://www.", "")
  }

  function Preamble(fixed: FixedText, name: string): string {
    fixed.head
    + "    pdftitle={" + Escape(name) + "'s CV},\n"
    + "    pdfauthor={" + Escape(name) + "},\n"
    + "\tpdfcreator={" + Escape(name) + "},\n"
    + fixed.tail
  }

  /** Name; e-mail, escaped in the link target as well, and a separator;
      then the website, LinkedIn and GitHub slots, one per line. */
  function Header(cv: Cv): string {
    HeaderOpen + Escape(cv.name) + MailOpen + Escape(cv.email) + "}{" + Escape(cv.email) + "}}%" + MailSeparator
    + LinkSlot(cv.website, StripWww(cv.website), WebsiteTail) + "\n        "
    + LinkSlot(cv.linkedin, "linkedin.com/in/" + LastSegment(cv.linkedin), LinkedInTail) + "\n        "
    + LinkSlot(cv.github, "github.com/" + LastSegment(cv.github), "")
    + HeaderClose
  }

  /** A link adds text only when its URL is non-empty; it then opens on its
      unescaped URL and ends with its own tail. */
  lemma LinkSlotShape(url: string, display: string, tail: string)
    ensures LinkSlot(url, display, tail) == "" <==> url == ""
    ensures url != "" ==> StartsWith(LinkSlot(url, display, tail), SlotOpen + url + "}{")
                          && EndsWith(LinkSlot(url, display, tail), "}{" + Escape(display) + "}}" + tail)
  {
    if url != "" {
      SlotFramed(url, Escape(display), tail);
    }
  }

  /** A slot opens on its URL and ends with the link text's closing braces and its tail. */
  lemma SlotFramed(url: string, text: string, tail: string)
    ensures StartsWith(SlotOpen + url + "}{" + text + "}}" + tail, SlotOpen + url + "}{")
    ensures EndsWith(SlotOpen + url + "}{" + text + "}}" + tail, "}{" + text + "}}" + tail)
  {
    var t := "}{" + text + "}}" + tail;
    Framed(SlotOpen + url, [], t);
    assert SlotOpen + url + "}{" + text + "}}" + tail == SlotOpen + url + [] + t;
    Framed(SlotOpen + url + "}{", text + "}}", tail);
    Assoc(SlotOpen + url + "}{", text, "}}");
  }

  /** The e-mail address is escaped both in the `mailto:` target and in the
      text shown. */
  lemma MailTargetEscaped(cv: Cv)
    ensures OccursAt(Header(cv), MailOpen + Escape(cv.email) + "}{" + Escape(cv.email) + "}}%",
                     |HeaderOpen + Escape(cv.name)|)
  {
    var a := HeaderOpen + Escape(cv.name);
    var m := MailOpen + Escape(cv.email) + "}{" + Escape(cv.email) + "}}%";
    var p := a + MailOpen + Escape(cv.email) + "}{" + Escape(cv.email) + "}}%";
    Assoc(a, MailOpen + Escape(cv.email) + "}{" + Escape(cv.email), "}}%");
    Assoc(a, MailOpen + Escape(cv.email) + "}{", Escape(cv.email));
    Assoc(a, MailOpen + Escape(cv.email), "}{");
    Assoc(a, MailOpen, Escape(cv.email));
    MiddleOccurs(a, m, []);
    assert a + m + [] == p;
    HeaderAfterMail(cv, p, m, |a|);
  }

  /** What follows the e-mail link keeps its occurrence in place. */
  lemma HeaderAfterMail(cv: Cv, p: string, m: string, i: nat)
    requires p == HeaderOpen + Escape(cv.name) + MailOpen + Escape(cv.email) + "}{" + Escape(cv.email) + "}}%"
    requires OccursAt(p, m, i)
    ensures OccursAt(Header(cv), m, i)
  {
    var p1 := p + MailSeparator;
    OccursExtended(p, MailSeparator, m, i);
    var p2 := p1 + LinkSlot(cv.website, StripWww(cv.website), WebsiteTail);
    OccursExtended(p1, LinkSlot(cv.website, StripWww(cv.website), WebsiteTail), m, i);
    var p3 := p2 + "\n        ";
    OccursExtended(p2, "\n        ", m, i);
    var p4 := p3 + LinkSlot(cv.linkedin, "linkedin.com/in/" + LastSegment(cv.linkedin), LinkedInTail);
    OccursExtended(p3, LinkSlot(cv.linkedin, "linkedin.com/in/" + LastSegment(cv.linkedin), LinkedInTail), m, i);
    var p5 := p4 + "\n        ";
    OccursExtended(p4, "\n        ", m, i);
    var p6 := p5 + LinkSlot(cv.github, "github.com/" + LastSegment(cv.github), "");
    OccursExtended(p5, LinkSlot(cv.github, "github.com/" + LastSegment(cv.github), ""), m, i);
    OccursExtended(p6, HeaderClose, m, i);
  }

  /** A website slot ends with its own separator, which stays in the header
      when no LinkedIn or GitHub link follows. */
  lemma TrailingWebsiteSeparator(cv: Cv)
    requires cv.website != "" && cv.linkedin == "" && cv.github == ""
    ensures EndsWith(Header(cv), WebsiteTail + "\n        " + "\n        " + HeaderClose)
  {
    LinkSlotShape(cv.website, StripWww(cv.website), WebsiteTail);
    EndsAfterEmptySlots(HeaderOpen + Escape(cv.name) + MailOpen + Escape(cv.email) + "}{" + Escape(cv.email) + "}}%" + MailSeparator,
                        LinkSlot(cv.website, StripWww(cv.website), WebsiteTail), WebsiteTail, "\n        ",
                        LinkSlot(cv.linkedin, "linkedin.com/in/" + LastSegment(cv.linkedin), LinkedInTail),
                        LinkSlot(cv.github, "github.com/" + LastSegment(cv.github), ""), HeaderClose);
  }

  /** `p + w + n + l + n + g + c` ends with `x + n + n + c` when `w` ends
      with `x` and the two slots `l`, `g` are empty. */
  lemma EndsAfterEmptySlots(p: string, w: string, x: string, n: string, l: string, g: string, c: string)
    requires EndsWith(w, x) && l == [] && g == []
    ensures EndsWith(p + w + n + l + n + g + c, x + n + n + c)
  {
    assert p + w + n + l + n + g + c == p + w + n + n + c;
    EndsWithExtend(p, w, x);
    EndsWithAppended(p + w, x, n);
    EndsWithAppended(p + w + n, x + n, n);
    EndsWithAppended(p + w + n + n, x + n + n, c);
  }

  /** `list || []`. */
  function OrEmpty(bullets: Option<seq<string>>): seq<string> {
    if bullets.Some? then bullets.value else []
  }

  function Dates(start: string, end: string): string {
    Escape(start) + " \U{2013} " + Escape(end)
  }

  /** Title and company in bold, linked to the company website when it is truthy. */
  function ExperienceLabel(e: Experience): string {
    var text := "\\textbf{" + Escape(e.title) + "}, " + Escape(e.company);
    if Types.Truthy(e.website) then "\\hrefWithoutArrow{" + e.website.value + "}{" + text + "}" else text
  }

  function ExperienceEntry(e: Experience): string {
    TwoColEntry(Dates(e.start, e.end), ExperienceLabel(e)) + BulletBlock(EscapeAll(OrEmpty(e.bullets)))
  }

  /** The project link, with its scheme removed from the visible text. */
  function ProjectLink(link: Option<string>): string {
    if Types.Truthy(link) then
      "\\href{" + link.value + "}{" + Escape(ReplaceFirst(ReplaceFirst(link.value, "https://", ""), "http://", "")) + "}"
    else ""
  }

  function ProjectEntry(p: Project): string {
    TwoColEntry(ProjectLink(p.link), "\\textbf{" + Escape(p.name) + "}") + BulletBlock(EscapeAll(OrEmpty(p.bullets)))
  }

  /** What follows an education heading: the highlights block when the
      joined bullet text is truthy, a blank line otherwise. */
  function EducationBullets(items: seq<string>): string {
    if Join(ItemLines(items), "\n            ") != "" then BulletBlock(items) else "\n\n    "
  }

  function EducationEntry(e: Education): string {
    TwoColEntry(Dates(e.start, e.end), "\\textbf{" + Escape(e.school) + "}, " + Escape(e.degree))
    + EducationBullets(EscapeAll(OrEmpty(e.bullets)))
  }

  function AchievementEntry(a: Achievement): string {
    AchievementOpen + Escape(a.title) + ":} " + Escape(a.description) + EntryClose
  }

  function ExperienceEntries(es: seq<Experience>): seq<string> {
    if es == [] then [] else [ExperienceEntry(es[0])] + ExperienceEntries(es[1..])
  }

  function ProjectEntries(ps: seq<Project>): seq<string> {
    if ps == [] then [] else [ProjectEntry(ps[0])] + ProjectEntries(ps[1..])
  }

  function EducationEntries(eds: seq<Education>): seq<string> {
    if eds == [] then [] else [EducationEntry(eds[0])] + EducationEntries(eds[1..])
  }

  function AchievementEntries(as_: seq<Achievement>): seq<string> {
    if as_ == [] then [] else [AchievementEntry(as_[0])] + AchievementEntries(as_[1..])
  }

  /** The older generator's white space around section bodies. */
  const SrcSpacing: Spacing := Spacing("\n\t\n    \\begin{onecolentry}\n        ", "\n    \\end{onecolentry}\n    \n    ",
                                       "\n    ", "\n\n    ")

  /** The template filled from `cv`; `skillsText` is what `generateSkillsSection(cv.skills)` returned. */
  function Fragments(cv: Cv, fixed: FixedText, skillsText: string): seq<Fragment> {
    Layout(SrcSpacing, Preamble(fixed, cv.name) + Header(cv), Escape(cv.summary), skillsText,
           Join(ExperienceEntries(cv.experience), EntrySeparator),
           if |cv.projects| > 0 then Some(Join(ProjectEntries(cv.projects), EntrySeparator)) else None,
           Join(EducationEntries(cv.education), EntrySeparator),
           if |cv.achievements| > 0 then Some(Join(AchievementEntries(cv.achievements), EntrySeparator)) else None)
  }

  function Document(cv: Cv, fixed: FixedText): string {
    Render(Fragments(cv, fixed, SkillsSection(cv.skills)))
  }

  /** `generateLatex(optimizedData)` with `DEFAULT_CV` as `defaults`. */
  method GenerateLatex(defaults: Cv, fixed: FixedText, payload: Payload) returns (r: string)
    ensures r == Document(MergedCv(defaults, payload), fixed)
  {
    var skills := defaults.skills;
    if payload.skills.Some? {
      skills := ReconcileSkills(defaults.skills, payload.skills.value);
    }
    var cv := defaults.(summary := if Types.Truthy(payload.summary) then payload.summary.value else defaults.summary,
                        skills := skills,
                        experience := if payload.experience.Some? then payload.experience.value
                                      else defaults.experience);
    var skillsText := GenerateSkillsSection(cv.skills);
    r := Render(Fragments(cv, fixed, skillsText));
  }

  // ---------------------------------------------------------------------
  // Properties of the assembled document

  /** The headings of a generated document: Summary, Skills, Experience,
      Projects only if there are projects, Education, Achievements only if
      there are achievements. Unlike the other generator, this one never
      fails. */
  lemma DocumentTitles(cv: Cv, fixed: FixedText, skillsText: string)
    ensures Titles(Fragments(cv, fixed, skillsText))
            == [SummaryTitle, SkillsTitle, ExperienceTitle]
               + (if |cv.projects| > 0 then [ProjectsTitle] else [])
               + [EducationTitle]
               + (if |cv.achievements| > 0 then [AchievementsTitle] else [])
  {
    LayoutTitles(SrcSpacing, Preamble(fixed, cv.name) + Header(cv), Escape(cv.summary), skillsText,
                 Join(ExperienceEntries(cv.experience), EntrySeparator),
                 if |cv.projects| > 0 then Some(Join(ProjectEntries(cv.projects), EntrySeparator)) else None,
                 Join(EducationEntries(cv.education), EntrySeparator),
                 if |cv.achievements| > 0 then Some(Join(AchievementEntries(cv.achievements), EntrySeparator)) else None);
  }

  /** Experience and project entries end with a highlights block, even when
      their bullet list is missing or empty. */
  lemma EntriesAlwaysHighlighted(e: Experience, p: Project)
    ensures EndsWith(ExperienceEntry(e), HighlightsEnd)
    ensures EndsWith(ProjectEntry(p), HighlightsEnd)
  {
    BulletBlockEnds(EscapeAll(OrEmpty(e.bullets)));
    BulletBlockEnds(EscapeAll(OrEmpty(p.bullets)));
    EndsWithExtend(TwoColEntry(Dates(e.start, e.end), ExperienceLabel(e)),
                   BulletBlock(EscapeAll(OrEmpty(e.bullets))), HighlightsEnd);
    EndsWithExtend(TwoColEntry(ProjectLink(p.link), "\\textbf{" + Escape(p.name) + "}"),
                   BulletBlock(EscapeAll(OrEmpty(p.bullets))), HighlightsEnd);
  }

  /** An education entry ends with a highlights block exactly when it has at
      least one bullet. */
  lemma EducationHighlights(e: Education)
    ensures EndsWith(EducationEntry(e), HighlightsEnd) <==> |OrEmpty(e.bullets)| > 0
  {
    var head := TwoColEntry(Dates(e.start, e.end), "\\textbf{" + Escape(e.school) + "}, " + Escape(e.degree));
    BulletsEnding(head, EscapeAll(OrEmpty(e.bullets)));
  }

  /** After any heading, the highlights block is the ending exactly when
      there are items. */
  lemma BulletsEnding(head: string, items: seq<string>)
    ensures EndsWith(head + EducationBullets(items), HighlightsEnd) <==> |items| > 0
  {
    JoinEmpty(ItemLines(items), "\n            ");
    if |items| > 0 {
      BulletBlockEnds(items);
      EndsWithExtend(head, BulletBlock(items), HighlightsEnd);
    } else {
      EndsInSpace(head + "\n\n    ", HighlightsEnd);
    }
  }

  /** Text ending in a space does not end with text ending in a brace. */
  lemma EndsInSpace(s: string, h: string)
    requires |s| > 0 && s[|s| - 1] == ' ' && h == HighlightsEnd
    ensures !EndsWith(s, h)
  {
    assert h[|h| - 1] == '}';
  }

  /** A missing bullet list reads as an empty one: `list || []`. */
  lemma MissingBulletsAsEmpty(e: Experience, p: Project, ed: Education)
    ensures ExperienceEntry(e.(bullets := None)) == ExperienceEntry(e.(bullets := Some([])))
    ensures ProjectEntry(p.(bullets := None)) == ProjectEntry(p.(bullets := Some([])))
    ensures EducationEntry(ed.(bullets := None)) == EducationEntry(ed.(bullets := Some([])))
  {
  }
}
