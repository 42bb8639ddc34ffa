/** `src/app/utils/index.ts`: the generator the generate route calls. It
    merges the provider's summary, skills and experience over the default CV
    and fills a fixed LaTeX template. */
module AppUtils {
  import opened Wrappers
  import opened Text
  import opened Types
  import opened Sections
  import EscapeSpec
  import opened Reconcile
  import opened Template

  // ---------------------------------------------------------------------
  // escapeLatex

  /** `.replace(/[&%$#_{}]/g, "\\$&")`: a backslash goes in front of each
      character of the class, in a single left-to-right pass. */
  predicate InClass(c: char) {
    c == '&' || c == '%' || c == '$' || c == '#' || c == '_' || c == '{' || c == '}'
  }

  function EscapeClass(s: string): string {
    if s == [] then []
    else (if InClass(s[0]) then ['\\', s[0]] else [s[0]]) + EscapeClass(s[1..])
  }

  lemma {:induction false} EscapeClassAppend(a: string, b: string)
    ensures EscapeClass(a + b) == EscapeClass(a) + EscapeClass(b)
  {
    if a == [] {
      assert a + b == b;
    } else {
      assert (a + b)[1..] == a[1..] + b;
      EscapeClassAppend(a[1..], b);
    }
  }

  lemma {:induction false} EscapeClassNone(s: string)
    requires forall i :: 0 <= i < |s| ==> !InClass(s[i])
    ensures EscapeClass(s) == s
  {
    if s != [] {
      EscapeClassNone(s[1..]);
    }
  }

  /** `escapeLatex(text)`: backslashes first, then the character class, then
      tilde and caret. There is no bold conversion and no null check. */
  function EscapeLatex(text: string): string {
    var a := ReplaceChar(text, '\\', EscapeSpec.BackslashMacro);
    var b := EscapeClass(a);
    var c := ReplaceChar(b, '~', "\\textasciitilde{}");
    ReplaceChar(c, '^', "\\textasciicircum{}")
  }

  lemma EscapeLatexAppend(a: string, b: string)
    ensures EscapeLatex(a + b) == EscapeLatex(a) + EscapeLatex(b)
  {
    var a1, b1 := ReplaceChar(a, '\\', EscapeSpec.BackslashMacro), ReplaceChar(b, '\\', EscapeSpec.BackslashMacro);
    ReplaceCharAppend(a, b, '\\', EscapeSpec.BackslashMacro);
    EscapeClassAppend(a1, b1);
    var a2, b2 := EscapeClass(a1), EscapeClass(b1);
    ReplaceCharAppend(a2, b2, '~', "\\textasciitilde{}");
    ReplaceCharAppend(ReplaceChar(a2, '~', "\\textasciitilde{}"), ReplaceChar(b2, '~', "\\textasciitilde{}"),
                      '^', "\\textasciicircum{}");
  }

  lemma EscapeClassSingle(x: char)
    ensures EscapeClass([x]) == if InClass(x) then ['\\', x] else [x]
  {
    assert [x][1..] == [];
  }

  // The one-character lemmas take the character as a parameter rather than
  // as a literal, which keeps the solver from evaluating the chain on literals.

  /** The class pass leaves a brace-free head alone and escapes the two braces after it. */
  lemma BracesEscaped(head: string)
    requires forall i :: 0 <= i < |head| ==> !InClass(head[i])
    ensures EscapeClass(head + "{}") == head + "\\{\\}"
  {
    EscapeClassAfter(head, "{}");
    EscapeClassBraces();
  }

  /** A head without class characters passes unchanged before the rest. */
  lemma EscapeClassAfter(head: string, t: string)
    requires forall i :: 0 <= i < |head| ==> !InClass(head[i])
    ensures EscapeClass(head + t) == head + EscapeClass(t)
  {
    EscapeClassNone(head);
    EscapeClassAppend(head, t);
  }

  lemma EscapeClassBraces()
    ensures EscapeClass("{}") == "\\{\\}"
  {
    EscapeClassAppend(['{'], ['}']);
    EscapeClassSingle('{');
    EscapeClassSingle('}');
  }

  /** A backslash becomes `\textbackslash\{\}`: the class pass escapes the
      braces of the macro the first pass put in. */
  lemma EscapeBackslash(s: string)
    requires s == "\\"
    ensures EscapeLatex(s) == EscapeSpec.BackslashName + "\\{\\}"
  {
    ReplaceCharSingle('\\', '\\', EscapeSpec.BackslashMacro);
    MacroName();
    BracesEscaped(EscapeSpec.BackslashName);
    LastPassesIdle(s, EscapeSpec.BackslashName + "\\{\\}");
  }

  lemma MacroName()
    ensures forall i :: 0 <= i < |EscapeSpec.BackslashName| ==> !InClass(EscapeSpec.BackslashName[i])
    ensures '~' !in EscapeSpec.BackslashName + "\\{\\}" && '^' !in EscapeSpec.BackslashName + "\\{\\}"
  {
  }

  /** When the first two passes leave no tilde and no caret, the last two change nothing. */
  lemma LastPassesIdle(s: string, b: string)
    requires b == EscapeClass(ReplaceChar(s, '\\', EscapeSpec.BackslashMacro)) && '~' !in b && '^' !in b
    ensures EscapeLatex(s) == b
  {
    ReplaceCharAbsent(b, '~', "\\textasciitilde{}");
    ReplaceCharAbsent(b, '^', "\\textasciicircum{}");
  }

  lemma EscapeTilde(s: string)
    requires s == "~"
    ensures EscapeLatex(s) == "\\textasciitilde{}"
  {
    ReplaceCharSingle('~', '\\', EscapeSpec.BackslashMacro);
    EscapeClassSingle('~');
    ReplaceCharSingle('~', '~', "\\textasciitilde{}");
    ReplaceCharAbsent("\\textasciitilde{}", '^', "\\textasciicircum{}");
  }

  lemma EscapeOther(c: char)
    requires c != '\\' && c != '~'
    ensures EscapeLatex([c]) == EscapeSpec.EscapedChar(c)
  {
    ReplaceCharSingle(c, '\\', EscapeSpec.BackslashMacro);
    EscapeClassSingle(c);
    if InClass(c) {
      ReplaceCharAbsent(['\\', c], '~', "\\textasciitilde{}");
      ReplaceCharAbsent(['\\', c], '^', "\\textasciicircum{}");
    } else {
      ReplaceCharSingle(c, '~', "\\textasciitilde{}");
      ReplaceCharSingle(c, '^', "\\textasciicircum{}");
    }
  }

  /** On one character the chain of replacements gives the reference form. */
  lemma EscapeLatexChar(c: char)
    ensures EscapeLatex([c]) == EscapeSpec.EscapedChar(c)
  {
    if c == '\\' {
      EscapeBackslash([c]);
    } else if c == '~' {
      EscapeTilde([c]);
    } else {
      EscapeOther(c);
    }
  }

  /** `escapeLatex` replaces each character by its reference form, independently. */
  lemma {:induction false} EscapeLatexPerChar(s: string)
    ensures EscapeLatex(s) == EscapeSpec.EscapeEach(s)
  {
    if s != [] {
      assert s == [s[0]] + s[1..];
      EscapeLatexAppend([s[0]], s[1..]);
      EscapeLatexChar(s[0]);
      EscapeLatexPerChar(s[1..]);
    }
  }

  /** Asterisks are not reserved here: `**x**` keeps its markers. */
  lemma AsterisksKept(s: string)
    ensures EscapeLatex("**" + s + "**") == "**" + EscapeLatex(s) + "**"
  {
    EscapeLatexAppend("**" + s, "**");
    EscapeLatexAppend("**", s);
    EscapeLatexPerChar("**");
  }

  function EscapeAll(xs: seq<string>): (r: seq<string>)
    ensures |r| == |xs| && forall i :: 0 <= i < |xs| ==> r[i] == EscapeLatex(xs[i])
  {
    if xs == [] then [] else [EscapeLatex(xs[0])] + EscapeAll(xs[1..])
  }

  // ---------------------------------------------------------------------
  // The merge at the top of generateLatex

  /** The CV the template is filled from: the provider's summary if truthy,
      the reconciled skills if the provider sent a skills object, the
      provider's experience array wholesale if present, and every other field
      from the defaults. */
  function MergedCv(defaults: Cv, payload: Payload): (cv: Cv)
    ensures cv.summary == if Truthy(payload.summary) then payload.summary.value else defaults.summary
    ensures payload.skills.None? ==> cv.skills == defaults.skills
    ensures payload.skills.Some? ==> cv.skills == ReconcileSkills(defaults.skills, payload.skills.value)
    ensures cv.experience == if payload.experience.Some? then payload.experience.value else defaults.experience
    ensures cv.(summary := defaults.summary, skills := defaults.skills, experience := defaults.experience) == defaults
  {
    var skills := if payload.skills.Some? then ReconcileSkills(defaults.skills, payload.skills.value)
                  else defaults.skills;
    defaults.(summary := if Truthy(payload.summary) then payload.summary.value else defaults.summary,
              skills := skills,
              experience := if payload.experience.Some? then payload.experience.value else defaults.experience)
  }

  // ---------------------------------------------------------------------
  // generateSkillsSection

  /** What `generateSkillsSection` may be handed: the categorised object, or
      the older flat array it still accepts. */
  datatype SkillsValue = Categorized(skills: Skills) | Listed(items: seq<string>)

  function SkillLine(c: Category, items: seq<string>): string {
    SkillOpen + Label(c) + ":} " + Join(EscapeAll(items), ", ") + EntryClose
  }

  /** The line of one category, as a function of the category. */
  function LineOf(sk: Skills): Category -> string {
    c => SkillLine(c, Get(sk, c))
  }

  function SkillLines(sk: Skills, cs: seq<Category>): seq<string> {
    MapSeq(LineOf(sk), cs)
  }

  /** The lines pushed for the first `k` categories. */
  function CategoryLines(sk: Skills, k: nat): seq<string>
    requires k <= 7
  {
    if k == 0 then []
    else
      var c := CategoryAt(k - 1);
      CategoryLines(sk, k - 1) + (if |Get(sk, c)| > 0 then [SkillLine(c, Get(sk, c))] else [])
  }

  lemma {:induction false} CategoryLinesShown(sk: Skills, k: nat)
    requires k <= 7
    ensures CategoryLines(sk, k) == SkillLines(sk, Shown(sk, k))
  {
    if k > 0 {
      var c := CategoryAt(k - 1);
      CategoryLinesShown(sk, k - 1);
      var add := if |Get(sk, c)| > 0 then [c] else [];
      MapSeqAppend(LineOf(sk), Shown(sk, k - 1), add);
    }
  }

  function SkillsSection(v: SkillsValue): string {
    match v
    case Listed(xs) => "\\begin{onecolentry}\n        " + Join(EscapeAll(xs), ", ") + "\n    \\end{onecolentry}"
    case Categorized(sk) => Join(CategoryLines(sk, 7), SkillSeparator)
  }

  /** `generateSkillsSection(skills)`: one guarded push per category. */
  method GenerateSkillsSection(v: SkillsValue) returns (s: string)
    ensures s == SkillsSection(v)
  {
    if v.Listed? {
      return "\\begin{onecolentry}\n        " + Join(EscapeAll(v.items), ", ") + "\n    \\end{onecolentry}";
    }
    var sk := v.skills;
    var sections: seq<string> := [];
    if |sk.languages| > 0 {
      sections := sections + [SkillLine(Languages, sk.languages)];
    }
    assert sections == CategoryLines(sk, 1);
    if |sk.frontend| > 0 {
      sections := sections + [SkillLine(Frontend, sk.frontend)];
    }
    assert sections == CategoryLines(sk, 2);
    if |sk.backend| > 0 {
      sections := sections + [SkillLine(Backend, sk.backend)];
    }
    assert sections == CategoryLines(sk, 3);
    if |sk.aiMl| > 0 {
      sections := sections + [SkillLine(AiMl, sk.aiMl)];
    }
    assert sections == CategoryLines(sk, 4);
    if |sk.database| > 0 {
      sections := sections + [SkillLine(Database, sk.database)];
    }
    assert sections == CategoryLines(sk, 5);
    if |sk.cloudDevOps| > 0 {
      sections := sections + [SkillLine(CloudDevOps, sk.cloudDevOps)];
    }
    assert sections == CategoryLines(sk, 6);
    if |sk.tools| > 0 {
      sections := sections + [SkillLine(Tools, sk.tools)];
    }
    assert sections == CategoryLines(sk, 7);
    s := Join(sections, SkillSeparator);
  }

  /** A category is rendered exactly when its list is non-empty (a provider's
      `[]` hides it), and the rendered categories keep the fixed order
      Languages, Frontend, Backend, AI/ML, Databases, Cloud & DevOps, Tools. */
  lemma SkillsSectionCategories(sk: Skills)
    ensures forall c: Category :: c in Shown(sk, 7) <==> |Get(sk, c)| > 0
    ensures InOrder(Shown(sk, 7))
    ensures SkillsSection(Categorized(sk)) == Join(SkillLines(sk, Shown(sk, 7)), SkillSeparator)
  {
    forall c: Category ensures c in Shown(sk, 7) <==> |Get(sk, c)| > 0 {
      ShownMembers(sk, 7, c);
    }
    ShownKeepsOrder(sk, 7);
    CategoryLinesShown(sk, 7);
  }

  /** The categorised section is empty exactly when every category is empty. */
  lemma SkillsSectionEmpty(sk: Skills)
    ensures SkillsSection(Categorized(sk)) == "" <==> forall c: Category :: |Get(sk, c)| == 0
  {
    SkillsSectionCategories(sk);
    var shown := Shown(sk, 7);
    var lines := SkillLines(sk, shown);
    JoinEmpty(lines, SkillSeparator);
    if shown != [] {
      assert |Get(sk, shown[0])| > 0;
    }
  }

  // ---------------------------------------------------------------------
  // generateLatex: the template

  /** The header's contact separator. */
  const Separator: string := "\\kern 5.0 pt%\n        \\AND%\n        \\kern 5.0 pt%"

  const SlotOpen: string := "\n        \\mbox{\\hrefWithoutArrow{"

  /** Website and project-link display text: the first `https://`, then the
      first `http://`, removed. */
  function StripScheme(url: string): string {
    ReplaceFirst(ReplaceFirst(url, "https://", ""), "http://", "")
  }

  /** One contact link, with its own leading separator; nothing when the URL is empty. */
  function LinkSlot(url: string, display: string): string {
    if url == "" then ""
    else Separator + SlotOpen + url + "}{" + EscapeLatex(display) + "}}%"
  }

  /** The preamble: the fixed text before and after the two PDF metadata
      lines that carry the escaped name. */
  function Preamble(fixed: FixedText, name: string): string {
    fixed.head
    + "    pdftitle={" + EscapeLatex(name) + "'s CV},\n"
    + "    pdfauthor={" + EscapeLatex(name) + "},\n"
    + fixed.tail
  }

  /** Name, e-mail (always followed by one separator), then website, LinkedIn and GitHub. */
  function Header(cv: Cv): string {
    HeaderOpen + EscapeLatex(cv.name) + MailOpen
    + cv.email + "}{" + EscapeLatex(cv.email) + "}}%" + "\n        " + Separator + "\n        "
    + LinkSlot(cv.website, StripScheme(cv.website)) + "\n        "
    + LinkSlot(cv.linkedin, LastSegment(cv.linkedin)) + "\n        "
    + LinkSlot(cv.github, LastSegment(cv.github))
    + HeaderClose
  }

  function Dates(start: string, end: string): string {
    EscapeLatex(start) + " \U{2013} " + EscapeLatex(end)
  }

  function ExperienceEntry(e: Experience): string
    requires e.bullets.Some?
  {
    TwoColEntry(Dates(e.start, e.end), "\\textbf{" + EscapeLatex(e.title) + "}, " + EscapeLatex(e.company))
    + BulletBlock(EscapeAll(e.bullets.value))
  }

  /** The project link shown when `link` is truthy, with its scheme removed from the visible text. */
  function ProjectLink(link: Option<string>): string {
    if Truthy(link) then "\\href{" + link.value + "}{" + EscapeLatex(StripScheme(link.value)) + "}" else ""
  }

  function ProjectEntry(p: Project): string
    requires p.bullets.Some?
  {
    TwoColEntry(ProjectLink(p.link), "\\textbf{" + EscapeLatex(p.name) + "}") + BulletBlock(EscapeAll(p.bullets.value))
  }

  /** `edu.bullets && edu.bullets.length > 0`. */
  predicate HasBullets(e: Education) {
    e.bullets.Some? && |e.bullets.value| > 0
  }

  function EducationEntry(e: Education): string {
    TwoColEntry(Dates(e.start, e.end), "\\textbf{" + EscapeLatex(e.school) + "}, " + EscapeLatex(e.degree))
    + (if HasBullets(e) then BulletBlock(EscapeAll(e.bullets.value)) else "")
  }

  function AchievementEntry(a: Achievement): string {
    AchievementOpen + EscapeLatex(a.title) + ":} "
    + EscapeLatex(a.description) + "\n    \\end{onecolentry}"
  }

  /** Experience and project bullets are mapped without a guard, so a
      missing list throws a TypeError; education bullets are tested first. */
  predicate BulletsPresent(cv: Cv) {
    (forall i :: 0 <= i < |cv.experience| ==> cv.experience[i].bullets.Some?)
    && (forall i :: 0 <= i < |cv.projects| ==> cv.projects[i].bullets.Some?)
  }

  const TypeErrorMessage: string := "Cannot read properties of undefined (reading 'map')"

  // `.map(...)` over each section's entries, then `.join(EntrySeparator)`.
  // Experience and project entries map `bullets` unguarded: the first
  // entry without a list throws, and the `.map` stops there.

  function ExperienceEntries(es: seq<Experience>): Result<seq<string>, string> {
    if es == [] then Success([])
    else if es[0].bullets.None? then Failure(TypeErrorMessage)
    else match ExperienceEntries(es[1..])
         case Failure(e) => Failure(e)
         case Success(rest) => Success([ExperienceEntry(es[0])] + rest)
  }

  function ProjectEntries(ps: seq<Project>): Result<seq<string>, string> {
    if ps == [] then Success([])
    else if ps[0].bullets.None? then Failure(TypeErrorMessage)
    else match ProjectEntries(ps[1..])
         case Failure(e) => Failure(e)
         case Success(rest) => Success([ProjectEntry(ps[0])] + rest)
  }

  /** Mapping the experience entries fails, with the TypeError, exactly when
      one of them has no bullet list. */
  lemma {:induction false} ExperienceEntriesFail(es: seq<Experience>)
    ensures ExperienceEntries(es).Failure? <==> exists i :: 0 <= i < |es| && es[i].bullets.None?
    ensures ExperienceEntries(es).Failure? ==> ExperienceEntries(es).error == TypeErrorMessage
  {
    if es != [] && es[0].bullets.Some? {
      ExperienceEntriesFail(es[1..]);
      if exists i :: 0 <= i < |es| && es[i].bullets.None? {
        var i :| 0 <= i < |es| && es[i].bullets.None?;
        assert es[1..][i - 1].bullets.None?;
      }
    }
  }

  /** When it succeeds, the mapping renders each experience entry in turn. */
  lemma {:induction false} ExperienceEntriesRendered(es: seq<Experience>)
    requires ExperienceEntries(es).Success?
    ensures |ExperienceEntries(es).value| == |es|
    ensures forall i :: 0 <= i < |es| ==> es[i].bullets.Some? && ExperienceEntries(es).value[i] == ExperienceEntry(es[i])
  {
    if es != [] {
      ExperienceEntriesRendered(es[1..]);
      var r := ExperienceEntries(es).value;
      assert r == [ExperienceEntry(es[0])] + ExperienceEntries(es[1..]).value;
      forall i | 0 <= i < |es| ensures es[i].bullets.Some? && r[i] == ExperienceEntry(es[i]) {
        if i > 0 {
          assert es[i] == es[1..][i - 1];
        }
      }
    }
  }

  /** Mapping the project entries fails, with the TypeError, exactly when
      one of them has no bullet list. */
  lemma {:induction false} ProjectEntriesFail(ps: seq<Project>)
    ensures ProjectEntries(ps).Failure? <==> exists i :: 0 <= i < |ps| && ps[i].bullets.None?
    ensures ProjectEntries(ps).Failure? ==> ProjectEntries(ps).error == TypeErrorMessage
  {
    if ps != [] && ps[0].bullets.Some? {
      ProjectEntriesFail(ps[1..]);
      if exists i :: 0 <= i < |ps| && ps[i].bullets.None? {
        var i :| 0 <= i < |ps| && ps[i].bullets.None?;
        assert ps[1..][i - 1].bullets.None?;
      }
    }
  }

  /** When it succeeds, the mapping renders each project entry in turn. */
  lemma {:induction false} ProjectEntriesRendered(ps: seq<Project>)
    requires ProjectEntries(ps).Success?
    ensures |ProjectEntries(ps).value| == |ps|
    ensures forall i :: 0 <= i < |ps| ==> ps[i].bullets.Some? && ProjectEntries(ps).value[i] == ProjectEntry(ps[i])
  {
    if ps != [] {
      ProjectEntriesRendered(ps[1..]);
      var r := ProjectEntries(ps).value;
      assert r == [ProjectEntry(ps[0])] + ProjectEntries(ps[1..]).value;
      forall i | 0 <= i < |ps| ensures ps[i].bullets.Some? && r[i] == ProjectEntry(ps[i]) {
        if i > 0 {
          assert ps[i] == ps[1..][i - 1];
        }
      }
    }
  }


  function EducationEntries(eds: seq<Education>): seq<string> {
    if eds == [] then [] else [EducationEntry(eds[0])] + EducationEntries(eds[1..])
  }

  function AchievementEntries(as_: seq<Achievement>): seq<string> {
    if as_ == [] then [] else [AchievementEntry(as_[0])] + AchievementEntries(as_[1..])
  }

  /** The app generator's white space around section bodies. */
  const AppSpacing: Spacing := Spacing("\n\n    \\begin{onecolentry}\n        ", "\n    \\end{onecolentry}\n    \n    ",
                                       "\n\n    ", "\n    \n    ")

  /** The template filled from `cv`; `skillsText` is what `generateSkillsSection(cv.skills)`
      returned, `experience` and `projects` the rendered entries. */
  function Fragments(cv: Cv, fixed: FixedText, skillsText: string,
                     experience: seq<string>, projects: seq<string>): seq<Fragment> {
    Layout(AppSpacing, Preamble(fixed, cv.name) + Header(cv), EscapeLatex(cv.summary), skillsText,
           Join(experience, EntrySeparator),
           if |cv.projects| > 0 then Some(Join(projects, EntrySeparator)) else None,
           Join(EducationEntries(cv.education), EntrySeparator),
           if |cv.achievements| > 0 then Some(Join(AchievementEntries(cv.achievements), EntrySeparator)) else None)
  }

  /** The document `generateLatex` returns for an already merged CV, or the
      message of the TypeError it throws: the template's interpolations are
      evaluated in order, experience before projects. */
  function Document(cv: Cv, fixed: FixedText): Result<string, string> {
    match ExperienceEntries(cv.experience)
    case Failure(e) => Failure(e)
    case Success(experience) =>
      match ProjectEntries(cv.projects)
      case Failure(e) => Failure(e)
      case Success(projects) =>
        Success(Render(Fragments(cv, fixed, SkillsSection(Categorized(cv.skills)), experience, projects)))
  }

  /** `generateLatex(optimizedData)` with `DEFAULT_CV` as `defaults`. */
  method GenerateLatex(defaults: Cv, fixed: FixedText, payload: Payload) returns (r: Result<string, string>)
    ensures r == Document(MergedCv(defaults, payload), fixed)
  {
    var skills := defaults.skills;
    if payload.skills.Some? {
      skills := ReconcileSkills(defaults.skills, payload.skills.value);
    }
    var cv := defaults.(summary := if Truthy(payload.summary) then payload.summary.value else defaults.summary,
                        skills := skills,
                        experience := if payload.experience.Some? then payload.experience.value
                                      else defaults.experience);
    var skillsText := GenerateSkillsSection(Categorized(cv.skills));
    var experience := ExperienceEntries(cv.experience);
    if experience.Failure? {
      return Failure(experience.error);
    }
    var projects := ProjectEntries(cv.projects);
    if projects.Failure? {
      return Failure(projects.error);
    }
    r := Success(Render(Fragments(cv, fixed, skillsText, experience.value, projects.value)));
  }

  // ---------------------------------------------------------------------
  // Properties of the assembled document

  /** The only failure is the TypeError from a missing experience or project bullet list. */
  lemma DocumentFails(cv: Cv, fixed: FixedText)
    ensures Document(cv, fixed).Failure? <==> !BulletsPresent(cv)
    ensures Document(cv, fixed).Failure? ==> Document(cv, fixed).error == TypeErrorMessage
  {
    ExperienceEntriesFail(cv.experience);
    ProjectEntriesFail(cv.projects);
  }

  /** The headings in document order: Summary, Skills, Experience, Projects
      only if there are projects, Education, Achievements only if there are
      achievements. */
  lemma DocumentTitles(cv: Cv, fixed: FixedText, skillsText: string, experience: seq<string>, projects: seq<string>)
    ensures Titles(Fragments(cv, fixed, skillsText, experience, projects))
            == [SummaryTitle, SkillsTitle, ExperienceTitle]
               + (if |cv.projects| > 0 then [ProjectsTitle] else [])
               + [EducationTitle]
               + (if |cv.achievements| > 0 then [AchievementsTitle] else [])
  {
    LayoutTitles(AppSpacing, Preamble(fixed, cv.name) + Header(cv), EscapeLatex(cv.summary), skillsText,
                 Join(experience, EntrySeparator),
                 if |cv.projects| > 0 then Some(Join(projects, EntrySeparator)) else None,
                 Join(EducationEntries(cv.education), EntrySeparator),
                 if |cv.achievements| > 0 then Some(Join(AchievementEntries(cv.achievements), EntrySeparator)) else None);
  }

  /** Experience and project entries end with a highlights block, even with no bullets. */
  lemma EntriesAlwaysHighlighted(e: Experience, p: Project)
    requires e.bullets.Some? && p.bullets.Some?
    ensures EndsWith(ExperienceEntry(e), HighlightsEnd)
    ensures EndsWith(ProjectEntry(p), HighlightsEnd)
  {
    BulletBlockEnds(EscapeAll(e.bullets.value));
    BulletBlockEnds(EscapeAll(p.bullets.value));
    EndsWithExtend(TwoColEntry(Dates(e.start, e.end), "\\textbf{" + EscapeLatex(e.title) + "}, " + EscapeLatex(e.company)),
                   BulletBlock(EscapeAll(e.bullets.value)), HighlightsEnd);
    EndsWithExtend(TwoColEntry(ProjectLink(p.link), "\\textbf{" + EscapeLatex(p.name) + "}"),
                   BulletBlock(EscapeAll(p.bullets.value)), HighlightsEnd);
  }

  /** An education entry ends with a highlights block exactly when it has bullets. */
  lemma EducationHighlights(e: Education)
    ensures EndsWith(EducationEntry(e), HighlightsEnd) <==> HasBullets(e)
  {
    var head := TwoColEntry(Dates(e.start, e.end), "\\textbf{" + EscapeLatex(e.school) + "}, " + EscapeLatex(e.degree));
    if HasBullets(e) {
      BulletBlockEnds(EscapeAll(e.bullets.value));
      EndsWithExtend(head, BulletBlock(EscapeAll(e.bullets.value)), HighlightsEnd);
    } else {
      assert EducationEntry(e) == head;
      TwoColEntryEnds(Dates(e.start, e.end), "\\textbf{" + EscapeLatex(e.school) + "}, " + EscapeLatex(e.degree));
      EndingsExclusive(head);
    }
  }

  /** A link adds text only when its URL is non-empty, and then starts with its own separator. */
  lemma LinkSlotShape(url: string, display: string)
    ensures LinkSlot(url, display) == "" <==> url == ""
    ensures url != "" ==> StartsWith(LinkSlot(url, display), Separator)
    ensures url != "" ==> EndsWith(LinkSlot(url, display), "}{" + EscapeLatex(display) + "}}%")
  {
    if url != "" {
      var t := "}{" + EscapeLatex(display) + "}}%";
      Framed(Separator, SlotOpen + url, t);
      assert LinkSlot(url, display) == Separator + (SlotOpen + url) + t;
    }
  }

  /** The e-mail address is the `mailto:` target as it is, unescaped, and
      is escaped only in the text shown. */
  lemma MailTargetRaw(cv: Cv)
    ensures OccursAt(Header(cv), MailOpen + cv.email + "}{" + EscapeLatex(cv.email) + "}}%",
                     |HeaderOpen + EscapeLatex(cv.name)|)
  {
    var a := HeaderOpen + EscapeLatex(cv.name);
    var m := MailOpen + cv.email + "}{" + EscapeLatex(cv.email) + "}}%";
    var p := a + MailOpen + cv.email + "}{" + EscapeLatex(cv.email) + "}}%";
    Assoc(a, MailOpen + cv.email + "}{" + EscapeLatex(cv.email), "}}%");
    Assoc(a, MailOpen + cv.email + "}{", EscapeLatex(cv.email));
    Assoc(a, MailOpen + cv.email, "}{");
    Assoc(a, MailOpen, cv.email);
    MiddleOccurs(a, m, []);
    assert a + m + [] == p;
    HeaderAfterMail(cv, p, m, |a|);
  }

  /** What follows the e-mail link keeps its occurrence in place. */
  lemma HeaderAfterMail(cv: Cv, p: string, m: string, i: nat)
    requires p == HeaderOpen + EscapeLatex(cv.name) + MailOpen + cv.email + "}{" + EscapeLatex(cv.email) + "}}%"
    requires OccursAt(p, m, i)
    ensures OccursAt(Header(cv), m, i)
  {
    var p1 := p + "\n        ";
    OccursExtended(p, "\n        ", m, i);
    var p2 := p1 + Separator;
    OccursExtended(p1, Separator, m, i);
    var p3 := p2 + "\n        ";
    OccursExtended(p2, "\n        ", m, i);
    var p4 := p3 + LinkSlot(cv.website, StripScheme(cv.website));
    OccursExtended(p3, LinkSlot(cv.website, StripScheme(cv.website)), m, i);
    var p5 := p4 + "\n        ";
    OccursExtended(p4, "\n        ", m, i);
    var p6 := p5 + LinkSlot(cv.linkedin, LastSegment(cv.linkedin));
    OccursExtended(p5, LinkSlot(cv.linkedin, LastSegment(cv.linkedin)), m, i);
    var p7 := p6 + "\n        ";
    OccursExtended(p6, "\n        ", m, i);
    var p8 := p7 + LinkSlot(cv.github, LastSegment(cv.github));
    OccursExtended(p7, LinkSlot(cv.github, LastSegment(cv.github)), m, i);
    OccursExtended(p8, HeaderClose, m, i);
  }

  /** The e-mail is always followed by a separator and a website slot
      brings its own, so a website gives two separators in a row. */
  lemma SeparatorRepeated(cv: Cv)
    requires cv.website != ""
    ensures exists k :: OccursAt(Header(cv), Separator + "\n        " + Separator, k)
  {
    var a := HeaderOpen + EscapeLatex(cv.name) + MailOpen + cv.email + "}{" + EscapeLatex(cv.email) + "}}%" + "\n        ";
    var w := LinkSlot(cv.website, StripScheme(cv.website));
    LinkSlotShape(cv.website, StripScheme(cv.website));
    OccursIntoPrefix(a, Separator + "\n        ", w, Separator);
    Assoc(a, Separator, "\n        ");
    var p := a + Separator + "\n        " + w;
    var m := Separator + "\n        " + Separator;
    HeaderAfterWebsite(cv, p, m, |a|);
  }

  /** What follows the website slot keeps an occurrence in place. */
  lemma HeaderAfterWebsite(cv: Cv, p: string, m: string, i: nat)
    requires p == HeaderOpen + EscapeLatex(cv.name) + MailOpen + cv.email + "}{" + EscapeLatex(cv.email)
                  + "}}%" + "\n        " + Separator + "\n        " + LinkSlot(cv.website, StripScheme(cv.website))
    requires OccursAt(p, m, i)
    ensures OccursAt(Header(cv), m, i)
  {
    var p1 := p + "\n        ";
    OccursExtended(p, "\n        ", m, i);
    var p2 := p1 + LinkSlot(cv.linkedin, LastSegment(cv.linkedin));
    OccursExtended(p1, LinkSlot(cv.linkedin, LastSegment(cv.linkedin)), m, i);
    var p3 := p2 + "\n        ";
    OccursExtended(p2, "\n        ", m, i);
    var p4 := p3 + LinkSlot(cv.github, LastSegment(cv.github));
    OccursExtended(p3, LinkSlot(cv.github, LastSegment(cv.github)), m, i);
    OccursExtended(p4, HeaderClose, m, i);
  }

  /** With no link, the separator after the e-mail is the header's last
      text: only blank lines and the closing follow it. */
  lemma TrailingSeparator(cv: Cv)
    requires cv.website == "" && cv.linkedin == "" && cv.github == ""
    ensures EndsWith(Header(cv), Separator + "\n        " + "\n        " + "\n        " + HeaderClose)
  {
    EndsAfterEmptySlots(HeaderOpen + EscapeLatex(cv.name) + MailOpen + cv.email + "}{" + EscapeLatex(cv.email) + "}}%" + "\n        ",
                        Separator, "\n        ", LinkSlot(cv.website, StripScheme(cv.website)),
                        LinkSlot(cv.linkedin, LastSegment(cv.linkedin)), LinkSlot(cv.github, LastSegment(cv.github)),
                        HeaderClose);
  }

  /** `a + s + n + w + n + l + n + g + c` ends with `s + n + n + n + c` when
      the three slots `w`, `l`, `g` are empty. */
  lemma EndsAfterEmptySlots(a: string, s: string, n: string, w: string, l: string, g: string, c: string)
    requires w == [] && l == [] && g == []
    ensures EndsWith(a + s + n + w + n + l + n + g + c, s + n + n + n + c)
  {
    assert a + s + n + w + n + l + n + g + c == a + s + n + n + n + c;
    assert EndsWith(s, s);
    EndsWithExtend(a, s, s);
    EndsWithAppended(a + s, s, n);
    EndsWithAppended(a + s + n, s + n, n);
    EndsWithAppended(a + s + n + n, s + n + n, n);
    EndsWithAppended(a + s + n + n + n, s + n + n + n, c);
  }

  /** The scheme is removed from a website written with one. */
  lemma StripSchemeOfUrl(rest: string)
    requires forall j: nat :: !OccursAt(rest, "http://", j) && !OccursAt(rest, "https://", j)
    ensures StripScheme("https://" + rest) == rest
    ensures StripScheme("http://" + rest) == rest
    ensures StripScheme(rest) == rest
  {
    StripSecure("https://" + rest, rest);
    StripPlain("http://" + rest, rest);
    ReplaceFirstAbsent(rest, "https://", "");
    ReplaceFirstAbsent(rest, "http://", "");
  }

  lemma StripSecure(u: string, rest: string)
    requires u == "https://" + rest
    requires forall j: nat :: !OccursAt(rest, "http://", j)
    ensures StripScheme(u) == rest
  {
    ReplaceFirstAtStart(u, "https://", "");
    assert u[8..] == rest;
    assert ReplaceFirst(u, "https://", "") == rest;
    ReplaceFirstAbsent(rest, "http://", "");
  }

  lemma StripPlain(u: string, rest: string)
    requires u == "http://" + rest
    requires forall j: nat :: !OccursAt(rest, "https://", j)
    ensures StripScheme(u) == rest
  {
    forall j: nat ensures !OccursAt(u, "https://", j) {
      if j < 7 {
        NoSecureInPlain(u, "https://", j);
      } else {
        OccursAfterPrefix("http://", rest, "https://", j);
      }
    }
    ReplaceFirstAbsent(u, "https://", "");
    ReplaceFirstAtStart(u, "http://", "");
    assert u[7..] == rest;
  }

  /** "https://" cannot start inside a leading "http://": the colon at
      position 4, or a slash after it, is where its letters would be. */
  lemma NoSecureInPlain(u: string, p: string, j: nat)
    requires StartsWith(u, "http://") && p == "https://" && j < 7
    ensures !OccursAt(u, p, j)
  {
    if j + 8 <= |u| {
      var w := u[j..j + 8];
      if j <= 4 {
        assert w[4 - j] == u[4] == u[..7][4];
      } else {
        assert w[0] == u[j] == u[..7][j];
      }
    }
  }
}
