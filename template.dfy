/** The fixed LaTeX both generators write around the CV's content: the
    header's opening and closing lines, two-column entry headings, the
    highlights block of bullet points, and the separators between skill
    lines and between entries. Every piece here takes text that has already
    been escaped. */
module Template {
  import opened Wrappers
  import opened Text
  import opened Types
  import opened Sections

  const HeaderOpen: string := "    \\begin{header}\n        \\fontsize{25 pt}{25 pt}\\selectfont "
  const MailOpen: string := "\n\n        \\vspace{5 pt}\n\n        \\normalsize\n        \\mbox{\\hrefWithoutArrow{mailto:"
  const HeaderClose: string := "\n    \\end{header}\n\n    \\vspace{5 pt - 0.3 cm}\n\n    "

  /** Opens a skill line; the bold label follows. */
  const SkillOpen: string := "\\begin{onecolentry}\n        \\textbf{"
  const EntryClose: string := "\n    \\end{onecolentry}"

  /** Joins the skill lines. */
  const SkillSeparator: string := "\n\n    \\vspace{0.2 cm}\n\n    "

  /** Joins entries within the Experience, Projects, Education and Achievements sections. */
  const EntrySeparator: string := "\n\n    \\vspace{0.2 cm}\n"

  const AchievementOpen: string := "\n    \\begin{onecolentry}\n        \\textbf{"

  const TwoColOpen: string := "\n    \\begin{twocolentry}{\n        "
  const TwoColEnd: string := "\\end{twocolentry}"

  /** An entry's heading: `left` in the first column, `right` in the second. */
  function TwoColEntry(left: string, right: string): string {
    TwoColOpen + left + "\n    }\n        " + right + "\n    " + TwoColEnd
  }

  const HighlightsOpen: string := "\\begin{onecolentry}\n        \\begin{highlights}\n            "
  const HighlightsEnd: string := "\\end{highlights}\n    \\end{onecolentry}"
  const BulletGap: string := "\n\n    \\vspace{0.10 cm}\n    "

  /** `\item` before each escaped bullet. */
  function ItemLines(items: seq<string>): (r: seq<string>)
    ensures |r| == |items| && forall i :: 0 <= i < |r| ==> r[i] == "\\item " + items[i]
  {
    if items == [] then [] else ["\\item " + items[0]] + ItemLines(items[1..])
  }

  function Highlights(items: seq<string>): string {
    HighlightsOpen + Join(ItemLines(items), "\n            ") + "\n        " + HighlightsEnd
  }

  /** The spacing and highlights block that follows an entry's heading. */
  function BulletBlock(items: seq<string>): string {
    BulletGap + Highlights(items)
  }

  lemma BulletBlockEnds(items: seq<string>)
    ensures EndsWith(BulletBlock(items), HighlightsEnd)
  {
    var h := Highlights(items);
    EndsWithExtend(HighlightsOpen + Join(ItemLines(items), "\n            ") + "\n        ",
                   HighlightsEnd, HighlightsEnd);
    EndsWithExtend(BulletGap, h, HighlightsEnd);
  }

  lemma TwoColEntryEnds(left: string, right: string)
    ensures EndsWith(TwoColEntry(left, right), TwoColEnd)
  {
    EndsWithExtend(TwoColOpen + left + "\n    }\n        " + right + "\n    ", TwoColEnd, TwoColEnd);
  }

  /** No text ends both with a highlights block and with an entry heading. */
  lemma EndingsExclusive(s: string)
    ensures EndsWith(s, HighlightsEnd) ==> !EndsWith(s, TwoColEnd)
  {
    EndsWithBoth(s, HighlightsEnd, TwoColEnd);
    DistinctEndings(HighlightsEnd, TwoColEnd);
  }

  lemma DistinctEndings(h: string, t: string)
    requires h == HighlightsEnd && t == TwoColEnd
    ensures !EndsWith(h, t)
  {
    assert h[|h| - |t| + 5] != t[5];
  }

  // ---------------------------------------------------------------------
  // The skills section's categories

  /** The bold label written before each category. The generator in
      `src/utils` escapes it; the one in `src/app/utils` does not. */
  function Label(c: Category): string {
    match c
    case Languages => "Languages"
    case Frontend => "Frontend"
    case Backend => "Backend"
    case AiMl => "AI/ML"
    case Database => "Databases"
    case CloudDevOps => "Cloud & DevOps"
    case Tools => "Tools"
  }

  /** The categories among the first `k` that have at least one skill, in declaration order. */
  function Shown(sk: Skills, k: nat): seq<Category>
    requires k <= 7
  {
    if k == 0 then []
    else Shown(sk, k - 1) + (if |Get(sk, CategoryAt(k - 1))| > 0 then [CategoryAt(k - 1)] else [])
  }

  predicate InOrder(cs: seq<Category>) {
    forall i, j :: 0 <= i < j < |cs| ==> CategoryIndex(cs[i]) < CategoryIndex(cs[j])
  }

  lemma {:induction false} ShownMembers(sk: Skills, k: nat, c: Category)
    requires k <= 7
    ensures c in Shown(sk, k) <==> CategoryIndex(c) < k && |Get(sk, c)| > 0
  {
    if k > 0 {
      ShownMembers(sk, k - 1, c);
      CategoryAtIndex(c);
    }
  }

  lemma {:induction false} ShownKeepsOrder(sk: Skills, k: nat)
    requires k <= 7
    ensures InOrder(Shown(sk, k))
  {
    if k > 0 {
      ShownKeepsOrder(sk, k - 1);
      forall c | c in Shown(sk, k - 1)
        ensures CategoryIndex(c) < k - 1
      {
        ShownMembers(sk, k - 1, c);
      }
    }
  }

  // ---------------------------------------------------------------------
  // The document's layout

  /** The white space a generator writes around section bodies: before and
      after the summary, at the start of every other body, and before the
      Education section. The two generators differ only in these. */
  datatype Spacing = Spacing(summaryOpen: string, summaryClose: string, bodyOpen: string, beforeEducation: string)

  /** From the preamble to the end of the Experience section. */
  function OpeningPart(sp: Spacing, top: string, summary: string, skills: string, experience: string): seq<Fragment> {
    [Raw(top)]
    + Section(SummaryTitle, sp.summaryOpen + summary + sp.summaryClose)
    + Section(SkillsTitle, sp.bodyOpen + skills + "\n\n    ")
    + Section(ExperienceTitle, sp.bodyOpen + experience + "\n\n    ")
  }

  /** A section the template writes only when it has entries (`None` otherwise). */
  function OptionalPart(sp: Spacing, title: Title, body: Option<string>): seq<Fragment> {
    if body.Some? then [Raw("\n    ")] + Section(title, sp.bodyOpen + body.value) else []
  }

  function EducationPart(sp: Spacing, education: string): seq<Fragment> {
    [Raw(sp.beforeEducation)] + Section(EducationTitle, sp.bodyOpen + education + "\n\n    ")
  }

  const DocumentEnd: Fragment := Raw("\n\n\\end{document}")

  /** The template with its variable parts as parameters: the preamble and
      header, the escaped summary, the skills section, the joined entries of
      each section, and `None` for a section the template leaves out. */
  function Layout(sp: Spacing, top: string, summary: string, skills: string, experience: string,
                  projects: Option<string>, education: string, achievements: Option<string>): seq<Fragment>
  {
    OpeningPart(sp, top, summary, skills, experience) + OptionalPart(sp, ProjectsTitle, projects)
    + EducationPart(sp, education) + OptionalPart(sp, AchievementsTitle, achievements) + [DocumentEnd]
  }

  lemma OpeningTitles(sp: Spacing, top: string, summary: string, skills: string, experience: string)
    ensures Titles(OpeningPart(sp, top, summary, skills, experience)) == [SummaryTitle, SkillsTitle, ExperienceTitle]
  {
    var b1, b2, b3 := sp.summaryOpen + summary + sp.summaryClose, sp.bodyOpen + skills + "\n\n    ", sp.bodyOpen + experience + "\n\n    ";
    var p0, p1, p2, p3 := [Raw(top)], Section(SummaryTitle, b1), Section(SkillsTitle, b2), Section(ExperienceTitle, b3);
    TitlesAppend(p0 + p1 + p2, p3);
    TitlesAppend(p0 + p1, p2);
    TitlesAppend(p0, p1);
    TitlesRaw(top);
    TitlesSection(SummaryTitle, b1);
    TitlesSection(SkillsTitle, b2);
    TitlesSection(ExperienceTitle, b3);
  }

  lemma OptionalTitles(sp: Spacing, title: Title, body: Option<string>)
    ensures Titles(OptionalPart(sp, title, body)) == if body.Some? then [title] else []
  {
    if body.Some? {
      TitlesAppend([Raw("\n    ")], Section(title, sp.bodyOpen + body.value));
      TitlesRaw("\n    ");
      TitlesSection(title, sp.bodyOpen + body.value);
    }
  }

  lemma EducationTitles(sp: Spacing, education: string)
    ensures Titles(EducationPart(sp, education)) == [EducationTitle]
  {
    var body := sp.bodyOpen + education + "\n\n    ";
    TitlesAppend([Raw(sp.beforeEducation)], Section(EducationTitle, body));
    TitlesRaw(sp.beforeEducation);
    TitlesSection(EducationTitle, body);
  }

  /** The headings in document order: Summary, Skills, Experience, Projects
      only if there is a projects body, Education, Achievements only if there
      is an achievements body. */
  lemma LayoutTitles(sp: Spacing, top: string, summary: string, skills: string, experience: string,
                     projects: Option<string>, education: string, achievements: Option<string>)
    ensures Titles(Layout(sp, top, summary, skills, experience, projects, education, achievements))
            == [SummaryTitle, SkillsTitle, ExperienceTitle]
               + (if projects.Some? then [ProjectsTitle] else [])
               + [EducationTitle]
               + (if achievements.Some? then [AchievementsTitle] else [])
  {
    var a := OpeningPart(sp, top, summary, skills, experience);
    var b, c := OptionalPart(sp, ProjectsTitle, projects), EducationPart(sp, education);
    var d := OptionalPart(sp, AchievementsTitle, achievements);
    TitlesAppend(a + b + c + d, [DocumentEnd]);
    TitlesAppend(a + b + c, d);
    TitlesAppend(a + b, c);
    TitlesAppend(a, b);
    OpeningTitles(sp, top, summary, skills, experience);
    OptionalTitles(sp, ProjectsTitle, projects);
    EducationTitles(sp, education);
    OptionalTitles(sp, AchievementsTitle, achievements);
    TitlesRaw(DocumentEnd.text);
  }

  /** The Projects heading is there iff there is a projects body, and likewise Achievements. */
  lemma OptionalHeadings(sp: Spacing, top: string, summary: string, skills: string, experience: string,
                         projects: Option<string>, education: string, achievements: Option<string>)
    ensures ProjectsTitle in Titles(Layout(sp, top, summary, skills, experience, projects, education, achievements))
            <==> projects.Some?
    ensures AchievementsTitle in Titles(Layout(sp, top, summary, skills, experience, projects, education, achievements))
            <==> achievements.Some?
  {
    LayoutTitles(sp, top, summary, skills, experience, projects, education, achievements);
  }
}
