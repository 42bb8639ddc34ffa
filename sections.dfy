/** A generated document as an ordered list of fragments: literal text and
    `\section{...}` headings. Rendering concatenates them; `Titles` lists the
    headings in document order, which is what the section-order and
    section-omission lemmas are stated about. */
module Sections {

  /** The fixed text of a template's preamble (packages, page geometry,
      environment definitions) before and after the lines that carry the
      CV owner's name. Its content is not interpreted here. */
  datatype FixedText = FixedText(head: string, tail: string)

  /** The template's six section headings. */
  datatype Title = SummaryTitle | SkillsTitle | ExperienceTitle | ProjectsTitle | EducationTitle | AchievementsTitle

  function TitleText(t: Title): string {
    match t
    case SummaryTitle => "Summary"
    case SkillsTitle => "Skills"
    case ExperienceTitle => "Experience"
    case ProjectsTitle => "Projects"
    case EducationTitle => "Education"
    case AchievementsTitle => "Achievements"
  }

  datatype Fragment = Raw(text: string) | Heading(title: Title)

  function RenderFragment(f: Fragment): string {
    match f
    case Raw(t) => t
    case Heading(t) => "\\section{" + TitleText(t) + "}"
  }

  function Render(fs: seq<Fragment>): string {
    if fs == [] then "" else RenderFragment(fs[0]) + Render(fs[1..])
  }

  function Titles(fs: seq<Fragment>): seq<Title> {
    if fs == [] then []
    else (if fs[0].Heading? then [fs[0].title] else []) + Titles(fs[1..])
  }

  lemma {:induction false} TitlesAppend(a: seq<Fragment>, b: seq<Fragment>)
    ensures Titles(a + b) == Titles(a) + Titles(b)
  {
    if a == [] {
      assert a + b == b;
    } else {
      var head := if a[0].Heading? then [a[0].title] else [];
      assert (a + b)[0] == a[0];
      assert (a + b)[1..] == a[1..] + b;
      TitlesAppend(a[1..], b);
      assert Titles(a + b) == head + Titles(a[1..] + b);
      assert Titles(a) == head + Titles(a[1..]);
    }
  }

  /** A headed section: its heading, then its body text. */
  function Section(title: Title, body: string): seq<Fragment> {
    [Heading(title), Raw(body)]
  }

  lemma TitlesRaw(text: string)
    ensures Titles([Raw(text)]) == []
  {
    assert [Raw(text)][1..] == [];
  }

  lemma TitlesSection(title: Title, body: string)
    ensures Titles(Section(title, body)) == [title]
  {
    assert Section(title, body)[1..] == [Raw(body)];
    TitlesRaw(body);
  }
}
