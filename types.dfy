/** The CV record of `types/index.ts`, which the API's generator uses.
    Fields that JSON from the provider may leave out, and that the generators
    test before use, are `Option`s: bullet lists and a project's link. */
module Types {
  import opened Wrappers

  /** The seven skill categories, each an ordered list (duplicates kept). */
  datatype Skills = Skills(
    languages: seq<string>,
    frontend: seq<string>,
    backend: seq<string>,
    aiMl: seq<string>,
    database: seq<string>,
    cloudDevOps: seq<string>,
    tools: seq<string>)

  datatype Achievement = Achievement(title: string, description: string)

  datatype Experience = Experience(
    title: string,
    company: string,
    start: string,
    end: string,
    bullets: Option<seq<string>>)

  datatype Education = Education(
    degree: string,
    school: string,
    start: string,
    end: string,
    bullets: Option<seq<string>>)

  datatype Project = Project(name: string, link: Option<string>, bullets: Option<seq<string>>)

  datatype Cv = Cv(
    name: string,
    email: string,
    phone: string,
    github: string,
    linkedin: string,
    website: string,
    summary: string,
    skills: Skills,
    achievements: seq<Achievement>,
    experience: seq<Experience>,
    education: seq<Education>,
    projects: seq<Project>)

  /** The keys of the `Skills` interface, in declaration order. */
  datatype Category = Languages | Frontend | Backend | AiMl | Database | CloudDevOps | Tools

  function CategoryIndex(c: Category): nat {
    match c
    case Languages => 0
    case Frontend => 1
    case Backend => 2
    case AiMl => 3
    case Database => 4
    case CloudDevOps => 5
    case Tools => 6
  }

  /** The category at a position of the declaration order. */
  function CategoryAt(i: nat): (c: Category)
    requires i < 7
    ensures CategoryIndex(c) == i
  {
    if i == 0 then Languages else if i == 1 then Frontend else if i == 2 then Backend
    else if i == 3 then AiMl else if i == 4 then Database else if i == 5 then CloudDevOps else Tools
  }

  lemma CategoryAtIndex(c: Category)
    ensures CategoryAt(CategoryIndex(c)) == c
  {
  }

  /** The interface's own property name for a category. */
  function CapitalKey(c: Category): string {
    match c
    case Languages => "Languages"
    case Frontend => "Frontend"
    case Backend => "Backend"
    case AiMl => "AI/ML"
    case Database => "Database"
    case CloudDevOps => "Cloud & DevOps"
    case Tools => "Tools"
  }

  function Get(s: Skills, c: Category): seq<string> {
    match c
    case Languages => s.languages
    case Frontend => s.frontend
    case Backend => s.backend
    case AiMl => s.aiMl
    case Database => s.database
    case CloudDevOps => s.cloudDevOps
    case Tools => s.tools
  }

  /** A provider's skills object: any keys, each an array or JSON `null` (`None`). */
  type ProviderSkills = map<string, Option<seq<string>>>

  /** The parts of `Partial<CV>` the generator reads; a missing or `null` field is `None`. */
  datatype Payload = Payload(
    summary: Option<string>,
    skills: Option<ProviderSkills>,
    experience: Option<seq<Experience>>)

  /** JavaScript truthiness of an optional string: present and non-empty. */
  predicate Truthy(o: Option<string>) {
    o.Some? && o.value != ""
  }
}
