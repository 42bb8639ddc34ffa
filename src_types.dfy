/** The CV record of `src/types/index.ts`, used by the generator in
    `src/utils`. It declares skills, achievements, education and projects
    exactly as `types/index.ts` does, so those are shared; its experience
    entries add a `website`, which JSON from the provider usually leaves out. */
module SrcTypes {
  import opened Wrappers
  import Types

  type Skills = Types.Skills
  type Achievement = Types.Achievement
  type Education = Types.Education
  type Project = Types.Project

  datatype Experience = Experience(
    title: string,
    company: string,
    website: Option<string>,
    start: string,
    end: string,
    bullets: Option<seq<string>>)

  datatype Cv = Cv(
    name: string,
    email: string,
    phone: string,
    github: string,
    linkedin: string,
    website: string,
    summary: string,
    skills: Skills,
    achievements: seq<Achievement>,
    experience: seq<Experience>,
    education: seq<Education>,
    projects: seq<Project>)

  datatype Payload = Payload(
    summary: Option<string>,
    skills: Option<Types.ProviderSkills>,
    experience: Option<seq<Experience>>)
}
