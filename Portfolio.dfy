/** The form data the wizard collects and the server stores: personal
    details, a free-text bio, id-keyed lists of education, projects and
    achievements, social links and a creation timestamp. Optional string
    fields are kept as strings, empty when absent. */
module Portfolio {
  import opened Js

  datatype PersonalInfo = PersonalInfo(name: string, age: string, location: string, email: string, phone: string)

  datatype Education = Education(
    id: string, institution: string, degree: string, field: string,
    startYear: string, endYear: string, gpa: string)

  datatype Project = Project(
    id: string, name: string, description: string, technologies: seq<string>,
    githubUrl: string, liveUrl: string, imageUrl: string)

  datatype Achievement = Achievement(id: string, title: string, description: string, date: string, organization: string)

  datatype SocialLinks = SocialLinks(github: string, linkedin: string, twitter: string, website: string, other: string)

  datatype PortfolioData = PortfolioData(
    personalInfo: PersonalInfo,
    aboutMe: string,
    education: seq<Education>,
    projects: seq<Project>,
    achievements: seq<Achievement>,
    socialLinks: SocialLinks,
    generatedAt: string)

  const EmptyPersonalInfo := PersonalInfo("", "", "", "", "")

  const EmptySocialLinks := SocialLinks("", "", "", "", "")

  /** The JavaScript objects the records are at run time, as the server
      spreads them into template data and writes them to disk. */
  function PersonalInfoJs(p: PersonalInfo): JsValue {
    Obj(map["name" := Str(p.name), "age" := Str(p.age), "location" := Str(p.location),
            "email" := Str(p.email), "phone" := Str(p.phone)])
  }

  function EducationJs(e: Education): JsValue {
    Obj(map["id" := Str(e.id), "institution" := Str(e.institution), "degree" := Str(e.degree),
            "field" := Str(e.field), "startYear" := Str(e.startYear), "endYear" := Str(e.endYear),
            "gpa" := Str(e.gpa)])
  }

  function ProjectJs(p: Project): JsValue {
    Obj(map["id" := Str(p.id), "name" := Str(p.name), "description" := Str(p.description),
            "technologies" := Arr(Strs(p.technologies)), "githubUrl" := Str(p.githubUrl),
            "liveUrl" := Str(p.liveUrl), "imageUrl" := Str(p.imageUrl)])
  }

  function AchievementJs(a: Achievement): JsValue {
    Obj(map["id" := Str(a.id), "title" := Str(a.title), "description" := Str(a.description),
            "date" := Str(a.date), "organization" := Str(a.organization)])
  }

  function SocialLinksJs(s: SocialLinks): JsValue {
    Obj(map["github" := Str(s.github), "linkedin" := Str(s.linkedin), "twitter" := Str(s.twitter),
            "website" := Str(s.website), "other" := Str(s.other)])
  }

  function ProjectsJs(ps: seq<Project>): (r: seq<JsValue>)
    ensures |r| == |ps| && forall i :: 0 <= i < |ps| ==> r[i] == ProjectJs(ps[i])
  {
    seq(|ps|, i requires 0 <= i < |ps| => ProjectJs(ps[i]))
  }

  /** The own properties of a portfolio object, as `{...portfolioData}`
      copies them. */
  function PortfolioFields(d: PortfolioData): map<string, JsValue> {
    map[
      "personalInfo" := PersonalInfoJs(d.personalInfo),
      "aboutMe" := Str(d.aboutMe),
      "education" := Arr(seq(|d.education|, i requires 0 <= i < |d.education| => EducationJs(d.education[i]))),
      "projects" := Arr(ProjectsJs(d.projects)),
      "achievements" := Arr(seq(|d.achievements|, i requires 0 <= i < |d.achievements| => AchievementJs(d.achievements[i]))),
      "socialLinks" := SocialLinksJs(d.socialLinks),
      "generatedAt" := Str(d.generatedAt)]
  }
}
