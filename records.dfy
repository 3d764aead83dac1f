/**
 * The five document kinds of the portfolio backend (its Mongoose schemas),
 * the request bodies that create and update them, and the orders the list
 * routes sort them by.
 *
 * Bodies are taken after Mongoose has cast them to the schema: every path
 * has its schema type, keys outside the schema are gone (strict mode), and
 * an absent key is `None`. A body may name `userId`, as a client is free to
 * send it; what the routes do with it is in the `Server` module.
 */
module Records {
  import opened Wrappers
  import Strings
  import Seqs

  /** Document identifiers (ObjectIds); the `userId` of a document is one too. */
  type ObjectId = nat

  /** A document of an owned collection: `_id`, the owner reference `userId`, and the rest. */
  datatype Doc<R> = Doc(id: ObjectId, userId: ObjectId, data: R)

  /** The `role` enum, 'admin' or 'user'. */
  datatype Role = Admin | UserRole

  datatype User = User(id: ObjectId, username: string, email: string, password: string, role: Role)

  /** Mongoose's `required` on a String path: the value is not the empty string. */
  predicate Present(s: string) {
    s != ""
  }

  /** The account `new User({username, email, password})` saves; None when validation fails. */
  function NewUser(id: ObjectId, username: string, email: string, hashed: string): (r: Option<User>)
    ensures r.Some? <==> Present(username) && Present(email) && Present(hashed)
    ensures r.Some? ==> r.value.role == UserRole && r.value.password == hashed
  {
    if Present(username) && Present(email) && Present(hashed)
    then Some(User(id, username, email, hashed, UserRole))
    else None
  }

  // ---------------------------------------------------------------- PersonalInfo

  /** The optional-string paths of the PersonalInfo schema. */
  const InfoTextPaths: set<string> :=
    {"name", "title", "bio", "email", "phone", "location", "linkedin", "twitter", "github", "profileImage"}

  /** A PersonalInfo document's fields: the string paths that are set, and `updatedAt`. */
  datatype Info = Info(text: map<string, string>, updatedAt: int)

  datatype InfoBody = InfoBody(userId: Option<ObjectId>, text: map<string, string>, updatedAt: Option<int>)

  /** The part of a body's string fields strict mode keeps. */
  function SchemaText(m: map<string, string>): (r: map<string, string>)
    ensures r.Keys == m.Keys * InfoTextPaths
    ensures forall k :: k in r ==> r[k] == m[k]
  {
    map k | k in m && k in InfoTextPaths :: m[k]
  }

  /** The PersonalInfo registration creates for a new account. */
  function Placeholder(username: string, email: string, now: int): (r: Info)
    ensures r.text.Keys == {"name", "title", "bio", "email"} && r.updatedAt == now
    ensures r.text["name"] == username && r.text["email"] == email
    ensures r.text["title"] == "Software Developer" && r.text["bio"] == "Welcome to my portfolio!"
    ensures Present(username) && Present(email) ==> InfoValid(r)
  {
    Info(map["name" := username, "title" := "Software Developer", "bio" := "Welcome to my portfolio!", "email" := email], now)
  }

  /** Every required path of PersonalInfo is set and non-empty. */
  predicate InfoValid(i: Info) {
    forall k :: k in {"name", "title", "bio", "email"} ==> k in i.text && Present(i.text[k])
  }

  /** An update applied to a PersonalInfo: the body's paths replace the stored ones. */
  function MergeInfo(i: Info, b: InfoBody): (r: Info)
    ensures r.text.Keys == i.text.Keys + (b.text.Keys * InfoTextPaths)
    ensures forall k :: k in r.text ==> r.text[k] == if k in b.text && k in InfoTextPaths then b.text[k] else i.text[k]
    ensures r.updatedAt == b.updatedAt.GetOr(i.updatedAt)
  {
    Info(i.text + SchemaText(b.text), b.updatedAt.GetOr(i.updatedAt))
  }

  // ---------------------------------------------------------------- Project

  datatype Project = Project(
    title: string, description: string, techStack: seq<string>,
    liveDemo: Option<string>, github: Option<string>, image: Option<string>,
    featured: bool, createdAt: int, updatedAt: int)

  datatype ProjectBody = ProjectBody(
    userId: Option<ObjectId>,
    title: Option<string>, description: Option<string>, techStack: Option<seq<string>>,
    liveDemo: Option<string>, github: Option<string>, image: Option<string>,
    featured: Option<bool>, createdAt: Option<int>, updatedAt: Option<int>)

  /** The body's paths replace the stored ones; the others stay. */
  function MergeProject(p: Project, b: ProjectBody): (r: Project)
    ensures r.title == (if b.title.Some? then b.title.value else p.title)
    ensures r.description == (if b.description.Some? then b.description.value else p.description)
    ensures r.techStack == (if b.techStack.Some? then b.techStack.value else p.techStack)
    ensures r.liveDemo == (if b.liveDemo.Some? then b.liveDemo else p.liveDemo)
    ensures r.github == (if b.github.Some? then b.github else p.github)
    ensures r.image == (if b.image.Some? then b.image else p.image)
    ensures r.featured == (if b.featured.Some? then b.featured.value else p.featured)
    ensures r.createdAt == (if b.createdAt.Some? then b.createdAt.value else p.createdAt)
    ensures r.updatedAt == (if b.updatedAt.Some? then b.updatedAt.value else p.updatedAt)
  {
    Project(
      b.title.GetOr(p.title), b.description.GetOr(p.description), b.techStack.GetOr(p.techStack),
      b.liveDemo.Or(p.liveDemo), b.github.Or(p.github), b.image.Or(p.image),
      b.featured.GetOr(p.featured), b.createdAt.GetOr(p.createdAt), b.updatedAt.GetOr(p.updatedAt))
  }

  /** The schema defaults of a new Project; required paths start empty. */
  function ProjectDefaults(now: int): Project {
    Project("", "", [], None, None, None, false, now, now)
  }

  predicate ProjectValid(p: Project) {
    Present(p.title) && Present(p.description)
  }

  /** The project `new Project(body).save()` stores, or None when validation fails. */
  function NewProject(b: ProjectBody, now: int): (r: Option<Project>)
    ensures r.Some? <==> b.title.Some? && Present(b.title.value) && b.description.Some? && Present(b.description.value)
    ensures r.Some? ==> r.value == MergeProject(ProjectDefaults(now), b)
  {
    var p := MergeProject(ProjectDefaults(now), b);
    if ProjectValid(p) then Some(p) else None
  }

  // ---------------------------------------------------------------- Experience

  datatype Experience = Experience(
    title: string, company: string, period: string, description: string,
    current: bool, order: int, createdAt: int)

  datatype ExperienceBody = ExperienceBody(
    userId: Option<ObjectId>,
    title: Option<string>, company: Option<string>, period: Option<string>, description: Option<string>,
    current: Option<bool>, order: Option<int>, createdAt: Option<int>)

  /** The body's paths replace the stored ones; the others stay. */
  function MergeExperience(e: Experience, b: ExperienceBody): (r: Experience)
    ensures r.title == (if b.title.Some? then b.title.value else e.title)
    ensures r.company == (if b.company.Some? then b.company.value else e.company)
    ensures r.period == (if b.period.Some? then b.period.value else e.period)
    ensures r.description == (if b.description.Some? then b.description.value else e.description)
    ensures r.current == (if b.current.Some? then b.current.value else e.current)
    ensures r.order == (if b.order.Some? then b.order.value else e.order)
    ensures r.createdAt == (if b.createdAt.Some? then b.createdAt.value else e.createdAt)
  {
    Experience(
      b.title.GetOr(e.title), b.company.GetOr(e.company), b.period.GetOr(e.period),
      b.description.GetOr(e.description), b.current.GetOr(e.current), b.order.GetOr(e.order),
      b.createdAt.GetOr(e.createdAt))
  }

  function ExperienceDefaults(now: int): Experience {
    Experience("", "", "", "", false, 0, now)
  }

  predicate ExperienceValid(e: Experience) {
    Present(e.title) && Present(e.company) && Present(e.period) && Present(e.description)
  }

  function NewExperience(b: ExperienceBody, now: int): (r: Option<Experience>)
    ensures r.Some? <==>
      && b.title.Some? && Present(b.title.value) && b.company.Some? && Present(b.company.value)
      && b.period.Some? && Present(b.period.value) && b.description.Some? && Present(b.description.value)
    ensures r.Some? ==> r.value == MergeExperience(ExperienceDefaults(now), b)
  {
    var e := MergeExperience(ExperienceDefaults(now), b);
    if ExperienceValid(e) then Some(e) else None
  }

  // ---------------------------------------------------------------- Skill

  datatype Skill = Skill(name: string, category: string, proficiency: int)

  datatype SkillBody = SkillBody(
    userId: Option<ObjectId>, name: Option<string>, category: Option<string>, proficiency: Option<int>)

  const Categories: set<string> := {"frontend", "backend", "database", "tools", "other"}

  /** The body's paths replace the stored ones; the others stay. */
  function MergeSkill(s: Skill, b: SkillBody): (r: Skill)
    ensures r.name == (if b.name.Some? then b.name.value else s.name)
    ensures r.category == (if b.category.Some? then b.category.value else s.category)
    ensures r.proficiency == (if b.proficiency.Some? then b.proficiency.value else s.proficiency)
  {
    Skill(b.name.GetOr(s.name), b.category.GetOr(s.category), b.proficiency.GetOr(s.proficiency))
  }

  function SkillDefaults(): Skill {
    Skill("", "other", 5)
  }

  /** Required name, the category enum, and proficiency between `min` 1 and `max` 10. */
  predicate SkillValid(s: Skill) {
    Present(s.name) && s.category in Categories && 1 <= s.proficiency <= 10
  }

  function NewSkill(b: SkillBody): (r: Option<Skill>)
    ensures r.Some? <==>
      && b.name.Some? && Present(b.name.value)
      && b.category.GetOr("other") in Categories
      && 1 <= b.proficiency.GetOr(5) <= 10
    ensures r.Some? ==> r.value == MergeSkill(SkillDefaults(), b)
  {
    var s := MergeSkill(SkillDefaults(), b);
    if SkillValid(s) then Some(s) else None
  }

  // ---------------------------------------------------------------- sort orders

  /** `sort({createdAt: -1})`. */
  predicate NewestFirst(a: Doc<Project>, b: Doc<Project>) {
    a.data.createdAt >= b.data.createdAt
  }

  /** `sort({order: -1, createdAt: -1})`. */
  predicate ExperienceOrder(a: Doc<Experience>, b: Doc<Experience>) {
    a.data.order > b.data.order || (a.data.order == b.data.order && a.data.createdAt >= b.data.createdAt)
  }

  /** `sort({category: 1, name: 1})`. */
  predicate SkillOrder(a: Doc<Skill>, b: Doc<Skill>) {
    || Strings.LexLt(a.data.category, b.data.category)
    || (a.data.category == b.data.category && Strings.LexLe(a.data.name, b.data.name))
  }

  lemma NewestFirstIsPreorder()
    ensures Seqs.TotalPreorder(NewestFirst)
  {
  }

  lemma ExperienceOrderIsPreorder()
    ensures Seqs.TotalPreorder(ExperienceOrder)
  {
  }

  /** Category then name is total and transitive, ties being equal category and name. */
  lemma SkillOrderIsPreorder()
    ensures Seqs.TotalPreorder(SkillOrder)
  {
    forall x, y ensures SkillOrder(x, y) || SkillOrder(y, x) {
      Strings.LexLeTotal(x.data.category, y.data.category);
      Strings.LexLeTotal(x.data.name, y.data.name);
    }
    forall x, y, z | SkillOrder(x, y) && SkillOrder(y, z) ensures SkillOrder(x, z) {
      var a, b, c := x.data.category, y.data.category, z.data.category;
      if a != c {
        if a != b && b != c {
          Strings.LexLeTransitive(a, b, c);
        } else if a == b {
          assert Strings.LexLt(b, c);
        } else {
          assert Strings.LexLt(a, b);
        }
      } else if a != b {
        Strings.LexLeAntisymmetric(a, b);
      } else {
        Strings.LexLeTransitive(x.data.name, y.data.name, z.data.name);
      }
    }
  }
}
