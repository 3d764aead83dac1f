/**
 * The portfolio backend's routes over an in-memory picture of its document
 * store: one method per route handler, each returning the status and JSON
 * body the handler sends and changing the collections as its store calls do.
 *
 * Password hashing and comparison, token signing and verification, and the
 * clock are parameters. Store failures (the `catch` that answers 500 with
 * the driver's message) are outside the model; a failed validation on
 * `save` is inside it, as the 500 it produces.
 */
module Server {
  import opened Wrappers
  import Seqs
  import Strings
  import opened Records
  import opened Auth
  import opened Collection

  /** The account view login returns: never the password. */
  datatype UserView = UserView(id: ObjectId, username: string, email: string)

  /** The JSON bodies the routes send. */
  datatype Body =
    | Message(message: string)
    | ErrorDetail(message: string, error: string)
    | Session(token: string, user: UserView)
    | InfoDoc(info: Doc<Info>)
    | ProjectDoc(project: Doc<Project>)
    | ExperienceDoc(entry: Doc<Experience>)
    | SkillDoc(skill: Doc<Skill>)
    | ProjectList(projects: seq<Doc<Project>>)
    | ExperienceList(experience: seq<Doc<Experience>>)
    | SkillList(skills: seq<Doc<Skill>>)
    | PortfolioData(personalInfo: Option<Doc<Info>>, projects: seq<Doc<Project>>,
                    experience: seq<Doc<Experience>>, skills: seq<Doc<Skill>>)
    | FileUrl(url: string)

  datatype Response = Response(status: nat, body: Body)

  /** The answer of a validation failure on `save`. */
  const ServerError: Response := Response(500, Message("Server error"))

  /** Login's single answer for an unknown email and for a wrong password alike. */
  const InvalidCredentials: Response := Response(400, Message("Invalid credentials"))

  /** `findOne({$or: [{email}, {username}]})` finds something. */
  predicate Taken(users: seq<User>, username: string, email: string) {
    exists u :: u in users && (u.email == email || u.username == username)
  }

  /** No two accounts share a username or an email. */
  ghost predicate AccountsDistinct(users: seq<User>) {
    forall i, j :: 0 <= i < j < |users| ==> users[i].username != users[j].username && users[i].email != users[j].email
  }

  /** An account whose username and email the duplicate lookup does not find keeps the accounts distinct. */
  lemma NotTakenKeepsDistinct(users: seq<User>, u: User)
    requires AccountsDistinct(users) && !Taken(users, u.username, u.email)
    ensures AccountsDistinct(users + [u])
  {
    var all := users + [u];
    forall i, j | 0 <= i < j < |all| ensures all[i].username != all[j].username && all[i].email != all[j].email {
      if j == |users| {
        assert all[i] in users;
      } else {
        assert all[i] == users[i] && all[j] == users[j];
      }
    }
  }

  /** The update a project PUT sends: the body, with `updatedAt` forced to now after it. */
  function ProjectMerge(body: ProjectBody, now: int): Project -> Project {
    (p: Project) => MergeProject(p, body.(updatedAt := Some(now)))
  }

  /** A project update is the body's merge with `updatedAt` set to now, whatever the body says about it. */
  lemma ProjectMergeStampsNow(body: ProjectBody, now: int, p: Project)
    ensures ProjectMerge(body, now)(p) == MergeProject(p, body).(updatedAt := now)
    ensures ProjectMerge(body, now)(p).updatedAt == now
  {
  }

  /** The update an experience PUT sends: the body as it is. */
  function ExperienceMerge(body: ExperienceBody): Experience -> Experience {
    (e: Experience) => MergeExperience(e, body)
  }

  /** The update a skill PUT sends: the body as it is. */
  function SkillMerge(body: SkillBody): Skill -> Skill {
    (s: Skill) => MergeSkill(s, body)
  }

  /** The upload `fileFilter`: only `image/...` content types pass. */
  function AcceptsImage(mimetype: string): (ok: bool)
    ensures ok <==> |mimetype| >= 6 && mimetype == "image/" + mimetype[6..]
  {
    var ok := Strings.StartsWith(mimetype, "image/");
    assert ok ==> mimetype == mimetype[..6] + mimetype[6..];
    assert |mimetype| >= 6 && mimetype == "image/" + mimetype[6..] ==> mimetype[..6] == "image/";
    ok
  }

  /** Every subtype of `image/` passes the filter; the check is case-sensitive. */
  lemma ImageTypesAccepted(subtype: string)
    ensures AcceptsImage("image/" + subtype)
    ensures !AcceptsImage("Image/" + subtype)
  {
    assert ("image/" + subtype)[6..] == subtype;
    assert ("Image/" + subtype)[0] == 'I';
  }

  /**
   * POST /api/upload: the gate, then the file filter (whose error reaches the
   * error middleware as a 500), then the handler's missing-file check. `file`
   * is the content type of the uploaded part, `url` the address the handler
   * builds for the stored file.
   */
  function Upload(header: Option<string>, jwt: Jwt, file: Option<string>, url: string): (r: Response)
    ensures Authenticate(header, jwt).Denied? ==>
      r == Response(Authenticate(header, jwt).status, Message(Authenticate(header, jwt).message))
    ensures Authenticate(header, jwt).Admitted? && file.Some? && !AcceptsImage(file.value) ==>
      r == Response(500, ErrorDetail("Something went wrong", "Only image files are allowed"))
    ensures Authenticate(header, jwt).Admitted? && file.None? ==> r == Response(400, Message("No file uploaded"))
    ensures r.status == 200 <==> Authenticate(header, jwt).Admitted? && file.Some? && AcceptsImage(file.value)
    ensures r.status == 200 ==> r.body == FileUrl(url)
  {
    match Authenticate(header, jwt)
    case Denied(status, message) => Response(status, Message(message))
    case Admitted(_) =>
      if file.Some? && !AcceptsImage(file.value) then Response(500, ErrorDetail("Something went wrong", "Only image files are allowed"))
      else if file.None? then Response(400, Message("No file uploaded"))
      else Response(200, FileUrl(url))
  }

  /** The document store and the routes that use it. */
  class Backend {
    var users: seq<User>
    var infos: seq<Doc<Info>>
    var projects: seq<Doc<Project>>
    var experience: seq<Doc<Experience>>
    var skills: seq<Doc<Skill>>
    /** The next ObjectId the store hands out. */
    var nextId: ObjectId

    ghost predicate Valid()
      reads this
    {
      && AccountsDistinct(users)
      && IdsBelow(projects, nextId) && IdsDistinct(projects)
      && IdsBelow(experience, nextId) && IdsDistinct(experience)
      && IdsBelow(skills, nextId) && IdsDistinct(skills)
    }

    constructor ()
      ensures Valid()
      ensures users == [] && infos == [] && projects == [] && experience == [] && skills == []
    {
      users, infos, projects, experience, skills := [], [], [], [], [];
      nextId := 0;
    }

    // ------------------------------------------------------------ auth routes

    /** POST /api/auth/register. */
    method Register(username: string, email: string, password: string, hash: string -> string, now: int)
      returns (r: Response)
      requires Valid()
      modifies this
      ensures Valid()
      ensures projects == old(projects) && experience == old(experience) && skills == old(skills)
      ensures Taken(old(users), username, email) ==>
        r == Response(400, Message("User already exists")) && unchanged(this)
      ensures !Taken(old(users), username, email) ==>
        match NewUser(old(nextId), username, email, hash(password))
        case None => r == ServerError && unchanged(this)
        case Some(u) =>
          && users == old(users) + [u]
          && infos == old(infos) + [Doc(old(nextId) + 1, u.id, Placeholder(username, email, now))]
          && nextId == old(nextId) + 2
          && r == Response(201, Message("User created successfully"))
    {
      var existing := Seqs.FindFirst(users, (u: User) => u.email == email || u.username == username);
      if existing.Some? {
        assert users[existing.value] in users;
        return Response(400, Message("User already exists"));
      }
      assert !Taken(users, username, email) by {
        forall u | u in users ensures !(u.email == email || u.username == username) {
          var k :| 0 <= k < |users| && users[k] == u;
        }
      }
      var hashed := hash(password);
      var user := NewUser(nextId, username, email, hashed);
      if user.None? {
        return ServerError;
      }
      users := users + [user.value];
      var info := Doc(nextId + 1, user.value.id, Placeholder(username, email, now));
      // The placeholder has every required path, so its save cannot fail.
      assert InfoValid(info.data);
      infos := infos + [info];
      nextId := nextId + 2;
      r := Response(201, Message("User created successfully"));
    }

    /** POST /api/auth/login. */
    method Login(email: string, password: string, compare: (string, string) -> bool, jwt: Jwt) returns (r: Response)
      requires Valid()
      ensures r.status == 200 <==> exists u :: u in users && u.email == email && compare(password, u.password)
      ensures r.status != 200 ==> r == InvalidCredentials
      ensures forall u :: u in users && u.email == email && compare(password, u.password) ==>
        r == Response(200, Session(jwt.sign(Claims(u.id, u.email), jwt.Secret(), TokenLifetime),
                                   UserView(u.id, u.username, u.email)))
    {
      var found := Seqs.FindFirst(users, (u: User) => u.email == email);
      if found.None? {
        return InvalidCredentials;
      }
      var user := users[found.value];
      if !compare(password, user.password) {
        return InvalidCredentials;
      }
      var token := jwt.sign(Claims(user.id, user.email), jwt.Secret(), TokenLifetime);
      r := Response(200, Session(token, UserView(user.id, user.username, user.email)));
    }

    /** Registration followed by login with the same password succeeds, for the new account. */
    method RegisterThenLogin(username: string, email: string, password: string, hash: string -> string,
                             compare: (string, string) -> bool, jwt: Jwt, now: int) returns (r: Response)
      requires Valid() && !Taken(users, username, email)
      requires username != "" && email != "" && hash(password) != ""
      requires compare(password, hash(password))
      modifies this
      ensures Valid()
      ensures r == Response(200, Session(jwt.sign(Claims(old(nextId), email), jwt.Secret(), TokenLifetime),
                                         UserView(old(nextId), username, email)))
    {
      var registered := Register(username, email, password, hash, now);
      r := Login(email, password, compare, jwt);
      assert users[|users| - 1] in users;
    }

    // ------------------------------------------------------------ personal info

    /** GET /api/personal-info?userId=... */
    method GetPersonalInfo(userId: ObjectId) returns (r: Response)
      ensures r.status == 200 <==> exists d :: d in infos && d.userId == userId
      ensures r.status != 200 ==> r == Response(404, Message("Personal info not found"))
      ensures r.status != 404 ==> r.status == 200 && r.body.InfoDoc? && r.body.info in infos && r.body.info.userId == userId
      ensures r.status != 404 ==> Some(r.body.info) == FirstOwned(infos, userId)
    {
      var found := FirstOwned(infos, userId);
      if found.None? {
        return Response(404, Message("Personal info not found"));
      }
      r := Response(200, InfoDoc(found.value));
    }

    /** PUT /api/personal-info. */
    method PutPersonalInfo(header: Option<string>, jwt: Jwt, body: InfoBody, now: int) returns (r: Response)
      requires Valid()
      modifies this
      ensures Valid()
      ensures users == old(users) && projects == old(projects) && experience == old(experience) && skills == old(skills)
      ensures match Authenticate(header, jwt)
        case Denied(status, message) => r == Response(status, Message(message)) && unchanged(this)
        case Admitted(caller) =>
          var (docs, doc) := Upsert(old(infos), caller.userId, body, now, old(nextId));
          infos == docs && nextId == old(nextId) + 1 && r == Response(200, InfoDoc(doc))
    {
      var gate := Authenticate(header, jwt);
      if gate.Denied? {
        return Response(gate.status, Message(gate.message));
      }
      var (docs, doc) := Upsert(infos, gate.claims.userId, body, now, nextId);
      infos := docs;
      nextId := nextId + 1;
      r := Response(200, InfoDoc(doc));
    }

    // ------------------------------------------------------------ projects

    /** GET /api/projects?userId=... */
    method ListProjects(userId: ObjectId) returns (r: Response)
      ensures r.status == 200 && r.body.ProjectList?
      ensures Seqs.Sorted(r.body.projects, NewestFirst)
      ensures forall d :: d in r.body.projects <==> d in projects && d.userId == userId
      ensures forall d :: multiset(r.body.projects)[d] == if d.userId == userId then multiset(projects)[d] else 0
    {
      NewestFirstIsPreorder();
      ListingSpec(projects, userId, NewestFirst);
      r := Response(200, ProjectList(Listing(projects, userId, NewestFirst)));
    }

    /** POST /api/projects. */
    method CreateProject(header: Option<string>, jwt: Jwt, body: ProjectBody, now: int) returns (r: Response)
      requires Valid()
      modifies this
      ensures Valid()
      ensures users == old(users) && infos == old(infos) && experience == old(experience) && skills == old(skills)
      ensures match Authenticate(header, jwt)
        case Denied(status, message) => r == Response(status, Message(message)) && unchanged(this)
        case Admitted(caller) =>
          match NewProject(body, now)
          case None => r == ServerError && unchanged(this)
          case Some(p) =>
            var d := Doc(old(nextId), caller.userId, p);
            projects == old(projects) + [d] && nextId == old(nextId) + 1 && r == Response(201, ProjectDoc(d))
    {
      var gate := Authenticate(header, jwt);
      if gate.Denied? {
        return Response(gate.status, Message(gate.message));
      }
      var created := NewProject(body, now);
      if created.None? {
        return ServerError;
      }
      var d := Doc(nextId, gate.claims.userId, created.value);
      AppendKeepsIds(projects, nextId, d);
      projects := projects + [d];
      nextId := nextId + 1;
      r := Response(201, ProjectDoc(d));
    }

    /** PUT /api/projects/:id. */
    method UpdateProject(header: Option<string>, jwt: Jwt, id: ObjectId, body: ProjectBody, now: int) returns (r: Response)
      requires Valid()
      modifies this
      ensures Valid()
      ensures users == old(users) && infos == old(infos) && experience == old(experience) && skills == old(skills)
      ensures nextId == old(nextId)
      ensures match Authenticate(header, jwt)
        case Denied(status, message) => r == Response(status, Message(message)) && unchanged(this)
        case Admitted(caller) =>
          var (docs, updated) := UpdateScoped(old(projects), id, caller.userId, body.userId, ProjectMerge(body, now));
          && projects == docs
          && r == if updated.None? then Response(404, Message("Project not found")) else Response(200, ProjectDoc(updated.value))
    {
      var gate := Authenticate(header, jwt);
      if gate.Denied? {
        return Response(gate.status, Message(gate.message));
      }
      var (docs, updated) := UpdateScoped(projects, id, gate.claims.userId, body.userId, ProjectMerge(body, now));
      if updated.None? {
        return Response(404, Message("Project not found"));
      }
      UpdateKeepsIds(projects, nextId, id, gate.claims.userId, body.userId, ProjectMerge(body, now));
      projects := docs;
      r := Response(200, ProjectDoc(updated.value));
    }

    /** DELETE /api/projects/:id. */
    method DeleteProject(header: Option<string>, jwt: Jwt, id: ObjectId) returns (r: Response)
      requires Valid()
      modifies this
      ensures Valid()
      ensures users == old(users) && infos == old(infos) && experience == old(experience) && skills == old(skills)
      ensures nextId == old(nextId)
      ensures match Authenticate(header, jwt)
        case Denied(status, message) => r == Response(status, Message(message)) && unchanged(this)
        case Admitted(caller) =>
          var (docs, removed) := DeleteScoped(old(projects), id, caller.userId);
          && projects == docs
          && r == if removed.None? then Response(404, Message("Project not found"))
                  else Response(200, Message("Project deleted successfully"))
    {
      var gate := Authenticate(header, jwt);
      if gate.Denied? {
        return Response(gate.status, Message(gate.message));
      }
      var (docs, removed) := DeleteScoped(projects, id, gate.claims.userId);
      if removed.None? {
        return Response(404, Message("Project not found"));
      }
      DeleteKeepsIds(projects, nextId, id, gate.claims.userId);
      projects := docs;
      r := Response(200, Message("Project deleted successfully"));
    }

    // ------------------------------------------------------------ experience

    /** GET /api/experience?userId=... */
    method ListExperience(userId: ObjectId) returns (r: Response)
      ensures r.status == 200 && r.body.ExperienceList?
      ensures Seqs.Sorted(r.body.experience, ExperienceOrder)
      ensures forall d :: d in r.body.experience <==> d in experience && d.userId == userId
      ensures forall d :: multiset(r.body.experience)[d] == if d.userId == userId then multiset(experience)[d] else 0
    {
      ExperienceOrderIsPreorder();
      ListingSpec(experience, userId, ExperienceOrder);
      r := Response(200, ExperienceList(Listing(experience, userId, ExperienceOrder)));
    }

    /** POST /api/experience. */
    method CreateExperience(header: Option<string>, jwt: Jwt, body: ExperienceBody, now: int) returns (r: Response)
      requires Valid()
      modifies this
      ensures Valid()
      ensures users == old(users) && infos == old(infos) && projects == old(projects) && skills == old(skills)
      ensures match Authenticate(header, jwt)
        case Denied(status, message) => r == Response(status, Message(message)) && unchanged(this)
        case Admitted(caller) =>
          match NewExperience(body, now)
          case None => r == ServerError && unchanged(this)
          case Some(e) =>
            var d := Doc(old(nextId), caller.userId, e);
            experience == old(experience) + [d] && nextId == old(nextId) + 1 && r == Response(201, ExperienceDoc(d))
    {
      var gate := Authenticate(header, jwt);
      if gate.Denied? {
        return Response(gate.status, Message(gate.message));
      }
      var created := NewExperience(body, now);
      if created.None? {
        return ServerError;
      }
      var d := Doc(nextId, gate.claims.userId, created.value);
      AppendKeepsIds(experience, nextId, d);
      experience := experience + [d];
      nextId := nextId + 1;
      r := Response(201, ExperienceDoc(d));
    }

    /** PUT /api/experience/:id. */
    method UpdateExperience(header: Option<string>, jwt: Jwt, id: ObjectId, body: ExperienceBody) returns (r: Response)
      requires Valid()
      modifies this
      ensures Valid()
      ensures users == old(users) && infos == old(infos) && projects == old(projects) && skills == old(skills)
      ensures nextId == old(nextId)
      ensures match Authenticate(header, jwt)
        case Denied(status, message) => r == Response(status, Message(message)) && unchanged(this)
        case Admitted(caller) =>
          var (docs, updated) := UpdateScoped(old(experience), id, caller.userId, body.userId, ExperienceMerge(body));
          && experience == docs
          && r == if updated.None? then Response(404, Message("Experience not found")) else Response(200, ExperienceDoc(updated.value))
    {
      var gate := Authenticate(header, jwt);
      if gate.Denied? {
        return Response(gate.status, Message(gate.message));
      }
      var (docs, updated) := UpdateScoped(experience, id, gate.claims.userId, body.userId, ExperienceMerge(body));
      if updated.None? {
        return Response(404, Message("Experience not found"));
      }
      UpdateKeepsIds(experience, nextId, id, gate.claims.userId, body.userId, ExperienceMerge(body));
      experience := docs;
      r := Response(200, ExperienceDoc(updated.value));
    }

    /** DELETE /api/experience/:id. */
    method DeleteExperience(header: Option<string>, jwt: Jwt, id: ObjectId) returns (r: Response)
      requires Valid()
      modifies this
      ensures Valid()
      ensures users == old(users) && infos == old(infos) && projects == old(projects) && skills == old(skills)
      ensures nextId == old(nextId)
      ensures match Authenticate(header, jwt)
        case Denied(status, message) => r == Response(status, Message(message)) && unchanged(this)
        case Admitted(caller) =>
          var (docs, removed) := DeleteScoped(old(experience), id, caller.userId);
          && experience == docs
          && r == if removed.None? then Response(404, Message("Experience not found"))
                  else Response(200, Message("Experience deleted successfully"))
    {
      var gate := Authenticate(header, jwt);
      if gate.Denied? {
        return Response(gate.status, Message(gate.message));
      }
      var (docs, removed) := DeleteScoped(experience, id, gate.claims.userId);
      if removed.None? {
        return Response(404, Message("Experience not found"));
      }
      DeleteKeepsIds(experience, nextId, id, gate.claims.userId);
      experience := docs;
      r := Response(200, Message("Experience deleted successfully"));
    }

    // ------------------------------------------------------------ skills

    /** GET /api/skills?userId=... */
    method ListSkills(userId: ObjectId) returns (r: Response)
      ensures r.status == 200 && r.body.SkillList?
      ensures Seqs.Sorted(r.body.skills, SkillOrder)
      ensures forall d :: d in r.body.skills <==> d in skills && d.userId == userId
      ensures forall d :: multiset(r.body.skills)[d] == if d.userId == userId then multiset(skills)[d] else 0
    {
      SkillOrderIsPreorder();
      ListingSpec(skills, userId, SkillOrder);
      r := Response(200, SkillList(Listing(skills, userId, SkillOrder)));
    }

    /** POST /api/skills. */
    method CreateSkill(header: Option<string>, jwt: Jwt, body: SkillBody) returns (r: Response)
      requires Valid()
      modifies this
      ensures Valid()
      ensures users == old(users) && infos == old(infos) && projects == old(projects) && experience == old(experience)
      ensures match Authenticate(header, jwt)
        case Denied(status, message) => r == Response(status, Message(message)) && unchanged(this)
        case Admitted(caller) =>
          match NewSkill(body)
          case None => r == ServerError && unchanged(this)
          case Some(s) =>
            var d := Doc(old(nextId), caller.userId, s);
            skills == old(skills) + [d] && nextId == old(nextId) + 1 && r == Response(201, SkillDoc(d))
    {
      var gate := Authenticate(header, jwt);
      if gate.Denied? {
        return Response(gate.status, Message(gate.message));
      }
      var created := NewSkill(body);
      if created.None? {
        return ServerError;
      }
      var d := Doc(nextId, gate.claims.userId, created.value);
      AppendKeepsIds(skills, nextId, d);
      skills := skills + [d];
      nextId := nextId + 1;
      r := Response(201, SkillDoc(d));
    }

    /** PUT /api/skills/:id. */
    method UpdateSkill(header: Option<string>, jwt: Jwt, id: ObjectId, body: SkillBody) returns (r: Response)
      requires Valid()
      modifies this
      ensures Valid()
      ensures users == old(users) && infos == old(infos) && projects == old(projects) && experience == old(experience)
      ensures nextId == old(nextId)
      ensures match Authenticate(header, jwt)
        case Denied(status, message) => r == Response(status, Message(message)) && unchanged(this)
        case Admitted(caller) =>
          var (docs, updated) := UpdateScoped(old(skills), id, caller.userId, body.userId, SkillMerge(body));
          && skills == docs
          && r == if updated.None? then Response(404, Message("Skill not found")) else Response(200, SkillDoc(updated.value))
    {
      var gate := Authenticate(header, jwt);
      if gate.Denied? {
        return Response(gate.status, Message(gate.message));
      }
      var (docs, updated) := UpdateScoped(skills, id, gate.claims.userId, body.userId, SkillMerge(body));
      if updated.None? {
        return Response(404, Message("Skill not found"));
      }
      UpdateKeepsIds(skills, nextId, id, gate.claims.userId, body.userId, SkillMerge(body));
      skills := docs;
      r := Response(200, SkillDoc(updated.value));
    }

    /** DELETE /api/skills/:id. */
    method DeleteSkill(header: Option<string>, jwt: Jwt, id: ObjectId) returns (r: Response)
      requires Valid()
      modifies this
      ensures Valid()
      ensures users == old(users) && infos == old(infos) && projects == old(projects) && experience == old(experience)
      ensures nextId == old(nextId)
      ensures match Authenticate(header, jwt)
        case Denied(status, message) => r == Response(status, Message(message)) && unchanged(this)
        case Admitted(caller) =>
          var (docs, removed) := DeleteScoped(old(skills), id, caller.userId);
          && skills == docs
          && r == if removed.None? then Response(404, Message("Skill not found"))
                  else Response(200, Message("Skill deleted successfully"))
    {
      var gate := Authenticate(header, jwt);
      if gate.Denied? {
        return Response(gate.status, Message(gate.message));
      }
      var (docs, removed) := DeleteScoped(skills, id, gate.claims.userId);
      if removed.None? {
        return Response(404, Message("Skill not found"));
      }
      DeleteKeepsIds(skills, nextId, id, gate.claims.userId);
      skills := docs;
      r := Response(200, Message("Skill deleted successfully"));
    }

    // ------------------------------------------------------------ public aggregate

    /**
     * GET /api/portfolio/:userId: the four reads of the handler, which touch
     * disjoint collections, one after another.
     */
    method GetPortfolio(userId: ObjectId) returns (r: Response)
      ensures r.status == 200 && r.body.PortfolioData?
      ensures r.body.personalInfo.None? <==> forall d :: d in infos ==> d.userId != userId
      ensures r.body.personalInfo == FirstOwned(infos, userId)
      ensures Seqs.Sorted(r.body.projects, NewestFirst)
      ensures forall d :: multiset(r.body.projects)[d] == if d.userId == userId then multiset(projects)[d] else 0
      ensures Seqs.Sorted(r.body.experience, ExperienceOrder)
      ensures forall d :: multiset(r.body.experience)[d] == if d.userId == userId then multiset(experience)[d] else 0
      ensures Seqs.Sorted(r.body.skills, SkillOrder)
      ensures forall d :: multiset(r.body.skills)[d] == if d.userId == userId then multiset(skills)[d] else 0
      ensures (forall d :: d in projects ==> d.userId != userId) ==> r.body.projects == []
      ensures (forall d :: d in experience ==> d.userId != userId) ==> r.body.experience == []
      ensures (forall d :: d in skills ==> d.userId != userId) ==> r.body.skills == []
    {
      var info := FirstOwned(infos, userId);
      NewestFirstIsPreorder();
      ExperienceOrderIsPreorder();
      SkillOrderIsPreorder();
      ListingSpec(projects, userId, NewestFirst);
      ListingSpec(experience, userId, ExperienceOrder);
      ListingSpec(skills, userId, SkillOrder);
      var ps := Listing(projects, userId, NewestFirst);
      var es := Listing(experience, userId, ExperienceOrder);
      var ss := Listing(skills, userId, SkillOrder);
      if |ps| > 0 { assert ps[0] in ps; }
      if |es| > 0 { assert es[0] in es; }
      if |ss| > 0 { assert ss[0] in ss; }
      r := Response(200, PortfolioData(info, ps, es, ss));
    }
  }
}
