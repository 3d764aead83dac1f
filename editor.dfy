/**
 * The portfolio page's in-browser editing: the component state (personal
 * info, the project list and the new-project form) and the four handlers
 * that change it. Projects are JavaScript objects, modelled as maps from
 * key to value; the id `Date.now()` supplies is a parameter.
 */
module Editor {
  import Strings
  import Seqs

  /** The values a project object holds: its numeric id, texts, and the tech-stack list. */
  datatype JsValue = Num(n: int) | Text(s: string) | Tags(tags: seq<string>)

  type JsObject = map<string, JsValue>

  /** The new-project form: every input is a string. */
  datatype ProjectForm = ProjectForm(
    title: string, description: string, techStack: string,
    liveDemo: string, github: string, image: string)

  const EmptyForm: ProjectForm := ProjectForm("", "", "", "", "", "")

  /** The picture a new project gets when the form's image is left empty. */
  const DefaultImage: string := "https://images.unsplash.com/photo-1517180102446-f3ece451e9d8?w=600&h=400&fit=crop"

  /** `{...o, [field]: value}`: `field` takes `value`, every other key keeps its value. */
  function SetField<V>(o: map<string, V>, field: string, value: V): (r: map<string, V>)
    ensures r.Keys == o.Keys + {field}
    ensures r[field] == value
    ensures forall k :: k in o && k != field ==> r[k] == o[k]
  {
    o[field := value]
  }

  // ---------------------------------------------------------------- tech stack

  /** `.map(tech => tech.trim())`. */
  function TrimAll(pieces: seq<string>): (r: seq<string>)
    ensures |r| == |pieces|
    ensures forall i :: 0 <= i < |r| ==> r[i] == Strings.Trim(pieces[i])
  {
    seq(|pieces|, i requires 0 <= i < |pieces| => Strings.Trim(pieces[i]))
  }

  /**
   * `value.split(',').map(tech => tech.trim())`: one tag per comma-separated
   * piece, blank pieces included, so the empty input gives `[""]`.
   */
  function ParseTechStack(s: string): (tags: seq<string>)
    ensures |tags| == Strings.Count(s, ',') + 1
    ensures forall i :: 0 <= i < |tags| ==> Strings.Trimmed(tags[i]) && ',' !in tags[i]
    ensures s == "" ==> tags == [""]
  {
    var pieces := Strings.Split(s, ',');
    assert forall i :: 0 <= i < |pieces| ==> ',' !in Strings.Trim(pieces[i]) by {
      forall i | 0 <= i < |pieces| ensures ',' !in Strings.Trim(pieces[i]) {
        Strings.TrimKeepsOut(pieces[i], ',');
      }
    }
    TrimAll(pieces)
  }

  /** Comma-free pieces joined by commas parse to the pieces, each trimmed. */
  lemma ParsePieces(pieces: seq<string>)
    requires |pieces| >= 1
    requires forall i :: 0 <= i < |pieces| ==> ',' !in pieces[i]
    ensures ParseTechStack(Strings.Join(pieces, ',')) == TrimAll(pieces)
  {
    Strings.SplitJoin(pieces, ',');
  }

  /** Tags that are trimmed and comma-free survive a join and a parse unchanged. */
  lemma ParseJoin(tags: seq<string>)
    requires |tags| >= 1
    requires forall i :: 0 <= i < |tags| ==> Strings.Trimmed(tags[i]) && ',' !in tags[i]
    ensures ParseTechStack(Strings.Join(tags, ',')) == tags
  {
    ParsePieces(tags);
    var trimmed := TrimAll(tags);
    forall i | 0 <= i < |tags| ensures trimmed[i] == tags[i] {
      Strings.TrimOfTrimmed(tags[i]);
    }
    assert trimmed == tags;
  }

  /** Parsing what a parse produced, joined back, changes nothing: the parse is a normal form. */
  lemma ParseStable(s: string)
    ensures ParseTechStack(Strings.Join(ParseTechStack(s), ',')) == ParseTechStack(s)
  {
    ParseJoin(ParseTechStack(s));
  }

  // ---------------------------------------------------------------- project list

  /** `p.id === projectId`. */
  predicate HasId(p: JsObject, id: int) {
    "id" in p && p["id"] == Num(id)
  }

  /**
   * `prev.map(p => p.id === projectId ? {...p, [field]: value} : p)`: the list
   * keeps its length and order; a project with the id gets `field` set and
   * keeps its other keys, every other project is untouched.
   */
  function ReplaceById(ps: seq<JsObject>, id: int, field: string, v: JsValue): (r: seq<JsObject>)
    ensures |r| == |ps|
    ensures forall i :: 0 <= i < |ps| && !HasId(ps[i], id) ==> r[i] == ps[i]
    ensures forall i :: 0 <= i < |ps| && HasId(ps[i], id) ==>
      && r[i].Keys == ps[i].Keys + {field}
      && r[i][field] == v
      && forall k :: k in ps[i] && k != field ==> r[i][k] == ps[i][k]
  {
    seq(|ps|, i requires 0 <= i < |ps| => if HasId(ps[i], id) then SetField(ps[i], field, v) else ps[i])
  }

  /** Repeating an edit changes nothing more. */
  lemma ReplaceIdempotent(ps: seq<JsObject>, id: int, field: string, v: JsValue)
    ensures ReplaceById(ReplaceById(ps, id, field, v), id, field, v) == ReplaceById(ps, id, field, v)
  {
    var once := ReplaceById(ps, id, field, v);
    var twice := ReplaceById(once, id, field, v);
    forall i | 0 <= i < |ps| ensures twice[i] == once[i] {
      if HasId(ps[i], id) && HasId(once[i], id) {
        assert once[i] == ps[i][field := v];
        assert twice[i] == once[i][field := v];
      }
    }
  }

  /** An edit of a field other than `id` keeps which projects carry which id. */
  lemma ReplaceKeepsIds(ps: seq<JsObject>, id: int, field: string, v: JsValue, other: int)
    requires field != "id"
    ensures forall i :: 0 <= i < |ps| ==> (HasId(ReplaceById(ps, id, field, v)[i], other) <==> HasId(ps[i], other))
  {
  }

  function Keeps(id: int): JsObject -> bool {
    (p: JsObject) => !HasId(p, id)
  }

  /** `prev.filter(p => p.id !== projectId)`. */
  function RemoveById(ps: seq<JsObject>, id: int): (r: seq<JsObject>)
    ensures forall i :: 0 <= i < |r| ==> r[i] in ps && !HasId(r[i], id)
    ensures forall i :: 0 <= i < |ps| && !HasId(ps[i], id) ==> ps[i] in r
  {
    Seqs.FilterMembers(ps, Keeps(id));
    Seqs.Filter(ps, Keeps(id))
  }

  /** Deleting twice is deleting once. */
  lemma RemoveIdempotent(ps: seq<JsObject>, id: int)
    ensures RemoveById(RemoveById(ps, id), id) == RemoveById(ps, id)
  {
    Seqs.FilterIdempotent(ps, Keeps(id));
  }

  /** Deletion works piecewise, so the remaining projects keep their relative order. */
  lemma RemoveConcat(a: seq<JsObject>, b: seq<JsObject>, id: int)
    ensures RemoveById(a + b, id) == RemoveById(a, id) + RemoveById(b, id)
  {
    Seqs.FilterConcat(a, b, Keeps(id));
  }

  /** Deleting an id no project has leaves the list as it is. */
  lemma {:induction false} RemoveAbsent(ps: seq<JsObject>, id: int)
    requires forall i :: 0 <= i < |ps| ==> !HasId(ps[i], id)
    ensures RemoveById(ps, id) == ps
    decreases |ps|
  {
    if |ps| > 0 {
      RemoveAbsent(ps[1..], id);
      assert [ps[0]] + ps[1..] == ps;
    }
  }

  /** Deleting a project after editing it, other than its id, is deleting it. */
  lemma {:induction false} RemoveAfterReplace(ps: seq<JsObject>, id: int, field: string, v: JsValue)
    requires field != "id"
    ensures RemoveById(ReplaceById(ps, id, field, v), id) == RemoveById(ps, id)
    decreases |ps|
  {
    if |ps| > 0 {
      var r := ReplaceById(ps, id, field, v);
      assert r[1..] == ReplaceById(ps[1..], id, field, v);
      RemoveAfterReplace(ps[1..], id, field, v);
      assert HasId(r[0], id) <==> HasId(ps[0], id);
    }
  }

  /** `newProject.title && newProject.description`: both non-empty. */
  predicate CanAdd(form: ProjectForm) {
    form.title != "" && form.description != ""
  }

  /** `{...newProject, id, techStack: parsed, image: newProject.image || DefaultImage}`. */
  function NewProjectObject(form: ProjectForm, id: int): (p: JsObject)
    ensures p.Keys == {"title", "description", "techStack", "liveDemo", "github", "image", "id"}
    ensures HasId(p, id)
    ensures p["techStack"] == Tags(ParseTechStack(form.techStack))
    ensures p["image"] == Text(if form.image == "" then DefaultImage else form.image)
    ensures p["title"] == Text(form.title) && p["description"] == Text(form.description)
    ensures p["liveDemo"] == Text(form.liveDemo) && p["github"] == Text(form.github)
  {
    map[
      "title" := Text(form.title),
      "description" := Text(form.description),
      "techStack" := Tags(ParseTechStack(form.techStack)),
      "liveDemo" := Text(form.liveDemo),
      "github" := Text(form.github),
      "image" := Text(if form.image != "" then form.image else DefaultImage),
      "id" := Num(id)]
  }

  /** The component's state; the form inputs write `newProject` directly. */
  class PortfolioState {
    var personalInfo: map<string, string>
    var projects: seq<JsObject>
    var newProject: ProjectForm

    constructor (info: map<string, string>, ps: seq<JsObject>)
      ensures personalInfo == info && projects == ps && newProject == EmptyForm
    {
      personalInfo, projects, newProject := info, ps, EmptyForm;
    }

    /** `handlePersonalInfoEdit(field, value)`. */
    method EditPersonalInfo(field: string, value: string)
      modifies this
      ensures personalInfo == SetField(old(personalInfo), field, value)
      ensures projects == old(projects) && newProject == old(newProject)
    {
      personalInfo := SetField(personalInfo, field, value);
    }

    /** `handleProjectEdit(projectId, field, value)`: a tech-stack value is parsed first. */
    method EditProject(projectId: int, field: string, value: string)
      modifies this
      ensures field == "techStack" ==> projects == ReplaceById(old(projects), projectId, field, Tags(ParseTechStack(value)))
      ensures field != "techStack" ==> projects == ReplaceById(old(projects), projectId, field, Text(value))
      ensures personalInfo == old(personalInfo) && newProject == old(newProject)
    {
      var v := Text(value);
      if field == "techStack" {
        v := Tags(ParseTechStack(value));
      }
      projects := ReplaceById(projects, projectId, field, v);
    }

    /** `handleAddProject()` with `Date.now()` as `now`. */
    method AddProject(now: int)
      modifies this
      ensures !CanAdd(old(newProject)) ==> unchanged(this)
      ensures CanAdd(old(newProject)) ==>
        projects == old(projects) + [NewProjectObject(old(newProject), now)] && newProject == EmptyForm
      ensures personalInfo == old(personalInfo)
    {
      if CanAdd(newProject) {
        var project := NewProjectObject(newProject, now);
        projects := projects + [project];
        newProject := EmptyForm;
      }
    }

    /** `handleDeleteProject(projectId)`. */
    method DeleteProject(projectId: int)
      modifies this
      ensures projects == RemoveById(old(projects), projectId)
      ensures personalInfo == old(personalInfo) && newProject == old(newProject)
    {
      projects := RemoveById(projects, projectId);
    }
  }
}
