/** The projects page: three blank projects on first show, add, remove and
    update by id, and the comma-separated technology field, shown as the
    tags joined by `", "` and parsed back on every keystroke. */
module ProjectsForm {
  import opened Text
  import opened Portfolio
  import opened ListEdit

  function ProjectId(p: Project): string {
    p.id
  }

  /** A project with only its id filled in. */
  function NewProject(id: string): (p: Project)
    ensures p.id == id && IsBlank(p)
  {
    Project(id, "", "", [], "", "", "")
  }

  predicate IsBlank(p: Project) {
    p.name == "" && p.description == "" && p.technologies == []
    && p.githubUrl == "" && p.liveUrl == "" && p.imageUrl == ""
  }

  /** The mount effect: an empty list becomes three blank projects with the
      given fresh ids; a non-empty list is left alone. */
  function InitialProjects(data: seq<Project>, id0: string, id1: string, id2: string): (r: seq<Project>)
    ensures data == [] ==> |r| == 3 && forall i :: 0 <= i < 3 ==> IsBlank(r[i])
    ensures data == [] ==> r[0].id == id0 && r[1].id == id1 && r[2].id == id2
    ensures data != [] ==> r == data
  {
    if |data| == 0 then [NewProject(id0), NewProject(id1), NewProject(id2)] else data
  }

  /** `addProject`: one blank project appended after the existing ones. */
  function AddProject(data: seq<Project>, id: string): (r: seq<Project>)
    ensures |r| == |data| + 1 && r[..|data|] == data
    ensures r[|data|].id == id && IsBlank(r[|data|])
  {
    data + [NewProject(id)]
  }

  /** `removeProject` */
  function RemoveProject(data: seq<Project>, id: string): (r: seq<Project>)
    ensures |r| <= |data|
    ensures forall i :: 0 <= i < |r| ==> r[i].id != id && r[i] in data
    ensures forall i :: 0 <= i < |data| && data[i].id != id ==> data[i] in r
  {
    RemoveById(data, ProjectId, id)
  }

  /** Removing a project works piece by piece, so survivors keep their
      order; an absent id changes nothing; and removing the project just
      added with a fresh id restores the list. */
  lemma RemoveProjectProperties(data: seq<Project>, more: seq<Project>, id: string, newId: string)
    requires forall i :: 0 <= i < |data| ==> data[i].id != newId
    ensures RemoveProject(data + more, id) == RemoveProject(data, id) + RemoveProject(more, id)
    ensures (forall i :: 0 <= i < |data| ==> data[i].id != id) ==> RemoveProject(data, id) == data
    ensures RemoveProject(AddProject(data, newId), newId) == data
  {
    RemoveByIdAppend(data, more, ProjectId, id);
    if forall i :: 0 <= i < |data| ==> data[i].id != id {
      RemoveAbsent(data, ProjectId, id);
    }
    AddThenRemove(data, NewProject(newId), ProjectId);
  }

  /** The fields `updateProject` is called with, and the value each gets. */
  datatype ProjectEdit =
    | SetId(id: string)
    | SetName(name: string)
    | SetDescription(description: string)
    | SetTechnologies(technologies: seq<string>)
    | SetGithubUrl(githubUrl: string)
    | SetLiveUrl(liveUrl: string)
    | SetImageUrl(imageUrl: string)

  /** `{ ...project, [field]: value }` */
  function ApplyEdit(p: Project, e: ProjectEdit): Project {
    match e
    case SetId(v) => p.(id := v)
    case SetName(v) => p.(name := v)
    case SetDescription(v) => p.(description := v)
    case SetTechnologies(v) => p.(technologies := v)
    case SetGithubUrl(v) => p.(githubUrl := v)
    case SetLiveUrl(v) => p.(liveUrl := v)
    case SetImageUrl(v) => p.(imageUrl := v)
  }

  /** `updateProject`: the projects with `id` get the edit, in place in the
      list; every other project, the length and the order stay. */
  function UpdateProject(data: seq<Project>, id: string, e: ProjectEdit): (r: seq<Project>)
    ensures |r| == |data|
    ensures forall i :: 0 <= i < |data| ==> r[i] == if data[i].id == id then ApplyEdit(data[i], e) else data[i]
  {
    UpdateById(data, ProjectId, id, p => ApplyEdit(p, e))
  }

  /** An edit other than the id keeps every id, so a later removal of the
      same id does not see it; updating an absent id changes nothing. */
  lemma UpdateProjectProperties(data: seq<Project>, id: string, e: ProjectEdit)
    requires !e.SetId?
    ensures RemoveProject(UpdateProject(data, id, e), id) == RemoveProject(data, id)
    ensures (forall i :: 0 <= i < |data| ==> data[i].id != id) ==> UpdateProject(data, id, e) == data
  {
    RemoveAfterUpdate(data, ProjectId, id, p => ApplyEdit(p, e));
    if forall i :: 0 <= i < |data| ==> data[i].id != id {
      UpdateAbsent(data, ProjectId, id, p => ApplyEdit(p, e));
    }
  }

  /** A tag the parser can produce: non-empty, without a comma, with no
      whitespace at either end. */
  predicate IsTag(t: string) {
    t != [] && ',' !in t && IsTrimmed(t)
  }

  predicate AllTags(tags: seq<string>) {
    forall i :: 0 <= i < |tags| ==> IsTag(tags[i])
  }

  /** `pieces.map(t => t.trim()).filter(t => t.length > 0)` */
  function TrimNonEmpty(pieces: seq<string>): (r: seq<string>)
    requires forall i :: 0 <= i < |pieces| ==> ',' !in pieces[i]
    ensures AllTags(r)
    ensures |r| <= |pieces|
  {
    if pieces == [] then []
    else
      var t := Trim(pieces[0]);
      TrimIsTrimmed(pieces[0]);
      var rest := TrimNonEmpty(pieces[1..]);
      if t == [] then rest else [t] + rest
  }

  lemma TrimIsTrimmed(s: string)
    ensures IsTrimmed(Trim(s)) && |Trim(s)| <= |s|
    ensures forall c :: c in Trim(s) ==> c in s
  {
    var a := TrimStart(s);
    var b := TrimEnd(a);
    if b != [] {
      assert b[0] == a[0];
    }
    TrimmedCharsKept(s, a, b);
  }

  lemma TrimmedCharsKept(s: string, a: string, b: string)
    requires |a| <= |s| && a == s[|s| - |a|..]
    requires |b| <= |a| && b == a[..|b|]
    ensures forall c :: c in b ==> c in s
  {
    forall c | c in b
      ensures c in s
    {
      var k :| 0 <= k < |b| && b[k] == c;
      assert a[k] == c;
      assert s[|s| - |a| + k] == c;
    }
  }

  /** `updateTechnologies`: the text split at commas, each piece trimmed,
      the empty pieces dropped. */
  function ParseTechnologies(text: string): (tags: seq<string>)
    ensures AllTags(tags)
  {
    TrimNonEmpty(Split(text, ','))
  }

  /** The technology field's text: `project.technologies.join(', ')` */
  function TechnologiesText(tags: seq<string>): (r: string)
    ensures tags == [] ==> r == []
    ensures |tags| == 1 ==> r == tags[0]
    ensures |tags| >= 2 ==> tags[0] + ", " <= r
  {
    Join(tags, ", ")
  }

  /** The tags after the first, each with the space the display puts
      before it. */
  function Spaced(tags: seq<string>): (r: seq<string>)
    ensures |r| == |tags|
    ensures forall i :: 0 <= i < |tags| ==> r[i] == " " + tags[i]
  {
    seq(|tags|, i requires 0 <= i < |tags| => " " + tags[i])
  }

  lemma {:induction false} JoinSpaced(tags: seq<string>)
    requires |tags| >= 1
    ensures Join(tags, ", ") == Join([tags[0]] + Spaced(tags[1..]), ",")
  {
    if |tags| > 1 {
      JoinSpaced(tags[1..]);
      var j := Join(tags[1..], ", ");
      assert tags[1..][0] == tags[1] && tags[1..][1..] == tags[2..];
      SpaceBeforeJoin(tags[1], Spaced(tags[2..]));
      assert [" " + tags[1]] + Spaced(tags[2..]) == Spaced(tags[1..]);
      var ps := [tags[0]] + Spaced(tags[1..]);
      assert ps[1..] == Spaced(tags[1..]);
      assert Join(ps, ",") == tags[0] + "," + (" " + j);
      assert tags[0] + ", " + j == tags[0] + "," + (" " + j);
    }
  }

  /** Putting a space in front of the first piece puts it in front of the
      joined text. */
  lemma SpaceBeforeJoin(t: string, rest: seq<string>)
    ensures Join([" " + t] + rest, ",") == " " + Join([t] + rest, ",")
  {
    if rest != [] {
      assert ([" " + t] + rest)[1..] == rest;
      assert ([t] + rest)[1..] == rest;
    }
  }

  lemma {:induction false} TrimNonEmptySpaced(tags: seq<string>)
    requires AllTags(tags)
    ensures TrimNonEmpty(Spaced(tags)) == tags
  {
    if tags != [] {
      var pieces := Spaced(tags);
      SpacedTag(tags[0]);
      assert pieces[1..] == Spaced(tags[1..]);
      TrimNonEmptyCons(pieces, tags[0]);
      TrimNonEmptySpaced(tags[1..]);
      assert [tags[0]] + tags[1..] == tags;
    }
  }

  /** A tag with one space in front trims back to the tag. */
  lemma SpacedTag(t: string)
    requires IsTag(t)
    ensures Trim(" " + t) == t
  {
    assert IsSpace(' ');
    assert [' '] == " ";
    assert " " + t + [] == " " + t;
    TrimPadded(" ", t, []);
  }

  /** A first piece that trims to a non-empty tag is kept, trimmed. */
  lemma TrimNonEmptyCons(pieces: seq<string>, t: string)
    requires forall i :: 0 <= i < |pieces| ==> ',' !in pieces[i]
    requires pieces != [] && Trim(pieces[0]) == t && t != []
    ensures TrimNonEmpty(pieces) == [t] + TrimNonEmpty(pieces[1..])
  {
  }

  lemma NoCommaInPieces(tags: seq<string>)
    requires AllTags(tags) && |tags| >= 1
    ensures forall i :: 0 <= i < |[tags[0]] + Spaced(tags[1..])| ==> ',' !in ([tags[0]] + Spaced(tags[1..]))[i]
  {
    var pieces := [tags[0]] + Spaced(tags[1..]);
    forall i | 0 <= i < |pieces|
      ensures ',' !in pieces[i]
    {
      if i > 0 {
        assert pieces[i] == " " + tags[i];
      }
    }
  }

  /** A tag in front of the pieces survives trimming unchanged. */
  lemma {:induction false} TrimNonEmptyTag(t: string, rest: seq<string>)
    requires IsTag(t)
    requires forall i :: 0 <= i < |rest| ==> ',' !in rest[i]
    ensures TrimNonEmpty([t] + rest) == [t] + TrimNonEmpty(rest)
  {
    var pieces := [t] + rest;
    assert pieces[0] == t && pieces[1..] == rest;
    assert [] + t + [] == t;
    TrimPadded([], t, []);
    TrimNonEmptyCons(pieces, t);
  }

  lemma TrimNonEmptyPieces(tags: seq<string>)
    requires AllTags(tags) && |tags| >= 1
    requires forall i :: 0 <= i < |[tags[0]] + Spaced(tags[1..])| ==> ',' !in ([tags[0]] + Spaced(tags[1..]))[i]
    ensures TrimNonEmpty([tags[0]] + Spaced(tags[1..])) == tags
  {
    var rest := Spaced(tags[1..]);
    assert forall i :: 0 <= i < |rest| ==> ',' !in rest[i] by {
      forall i | 0 <= i < |rest| ensures ',' !in rest[i] {
        assert rest[i] == ([tags[0]] + rest)[i + 1];
      }
    }
    TrimNonEmptyTag(tags[0], rest);
    TrimNonEmptySpaced(tags[1..]);
    assert [tags[0]] + tags[1..] == tags;
  }

  /** Showing well-formed tags and parsing the text back gives the same
      tags. */
  lemma {:induction false} ParseShownTechnologies(tags: seq<string>)
    requires AllTags(tags)
    ensures ParseTechnologies(TechnologiesText(tags)) == tags
  {
    if tags == [] {
      assert Split([], ',') == [[]];
      assert Trim([]) == [];
    } else {
      var pieces := [tags[0]] + Spaced(tags[1..]);
      JoinSpaced(tags);
      NoCommaInPieces(tags);
      SplitJoin(pieces, ',');
      TrimNonEmptyPieces(tags);
    }
  }

  /** Parsing is stable: re-showing and re-parsing parsed tags changes
      nothing. */
  lemma ParseTechnologiesIdempotent(text: string)
    ensures ParseTechnologies(TechnologiesText(ParseTechnologies(text))) == ParseTechnologies(text)
  {
    ParseShownTechnologies(ParseTechnologies(text));
  }

  /** The remove control is shown only while more than one project exists,
      so removing a project whose id is unique through it leaves at least one
      project, and the projects step stays valid. */
  predicate ShowRemoveControl(data: seq<Project>)
    ensures ShowRemoveControl(data) ==> forall id :: CountId(data, ProjectId, id) <= 1 ==> |RemoveProject(data, id)| >= 1
  {
    |data| > 1
  }
}
