/** The `/api/portfolio` routes over the directory of saved portfolios:
    save, list, fetch, update, delete, duplicate and search. The directory
    is a map from file name to what `JSON.parse` makes of the file, and its
    listing order is a parameter; the clock and the schema check are
    parameters too. */
module PortfolioRoute {
  import opened Wrappers
  import opened Js
  import opened Text
  import opened Portfolio
  import opened Sorting
  import GenerateRoute

  /** A saved file as the routes read it: its parsed content, or a file
      that cannot be read or parsed. */
  datatype Stored = Parsed(data: JsValue) | Unreadable

  type Store = map<string, Stored>

  datatype Reply = Reply(status: int, body: JsValue)

  /** A reply and the directory after the request. */
  datatype Outcome = Outcome(reply: Reply, files: Store)

  function Read(files: Store, name: string): Stored {
    if name in files then files[name] else Unreadable
  }

  function Failure(status: int, message: string): (r: Reply)
    ensures r.status == status && Prop(r.body, "error") == Some(Str(message))
  {
    Reply(status, Obj(map["error" := Str(message)]))
  }

  const NotFound := Failure(404, "Portfolio not found")

  /** What a saved portfolio is on disk. */
  function Saved(p: PortfolioData): JsValue {
    Obj(PortfolioFields(p))
  }

  /** The properties of a saved portfolio the routes read back. */
  lemma SavedFields(p: PortfolioData)
    ensures Prop(Saved(p), "personalInfo") == Some(PersonalInfoJs(p.personalInfo))
    ensures Prop(Saved(p), "aboutMe") == Some(Str(p.aboutMe))
    ensures Prop(Saved(p), "projects") == Some(Arr(ProjectsJs(p.projects)))
    ensures Prop(Saved(p), "generatedAt") == Some(Str(p.generatedAt))
    ensures Prop(PersonalInfoJs(p.personalInfo), "name") == Some(Str(p.personalInfo.name))
  {
  }

  // ----- save -----

  /** `POST /api/portfolio`: a body the schema accepts is written under a
      name made from the owner and the time; any other gets a 400 and
      nothing is written. */
  function Save(files: Store, body: JsValue, validate: JsValue -> Result<PortfolioData, JsValue>,
                iso: string, now: string): (r: Outcome)
    ensures validate(body).Err? ==> r == Outcome(Reply(400, Obj(map["error" := Str("Validation failed"), "details" := validate(body).error])), files)
    ensures validate(body).Ok? ==>
      var name := GenerateRoute.Filename(validate(body).value.personalInfo.name, iso) + ".json";
      r.reply.status == 201 && r.files == files[name := Parsed(Saved(validate(body).value))]
  {
    match validate(body)
    case Err(details) => Outcome(Reply(400, Obj(map["error" := Str("Validation failed"), "details" := details])), files)
    case Ok(p) =>
      var name := GenerateRoute.Filename(p.personalInfo.name, iso) + ".json";
      Outcome(Reply(201, Obj(map["message" := Str("Portfolio saved successfully"), "filename" := Str(name), "timestamp" := Str(now)])),
              files[name := Parsed(Saved(p))])
  }

  // ----- list -----

  /** One line of the listing. The fields are whatever the file holds, so
      they are JavaScript values. */
  datatype Summary = Summary(filename: string, name: JsValue, createdAt: JsValue, projectCount: JsValue)

  function ErrorSummary(filename: string): Summary {
    Summary(filename, Str("Error reading file"), Str("Unknown"), Num(0))
  }

  /** `name`, `createdAt` and `projectCount` of a parsed file whose
      `personalInfo` could be read, with their defaults. */
  function Describe(filename: string, data: JsValue, info: JsValue): Summary
    requires Prop(data, "generatedAt").Some? && Prop(data, "projects").Some?
  {
    Summary(filename,
            Or(OptProp(info, "name"), Str("Unknown")),
            Or(Prop(data, "generatedAt").value, Str("Unknown")),
            Or(OptProp(Prop(data, "projects").value, "length"), Num(0)))
  }

  /** A file's listing line: the error line when it cannot be read, parsed,
      or is `null` (reading `personalInfo` throws), and its fields with
      defaults otherwise. */
  function Summarize(filename: string, s: Stored): (r: Summary)
    ensures r.filename == filename
    ensures s.Unreadable? ==> r == ErrorSummary(filename)
    ensures s.Parsed? && (s.data.Null? || s.data.Undefined?) ==> r == ErrorSummary(filename)
    ensures s.Parsed? && !s.data.Obj? && !s.data.Null? && !s.data.Undefined? ==>
      r == Summary(filename, Str("Unknown"), Str("Unknown"), Num(0))
    ensures s.Parsed? && s.data.Obj? ==>
      var fields := s.data.fields;
      var name := if "personalInfo" in fields then OptProp(fields["personalInfo"], "name") else Undefined;
      && r.name == (if Truthy(name) then name else Str("Unknown"))
      && r.createdAt == (if "generatedAt" in fields && Truthy(fields["generatedAt"]) then fields["generatedAt"] else Str("Unknown"))
      && ("projects" !in fields ==> r.projectCount == Num(0))
      && ("projects" in fields && fields["projects"].Arr? ==> r.projectCount == Num(|fields["projects"].items|))
  {
    match s
    case Unreadable => ErrorSummary(filename)
    case Parsed(data) =>
      match Prop(data, "personalInfo")
      case None => ErrorSummary(filename)
      case Some(info) => Describe(filename, data, info)
  }

  /** `GET /api/portfolio`: one line per `.json` file, in directory order. */
  function List(names: seq<string>, files: Store): (r: seq<Summary>)
    ensures |r| <= |names|
    ensures forall i :: 0 <= i < |r| ==> EndsWith(r[i].filename, ".json")
  {
    if names == [] then []
    else
      (if EndsWith(names[0], ".json") then [Summarize(names[0], Read(files, names[0]))] else [])
      + List(names[1..], files)
  }

  /** Every line is about a `.json` file, and every `.json` file has its
      line, even one that cannot be read. */
  lemma {:induction false} ListedIffJson(names: seq<string>, files: Store)
    ensures forall s :: s in List(names, files) ==>
      (EndsWith(s.filename, ".json") && s.filename in names && s == Summarize(s.filename, Read(files, s.filename)))
    ensures forall k :: 0 <= k < |names| && EndsWith(names[k], ".json") ==>
      Summarize(names[k], Read(files, names[k])) in List(names, files)
  {
    if names != [] {
      ListedIffJson(names[1..], files);
      assert forall k :: 1 <= k < |names| ==> names[k] == names[1..][k - 1];
    }
  }

  /** A saved portfolio is listed with its own name, date and project
      count; an empty name or date shows as `Unknown`. */
  lemma SavedSummary(filename: string, p: PortfolioData)
    ensures Summarize(filename, Parsed(Saved(p))) == Summary(filename,
      Str(if p.personalInfo.name == "" then "Unknown" else p.personalInfo.name),
      Str(if p.generatedAt == "" then "Unknown" else p.generatedAt),
      Num(|p.projects|))
  {
  }

  // ----- get, update, delete -----

  /** `GET /api/portfolio/:name` */
  function Get(files: Store, name: string): (r: Reply)
    ensures name !in files ==> r == NotFound
    ensures name in files && files[name].Parsed? ==> r == Reply(200, files[name].data)
    ensures name in files && files[name].Unreadable? ==> r == Failure(500, "Internal error")
  {
    if name !in files then NotFound
    else match files[name]
      case Unreadable => Failure(500, "Internal error")
      case Parsed(data) => Reply(200, data)
  }

  /** A portfolio saved is fetched back as written. */
  lemma SaveThenGet(files: Store, body: JsValue, validate: JsValue -> Result<PortfolioData, JsValue>, iso: string, now: string)
    requires validate(body).Ok?
    ensures var name := GenerateRoute.Filename(validate(body).value.personalInfo.name, iso) + ".json";
      Get(Save(files, body, validate, iso, now).files, name) == Reply(200, Saved(validate(body).value))
  {
  }

  /** `PUT /api/portfolio/:name`: a missing file is a 404 whatever the body;
      an existing one is replaced by a body the schema accepts. */
  function Update(files: Store, name: string, body: JsValue, validate: JsValue -> Result<PortfolioData, JsValue>,
                  now: string): (r: Outcome)
    ensures name !in files ==> r == Outcome(NotFound, files)
    ensures name in files && validate(body).Err? ==>
      r == Outcome(Reply(400, Obj(map["error" := Str("Update failed"), "details" := validate(body).error])), files)
    ensures name in files && validate(body).Ok? ==>
      r.reply.status == 200 && r.files == files[name := Parsed(Saved(validate(body).value))]
  {
    if name !in files then Outcome(NotFound, files)
    else match validate(body)
      case Err(details) => Outcome(Reply(400, Obj(map["error" := Str("Update failed"), "details" := details])), files)
      case Ok(p) =>
        Outcome(Reply(200, Obj(map["message" := Str("Portfolio updated successfully"), "filename" := Str(name), "timestamp" := Str(now)])),
                files[name := Parsed(Saved(p))])
  }

  /** `DELETE /api/portfolio/:name` */
  function Delete(files: Store, name: string): (r: Outcome)
    ensures name !in files ==> r == Outcome(NotFound, files)
    ensures name in files ==> r.reply.status == 200 && r.files == files - {name}
  {
    if name !in files then Outcome(NotFound, files)
    else Outcome(Reply(200, Obj(map["message" := Str("Portfolio deleted successfully"), "filename" := Str(name)])), files - {name})
  }

  /** After a delete the name is not found, and nothing else changed. */
  lemma DeleteThenGet(files: Store, name: string, other: string)
    requires other != name
    ensures Get(Delete(files, name).files, name) == NotFound
    ensures Get(Delete(files, name).files, other) == Get(files, other)
  {
  }

  // ----- duplicate -----

  /** The copy's name: the owner's name with whitespace runs as `_`, then
      `_copy_`, the timestamp with `:` and `.` as `-`, and `.json`. */
  function CopyFilename(owner: string, iso: string): string {
    UnderscoreSpaces(owner) + "_copy_" + ReplaceEach(iso, {':', '.'}, '-') + ".json"
  }

  /** `POST /api/portfolio/:name/duplicate`: a copy of the file, its
      `generatedAt` set to now, under a new name. A file that cannot be read
      or is not an object whose `personalInfo.name` is a string (the
      property reads, the assignment or the `replace` throw) gets a 500. */
  function Duplicate(files: Store, name: string, isoA: string, isoB: string): (r: Outcome)
    ensures name !in files ==> r == Outcome(NotFound, files)
    ensures r.files != files ==> r.reply.status == 201
    ensures r.reply.status == 201 ==>
      && name in files && files[name].Parsed? && files[name].data.Obj?
      && var fields := files[name].data.fields;
         var owner := Prop(Prop(files[name].data, "personalInfo").value, "name");
         owner.Some? && owner.value.Str?
         && r.files == files[CopyFilename(owner.value.s, isoB) := Parsed(Obj(fields["generatedAt" := Str(isoA)]))]
  {
    if name !in files then Outcome(NotFound, files)
    else match files[name]
      case Unreadable => Outcome(Failure(500, "Duplication failed"), files)
      case Parsed(data) =>
        if !data.Obj? then Outcome(Failure(500, "Duplication failed"), files)
        else
          var copy := Obj(data.fields["generatedAt" := Str(isoA)]);
          var info := Prop(data, "personalInfo").value;
          match Prop(info, "name")
          case Some(Str(owner)) =>
            var newName := CopyFilename(owner, isoB);
            Outcome(Reply(201, Obj(map["message" := Str("Portfolio duplicated successfully"), "originalFilename" := Str(name),
                                       "newFilename" := Str(newName), "timestamp" := Str(isoA)])),
                    files[newName := Parsed(copy)])
          case _ => Outcome(Failure(500, "Duplication failed"), files)
  }

  /** The copy of a saved portfolio holds the same portfolio with the new
      date, and the original is untouched unless the copy's name is the
      original's own. */
  lemma DuplicateOfSaved(files: Store, name: string, p: PortfolioData, isoA: string, isoB: string)
    requires name in files && files[name] == Parsed(Saved(p))
    ensures var copyName := CopyFilename(p.personalInfo.name, isoB);
      && Duplicate(files, name, isoA, isoB).files == files[copyName := Parsed(Saved(p.(generatedAt := isoA)))]
      && (copyName != name ==> Duplicate(files, name, isoA, isoB).files[name] == files[name])
  {
    SavedFields(p);
    var copyName := CopyFilename(p.personalInfo.name, isoB);
    assert Duplicate(files, name, isoA, isoB).files == files[copyName := Parsed(Obj(PortfolioFields(p)["generatedAt" := Str(isoA)]))];
    assert PortfolioFields(p)["generatedAt" := Str(isoA)] == PortfolioFields(p.(generatedAt := isoA));
  }

  /** Every file a duplicate writes has `_copy_` in its name. */
  lemma CopyNameMarked(owner: string, iso: string)
    ensures var n := CopyFilename(owner, iso);
      OccursAt(n, "_copy_", |UnderscoreSpaces(owner)|) && EndsWith(n, ".json")
  {
    var u := UnderscoreSpaces(owner);
    var stamp := ReplaceEach(iso, {':', '.'}, '-');
    Infix(u, "_copy_", stamp + ".json");
    Suffix(u + "_copy_" + stamp, ".json");
  }

  lemma Infix(a: string, q: string, b: string)
    ensures (a + q + b)[|a|..|a| + |q|] == q
  {
  }

  lemma Suffix(a: string, q: string)
    ensures EndsWith(a + q, q)
  {
  }

  // ----- search -----

  /** Characters a `RegExp` built from the query would treat specially. */
  predicate Literal(q: string) {
    forall i :: 0 <= i < |q| ==> q[i] !in "\\^$.|?*+()[]{}"
  }

  /** `projects.map(p => p.name)`; None when a project is `null`. */
  function ProjectNames(items: seq<JsValue>): (r: Option<seq<JsValue>>)
    ensures r.Some? ==> |r.value| == |items|
  {
    if items == [] then Some([])
    else match (Prop(items[0], "name"), ProjectNames(items[1..]))
      case (Some(n), Some(rest)) => Some([n] + rest)
      case _ => None
  }

  /** `projects.flatMap(p => p.technologies)`: an array is spread one level,
      any other value kept as one element. */
  function Technologies(items: seq<JsValue>): Option<seq<JsValue>> {
    if items == [] then Some([])
    else match (Prop(items[0], "technologies"), Technologies(items[1..]))
      case (Some(t), Some(rest)) => Some((if t.Arr? then t.items else [t]) + rest)
      case _ => None
  }

  /** The words searched: the name, the about text, the project names and
      every technology; None when building them throws, as it does for a
      file holding `null`, a `null` project, or projects that are not an
      array. */
  function SearchWords(data: JsValue): Option<seq<JsValue>> {
    match Prop(data, "personalInfo")
    case None => None
    case Some(info) =>
      var head := [Or(OptProp(info, "name"), Str("")), Or(Prop(data, "aboutMe").value, Str(""))];
      var projects := Prop(data, "projects").value;
      if projects.Undefined? || projects.Null? then Some(head)
      else if !projects.Arr? then None
      else match (ProjectNames(projects.items), Technologies(projects.items))
        case (Some(ns), Some(ts)) => Some(head + ns + ts)
        case _ => None
  }

  /** The searchable text: the words joined by single spaces, lower-cased. */
  function SearchText(data: JsValue): (r: Option<string>)
    ensures data.Null? || data.Undefined? ==> r.None?
    ensures var projects := Prop(data, "projects");
      projects.Some? && !projects.value.Undefined? && !projects.value.Null? && !projects.value.Arr? ==> r.None?
  {
    match SearchWords(data)
    case None => None
    case Some(words) => Some(ToLower(JoinValues(words, " ")))
  }

  datatype Hit = Hit(summary: Summary, relevance: nat)

  function Relevance(h: Hit): int {
    h.relevance
  }

  /** A file's hit, if its text contains the (lower-cased) query. */
  function HitOf(q: string, filename: string, s: Stored): (r: Option<Hit>)
    requires q != []
    ensures r.Some? <==> s.Parsed? && SearchText(s.data).Some? && Contains(SearchText(s.data).value, q)
    ensures r.Some? ==> r.value.relevance >= 1 && r.value.summary == Summarize(filename, s)
    ensures r.Some? ==> r.value.relevance == CountOccurrences(SearchText(s.data).value, q)
  {
    match s
    case Unreadable => None
    case Parsed(data) =>
      match SearchText(data)
      case None => None
      case Some(text) =>
        if Contains(text, q) then
          CountPositiveIffContains(text, q);
          Some(Hit(Describe(filename, data, Prop(data, "personalInfo").value), CountOccurrences(text, q)))
        else None
  }

  /** The hits among the `.json` files, in directory order. */
  function Hits(q: string, names: seq<string>, files: Store): (r: seq<Hit>)
    requires q != []
    ensures |r| <= |names|
    ensures forall i :: 0 <= i < |r| ==> r[i].relevance >= 1
  {
    if names == [] then []
    else
      var h := if EndsWith(names[0], ".json") then HitOf(q, names[0], Read(files, names[0])) else None;
      (if h.Some? then [h.value] else []) + Hits(q, names[1..], files)
  }

  /** `GET /api/portfolio/search/:query`, for a non-empty query without
      pattern characters: the hits, most relevant first, ties in directory
      order. */
  function Search(query: string, names: seq<string>, files: Store): (r: seq<Hit>)
    requires query != [] && Literal(query)
    ensures SortedDesc(r, Relevance)
    ensures multiset(r) == multiset(Hits(ToLower(query), names, files))
  {
    SortDesc(Hits(ToLower(query), names, files), Relevance)
  }

  /** A file is a hit exactly when it is a `.json` file that parses, whose
      text contains the lower-cased query; its relevance is then the number
      of non-overlapping occurrences, at least one. */
  lemma SearchFinds(query: string, names: seq<string>, files: Store, h: Hit)
    requires query != [] && Literal(query)
    ensures h in Search(query, names, files) <==>
      exists k :: 0 <= k < |names| && EndsWith(names[k], ".json") && HitOf(ToLower(query), names[k], Read(files, names[k])) == Some(h)
    ensures h in Search(query, names, files) ==> h.relevance >= 1
  {
    assert h in Search(query, names, files) <==> h in multiset(Hits(ToLower(query), names, files));
    HitsMembers(ToLower(query), names, files, h);
  }

  lemma {:induction false} HitsMembers(q: string, names: seq<string>, files: Store, h: Hit)
    requires q != []
    ensures h in Hits(q, names, files) <==>
      exists k :: 0 <= k < |names| && EndsWith(names[k], ".json") && HitOf(q, names[k], Read(files, names[k])) == Some(h)
  {
    if names != [] {
      HitsMembers(q, names[1..], files, h);
      if exists k :: 0 <= k < |names| && EndsWith(names[k], ".json") && HitOf(q, names[k], Read(files, names[k])) == Some(h) {
        var k :| 0 <= k < |names| && EndsWith(names[k], ".json") && HitOf(q, names[k], Read(files, names[k])) == Some(h);
        if k > 0 {
          assert names[1..][k - 1] == names[k];
        }
      }
      if exists k :: 0 <= k < |names[1..]| && EndsWith(names[1..][k], ".json") && HitOf(q, names[1..][k], Read(files, names[1..][k])) == Some(h) {
        var k :| 0 <= k < |names[1..]| && EndsWith(names[1..][k], ".json") && HitOf(q, names[1..][k], Read(files, names[1..][k])) == Some(h);
        assert names[k + 1] == names[1..][k];
      }
    }
  }

  /** Hits of equal relevance keep directory order. */
  lemma SearchStable(query: string, names: seq<string>, files: Store, n: int)
    requires query != [] && Literal(query)
    ensures WithKey(Search(query, names, files), Relevance, n) == WithKey(Hits(ToLower(query), names, files), Relevance, n)
  {
    SortDescStable(Hits(ToLower(query), names, files), Relevance, n);
  }

  /** The project names of saved projects. */
  function NamesOf(ps: seq<Project>): seq<string> {
    if ps == [] then [] else [ps[0].name] + NamesOf(ps[1..])
  }

  /** All technologies of saved projects, project by project. */
  function TechnologiesOf(ps: seq<Project>): seq<string> {
    if ps == [] then [] else ps[0].technologies + TechnologiesOf(ps[1..])
  }

  /** The text a saved portfolio is searched in: its owner's name, its
      about text, its project names and all their technologies, joined by
      spaces and lower-cased. */
  lemma SavedSearchText(p: PortfolioData)
    ensures SearchText(Saved(p)) ==
      Some(ToLower(Join([p.personalInfo.name, p.aboutMe] + NamesOf(p.projects) + TechnologiesOf(p.projects), " ")))
  {
    var ss := [p.personalInfo.name, p.aboutMe] + NamesOf(p.projects) + TechnologiesOf(p.projects);
    SavedSearchWords(p);
    JoinStringsOfStrs(ss);
  }

  lemma SavedSearchWords(p: PortfolioData)
    ensures SearchWords(Saved(p)) == Some(Strs([p.personalInfo.name, p.aboutMe] + NamesOf(p.projects) + TechnologiesOf(p.projects)))
  {
    SavedFields(p);
    ProjectNamesOfSaved(p.projects);
    TechnologiesOfSaved(p.projects);
    var head := [p.personalInfo.name, p.aboutMe];
    assert [Or(OptProp(PersonalInfoJs(p.personalInfo), "name"), Str("")), Or(Str(p.aboutMe), Str(""))] == Strs(head);
    StrsAppend(head, NamesOf(p.projects));
    StrsAppend(head + NamesOf(p.projects), TechnologiesOf(p.projects));
  }

  lemma StrsAppend(a: seq<string>, b: seq<string>)
    ensures Strs(a + b) == Strs(a) + Strs(b)
  {
  }

  lemma {:induction false} ProjectNamesOfSaved(ps: seq<Project>)
    ensures ProjectNames(ProjectsJs(ps)) == Some(Strs(NamesOf(ps)))
  {
    if ps != [] {
      ProjectNamesOfSaved(ps[1..]);
      assert ProjectsJs(ps)[1..] == ProjectsJs(ps[1..]);
      assert Strs(NamesOf(ps)) == [Str(ps[0].name)] + Strs(NamesOf(ps[1..]));
    }
  }

  lemma {:induction false} TechnologiesOfSaved(ps: seq<Project>)
    ensures Technologies(ProjectsJs(ps)) == Some(Strs(TechnologiesOf(ps)))
  {
    if ps != [] {
      var items := ProjectsJs(ps);
      TechnologiesOfSaved(ps[1..]);
      assert items[1..] == ProjectsJs(ps[1..]);
      ProjectTechnologies(ps[0]);
      assert Prop(items[0], "technologies") == Some(Arr(Strs(ps[0].technologies)));
      StrsAppend(ps[0].technologies, TechnologiesOf(ps[1..]));
    }
  }

  lemma ProjectTechnologies(p: Project)
    ensures Prop(ProjectJs(p), "technologies") == Some(Arr(Strs(p.technologies)))
  {
  }

  /** Strings join as themselves. */
  lemma {:induction false} JoinStringsOfStrs(ss: seq<string>)
    ensures JoinStrings(Strs(ss)) == ss
  {
    if ss != [] {
      JoinStringsOfStrs(ss[1..]);
      assert Strs(ss)[1..] == Strs(ss[1..]);
    }
  }
}
