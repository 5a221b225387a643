/** The education page: add a blank entry, remove and update entries by
    id. Ids come from the clock, so two entries added in the same
    millisecond share one, and removal then drops both. */
module EducationForm {
  import opened Portfolio
  import opened ListEdit

  function EducationId(e: Education): string {
    e.id
  }

  predicate IsBlank(e: Education) {
    e.institution == "" && e.degree == "" && e.field == ""
    && e.startYear == "" && e.endYear == "" && e.gpa == ""
  }

  /** `addEducation`: one blank entry appended after the existing ones. */
  function AddEducation(data: seq<Education>, id: string): (r: seq<Education>)
    ensures |r| == |data| + 1 && r[..|data|] == data
    ensures r[|data|].id == id && IsBlank(r[|data|])
  {
    data + [Education(id, "", "", "", "", "", "")]
  }

  /** `removeEducation`: every entry with `id` goes, the others stay in
      order, and the list never grows. */
  function RemoveEducation(data: seq<Education>, id: string): (r: seq<Education>)
    ensures |r| <= |data|
    ensures forall i :: 0 <= i < |r| ==> r[i].id != id && r[i] in data
    ensures forall i :: 0 <= i < |data| && data[i].id != id ==> data[i] in r
  {
    RemoveById(data, EducationId, id)
  }

  /** The keys `updateEducation` is called with. */
  datatype EducationField = Id | Institution | Degree | FieldOfStudy | StartYear | EndYear | Gpa

  /** `{ ...edu, [field]: value }` */
  function SetField(e: Education, field: EducationField, value: string): Education {
    match field
    case Id => e.(id := value)
    case Institution => e.(institution := value)
    case Degree => e.(degree := value)
    case FieldOfStudy => e.(field := value)
    case StartYear => e.(startYear := value)
    case EndYear => e.(endYear := value)
    case Gpa => e.(gpa := value)
  }

  /** `updateEducation`: the entries with `id` get the new field value; the
      length, the order and every other entry stay. */
  function UpdateEducation(data: seq<Education>, id: string, field: EducationField, value: string): (r: seq<Education>)
    ensures |r| == |data|
    ensures forall i :: 0 <= i < |data| ==> r[i] == if data[i].id == id then SetField(data[i], field, value) else data[i]
  {
    UpdateById(data, EducationId, id, e => SetField(e, field, value))
  }

  /** Removal and update by an id no entry carries leave the list as it is;
      removing the entry just added with a fresh id restores the list; and
      removing after an update of another field equals removing. */
  lemma EducationEditProperties(data: seq<Education>, id: string, newId: string, field: EducationField, value: string)
    requires forall i :: 0 <= i < |data| ==> data[i].id != newId
    ensures (forall i :: 0 <= i < |data| ==> data[i].id != id) ==>
              RemoveEducation(data, id) == data && UpdateEducation(data, id, field, value) == data
    ensures RemoveEducation(AddEducation(data, newId), newId) == data
    ensures field != Id ==> RemoveEducation(UpdateEducation(data, id, field, value), id) == RemoveEducation(data, id)
  {
    if forall i :: 0 <= i < |data| ==> data[i].id != id {
      RemoveAbsent(data, EducationId, id);
      UpdateAbsent(data, EducationId, id, e => SetField(e, field, value));
    }
    AddThenRemove(data, Education(newId, "", "", "", "", "", ""), EducationId);
    if field != Id {
      RemoveAfterUpdate(data, EducationId, id, e => SetField(e, field, value));
    }
  }

  /** Two entries added in the same millisecond share an id, and removing
      it drops both. */
  lemma SameMillisecondRemovesBoth(data: seq<Education>, id: string)
    requires forall i :: 0 <= i < |data| ==> data[i].id != id
    ensures RemoveEducation(AddEducation(AddEducation(data, id), id), id) == data
  {
    var twice := AddEducation(AddEducation(data, id), id);
    var blank := Education(id, "", "", "", "", "", "");
    assert twice == data + [blank, blank];
    RemoveByIdAppend(data, [blank, blank], EducationId, id);
    RemoveAbsent(data, EducationId, id);
    assert RemoveById([blank, blank], EducationId, id) == [];
  }
}
