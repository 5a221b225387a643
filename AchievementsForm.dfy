/** The achievements page: add a blank entry, remove and update entries by
    id. */
module AchievementsForm {
  import opened Portfolio
  import opened ListEdit

  function AchievementId(a: Achievement): string {
    a.id
  }

  predicate IsBlank(a: Achievement) {
    a.title == "" && a.description == "" && a.date == "" && a.organization == ""
  }

  /** `addAchievement`: one blank entry appended after the existing ones. */
  function AddAchievement(data: seq<Achievement>, id: string): (r: seq<Achievement>)
    ensures |r| == |data| + 1 && r[..|data|] == data
    ensures r[|data|].id == id && IsBlank(r[|data|])
  {
    data + [Achievement(id, "", "", "", "")]
  }

  /** `removeAchievement`: every entry with `id` goes, the others stay in
      order, and the list never grows. */
  function RemoveAchievement(data: seq<Achievement>, id: string): (r: seq<Achievement>)
    ensures |r| <= |data|
    ensures forall i :: 0 <= i < |r| ==> r[i].id != id && r[i] in data
    ensures forall i :: 0 <= i < |data| && data[i].id != id ==> data[i] in r
  {
    RemoveById(data, AchievementId, id)
  }

  /** The keys `updateAchievement` is called with. */
  datatype AchievementField = Id | Title | Description | Date | Organization

  /** `{ ...achievement, [field]: value }` */
  function SetField(a: Achievement, field: AchievementField, value: string): Achievement {
    match field
    case Id => a.(id := value)
    case Title => a.(title := value)
    case Description => a.(description := value)
    case Date => a.(date := value)
    case Organization => a.(organization := value)
  }

  /** `updateAchievement`: the entries with `id` get the new field value;
      the length, the order and every other entry stay. */
  function UpdateAchievement(data: seq<Achievement>, id: string, field: AchievementField, value: string): (r: seq<Achievement>)
    ensures |r| == |data|
    ensures forall i :: 0 <= i < |data| ==> r[i] == if data[i].id == id then SetField(data[i], field, value) else data[i]
  {
    UpdateById(data, AchievementId, id, a => SetField(a, field, value))
  }

  /** Removal and update by an id no entry carries leave the list as it is;
      removing the entry just added with a fresh id restores the list; and
      removing after an update of another field equals removing. */
  lemma AchievementEditProperties(data: seq<Achievement>, id: string, newId: string, field: AchievementField, value: string)
    requires forall i :: 0 <= i < |data| ==> data[i].id != newId
    ensures (forall i :: 0 <= i < |data| ==> data[i].id != id) ==>
              RemoveAchievement(data, id) == data && UpdateAchievement(data, id, field, value) == data
    ensures RemoveAchievement(AddAchievement(data, newId), newId) == data
    ensures field != Id ==> RemoveAchievement(UpdateAchievement(data, id, field, value), id) == RemoveAchievement(data, id)
  {
    if forall i :: 0 <= i < |data| ==> data[i].id != id {
      RemoveAbsent(data, AchievementId, id);
      UpdateAbsent(data, AchievementId, id, a => SetField(a, field, value));
    }
    AddThenRemove(data, Achievement(newId, "", "", "", ""), AchievementId);
    if field != Id {
      RemoveAfterUpdate(data, AchievementId, id, a => SetField(a, field, value));
    }
  }
}
