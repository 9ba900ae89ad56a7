/** The CV store the screens read and write (`useCVContext`): one personal-info
    record and three ordered lists. Its implementation is not part of this
    model; what is stated here is what the call sites rely on: a whole-record
    replace, append, and removal by id. */
module RecordStore {
  import opened CvTypes

  function ExperienceId(x: Experience): string { x.id }
  function EducationId(x: Education): string { x.id }
  function SkillId(x: Skill): string { x.id }

  /** No id occurs twice in the list. */
  predicate UniqueIds<T>(xs: seq<T>, idOf: T -> string)
  {
    forall i, j :: 0 <= i < j < |xs| ==> idOf(xs[i]) != idOf(xs[j])
  }

  /** The list without the entries whose id is `id`, in their original order. */
  function WithoutId<T>(xs: seq<T>, idOf: T -> string, id: string): (r: seq<T>)
    ensures |r| <= |xs|
    ensures forall x :: x in r ==> x in xs && idOf(x) != id
    ensures forall x :: x in xs && idOf(x) != id ==> x in r
  {
    if xs == [] then []
    else if idOf(xs[0]) == id then WithoutId(xs[1..], idOf, id)
    else [xs[0]] + WithoutId(xs[1..], idOf, id)
  }

  /** Deleting an id that no entry carries changes nothing. */
  lemma {:induction false} DeleteAbsentIsNoOp<T>(xs: seq<T>, idOf: T -> string, id: string)
    requires forall i :: 0 <= i < |xs| ==> idOf(xs[i]) != id
    ensures WithoutId(xs, idOf, id) == xs
  {
    if xs != [] {
      DeleteAbsentIsNoOp(xs[1..], idOf, id);
      assert [xs[0]] + xs[1..] == xs;
    }
  }

  /** With unique ids, deleting the id of entry `i` removes that entry and
      only it. */
  lemma {:induction false} DeleteRemovesOne<T>(xs: seq<T>, idOf: T -> string, i: nat)
    requires i < |xs| && UniqueIds(xs, idOf)
    ensures WithoutId(xs, idOf, idOf(xs[i])) == xs[..i] + xs[i + 1..]
  {
    var id := idOf(xs[i]);
    if i == 0 {
      DeleteAbsentIsNoOp(xs[1..], idOf, id);
    } else {
      assert UniqueIds(xs[1..], idOf) by {
        forall a, b | 0 <= a < b < |xs[1..]| ensures idOf(xs[1..][a]) != idOf(xs[1..][b]) {
          assert xs[1..][a] == xs[a + 1] && xs[1..][b] == xs[b + 1];
        }
      }
      DeleteRemovesOne(xs[1..], idOf, i - 1);
      assert xs[1..][i - 1] == xs[i];
      assert xs[..i] == [xs[0]] + xs[1..][..i - 1];
      assert xs[i + 1..] == xs[1..][i..];
    }
  }

  /** Adding an entry with a fresh id and then deleting that id gives back the
      list as it was before the add. */
  lemma {:induction false} AddThenDelete<T>(xs: seq<T>, idOf: T -> string, x: T)
    requires forall i :: 0 <= i < |xs| ==> idOf(xs[i]) != idOf(x)
    ensures WithoutId(xs + [x], idOf, idOf(x)) == xs
  {
    if xs == [] {
      assert [] + [x] == [x];
    } else {
      assert (xs + [x])[1..] == xs[1..] + [x];
      AddThenDelete(xs[1..], idOf, x);
      assert [xs[0]] + xs[1..] == xs;
    }
  }

  class CVStore {
    var personalInfo: PersonalInfo
    var experiences: seq<Experience>
    var education: seq<Education>
    var skills: seq<Skill>

    /** The whole record, as the renderers read it. */
    function Snapshot(): CVData
      reads this
    {
      CVData(personalInfo, experiences, education, skills)
    }

    /** A session starts from blank personal info and empty lists. */
    constructor ()
      ensures Snapshot() == EmptyCV
    {
      personalInfo := BlankPersonalInfo;
      experiences, education, skills := [], [], [];
    }

    method UpdatePersonalInfo(info: PersonalInfo)
      modifies this
      ensures Snapshot() == old(Snapshot()).(personalInfo := info)
    {
      personalInfo := info;
    }

    method AddExperience(x: Experience)
      modifies this
      ensures Snapshot() == old(Snapshot()).(experiences := old(experiences) + [x])
    {
      experiences := experiences + [x];
    }

    method DeleteExperience(id: string)
      modifies this
      ensures Snapshot() == old(Snapshot()).(experiences := WithoutId(old(experiences), ExperienceId, id))
    {
      experiences := WithoutId(experiences, ExperienceId, id);
    }

    method AddEducation(x: Education)
      modifies this
      ensures Snapshot() == old(Snapshot()).(education := old(education) + [x])
    {
      education := education + [x];
    }

    method DeleteEducation(id: string)
      modifies this
      ensures Snapshot() == old(Snapshot()).(education := WithoutId(old(education), EducationId, id))
    {
      education := WithoutId(education, EducationId, id);
    }

    method AddSkill(x: Skill)
      modifies this
      ensures Snapshot() == old(Snapshot()).(skills := old(skills) + [x])
    {
      skills := skills + [x];
    }

    method DeleteSkill(id: string)
      modifies this
      ensures Snapshot() == old(Snapshot()).(skills := WithoutId(old(skills), SkillId, id))
    {
      skills := WithoutId(skills, SkillId, id);
    }
  }
}
