/**
 * The user-skill endpoints: list all rows, list one user's rows, add a row,
 * and delete a row by id answering 204 when it existed and 404 otherwise.
 */
module UserSkills {
  import opened Wrappers
  import opened Entities
  import opened Sequences

  /** A posted skill: every field as sent, the id still to be generated. */
  datatype SkillRequest = SkillRequest(owner: Option<int>, skillName: Option<string>, skillLevel: Option<string>,
                                       offering: Option<bool>, seeking: Option<bool>)

  /** `skill_name` is a NOT NULL column: the insert fails without it. */
  datatype SkillError = SkillNameMissing

  const NoContent := 204
  const NotFound := 404

  predicate HasId(skills: seq<UserSkill>, id: int) {
    exists s :: s in skills && s.skillId == id
  }

  function WithoutId(skills: seq<UserSkill>, id: int): seq<UserSkill> {
    Filter(skills, (s: UserSkill) => s.skillId != id)
  }

  function OwnedBy(skills: seq<UserSkill>, userId: int): seq<UserSkill> {
    Filter(skills, (s: UserSkill) => s.owner == Some(userId))
  }

  predicate UniqueSkillIds(skills: seq<UserSkill>) {
    forall i, j :: 0 <= i < j < |skills| ==> skills[i].skillId != skills[j].skillId
  }

  class SkillTable {
    var skills: seq<UserSkill>
    var nextSkillId: int

    /** Ids are unique and below the next one handed out. */
    predicate Valid()
      reads this
    {
      UniqueSkillIds(skills) && forall i :: 0 <= i < |skills| ==> skills[i].skillId < nextSkillId
    }

    constructor()
      ensures Valid() && skills == []
    {
      skills := [];
      nextSkillId := 1;
    }

    /** `getAllUserSkills`. */
    method GetAllUserSkills() returns (r: seq<UserSkill>)
      ensures r == skills
    {
      r := skills;
    }

    /** `getUserSkills(userId)`: exactly the rows of that user, in table order. */
    method GetUserSkills(userId: int) returns (r: seq<UserSkill>)
      ensures r == OwnedBy(skills, userId)
      ensures forall s :: s in r <==> s in skills && s.owner == Some(userId)
      ensures IsSubsequence(r, skills)
    {
      var p := (s: UserSkill) => s.owner == Some(userId);
      r := Filter(skills, p);
      FilterIsSubsequence(skills, p);
      forall s ensures s in r <==> s in skills && s.owner == Some(userId) {
        FilterMember(skills, p, s);
      }
    }

    /** `addUserSkill`: the row is stored with a new id and returned; offering and seeking default to false. */
    method AddUserSkill(request: SkillRequest) returns (r: Result<UserSkill, SkillError>)
      requires Valid()
      modifies this
      ensures Valid()
      ensures request.skillName.None? ==> r == Err(SkillNameMissing) && skills == old(skills)
      ensures request.skillName.Some? ==>
        r == Ok(UserSkill(old(nextSkillId), request.owner, request.skillName, request.skillLevel,
                          Some(request.offering.GetOr(false)), Some(request.seeking.GetOr(false))))
        && skills == old(skills) + [r.value]
    {
      if request.skillName.None? {
        return Err(SkillNameMissing);
      }
      var row := UserSkill(nextSkillId, request.owner, request.skillName, request.skillLevel,
                           Some(request.offering.GetOr(false)), Some(request.seeking.GetOr(false)));
      skills := skills + [row];
      nextSkillId := nextSkillId + 1;
      r := Ok(row);
    }

    /** `deleteUserSkill(id)`: 204 after removing an existing row, 404 and no change otherwise. */
    method DeleteUserSkill(id: int) returns (status: int)
      requires Valid()
      modifies this
      ensures Valid()
      ensures status == (if HasId(old(skills), id) then NoContent else NotFound)
      ensures skills == WithoutId(old(skills), id)
      ensures nextSkillId == old(nextSkillId)
    {
      if exists s :: s in skills && s.skillId == id {
        skills := Filter(skills, (s: UserSkill) => s.skillId != id);
        status := NoContent;
        assert UniqueSkillIds(skills) by {
          FilterIsSubsequence(old(skills), (s: UserSkill) => s.skillId != id);
          SubsequenceUniqueIds(skills, old(skills));
        }
      } else {
        FilterAllKept(skills, (s: UserSkill) => s.skillId != id);
        status := NotFound;
      }
    }
  }

  lemma {:induction false} SubsequenceUniqueIds(a: seq<UserSkill>, b: seq<UserSkill>)
    requires IsSubsequence(a, b) && UniqueSkillIds(b)
    ensures UniqueSkillIds(a)
    decreases |b|
  {
    if a != [] && b != [] {
      if a[0] == b[0] && IsSubsequence(a[1..], b[1..]) {
        SubsequenceUniqueIds(a[1..], b[1..]);
        SubsequenceMembers(a[1..], b[1..]);
        forall j | 0 < j < |a| ensures a[0].skillId != a[j].skillId {
          assert a[j] == a[1..][j - 1];
          assert a[j] in a[1..];
          assert a[j] in b[1..];
          var k :| 0 <= k < |b[1..]| && b[1..][k] == a[j];
          assert b[k + 1] == a[j];
        }
      } else {
        SubsequenceUniqueIds(a, b[1..]);
      }
    }
  }

  /**
   * Deleting removes exactly the row with that id and keeps every other row in order; a
   * missing id leaves the table as it was.
   */
  lemma DeleteSpec(skills: seq<UserSkill>, id: int)
    requires UniqueSkillIds(skills)
    ensures forall s :: s in WithoutId(skills, id) <==> s in skills && s.skillId != id
    ensures IsSubsequence(WithoutId(skills, id), skills)
    ensures HasId(skills, id) ==> |WithoutId(skills, id)| == |skills| - 1
    ensures !HasId(skills, id) ==> WithoutId(skills, id) == skills
  {
    var p := (s: UserSkill) => s.skillId != id;
    forall s ensures s in WithoutId(skills, id) <==> s in skills && s.skillId != id {
      FilterMember(skills, p, s);
    }
    FilterIsSubsequence(skills, p);
    if HasId(skills, id) {
      var k :| 0 <= k < |skills| && skills[k].skillId == id;
      RemoveOne(skills, id, k);
    } else {
      FilterAllKept(skills, p);
    }
  }

  lemma {:induction false} RemoveOne(skills: seq<UserSkill>, id: int, k: nat)
    requires UniqueSkillIds(skills) && k < |skills| && skills[k].skillId == id
    ensures |WithoutId(skills, id)| == |skills| - 1
  {
    var p := (s: UserSkill) => s.skillId != id;
    if k == 0 {
      FilterAllKept(skills[1..], p);
    } else {
      assert UniqueSkillIds(skills[1..]);
      RemoveOne(skills[1..], id, k - 1);
    }
  }
}
