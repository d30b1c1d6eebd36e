/** The skill-tag editing rule that ProfileManagement, ProfileCard and
    ProjectForm each implement the same way (`addSkill` / `removeSkill`),
    and that ClientDashBoard uses to drop a selected skill filter chip. */
module SkillTags {
  import opened Js
  import opened Seqs

  /** The skill list and the text of the "Add new skill" input. */
  datatype SkillEdit = SkillEdit(skills: seq<string>, draft: string)

  /** `addSkill`: the trimmed draft is appended when it is not blank and not
      already listed, and then the input is cleared; otherwise neither the
      list nor the input changes. */
  function AddSkill(skills: seq<string>, draft: string): (r: SkillEdit)
    ensures |skills| <= |r.skills| <= |skills| + 1
    ensures r.skills[..|skills|] == skills
    ensures |r.skills| == |skills| + 1 <==> !Blank(draft) && Trim(draft) !in skills
    ensures |r.skills| == |skills| + 1 ==> r.skills[|skills|] == Trim(draft) && r.draft == ""
    ensures |r.skills| == |skills| ==> r == SkillEdit(skills, draft)
    ensures !Blank(draft) ==> Trim(draft) in r.skills
    ensures NoDuplicates(skills) ==> NoDuplicates(r.skills)
  {
    var t := Trim(draft);
    if t != "" && t !in skills then
      assert (skills + [t])[..|skills|] == skills;
      SkillEdit(skills + [t], "")
    else
      assert skills[..|skills|] == skills;
      SkillEdit(skills, draft)
  }

  /** `removeSkill(s)`: `skills.filter(x => x !== s)`. Every copy of `s`
      goes, every other skill stays, in its order. */
  function RemoveSkill(skills: seq<string>, s: string): (r: seq<string>)
    ensures s !in r
    ensures forall x :: x in r <==> x in skills && x != s
    ensures forall x :: x != s ==> multiset(r)[x] == multiset(skills)[x]
    ensures IsSubsequence(r, skills)
    ensures s !in skills ==> r == skills
    ensures NoDuplicates(skills) ==> NoDuplicates(r)
  {
    var keep := x => x != s;
    var r := Filter(skills, keep);
    FilterCounts(skills, keep);
    assert s !in skills ==> r == skills by {
      if s !in skills {
        FilterAllPass(skills, keep);
      }
    }
    assert NoDuplicates(skills) ==> NoDuplicates(r) by {
      if NoDuplicates(skills) {
        SubsequenceNoDuplicates(r, skills);
      }
    }
    r
  }

  /** Removing a skill that was just added restores the list it was added
      to. */
  lemma AddThenRemove(skills: seq<string>, draft: string)
    requires !Blank(draft) && Trim(draft) !in skills
    ensures RemoveSkill(AddSkill(skills, draft).skills, Trim(draft)) == skills
  {
    var t := Trim(draft);
    assert AddSkill(skills, draft).skills == skills + [t];
    RemoveAppended(skills, t);
  }

  /** Removing a skill appended to a list that lacked it gives the list
      back. */
  lemma RemoveAppended(skills: seq<string>, t: string)
    requires t !in skills
    ensures RemoveSkill(skills + [t], t) == skills
  {
    var keep := x => x != t;
    FilterConcat(skills, [t], keep);
    FilterAllPass(skills, keep);
    assert Filter([t], keep) == [];
    assert Filter(skills, keep) + [] == skills;
  }

  /** Once a non-blank draft has been submitted, submitting the same text
      again leaves the list alone: the trimmed text is already listed. */
  lemma AddSkillTwice(skills: seq<string>, draft: string)
    ensures AddSkill(AddSkill(skills, draft).skills, draft).skills == AddSkill(skills, draft).skills
  {
  }

  /** Padding around a skill name is ignored: the input " React " adds the
      tag "React", and a second " React" is refused. */
  lemma TrimmedTagExample()
    ensures AddSkill([], " React ").skills == ["React"]
    ensures AddSkill(["React"], " React").skills == ["React"]
  {
    PaddedReact();
    assert ["React"] + ["React"] != ["React"];
    assert [] + ["React"] == ["React"];
  }

  /** The two inputs of `TrimmedTagExample` both trim to "React". */
  lemma PaddedReact()
    ensures Trim(" React ") == "React" && Trim(" React") == "React"
    ensures !Blank(" React ")
  {
    assert !IsWhitespace('R') && !IsWhitespace('t') && IsWhitespace(' ');
    assert LeadingBlanks(" React ") == 1 && TrailingBlanksStart(" React ") == 6;
    assert " React "[1..6] == "React";
    assert LeadingBlanks(" React") == 1 && TrailingBlanksStart(" React") == 6;
    assert " React"[1..6] == "React";
  }
}
