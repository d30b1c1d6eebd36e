/** The client's "Create New Project" form (ProjectForm.jsx): the draft
    project, its skill tags and the object handed to `onSubmit`. */
module ProjectForm {
  import opened Js
  import SkillTags

  /** The form's `project` state; budget and deadline are the text of
      their inputs. */
  datatype Draft = Draft(
    title: string,
    description: string,
    skills: seq<string>,
    budget: string,
    deadline: string,
    status: string)

  const InitialDraft := Draft("", "", [], "", "", "open")

  /** The object passed to `onSubmit`: the draft's fields plus the clock
      reading as `id` and a bid count of 0. */
  datatype Submission = Submission(
    title: string,
    description: string,
    skills: seq<string>,
    budget: string,
    deadline: string,
    status: string,
    id: Key,
    bidsCount: int)

  /** `{ ...project, id: Date.now(), bidsCount: 0 }`. */
  function SubmissionOf(d: Draft, now: int): Submission {
    Submission(d.title, d.description, d.skills, d.budget, d.deadline, d.status, Num(now), 0)
  }

  /** The draft part of a submission. */
  function DraftOf(s: Submission): Draft {
    Draft(s.title, s.description, s.skills, s.budget, s.deadline, s.status)
  }

  /** The submission carries the draft unchanged, the clock reading as its
      id and no bids. */
  lemma SubmissionKeepsDraft(d: Draft, now: int)
    ensures DraftOf(SubmissionOf(d, now)) == d
    ensures SubmissionOf(d, now).id == Num(now) && SubmissionOf(d, now).bidsCount == 0
  {
  }

  /** A submission is determined by its draft, id and bid count. */
  lemma SubmissionFromParts(s: Submission)
    requires s.id.Num? && s.bidsCount == 0
    ensures SubmissionOf(DraftOf(s), s.id.n) == s
  {
  }

  // ---------------------------------------------------------------------
  // The budget input: `<input type="number" min="0">` with no `step`

  predicate IsDigit(c: char) {
    '0' <= c <= '9'
  }

  /** The number of digits `s` starts with. */
  function DigitRun(s: string): (n: nat)
    ensures n <= |s|
    ensures forall k :: 0 <= k < n ==> IsDigit(s[k])
    ensures n == |s| || !IsDigit(s[n])
  {
    if s != [] && IsDigit(s[0]) then
      var n := 1 + DigitRun(s[1..]);
      assert forall k :: 1 <= k < n ==> s[k] == s[1..][k - 1];
      n
    else
      0
  }

  /** The value of a string of decimal digits. */
  function DigitsValue(s: string): (v: nat)
    requires forall k :: 0 <= k < |s| ==> IsDigit(s[k])
  {
    if s == [] then 0
    else
      assert IsDigit(s[|s| - 1]);
      DigitsValue(s[..|s| - 1]) * 10 + (s[|s| - 1] as int - '0' as int)
  }

  function Pow10(k: nat): (p: nat)
    ensures p >= 1
  {
    if k == 0 then 1 else 10 * Pow10(k - 1)
  }

  /** A parsed number: `(negative ? -1 : 1) * digits * 10^scale`. */
  datatype Decimal = Decimal(negative: bool, digits: nat, scale: int)

  /** The optional exponent part `(e|E)(+|-)?digits` that ends a number;
      the empty text is the exponent 0. */
  function ParseExponent(s: string): (r: Option<int>)
    ensures s == "" ==> r == Some(0)
  {
    if s == "" then Some(0)
    else if s[0] != 'e' && s[0] != 'E' then None
    else
      var t := s[1..];
      var minus := t != [] && t[0] == '-';
      var u := if t != [] && (t[0] == '-' || t[0] == '+') then t[1..] else t;
      if u != [] && DigitRun(u) == |u| then
        var v: int := DigitsValue(u);
        var e: int := if minus then -v else v;
        Some(e)
      else
        None
  }

  /** The HTML "valid floating-point number": an optional `-`, digits with
      an optional `.` and fraction digits (or `.` and fraction digits
      alone), and an optional exponent. Anything else is `None`. */
  function ParseNumber(s: string): (r: Option<Decimal>)
    ensures r.Some? ==> s != ""
    ensures r.Some? ==> (r.value.negative <==> s[0] == '-')
  {
    if s != [] && s[0] == '-' then
      match ParseUnsigned(s[1..])
      case None => None
      case Some(d) => Some(d.(negative := true))
    else
      ParseUnsigned(s)
  }

  /** A number without its sign: digits, then a point and the fraction, or
      digits alone, in both cases followed by the exponent part. */
  function ParseUnsigned(s: string): (r: Option<Decimal>)
    ensures r.Some? ==> s != "" && !r.value.negative
  {
    var i := DigitRun(s);
    if i < |s| && s[i] == '.' then ParseFraction(s[..i], s[i + 1..])
    else if i == 0 then None
    else WithExponent(s[..i], "", s[i..])
  }

  /** What follows the point: at least one fraction digit, then the
      exponent part. */
  function ParseFraction(whole: string, s: string): (r: Option<Decimal>)
    requires forall k :: 0 <= k < |whole| ==> IsDigit(whole[k])
    ensures r.Some? ==> s != "" && !r.value.negative
  {
    var j := DigitRun(s);
    if j == 0 then None else WithExponent(whole, s[..j], s[j..])
  }

  /** The digits read together, scaled by the exponent less the number of
      fraction digits. */
  function WithExponent(whole: string, fraction: string, tail: string): (r: Option<Decimal>)
    requires forall k :: 0 <= k < |whole| ==> IsDigit(whole[k])
    requires forall k :: 0 <= k < |fraction| ==> IsDigit(fraction[k])
    ensures r.Some? ==> !r.value.negative
    ensures tail == "" ==> r == Some(Decimal(false, DigitsValue(whole + fraction), -|fraction|))
  {
    assert forall k :: 0 <= k < |whole + fraction| ==> IsDigit((whole + fraction)[k]);
    match ParseExponent(tail)
    case None => None
    case Some(e) => Some(Decimal(false, DigitsValue(whole + fraction), e - |fraction|))
  }

  /** The number is at least 0 (`min="0"`) and a whole number (the default
      step of 1, counted from the minimum). */
  predicate WholeAndNonNegative(d: Decimal) {
    d.digits == 0
    || (!d.negative && (d.scale >= 0 || d.digits % Pow10(-d.scale) == 0))
  }

  /** The browser lets the budget through when it is empty, or when its text
      is a number that is whole and not negative. */
  predicate BudgetAllowed(budget: string) {
    budget == ""
    || (ParseNumber(budget).Some? && WholeAndNonNegative(ParseNumber(budget).value))
  }

  /** A budget typed as plain digits always passes. */
  lemma DigitsBudgetAllowed(budget: string)
    requires budget != "" && forall k :: 0 <= k < |budget| ==> IsDigit(budget[k])
    ensures BudgetAllowed(budget)
    ensures ParseNumber(budget) == Some(Decimal(false, DigitsValue(budget), 0))
  {
    assert DigitRun(budget) == |budget|;
    assert budget[..|budget|] == budget;
    assert budget + "" == budget && budget[|budget|..] == "";
  }

  /** A minus sign before digits that are not all zeros fails `min="0"`. */
  lemma NegativeBudgetRefused(digits: string)
    requires digits != "" && forall k :: 0 <= k < |digits| ==> IsDigit(digits[k])
    requires DigitsValue(digits) != 0
    ensures !BudgetAllowed("-" + digits)
  {
    DigitsBudgetAllowed(digits);
    assert ("-" + digits)[1..] == digits;
    assert ParseNumber("-" + digits) == Some(Decimal(true, DigitsValue(digits), 0));
  }

  /** Digits, a point and fraction digits: the value is the digits read
      together, scaled down by the length of the fraction. */
  lemma {:induction false} ParsePointed(whole: string, fraction: string)
    requires whole != "" && forall k :: 0 <= k < |whole| ==> IsDigit(whole[k])
    requires fraction != "" && forall k :: 0 <= k < |fraction| ==> IsDigit(fraction[k])
    ensures forall k :: 0 <= k < |whole + fraction| ==> IsDigit((whole + fraction)[k])
    ensures ParseNumber(whole + "." + fraction) == Some(Decimal(false, DigitsValue(whole + fraction), -|fraction|))
  {
    var s := whole + "." + fraction;
    assert s[|whole|] == '.';
    assert forall k :: 0 <= k < |whole| ==> s[k] == whole[k];
    assert DigitRun(s) == |whole|;
    assert s[..|whole|] == whole && s[|whole| + 1..] == fraction;
    assert DigitRun(fraction) == |fraction|;
    assert fraction[..|fraction|] == fraction && fraction[|fraction|..] == "";
    assert ParseFraction(whole, fraction) == WithExponent(whole, fraction, "");
  }

  /** "2.5" fails the step of 1. */
  lemma FractionBudgetRefused()
    ensures !BudgetAllowed("2.5")
  {
    ParsePointed("2", "5");
    assert "2" + "." + "5" == "2.5";
    assert DigitsValue("25") == 25 by {
      assert "2" + "5" == "25" && "25"[..1] == "2" && "2"[..0] == "";
    }
  }

  /** "3.0", a whole number written with a fraction, passes. */
  lemma PointZeroBudgetAllowed()
    ensures BudgetAllowed("3.0")
  {
    ParsePointed("3", "0");
    assert "3" + "." + "0" == "3.0";
    assert DigitsValue("30") == 30 by {
      assert "3" + "0" == "30" && "30"[..1] == "3" && "3"[..0] == "";
    }
  }

  /** The browser submits the form only when the two `required` inputs,
      title and description, are not empty and the budget passes its
      `min` and step checks. */
  predicate Submittable(d: Draft) {
    d.title != "" && d.description != "" && BudgetAllowed(d.budget)
  }

  /** The state slots of the component. */
  class Form {
    var project: Draft
    var newSkill: string

    constructor ()
      ensures project == InitialDraft && newSkill == ""
    {
      project := InitialDraft;
      newSkill := "";
    }

    /** The title, description, budget and deadline inputs. */
    method EditFields(title: string, description: string, budget: string, deadline: string)
      modifies this
      ensures project == old(project).(title := title, description := description, budget := budget, deadline := deadline)
      ensures newSkill == old(newSkill)
    {
      project := project.(title := title, description := description, budget := budget, deadline := deadline);
    }

    method SetNewSkill(text: string)
      modifies this
      ensures newSkill == text && project == old(project)
    {
      newSkill := text;
    }

    method AddSkill()
      modifies this
      ensures var e := SkillTags.AddSkill(old(project.skills), old(newSkill));
              project == old(project).(skills := e.skills) && newSkill == e.draft
    {
      var e := SkillTags.AddSkill(project.skills, newSkill);
      project := project.(skills := e.skills);
      newSkill := e.draft;
    }

    method RemoveSkill(skill: string)
      modifies this
      ensures project == old(project).(skills := SkillTags.RemoveSkill(old(project.skills), skill))
      ensures newSkill == old(newSkill)
    {
      project := project.(skills := SkillTags.RemoveSkill(project.skills, skill));
    }

    /** `handleSubmit` at clock reading `now`: what reaches `onSubmit`, if
        the browser lets the form through. The form keeps its contents. */
    method HandleSubmit(now: int) returns (submitted: Option<Submission>)
      ensures submitted.Some? <==> project.title != "" && project.description != "" && BudgetAllowed(project.budget)
      ensures submitted.Some? ==> DraftOf(submitted.value) == project
      ensures submitted.Some? ==> submitted.value.id == Num(now) && submitted.value.bidsCount == 0
    {
      if Submittable(project) {
        submitted := Some(SubmissionOf(project, now));
      } else {
        submitted := None;
      }
    }
  }
}
