/** The profile-completeness percentage shown to a freelancer: 30 points
    for having skills, 30 for a portfolio, 20 for a bio and 20 for an hourly
    rate. ProfileManagement computes it as `calculateCompleteness` and
    FreelancerDashboard as `calculateProfileComplete`. */
module Completeness {

  const SkillsWeight: nat := 30
  const PortfolioWeight: nat := 30
  const BioWeight: nat := 20
  const RateWeight: nat := 20

  /** Which of the four scored parts a profile has filled in. */
  datatype Signals = Signals(hasSkills: bool, hasPortfolio: bool, hasBio: bool, hasRate: bool)

  const NoSignals := Signals(false, false, false, false)
  const AllSignals := Signals(true, true, true, true)

  function Points(present: bool, weight: nat): nat {
    if present then weight else 0
  }

  /** The weighted sum of the parts that are present. */
  function Score(s: Signals): (r: nat)
    ensures r <= 100
    ensures r == 0 <==> s == NoSignals
    ensures r == 100 <==> s == AllSignals
  {
    Points(s.hasSkills, SkillsWeight) + Points(s.hasPortfolio, PortfolioWeight)
    + Points(s.hasBio, BioWeight) + Points(s.hasRate, RateWeight)
  }

  /** `b` has every part `a` has. */
  predicate Covers(b: Signals, a: Signals) {
    (a.hasSkills ==> b.hasSkills) && (a.hasPortfolio ==> b.hasPortfolio)
    && (a.hasBio ==> b.hasBio) && (a.hasRate ==> b.hasRate)
  }

  /** Filling in a part never lowers the score. */
  lemma ScoreMonotone(a: Signals, b: Signals)
    requires Covers(b, a)
    ensures Score(a) <= Score(b)
  {
  }

  /** Filling in one more part raises the score by that part's weight. */
  lemma ScoreAddsWeight(s: Signals)
    ensures !s.hasSkills ==> Score(s.(hasSkills := true)) == Score(s) + SkillsWeight
    ensures !s.hasPortfolio ==> Score(s.(hasPortfolio := true)) == Score(s) + PortfolioWeight
    ensures !s.hasBio ==> Score(s.(hasBio := true)) == Score(s) + BioWeight
    ensures !s.hasRate ==> Score(s.(hasRate := true)) == Score(s) + RateWeight
  {
  }

  /** The walk-through of an empty profile being filled in: 0, then 30 with
      a skill, 50 with a bio, 70 with a rate and 100 with a portfolio item. */
  lemma FillingInExample()
    ensures Score(NoSignals) == 0
    ensures Score(Signals(true, false, false, false)) == 30
    ensures Score(Signals(true, false, true, false)) == 50
    ensures Score(Signals(true, false, true, true)) == 70
    ensures Score(Signals(true, true, true, true)) == 100
  {
  }
}
