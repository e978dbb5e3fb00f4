/** The supplier scoring panel: the colour and badge of a score, and the four
    overview figures over the supplier list (verified count, the two rounded
    averages, the certification total). */
module SupplierScoring {
  import opened Wrappers
  import opened JsNumbers
  import Seqs

  datatype Supplier = Supplier(
    id: int, name: string, carbonScore: int, reliabilityScore: int, costEfficiency: int,
    location: string, certifications: seq<string>, emissionRate: string, status: string)

  /** The suppliers the panel lists. */
  const Suppliers: seq<Supplier> := [
    Supplier(1, "GreenLogistics Corp", 95, 92, 88, "Portland, OR", ["ISO 14001", "SmartWay"], "2.1 kg CO₂/km", "verified"),
    Supplier(2, "EcoTransport Solutions", 89, 94, 85, "Denver, CO", ["EPA SmartWay", "Carbon Neutral"], "2.4 kg CO₂/km", "verified"),
    Supplier(3, "SustainableFreight Ltd", 91, 87, 90, "Austin, TX", ["Green Fleet"], "2.2 kg CO₂/km", "pending"),
    Supplier(4, "CleanHaul Logistics", 76, 89, 92, "Chicago, IL", ["ISO 14001"], "3.1 kg CO₂/km", "verified")
  ]

  /** `getScoreColor`: the colour of a score's figure. */
  function ScoreColor(score: int): string
  {
    if score >= 90 then "text-success"
    else if score >= 80 then "text-warning"
    else "text-destructive"
  }

  /** `getScoreBadge`: the variant of the supplier's action button. */
  function ScoreBadge(score: int): string
  {
    if score >= 90 then "default"
    else if score >= 80 then "secondary"
    else "outline"
  }

  /** The colour follows the score's band: 90 and up, 80 and up, below. */
  lemma ScoreColorBands(score: int)
    ensures ScoreColor(score) == "text-success" <==> score >= 90
    ensures ScoreColor(score) == "text-warning" <==> 80 <= score < 90
    ensures ScoreColor(score) == "text-destructive" <==> score < 80
  {
  }

  /** The badge and the colour always name the same band. */
  lemma BadgeAgreesWithColor(score: int)
    ensures ScoreBadge(score) == "default" <==> ScoreColor(score) == "text-success"
    ensures ScoreBadge(score) == "secondary" <==> ScoreColor(score) == "text-warning"
    ensures ScoreBadge(score) == "outline" <==> ScoreColor(score) == "text-destructive"
  {
  }

  predicate IsVerified(s: Supplier)
  {
    s.status == "verified"
  }

  /** `suppliers.filter(s => s.status === 'verified').length` */
  function VerifiedCount(suppliers: seq<Supplier>): nat
  {
    |Seqs.Filter(suppliers, IsVerified)|
  }

  /** The verified count never exceeds the number of suppliers, and reaches it
      exactly when every supplier is verified. */
  lemma VerifiedCountBound(suppliers: seq<Supplier>)
    ensures VerifiedCount(suppliers) <= |suppliers|
    ensures VerifiedCount(suppliers) == |suppliers| <==> forall s :: s in suppliers ==> IsVerified(s)
  {
    Seqs.FilterKeepsAll(suppliers, IsVerified);
  }

  /** `Math.round(suppliers.reduce((acc, s) => acc + score(s), 0) / suppliers.length)`;
      None for an empty list, where the division gives NaN. */
  function RoundedAverage(suppliers: seq<Supplier>, score: Supplier -> int): Option<int>
  {
    if suppliers == [] then None
    else Some(Round(Seqs.SumInt(suppliers, score) as real / |suppliers| as real))
  }

  function CarbonScore(s: Supplier): int { s.carbonScore }

  function ReliabilityScore(s: Supplier): int { s.reliabilityScore }

  /** The rounded average of scores that all lie between `lo` and `hi` lies
      between them too; only an empty list has none. */
  lemma RoundedAverageBetween(suppliers: seq<Supplier>, score: Supplier -> int, lo: int, hi: int)
    requires forall s :: s in suppliers ==> lo <= score(s) <= hi
    ensures RoundedAverage(suppliers, score).None? <==> suppliers == []
    ensures RoundedAverage(suppliers, score).Some? ==> lo <= RoundedAverage(suppliers, score).value <= hi
  {
    if suppliers != [] {
      var average := Seqs.SumInt(suppliers, score) as real / |suppliers| as real;
      AverageBetween(suppliers, score, lo, hi);
      RoundBetween(average, lo, hi);
    }
  }

  /** The plain average of scores between `lo` and `hi` lies between them. */
  lemma AverageBetween(suppliers: seq<Supplier>, score: Supplier -> int, lo: int, hi: int)
    requires suppliers != []
    requires forall s :: s in suppliers ==> lo <= score(s) <= hi
    ensures lo as real <= Seqs.SumInt(suppliers, score) as real / |suppliers| as real <= hi as real
  {
    var total := Seqs.SumInt(suppliers, score);
    assert |suppliers| * lo <= total <= |suppliers| * hi by {
      Seqs.SumIntBetween(suppliers, score, lo, hi);
    }
    QuotientOfBounds(|suppliers|, total, lo, hi);
  }

  /** A total between `count * lo` and `count * hi`, shared out over `count`. */
  lemma QuotientOfBounds(count: int, total: int, lo: int, hi: int)
    requires count > 0 && count * lo <= total <= count * hi
    ensures lo as real <= total as real / count as real <= hi as real
  {
    ProductAsReal(count, lo);
    ProductAsReal(count, hi);
    QuotientBetween(total as real, count as real, lo as real, hi as real);
  }

  /** Rounding a value between two integers stays between them. */
  lemma RoundBetween(x: real, lo: int, hi: int)
    requires lo as real <= x <= hi as real
    ensures lo <= Round(x) <= hi
  {
    RoundNear(x);
  }

  lemma ProductAsReal(a: int, b: int)
    ensures (a * b) as real == a as real * b as real
  {
  }

  lemma QuotientBetween(t: real, n: real, lo: real, hi: real)
    requires n > 0.0 && n * lo <= t <= n * hi
    ensures lo <= t / n <= hi
  {
    assert t / n * n == t;
  }

  /** The smallest and largest score in a non-empty list. */
  function MinScore(suppliers: seq<Supplier>, score: Supplier -> int): (m: int)
    requires suppliers != []
    ensures forall s :: s in suppliers ==> m <= score(s)
    ensures exists s :: s in suppliers && m == score(s)
  {
    if |suppliers| == 1 then score(suppliers[0])
    else
      var rest := MinScore(suppliers[1..], score);
      assert forall s :: s in suppliers <==> s == suppliers[0] || s in suppliers[1..];
      if score(suppliers[0]) <= rest then score(suppliers[0]) else rest
  }

  function MaxScore(suppliers: seq<Supplier>, score: Supplier -> int): (m: int)
    requires suppliers != []
    ensures forall s :: s in suppliers ==> score(s) <= m
    ensures exists s :: s in suppliers && m == score(s)
  {
    if |suppliers| == 1 then score(suppliers[0])
    else
      var rest := MaxScore(suppliers[1..], score);
      assert forall s :: s in suppliers <==> s == suppliers[0] || s in suppliers[1..];
      if score(suppliers[0]) >= rest then score(suppliers[0]) else rest
  }

  /** The rounded average lies between the lowest and the highest score. */
  lemma RoundedAverageWithinScores(suppliers: seq<Supplier>, score: Supplier -> int)
    requires suppliers != []
    ensures RoundedAverage(suppliers, score).Some?
    ensures MinScore(suppliers, score) <= RoundedAverage(suppliers, score).value <= MaxScore(suppliers, score)
  {
    RoundedAverageBetween(suppliers, score, MinScore(suppliers, score), MaxScore(suppliers, score));
  }

  function CertificationCount(s: Supplier): int { |s.certifications| }

  /** `suppliers.reduce((acc, s) => acc + s.certifications.length, 0)` */
  function CertificationTotal(suppliers: seq<Supplier>): int
  {
    Seqs.SumInt(suppliers, CertificationCount)
  }

  /** The total over two lists is the sum of their totals, so adding a supplier
      adds exactly its certifications. */
  lemma CertificationTotalAppend(a: seq<Supplier>, b: seq<Supplier>)
    ensures CertificationTotal(a + b) == CertificationTotal(a) + CertificationTotal(b)
  {
    Seqs.SumIntAppend(a, b, CertificationCount);
  }

  /** The overview of the listed suppliers: 3 verified, average carbon score 88
      (87.75 rounded), average reliability 91 (90.5 rounded up), 6 certifications. */
  lemma Overview()
    ensures VerifiedCount(Suppliers) == 3
    ensures RoundedAverage(Suppliers, CarbonScore) == Some(88)
    ensures RoundedAverage(Suppliers, ReliabilityScore) == Some(91)
    ensures CertificationTotal(Suppliers) == 6
  {
    VerifiedOverview();
    assert Seqs.SumInt(Suppliers, CarbonScore) == 351 by {
      SumOfFour(Suppliers, CarbonScore);
    }
    RoundedAverageOfFour(Suppliers, CarbonScore, 351, 88);
    assert Seqs.SumInt(Suppliers, ReliabilityScore) == 362 by {
      SumOfFour(Suppliers, ReliabilityScore);
    }
    RoundedAverageOfFour(Suppliers, ReliabilityScore, 362, 91);
    assert CertificationTotal(Suppliers) == 6 by {
      SumOfFour(Suppliers, CertificationCount);
    }
  }

  lemma VerifiedOverview()
    ensures VerifiedCount(Suppliers) == 3
  {
    var s := Suppliers;
    assert IsVerified(s[0]) && IsVerified(s[1]) && !IsVerified(s[2]) && IsVerified(s[3]);
    assert s[3..][1..] == [];
    assert Seqs.Filter(s[3..], IsVerified) == [s[3]];
    assert s[2..][1..] == s[3..];
    assert Seqs.Filter(s[2..], IsVerified) == [s[3]];
    assert s[1..][1..] == s[2..];
    assert Seqs.Filter(s[1..], IsVerified) == [s[1], s[3]];
  }

  lemma RoundedAverageOfFour(s: seq<Supplier>, f: Supplier -> int, total: int, rounded: int)
    requires |s| == 4 && Seqs.SumInt(s, f) == total
    requires rounded as real - 0.5 <= total as real / 4.0 < rounded as real + 0.5
    ensures RoundedAverage(s, f) == Some(rounded)
  {
  }

  lemma SumOfFour(s: seq<Supplier>, f: Supplier -> int)
    requires |s| == 4
    ensures Seqs.SumInt(s, f) == f(s[0]) + f(s[1]) + f(s[2]) + f(s[3])
  {
    assert s[1..][1..] == s[2..] && s[2..][1..] == s[3..] && s[3..][1..] == [];
    assert Seqs.SumInt(s[3..], f) == f(s[3]);
    assert Seqs.SumInt(s[2..], f) == f(s[2]) + f(s[3]);
  }
}
