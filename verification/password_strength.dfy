/** The password strength meter: an additive score over five checks and a
    length bonus, the messages for the checks that fail, and a four-way grade. */
module PasswordStrength {
  import Seqs

  /** `[a-z]` */
  predicate IsLower(c: char)
  {
    'a' <= c <= 'z'
  }

  /** `[A-Z]` */
  predicate IsUpper(c: char)
  {
    'A' <= c <= 'Z'
  }

  /** `\d`: only the ASCII digits. */
  predicate IsDigit(c: char)
  {
    '0' <= c <= '9'
  }

  /** The characters of the class `[!@#$%^&*(),.?":{}|<>]`, and no others. */
  const SpecialCharacters: string := "!@#$%^&*(),.?\":{}|<>"

  predicate IsSpecial(c: char)
  {
    c in SpecialCharacters
  }

  /** No letter or digit is a special character, so the special check never
      passes on what the other checks look for. */
  lemma SpecialNotAlphanumeric(c: char)
    ensures IsSpecial(c) ==> !IsLower(c) && !IsUpper(c) && !IsDigit(c)
  {
    assert forall i :: 0 <= i < |SpecialCharacters| ==>
      !IsLower(SpecialCharacters[i]) && !IsUpper(SpecialCharacters[i]) && !IsDigit(SpecialCharacters[i]);
  }

  /** The class has twenty characters and leaves out common punctuation such
      as the space, '-', '_', '~' and the apostrophe. */
  lemma SpecialLeavesOut()
    ensures |SpecialCharacters| == 20
    ensures !IsSpecial(' ') && !IsSpecial('-') && !IsSpecial('_') && !IsSpecial('~') && !IsSpecial('\'')
  {
    var excluded := " -_~'";
    assert forall i :: 0 <= i < |SpecialCharacters| ==> SpecialCharacters[i] !in excluded;
  }

  /** `/[…]/.test(p)` for a one-character class: some character of `p` is in it. */
  predicate Occurs(p: string, inClass: char -> bool)
  {
    p != "" && (inClass(p[0]) || Occurs(p[1..], inClass))
  }

  /** The five checks, in the order the meter runs them and reports them. */
  datatype Check = Length | Lowercase | Uppercase | Numbers | Special

  const Checks: seq<Check> := [Length, Lowercase, Uppercase, Numbers, Special]

  predicate Passes(c: Check, p: string)
  {
    match c
    case Length => |p| >= 8
    case Lowercase => Occurs(p, IsLower)
    case Uppercase => Occurs(p, IsUpper)
    case Numbers => Occurs(p, IsDigit)
    case Special => Occurs(p, IsSpecial)
  }

  /** What a passing check adds to the score. */
  function Points(c: Check): nat
  {
    if c == Length then 25 else 15
  }

  /** The feedback line a failing check adds. */
  function Message(c: Check): string
  {
    match c
    case Length => "At least 8 characters"
    case Lowercase => "Add lowercase letters"
    case Uppercase => "Add uppercase letters"
    case Numbers => "Add numbers"
    case Special => "Add special characters"
  }

  /** The points of the checks in `cs` that `p` passes. */
  function Earned(cs: seq<Check>, p: string): nat
  {
    if cs == [] then 0 else (if Passes(cs[0], p) then Points(cs[0]) else 0) + Earned(cs[1..], p)
  }

  /** The checks in `cs` that `p` fails, in order. */
  function Failed(cs: seq<Check>, p: string): seq<Check>
  {
    Seqs.Filter(cs, c => !Passes(c, p))
  }

  /** Their messages, in the same order. */
  function Messages(cs: seq<Check>): (r: seq<string>)
    ensures |r| == |cs|
  {
    if cs == [] then [] else [Message(cs[0])] + Messages(cs[1..])
  }

  /** 15 points from length 12, 10 from length 10, none below. */
  function LengthBonus(p: string): nat
  {
    if |p| >= 12 then 15 else if |p| >= 10 then 10 else 0
  }

  /** The score before it is capped at 100. */
  function RawScore(p: string): nat
  {
    Earned(Checks, p) + LengthBonus(p)
  }

  /** What the meter shows. */
  datatype StrengthResult = StrengthResult(score: int, feedback: seq<string>, color: string, display: string)

  /** The four grades, from the score. */
  datatype Band = Strong | Fair | Moderate | Weak

  function BandOf(score: int): Band
  {
    if score >= 80 then Strong
    else if score >= 60 then Fair
    else if score >= 40 then Moderate
    else Weak
  }

  /** The colour of the bar for a grade. */
  function BarColor(b: Band): string
  {
    match b
    case Strong => "bg-success"
    case Fair => "bg-warning"
    case Moderate => "bg-accent"
    case Weak => "bg-destructive"
  }

  /** The word shown for a grade. */
  function Label(b: Band): string
  {
    match b
    case Strong => "Strong"
    case Fair => "Fair"
    case Moderate => "Moderate"
    case Weak => "Weak"
  }

  /** The colour of the shown word for a grade. */
  function TextColor(b: Band): string
  {
    match b
    case Strong => "text-success"
    case Fair => "text-warning"
    case Moderate => "text-accent"
    case Weak => "text-destructive"
  }

  function Min(a: int, b: int): int
  {
    if a <= b then a else b
  }

  /** The meter's result for `p`, stated over the list of checks. */
  function StrengthOf(p: string): StrengthResult
  {
    if p == "" then StrengthResult(0, [], "bg-muted", "Enter password")
    else
      var raw := RawScore(p);
      StrengthResult(Min(raw, 100), Messages(Failed(Checks, p)), BarColor(BandOf(raw)), Label(BandOf(raw)))
  }

  /** The points of the five checks, written out. */
  function CheckPoints(p: string): nat
  {
    (if |p| >= 8 then 25 else 0) + (if Occurs(p, IsLower) then 15 else 0) + (if Occurs(p, IsUpper) then 15 else 0)
    + (if Occurs(p, IsDigit) then 15 else 0) + (if Occurs(p, IsSpecial) then 15 else 0)
  }

  /** The feedback of the five checks, written out. */
  function CheckFeedback(p: string): seq<string>
  {
    (if |p| >= 8 then [] else [Message(Length)])
    + (if Occurs(p, IsLower) then [] else [Message(Lowercase)])
    + (if Occurs(p, IsUpper) then [] else [Message(Uppercase)])
    + (if Occurs(p, IsDigit) then [] else [Message(Numbers)])
    + (if Occurs(p, IsSpecial) then [] else [Message(Special)])
  }

  /** Summing over the list of checks is summing the five written out. */
  lemma EarnedWrittenOut(p: string)
    ensures Earned(Checks, p) == CheckPoints(p)
  {
    var c1 := Checks[1..];
    var c2 := c1[1..];
    var c3 := c2[1..];
    var c4 := c3[1..];
    assert c4 == [Special] && c4[1..] == [];
    assert Earned(c4, p) == (if Occurs(p, IsSpecial) then 15 else 0);
    assert c3[0] == Numbers;
    assert Earned(c3, p) == (if Occurs(p, IsDigit) then 15 else 0) + Earned(c4, p);
    assert c2[0] == Uppercase;
    assert Earned(c2, p) == (if Occurs(p, IsUpper) then 15 else 0) + Earned(c3, p);
    assert c1[0] == Lowercase;
    assert Earned(c1, p) == (if Occurs(p, IsLower) then 15 else 0) + Earned(c2, p);
  }

  /** Listing the messages of the failed checks is listing the five written out. */
  lemma FeedbackWrittenOut(p: string)
    ensures Messages(Failed(Checks, p)) == CheckFeedback(p)
  {
    var c1 := Checks[1..];
    var c2 := c1[1..];
    var c3 := c2[1..];
    var c4 := c3[1..];
    assert c4 == [Special] && c4[1..] == [];
    MessagesFailedStep(c4, p);
    var f4 := if Occurs(p, IsSpecial) then [] else [Message(Special)];
    assert Messages(Failed(c4, p)) == f4;
    MessagesFailedStep(c3, p);
    var f3 := (if Occurs(p, IsDigit) then [] else [Message(Numbers)]) + f4;
    assert Messages(Failed(c3, p)) == f3;
    MessagesFailedStep(c2, p);
    var f2 := (if Occurs(p, IsUpper) then [] else [Message(Uppercase)]) + f3;
    assert Messages(Failed(c2, p)) == f2;
    MessagesFailedStep(c1, p);
    var f1 := (if Occurs(p, IsLower) then [] else [Message(Lowercase)]) + f2;
    assert Messages(Failed(c1, p)) == f1;
    MessagesFailedStep(Checks, p);
    var f0 := if |p| >= 8 then [] else [Message(Length)];
    assert Messages(Failed(Checks, p)) == f0 + f1;
    var g1 := if Occurs(p, IsLower) then [] else [Message(Lowercase)];
    var g2 := if Occurs(p, IsUpper) then [] else [Message(Uppercase)];
    var g3 := if Occurs(p, IsDigit) then [] else [Message(Numbers)];
    AppendAssociative(f0, g1, g2, g3, f4);
  }

  lemma AppendAssociative<T>(a: seq<T>, b: seq<T>, c: seq<T>, d: seq<T>, e: seq<T>)
    ensures a + (b + (c + (d + e))) == a + b + c + d + e
  {
  }

  /** The meter's result with the five checks written out. */
  lemma StrengthWrittenOut(p: string)
    requires p != ""
    ensures RawScore(p) == CheckPoints(p) + LengthBonus(p)
    ensures StrengthOf(p).score == Min(RawScore(p), 100)
    ensures StrengthOf(p).feedback == CheckFeedback(p)
    ensures StrengthOf(p).color == BarColor(BandOf(RawScore(p)))
    ensures StrengthOf(p).display == Label(BandOf(RawScore(p)))
  {
    EarnedWrittenOut(p);
    FeedbackWrittenOut(p);
  }

  lemma MessagesFailedStep(cs: seq<Check>, p: string)
    requires cs != []
    ensures Messages(Failed(cs, p))
         == (if Passes(cs[0], p) then [] else [Message(cs[0])]) + Messages(Failed(cs[1..], p))
  {
    var rest := Failed(cs[1..], p);
    if !Passes(cs[0], p) {
      assert Failed(cs, p) == [cs[0]] + rest;
      assert Failed(cs, p)[1..] == rest;
    } else {
      assert Failed(cs, p) == rest;
    }
  }

  /** The meter as the component computes it: the score is accumulated check by
      check, the feedback pushed as checks fail, and the grade chosen by
      reassigning a default. */
  method Strength(password: string) returns (r: StrengthResult)
    ensures r == StrengthOf(password)
  {
    if password == "" {
      return StrengthResult(0, [], "bg-muted", "Enter password");
    }
    var score := 0;
    var feedback: seq<string> := [];
    if |password| >= 8 {
      score := score + 25;
    } else {
      feedback := feedback + [Message(Length)];
    }
    ghost var f0 := if |password| >= 8 then [] else [Message(Length)];
    assert feedback == f0;
    if Occurs(password, IsLower) {
      score := score + 15;
    } else {
      feedback := feedback + [Message(Lowercase)];
    }
    ghost var f1 := f0 + (if Occurs(password, IsLower) then [] else [Message(Lowercase)]);
    assert feedback == f1;
    if Occurs(password, IsUpper) {
      score := score + 15;
    } else {
      feedback := feedback + [Message(Uppercase)];
    }
    ghost var f2 := f1 + (if Occurs(password, IsUpper) then [] else [Message(Uppercase)]);
    assert feedback == f2;
    if Occurs(password, IsDigit) {
      score := score + 15;
    } else {
      feedback := feedback + [Message(Numbers)];
    }
    ghost var f3 := f2 + (if Occurs(password, IsDigit) then [] else [Message(Numbers)]);
    assert feedback == f3;
    if Occurs(password, IsSpecial) {
      score := score + 15;
    } else {
      feedback := feedback + [Message(Special)];
    }
    assert score == CheckPoints(password);
    assert feedback == CheckFeedback(password);
    if |password| >= 12 {
      score := score + 15;
    } else if |password| >= 10 {
      score := score + 10;
    }
    var color, display := GradeFor(score);
    StrengthWrittenOut(password);
    r := StrengthResult(Min(score, 100), feedback, color, display);
  }

  /** The colour and word for a score: a default of "Weak", replaced by the
      first band the score reaches from the top. */
  method GradeFor(score: int) returns (color: string, display: string)
    ensures color == BarColor(BandOf(score)) && display == Label(BandOf(score))
  {
    color := "bg-destructive";
    display := "Weak";
    if score >= 80 {
      color := "bg-success";
      display := "Strong";
    } else if score >= 60 {
      color := "bg-warning";
      display := "Fair";
    } else if score >= 40 {
      color := "bg-accent";
      display := "Moderate";
    }
  }

  /** An empty password shows score 0, no feedback and the prompt. */
  lemma EmptyPassword()
    ensures StrengthOf("") == StrengthResult(0, [], "bg-muted", "Enter password")
  {
  }

  /** The score never exceeds 100, so the cap at 100 never changes it, and it is
      a multiple of 5. */
  lemma ScoreRange(p: string)
    requires p != ""
    ensures RawScore(p) <= 100 && RawScore(p) % 5 == 0
    ensures StrengthOf(p).score == RawScore(p)
  {
    EarnedWrittenOut(p);
  }

  /** The feedback holds one message per failed check and no other, in the order
      of the checks; the length bonus never adds feedback. */
  lemma FeedbackIsFailedChecks(p: string)
    requires p != ""
    ensures |StrengthOf(p).feedback| == |Failed(Checks, p)|
    ensures forall c :: c in Checks ==> (Message(c) in StrengthOf(p).feedback <==> !Passes(c, p))
    ensures Seqs.IsSubsequence(StrengthOf(p).feedback, Messages(Checks))
  {
    var failed := Failed(Checks, p);
    Seqs.FilterIsSubsequence(Checks, c => !Passes(c, p));
    MessagesSubsequence(failed, Checks);
    forall c | c in Checks
      ensures Message(c) in Messages(failed) <==> !Passes(c, p)
    {
      MessageIn(failed, c);
      Seqs.FilterMultiplicity(Checks, c => !Passes(c, p), c);
      assert c in failed <==> multiset(failed)[c] > 0;
    }
  }

  /** Distinct checks have distinct messages, so a message is in the list exactly
      when its check is. */
  lemma {:induction false} MessageIn(cs: seq<Check>, c: Check)
    ensures Message(c) in Messages(cs) <==> c in cs
  {
    if cs != [] {
      MessageIn(cs[1..], c);
      assert Messages(cs) == [Message(cs[0])] + Messages(cs[1..]);
      assert cs == [cs[0]] + cs[1..];
    }
  }

  lemma {:induction false} MessagesSubsequence(a: seq<Check>, b: seq<Check>)
    requires Seqs.IsSubsequence(a, b)
    ensures Seqs.IsSubsequence(Messages(a), Messages(b))
    decreases |b|
  {
    if a != [] && b != [] {
      assert Messages(b)[0] == Message(b[0]) && Messages(b)[1..] == Messages(b[1..]);
      if a[0] == b[0] {
        MessagesSubsequence(a[1..], b[1..]);
        assert Messages(a)[0] == Message(a[0]) && Messages(a)[1..] == Messages(a[1..]);
      } else {
        MessagesSubsequence(a, b[1..]);
        if Message(a[0]) == Message(b[0]) {
          Seqs.SubsequenceOfTail(Messages(a), Messages(b));
        }
      }
    }
  }

  /** The grade follows the score's band: 80 and up, 60 and up, 40 and up, below. */
  lemma BandThresholds(score: int)
    ensures BandOf(score) == Strong <==> score >= 80
    ensures BandOf(score) == Fair <==> 60 <= score < 80
    ensures BandOf(score) == Moderate <==> 40 <= score < 60
    ensures BandOf(score) == Weak <==> score < 40
  {
  }

  /** The word's colour is chosen from the capped score and the bar's from the
      uncapped one, yet both come from the same grade (so, by `SameHue`, they
      name the same theme colour). */
  lemma TextColorMatchesBar(p: string)
    requires p != ""
    ensures BandOf(StrengthOf(p).score) == BandOf(RawScore(p))
    ensures StrengthOf(p).color == BarColor(BandOf(StrengthOf(p).score))
    ensures TextColor(BandOf(StrengthOf(p).score)) == TextColor(BandOf(RawScore(p)))
  {
    ScoreRange(p);
  }

  /** The word's colour and the bar's colour name the same theme colour. */
  lemma SameHue(b: Band)
    ensures TextColor(b)[..5] == "text-" && BarColor(b)[..3] == "bg-"
    ensures TextColor(b)[5..] == BarColor(b)[3..]
  {
  }

  /** A password with no feedback passes every check and is graded "Strong". */
  lemma NoFeedbackIsStrong(p: string)
    requires p != "" && StrengthOf(p).feedback == []
    ensures BandOf(RawScore(p)) == Strong && StrengthOf(p).display == "Strong" && StrengthOf(p).score >= 85
  {
    EarnedWrittenOut(p);
  }

  /** At least 12 characters with all four character classes: the full 100, "Strong". */
  lemma StrongestPasswords(p: string)
    requires |p| >= 12 && Occurs(p, IsLower) && Occurs(p, IsUpper) && Occurs(p, IsDigit) && Occurs(p, IsSpecial)
    ensures StrengthOf(p) == StrengthResult(100, [], "bg-success", "Strong")
  {
    EarnedWrittenOut(p);
  }

  /** A character class found in `p` is still found once more text follows. */
  lemma {:induction false} OccursAppend(p: string, q: string, inClass: char -> bool)
    requires Occurs(p, inClass)
    ensures Occurs(p + q, inClass)
  {
    assert (p + q)[0] == p[0];
    if !inClass(p[0]) {
      OccursAppend(p[1..], q, inClass);
      assert (p + q)[1..] == p[1..] + q;
    }
  }

  /** Adding characters never lowers the score and never fails a check that passed. */
  lemma AppendNeverWeakens(p: string, q: string)
    ensures RawScore(p) <= RawScore(p + q)
    ensures forall c :: Passes(c, p) ==> Passes(c, p + q)
  {
    ChecksKept(p, q);
    assert CheckPoints(p) <= CheckPoints(p + q) by {
      assert Passes(Lowercase, p) ==> Passes(Lowercase, p + q);
      assert Passes(Uppercase, p) ==> Passes(Uppercase, p + q);
      assert Passes(Numbers, p) ==> Passes(Numbers, p + q);
      assert Passes(Special, p) ==> Passes(Special, p + q);
    }
    EarnedWrittenOut(p);
    EarnedWrittenOut(p + q);
  }

  lemma ChecksKept(p: string, q: string)
    ensures forall c :: Passes(c, p) ==> Passes(c, p + q)
  {
    forall c | Passes(c, p) ensures Passes(c, p + q) {
      match c
      case Length =>
      case Lowercase => OccursAppend(p, q, IsLower);
      case Uppercase => OccursAppend(p, q, IsUpper);
      case Numbers => OccursAppend(p, q, IsDigit);
      case Special => OccursAppend(p, q, IsSpecial);
    }
  }
}
