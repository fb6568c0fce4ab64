/** File names of the checkpoint directory: how `step_{step:06d}.pt` sorts, and which names the
    directory search can return. */
module CheckpointNames {
  import opened Options
  import opened Decimal

  datatype FileName =
    | Latest
    | StepFile(step: nat)
    | Temp(target: FileName, random: string)

  function Zeros(k: nat): string {
    seq(k, i => '0')
  }

  /** `f"{step:06d}"`. */
  function Padded(step: nat): string {
    var digits := Digits(step);
    if |digits| < 6 then Zeros(6 - |digits|) + digits else digits
  }

  function Text(f: FileName): string {
    match f
    case Latest => "latest.pt"
    case StepFile(step) => "step_" + Padded(step) + ".pt"
    case Temp(target, random) => "." + Text(target) + "." + random + ".tmp"
  }

  /** `glob("step_*.pt")`. */
  predicate MatchesSearch(name: string) {
    |name| >= 8 && name[..5] == "step_" && name[|name| - 3..] == ".pt"
  }

  predicate NameBefore(a: nat, b: nat) {
    Before(Text(StepFile(a)), Text(StepFile(b)))
  }

  lemma {:induction false} ZerosExtend(k: nat, n: nat, width: nat)
    requires n < Pow10(width)
    ensures Zeros(k) + Fixed(n, width) == Fixed(n, k + width)
    decreases width
  {
    if width > 0 {
      ZerosExtend(k, n / 10, width - 1);
      assert Zeros(k) + Fixed(n, width) == (Zeros(k) + Fixed(n / 10, width - 1)) + [DigitChar(n % 10)];
    } else {
      FixedZero(k);
    }
  }

  lemma {:induction false} FixedZero(k: nat)
    ensures Zeros(k) == Fixed(0, k)
  {
    if k > 0 {
      FixedZero(k - 1);
      assert Zeros(k) == Zeros(k - 1) + ['0'];
    }
  }

  lemma PaddedIsFixed(n: nat)
    ensures |Padded(n)| == if |Digits(n)| < 6 then 6 else |Digits(n)|
    ensures Padded(n) == Fixed(n, |Padded(n)|) && n < Pow10(|Padded(n)|)
  {
    DigitsWidth(n);
    if |Digits(n)| < 6 {
      ZerosExtend(6 - |Digits(n)|, n, |Digits(n)|);
      Pow10Grows(|Digits(n)|, 6);
    }
  }

  /** The name of a step: its decimal numeral with at least six digits, and no more zeros in front. */
  lemma NameOfStep(step: nat) returns (digits: string)
    ensures Text(StepFile(step)) == "step_" + digits + ".pt" && ReadDigits(digits) == Some(step)
    ensures |digits| >= 6 && (|digits| > 6 ==> step >= Pow10(|digits| - 1))
  {
    digits := Padded(step);
    PaddedIsFixed(step);
    DigitsWidth(step);
    FixedReads(step, |digits|);
  }

  lemma {:induction false} FixedReads(n: nat, width: nat)
    requires n < Pow10(width)
    ensures Value(Fixed(n, width)) == n && forall c :: c in Fixed(n, width) ==> IsDigit(c)
  {
    if width > 0 {
      FixedReads(n / 10, width - 1);
      var front := Fixed(n / 10, width - 1);
      assert (front + [DigitChar(n % 10)])[..width - 1] == front;
    }
  }

  /** For every pair of steps, the older name sorts first exactly when the older step does not exceed
      the newer numeral cut to the older one's width. */
  lemma NameOrderExactly(a: nat, b: nat)
    requires a < b
    ensures |Padded(a)| <= |Padded(b)|
    ensures NameBefore(a, b) <==> a <= b / Pow10(|Padded(b)| - |Padded(a)|)
  {
    PaddedIsFixed(a);
    PaddedIsFixed(b);
    DigitsGrow(a, b);
    var width := |Padded(a)|;
    var k := |Padded(b)| - width;
    CutFits(b, width, k);
    CutDivides(b, k);
    FixedSplits(b, width, k);
    NameOrderByLead(a, b, width, Cut(b, k), Fixed(b, k));
    ExtensionComesBeforeDigits(b, k);
  }

  lemma NameOrderByLead(a: nat, b: nat, width: nat, lead: nat, tail: string)
    requires a < Pow10(width) && lead < Pow10(width)
    requires Padded(a) == Fixed(a, width) && Padded(b) == Fixed(lead, width) + tail
    ensures NameBefore(a, b) <==> a < lead || (a == lead && Before("" + ".pt", tail + ".pt"))
  {
    assert Padded(a) == Fixed(a, width) + "";
    TextAsSplit(a, Fixed(a, width), "");
    TextAsSplit(b, Fixed(lead, width), tail);
    BeforeSkipsCommonPrefix("step_", Fixed(a, width) + ("" + ".pt"), Fixed(lead, width) + (tail + ".pt"));
    FixedOrder(a, lead, width, "" + ".pt", tail + ".pt");
  }

  lemma TextAsSplit(n: nat, lead: string, tail: string)
    requires Padded(n) == lead + tail
    ensures Text(StepFile(n)) == "step_" + (lead + (tail + ".pt"))
  {
    assert "step_" + (lead + tail) + ".pt" == "step_" + (lead + (tail + ".pt"));
  }

  /** A full stop sorts before every digit, so a numeral that extends another sorts after it. */
  lemma ExtensionComesBeforeDigits(b: nat, k: nat)
    ensures Before("" + ".pt", Fixed(b, k) + ".pt") <==> k > 0
  {
    assert "" + ".pt" == ".pt";
    if k > 0 {
      assert IsDigit((Fixed(b, k) + ".pt")[0]);
    } else {
      assert Fixed(b, k) + ".pt" == ".pt";
      BeforeIsStrict(".pt", ".pt");
    }
  }

  /** Below one million the names sort as the steps do. */
  lemma NameOrderIsStepOrder(a: nat, b: nat)
    requires a < 1_000_000 && b < 1_000_000
    ensures NameBefore(a, b) <==> a < b
  {
    SixDigits(a);
    SixDigits(b);
    BeforeIsStrict(Text(StepFile(a)), Text(StepFile(b)));
    if a < b {
      NameOrderExactly(a, b);
    } else if b < a {
      NameOrderExactly(b, a);
    }
  }

  lemma SixDigits(n: nat)
    ensures n < 1_000_000 <==> |Padded(n)| == 6
  {
    assert Pow10(6) == 1_000_000;
    DigitsWidth(n);
    PaddedIsFixed(n);
    if |Digits(n)| > 6 {
      Pow10Grows(6, |Digits(n)| - 1);
    } else {
      Pow10Grows(|Digits(n)|, 6);
    }
  }

  lemma MillionIsWide()
    ensures |Padded(1_000_000)| == 7
  {
    var width := |Digits(1_000_000)|;
    assert Pow10(6) == 1_000_000 && Pow10(7) == 10_000_000;
    DigitsWidth(1_000_000);
    if width < 7 {
      Pow10Grows(width, 6);
    } else if width > 7 {
      Pow10Grows(7, width - 1);
    }
    PaddedIsFixed(1_000_000);
  }

  /** At one million the order breaks: the newer checkpoint sorts before the older one. */
  lemma NameOrderBreaksAtOneMillion()
    ensures !NameBefore(999_999, 1_000_000) && NameBefore(1_000_000, 999_999)
  {
    SixDigits(999_999);
    MillionIsWide();
    NameOrderExactly(999_999, 1_000_000);
    assert Pow10(1) == 10;
    BeforeIsStrict(Text(StepFile(999_999)), Text(StepFile(1_000_000)));
    assert Padded(999_999) != Padded(1_000_000);
    NamesDiffer(999_999, 1_000_000);
  }

  lemma NamesDiffer(a: nat, b: nat)
    requires a != b
    ensures Text(StepFile(a)) != Text(StepFile(b))
  {
    PaddedIsFixed(a);
    PaddedIsFixed(b);
    var width := |Padded(a)|;
    if Text(StepFile(a)) == Text(StepFile(b)) {
      var s := Text(StepFile(a));
      assert s[5..|s| - 3] == Padded(a) && s[5..|s| - 3] == Padded(b);
      FixedOrder(a, b, width, "", "");
      FixedOrder(b, a, width, "", "");
      BeforeIsStrict(Padded(a) + "", Padded(b) + "");
      BeforeIsStrict(Padded(a) + "", Padded(a) + "");
      assert false;
    }
  }

  /** The search returns every published step file and nothing else: temporary files and `latest.pt`
      never match, and no other file is called `latest.pt`. */
  lemma SearchFindsOnlyStepFiles(f: FileName)
    ensures MatchesSearch(Text(f)) <==> f.StepFile?
    ensures Text(f) == "latest.pt" <==> f.Latest?
  {
    var t := Text(f);
    match f
    case Latest =>
      assert t[0] == 'l' && "step_"[0] == 's';
    case StepFile(step) =>
      PaddedIsFixed(step);
      assert t == "step_" + (Padded(step) + ".pt");
      assert t[0] == 's' && "latest.pt"[0] == 'l';
    case Temp(target, random) =>
      assert t[0] == '.' && "step_"[0] == 's' && "latest.pt"[0] == 'l';
  }
}
