/** The period codes a fiscal calendar yields. The oracle hands the calendar no
    custom periods, so a custom pattern has no calendar at all. */
module FiscalCodes {
  import opened Text

  /** Month-based, or based on the weeks of its year: 52 or 53 of them, and
      grouped into thirteen periods or into months. */
  datatype Pattern = Standard | WeekBased(thirteen: bool, weeks: nat)

  /** "M1", "M2" and so on. */
  function Numbered(prefix: string, n: nat): seq<string>
  {
    seq(n, i requires 0 <= i < n => prefix + Decimal(i + 1))
  }

  /** The codes of a periodicity, none for an unsupported one. */
  function CodesOf(p: Pattern, periodicity: string): seq<string>
  {
    match periodicity
    case "monthly" => if p.WeekBased? && p.thirteen then Numbered("P", 13) else Numbered("M", 12)
    case "quarterly" => Numbered("Q", 4)
    case "bi-annual" => Numbered("H", 2)
    case "annual" => Numbered("Y", 1)
    case "consolidated-annual" => Numbered("CY", 1)
    case "weekly" => Numbered("W", if p.WeekBased? then p.weeks else 52)
    case _ => []
  }

  ghost predicate IsPeriodCode(code: string) { exists p, periodicity :: code in CodesOf(p, periodicity) }

  /** How many codes each periodicity has, and the first and the last of them. */
  lemma CodesAreNamed(p: Pattern)
    ensures var quarters := CodesOf(p, "quarterly"); |quarters| == 4 && quarters[0] == "Q1" && quarters[3] == "Q4"
    ensures var halves := CodesOf(p, "bi-annual"); |halves| == 2 && halves[0] == "H1" && halves[1] == "H2"
    ensures |CodesOf(p, "annual")| == 1 == |CodesOf(p, "consolidated-annual")|
    ensures CodesOf(p, "annual")[0] == "Y1" && CodesOf(p, "consolidated-annual")[0] == "CY1"
    ensures var months := CodesOf(p, "monthly");
            if p.WeekBased? && p.thirteen then |months| == 13 && months[0] == "P1" && months[12] == "P13"
            else |months| == 12 && months[0] == "M1" && months[11] == "M12"
    ensures |CodesOf(p, "weekly")| == if p.WeekBased? then p.weeks else 52
    ensures CodesOf(p, "weekly") != [] ==> CodesOf(p, "weekly")[0] == "W1"
  {
    OneDigit();
    TwoDigits();
  }

  lemma OneDigit()
    ensures Decimal(1) == "1" && Decimal(2) == "2" && Decimal(3) == "3" && Decimal(4) == "4"
  {
  }

  lemma TwoDigits()
    ensures Decimal(12) == "12" && Decimal(13) == "13"
  {
    assert Decimal(1) == "1";
  }

  lemma NumberedIsPlain(prefix: string, n: nat, code: string, c: char)
    requires code in Numbered(prefix, n) && Free(prefix, c) && !IsDigit(c)
    ensures Free(code, c)
  {
    var i :| 0 <= i < n && code == prefix + Decimal(i + 1);
    forall k | 0 <= k < |code| ensures code[k] != c {
      assert code[k] == if k < |prefix| then prefix[k] else Decimal(i + 1)[k - |prefix|];
    }
  }

  /** A period code is letters and a number: no bar and no colon. */
  lemma PeriodCodesArePlain(code: string, c: char)
    requires IsPeriodCode(code) && (c == '|' || c == ':')
    ensures Free(code, c)
  {
    var p, periodicity :| code in CodesOf(p, periodicity);
    match periodicity {
      case "monthly" => NumberedIsPlain(if p.WeekBased? && p.thirteen then "P" else "M", |CodesOf(p, periodicity)|,
                                        code, c);
      case "quarterly" => NumberedIsPlain("Q", 4, code, c);
      case "bi-annual" => NumberedIsPlain("H", 2, code, c);
      case "annual" => NumberedIsPlain("Y", 1, code, c);
      case "consolidated-annual" => NumberedIsPlain("CY", 1, code, c);
      case "weekly" => NumberedIsPlain("W", |CodesOf(p, periodicity)|, code, c);
      case _ =>
    }
  }
}
