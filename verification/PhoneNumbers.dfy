/** The four copies of phone normalisation, what each makes of a text, and where they part. */
module PhoneNumbers {
  import opened Text

  datatype Normalized = Absent | Number(text: string) | Rejected

  /** The part all four copies share. */
  function FromDigits(digits: string): Normalized {
    if |digits| < 9 || |digits| > 15 then Rejected
    else if "84" <= digits then Number("+" + digits)
    else if "0" <= digits then Number("+84" + digits[1..])
    else Number("+" + digits)
  }

  /** The import engine's copy: a blank text is an absent number. */
  function ByImportEngine(value: string): Normalized {
    if Blank(value) then Absent else FromDigits(Digits(value))
  }

  /** The worker's copy: only the empty text is absent. */
  function ByWorker(phone: string): Normalized {
    if phone == "" then Absent else FromDigits(Digits(phone))
  }

  /** The contact service's copy. */
  function ByContacts(phone: string): Normalized {
    if phone == "" then Absent else FromDigits(Digits(phone))
  }

  /** The administrator's copy has no absent number. */
  function ByAdmin(phone: string): Normalized {
    FromDigits(Digits(phone))
  }

  /** The copies agree on exactly the texts that are not blank. */
  lemma CopiesAgreeOnNonBlank(text: string)
    ensures (ByImportEngine(text) == ByWorker(text) == ByContacts(text) == ByAdmin(text)) <==> !Blank(text)
  {
    if Blank(text) { BlankHasNoDigits(text); }
  }

  /** Only the digits matter, whatever separates them. */
  lemma OnlyDigitsMatter(a: string, b: string)
    requires !Blank(a) && !Blank(b) && Digits(a) == Digits(b)
    ensures ByImportEngine(a) == ByImportEngine(b)
  {
  }

  /** Two digit strings are written forms of one number: equal, or domestic "0..." against international "84...". */
  predicate SameNumber(a: string, b: string) {
    || a == b
    || ("0" <= a && "84" <= b && a[1..] == b[2..])
    || ("84" <= a && "0" <= b && a[2..] == b[1..])
  }

  function International(digits: string): string {
    if "84" <= digits then digits else if "0" <= digits then "84" + digits[1..] else digits
  }

  lemma NumberIsInternational(text: string)
    requires ByImportEngine(text).Number?
    ensures ByImportEngine(text).text == "+" + International(Digits(text))
  {
    var d := Digits(text);
    if "0" <= d && !("84" <= d) { assert "+84" + d[1..] == "+" + ("84" + d[1..]); }
  }

  lemma InternationalMerges(x: string, y: string)
    ensures International(x) == International(y) <==> SameNumber(x, y)
  {
    SplitForms(x);
    SplitForms(y);
    if International(x) == International(y) {
      assert International(x)[..|International(x)|] == International(y)[..|International(y)|];
      if "84" <= International(x) { assert International(x)[2..] == International(y)[2..]; }
    }
  }

  lemma SplitForms(x: string)
    ensures "84" <= x ==> x == "84" + x[2..] && !("0" <= x)
    ensures "0" <= x ==> x == "0" + x[1..] && International(x)[2..] == x[1..] && "84" <= International(x)
    ensures "84" <= International(x) <==> "84" <= x || "0" <= x
  {
    assert "84" <= x ==> x[0] == "84"[0];
    assert "0" <= x ==> x[0] == "0"[0];
    if "0" <= x { assert ("84" + x[1..])[2..] == x[1..]; }
  }

  /** Normalisation merges the domestic and international form of a number, and nothing else. */
  lemma MergesExactlySameNumbers(a: string, b: string)
    requires ByImportEngine(a).Number? && ByImportEngine(b).Number?
    ensures ByImportEngine(a) == ByImportEngine(b) <==> SameNumber(Digits(a), Digits(b))
  {
    NumberIsInternational(a);
    NumberIsInternational(b);
    InternationalMerges(Digits(a), Digits(b));
    assert ByImportEngine(a).text[1..] == International(Digits(a));
    assert ByImportEngine(b).text[1..] == International(Digits(b));
  }

  lemma ResultKeepsItsDigits(text: string)
    requires ByImportEngine(text).Number?
    ensures var n := ByImportEngine(text).text; !Blank(n) && Digits(n) == n[1..] == International(Digits(text))
  {
    var n := ByImportEngine(text).text;
    NumberIsInternational(text);
    DigitsAreDigits(text);
    assert n[1..] == International(Digits(text));
    assert AllDigits(n[1..]);
    DigitsKeepDigits(n[1..]);
    assert !IsSpace(n[0]);
  }

  /** Normalising a result again gives it back exactly when it has at most fifteen digits. */
  lemma IdempotentUpToFifteenDigits(text: string)
    requires ByImportEngine(text).Number?
    ensures var n := ByImportEngine(text); ByImportEngine(n.text) == n <==> |n.text[1..]| <= 15
  {
    ResultKeepsItsDigits(text);
    NumberIsInternational(text);
  }

  /** The only results lost: a domestic number of fifteen digits grows to sixteen and is then rejected. */
  lemma FifteenDigitDomesticNumberIsLost(text: string)
    requires ByImportEngine(text).Number?
    ensures ByImportEngine(ByImportEngine(text).text) == Rejected
      <==> "0" <= Digits(text) && |Digits(text)| == 15
  {
    ResultKeepsItsDigits(text);
  }

  // ----- Which numbers normalisation yields -----

  /** A plus sign and digits, without a leading 0: 9 to 16 of them after the country code 84, else 9 to 15. */
  predicate Canonical(p: string) {
    && |p| > 0 && p[0] == '+' && AllDigits(p[1..])
    && (if "84" <= p[1..] then 9 <= |p[1..]| <= 16 else 9 <= |p[1..]| <= 15 && !("0" <= p[1..]))
  }

  lemma ResultIsCanonical(text: string)
    requires ByImportEngine(text).Number?
    ensures Canonical(ByImportEngine(text).text)
  {
    var d, n := Digits(text), ByImportEngine(text).text;
    NumberIsInternational(text);
    DigitsAreDigits(text);
    assert n[1..] == International(d);
    SplitForms(d);
    if "0" <= d && !("84" <= d) { assert International(d) == "84" + d[1..]; }
  }

  /** A text that normalises to the number. */
  function WrittenAs(p: string): string
    requires Canonical(p)
  {
    if |p[1..]| <= 15 then p else "0" + p[3..]
  }

  lemma LongIsDomestic(p: string)
    requires Canonical(p) && |p[1..]| == 16
    ensures p == "+84" + p[3..] && AllDigits("0" + p[3..])
  {
    assert p[1] == '8' && p[2] == '4' by { assert p[1..][0] == "84"[0] && p[1..][1] == "84"[1]; }
    assert forall i :: 0 <= i < |p[3..]| ==> p[3..][i] == p[1..][i + 2];
  }

  lemma ShortNormalises(p: string)
    requires Canonical(p) && |p[1..]| <= 15
    ensures ByImportEngine(p) == Number(p) && StartsClean(p) && EndsClean(p)
  {
    DigitsOfCanonical(p);
    assert p[|p| - 1] == p[1..][|p[1..]| - 1];
    assert !IsSpace(p[0]);
  }

  lemma DigitsOfCanonical(p: string)
    requires Canonical(p)
    ensures Digits(p) == p[1..] && p == "+" + p[1..]
  {
    DigitsKeepDigits(p[1..]);
  }

  lemma LongNormalises(p: string, t: string)
    requires Canonical(p) && |p[1..]| == 16 && t == "0" + p[3..]
    ensures ByImportEngine(t) == Number(p) && |t| == 15 && StartsClean(t) && EndsClean(t)
  {
    LongIsDomestic(p);
    DigitsKeepDigits(t);
    assert t[0] == '0' && t[1..] == p[3..] && !IsSpace(t[0]);
    assert !("84" <= t);
    assert IsDigit(t[|t| - 1]);
  }

  lemma WrittenAsNormalises(p: string)
    requires Canonical(p)
    ensures ByImportEngine(WrittenAs(p)) == Number(p) && WrittenAs(p) != "" && |WrittenAs(p)| <= 17
    ensures StartsClean(WrittenAs(p)) && EndsClean(WrittenAs(p))
  {
    if |p[1..]| <= 15 { ShortNormalises(p); } else { LongNormalises(p, WrittenAs(p)); }
  }

  /** The canonical numbers are exactly what normalisation yields. */
  lemma CanonicalIff(p: string)
    ensures Canonical(p) <==> exists text :: ByImportEngine(text) == Number(p)
  {
    if Canonical(p) {
      WrittenAsNormalises(p);
      assert ByImportEngine(WrittenAs(p)) == Number(p);
    }
    if text :| ByImportEngine(text) == Number(p) { ResultIsCanonical(text); }
  }
}
