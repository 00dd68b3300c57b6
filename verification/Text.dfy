/** The text primitives of the source's language that the model needs: white space, trimming, digits. */
module Text {

  /** What `trim` removes and the pattern class \s matches. */
  predicate IsSpace(c: char) {
    c in {'\t', '\n', '\U{000B}', '\U{000C}', '\r', ' ', '\U{00A0}', '\U{1680}', '\U{2028}', '\U{2029}', '\U{202F}',
          '\U{205F}', '\U{3000}', '\U{FEFF}'}
    || '\U{2000}' <= c <= '\U{200A}'
  }

  predicate IsDigit(c: char) {
    '0' <= c <= '9'
  }

  predicate Blank(s: string) {
    forall i :: 0 <= i < |s| ==> IsSpace(s[i])
  }

  function TrimStart(s: string): string {
    if s != [] && IsSpace(s[0]) then TrimStart(s[1..]) else s
  }

  function TrimEnd(s: string): string {
    if s != [] && IsSpace(s[|s| - 1]) then TrimEnd(s[..|s| - 1]) else s
  }

  function Trim(s: string): string {
    TrimEnd(TrimStart(s))
  }

  /** The text with every character that is not a digit removed. */
  function Digits(s: string): string {
    if s == [] then []
    else if IsDigit(s[0]) then [s[0]] + Digits(s[1..])
    else Digits(s[1..])
  }

  predicate AllDigits(s: string) {
    forall i :: 0 <= i < |s| ==> IsDigit(s[i])
  }

  lemma {:induction false} DigitsAreDigits(s: string)
    ensures AllDigits(Digits(s))
  {
    if s != [] { DigitsAreDigits(s[1..]); }
  }

  lemma {:induction false} DigitsKeepDigits(s: string)
    requires AllDigits(s)
    ensures Digits(s) == s
  {
    if s != [] { DigitsKeepDigits(s[1..]); }
  }

  lemma {:induction false} BlankHasNoDigits(s: string)
    requires Blank(s)
    ensures Digits(s) == []
  {
    if s != [] { BlankHasNoDigits(s[1..]); }
  }

  predicate StartsClean(s: string) {
    s == [] || !IsSpace(s[0])
  }

  predicate EndsClean(s: string) {
    s == [] || !IsSpace(s[|s| - 1])
  }

  lemma {:induction false} TrimStartCleans(s: string)
    ensures StartsClean(TrimStart(s)) && |TrimStart(s)| <= |s|
    ensures StartsClean(s) ==> TrimStart(s) == s
  {
    if s != [] && IsSpace(s[0]) { TrimStartCleans(s[1..]); }
  }

  lemma {:induction false} TrimEndCleans(s: string)
    ensures EndsClean(TrimEnd(s)) && |TrimEnd(s)| <= |s|
    ensures StartsClean(s) ==> StartsClean(TrimEnd(s))
    ensures EndsClean(s) ==> TrimEnd(s) == s
  {
    if s != [] && IsSpace(s[|s| - 1]) {
      TrimEndCleans(s[..|s| - 1]);
      assert StartsClean(s) ==> StartsClean(s[..|s| - 1]);
    }
  }

  /** A trimmed text is clean at both ends, and the clean texts are those that trimming leaves alone. */
  lemma TrimCleans(s: string)
    ensures StartsClean(Trim(s)) && EndsClean(Trim(s)) && |Trim(s)| <= |s|
    ensures Trim(s) == s <==> StartsClean(s) && EndsClean(s)
    ensures Trim(Trim(s)) == Trim(s)
  {
    TrimStartCleans(s);
    TrimEndCleans(TrimStart(s));
    TrimStartCleans(Trim(s));
    TrimEndCleans(Trim(s));
    TrimEndCleans(s);
  }

  lemma {:induction false} TrimStartOfBlank(s: string)
    ensures Blank(TrimStart(s)) <==> Blank(s)
    ensures Blank(s) ==> TrimStart(s) == ""
  {
    if s != [] && IsSpace(s[0]) {
      TrimStartOfBlank(s[1..]);
      assert s == [s[0]] + s[1..];
    }
  }

  lemma {:induction false} TrimEndOfBlank(s: string)
    ensures Blank(TrimEnd(s)) <==> Blank(s)
  {
    if s != [] && IsSpace(s[|s| - 1]) {
      TrimEndOfBlank(s[..|s| - 1]);
      assert s == s[..|s| - 1] + [s[|s| - 1]];
    }
  }

  /** Trimming leaves nothing exactly of blank texts. */
  lemma TrimsToNothingIff(s: string)
    ensures Trim(s) == "" <==> Blank(s)
    ensures Blank(Trim(s)) <==> Trim(s) == ""
  {
    TrimStartOfBlank(s);
    TrimEndOfBlank(TrimStart(s));
    TrimCleans(s);
    if Trim(s) != "" { assert !IsSpace(Trim(s)[0]); }
  }

  lemma {:induction false} TrimStartKeeps(s: string) returns (a: string)
    ensures Blank(a) && s == a + TrimStart(s)
  {
    a := "";
    if s != [] && IsSpace(s[0]) {
      var rest := TrimStartKeeps(s[1..]);
      a := [s[0]] + rest;
    }
  }

  lemma {:induction false} TrimEndKeeps(s: string) returns (b: string)
    ensures Blank(b) && s == TrimEnd(s) + b
  {
    b := "";
    if s != [] && IsSpace(s[|s| - 1]) {
      var rest := TrimEndKeeps(s[..|s| - 1]);
      b := rest + [s[|s| - 1]];
    }
  }

  /** Trimming takes white space off both ends, and nothing else. */
  lemma TrimTakesSpaceOnly(s: string) returns (a: string, b: string)
    ensures Blank(a) && Blank(b) && s == a + Trim(s) + b
  {
    a := TrimStartKeeps(s);
    b := TrimEndKeeps(TrimStart(s));
  }

  /** The digits of a text are those of its parts, in order. */
  lemma {:induction false} DigitsOfParts(a: string, b: string)
    ensures Digits(a + b) == Digits(a) + Digits(b)
  {
    if a == [] {
      assert a + b == b;
    } else {
      assert (a + b)[0] == a[0] && (a + b)[1..] == a[1..] + b;
      DigitsOfParts(a[1..], b);
    }
  }
}
