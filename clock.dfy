/** `fmtTime`: an elapsed time in milliseconds shown as minutes and seconds,
    `MM:SS`, as the rest timer displays it. */
module Clock {
  import opened JsString

  /** JavaScript's `%` on integers: the remainder takes the sign of the dividend. */
  function JsRem(a: int, b: int): (r: int)
    requires b > 0
    ensures a >= 0 ==> r == a % b
    ensures a < 0 ==> r <= 0
    ensures -b < r < b
  {
    if a >= 0 then a % b else -((-a) % b)
  }

  /** The remainder takes the sign of the dividend: negating the dividend
      negates the remainder, so with the non-negative case above `JsRem` is
      fixed for every dividend. */
  lemma JsRemOdd(a: int, b: int)
    requires b > 0
    ensures JsRem(-a, b) == -JsRem(a, b)
  {
    if a == 0 {
      assert JsRem(0, b) == 0;
    }
  }

  /** `fmtTime(ms)`. `Math.floor(ms/1000)` and `Math.floor(s/60)` are floor
      divisions by a positive number, which is what Dafny's `/` computes; the
      seconds use JavaScript's sign-of-dividend `%`. */
  function FmtTime(ms: int): (r: string)
    ensures |r| >= 5
  {
    var s := ms / 1000;
    var m := s / 60;
    var ss := JsRem(s, 60);
    PadStart(IntToString(m), 2, '0') + ":" + PadStart(IntToString(ss), 2, '0')
  }

  /** For a non-negative time the text reads back as whole minutes and seconds:
      the part before the colon is a numeral of at least two digits, the part
      after it exactly two digits below 60, and together they give the whole
      seconds elapsed. */
  /** `r` is a numeral of minutes, a colon and two digits of seconds below 60,
      which together make `total` seconds. */
  predicate ReadsAsMinutesSeconds(r: string, total: int) {
    && |r| >= 5 && r[|r| - 3] == ':'
    && AllDigits(r[..|r| - 3]) && AllDigits(r[|r| - 2..])
    && DecimalValue(r[|r| - 2..]) < 60
    && DecimalValue(r[..|r| - 3]) * 60 + DecimalValue(r[|r| - 2..]) == total
  }

  lemma FmtTimeReadsBack(ms: int)
    requires ms >= 0
    ensures ReadsAsMinutesSeconds(FmtTime(ms), ms / 1000)
  {
    var s := ms / 1000;
    var m := s / 60;
    var ss := s % 60;
    assert JsRem(s, 60) == ss;
    assert m * 60 + ss == s;
    var mm := PadStart(NatToString(m), 2, '0');
    var sec := PadStart(NatToString(ss), 2, '0');
    ZeroPaddedValue(NatToString(m), 2);
    ZeroPaddedValue(NatToString(ss), 2);
    assert FmtTime(ms) == mm + ":" + sec;
    JoinedReads(mm, sec);
  }

  /** Two digit fields joined by a colon read back as minutes and seconds. */
  lemma JoinedReads(mm: string, sec: string)
    requires AllDigits(mm) && AllDigits(sec) && |mm| >= 2 && |sec| == 2
    requires DecimalValue(sec) < 60
    ensures ReadsAsMinutesSeconds(mm + ":" + sec, DecimalValue(mm) * 60 + DecimalValue(sec))
  {
    var r := mm + ":" + sec;
    assert r[..|r| - 3] == mm && r[|r| - 2..] == sec;
    assert r[|r| - 3] == ':';
  }

  /** Below 100 minutes the text is exactly five characters, `MM:SS`; from 100
      minutes on the minutes grow past two digits. */
  lemma FmtTimeWidth(ms: int)
    requires ms >= 0
    ensures |FmtTime(ms)| == 5 <==> ms < 6000000
  {
    var s := ms / 1000;
    var m := s / 60;
    assert m < 100 <==> ms < 6000000;
    if m >= 100 {
      NumeralsOfLargeNumbers(m);
    }
  }

  lemma {:induction false} NumeralsOfLargeNumbers(n: nat)
    requires n >= 100
    ensures |NatToString(n)| >= 3
  {
    if n / 10 >= 100 {
      NumeralsOfLargeNumbers(n / 10);
    }
  }

  /** The rest timer starts at zero. */
  lemma FmtTimeZero()
    ensures FmtTime(0) == "00:00"
  {
    assert JsRem(0, 60) == 0;
    assert IntToString(0) == "0";
    assert seq(1, _ => '0') == "0";
    assert PadStart("0", 2, '0') == "00";
  }
}
