/** File names of the dataset frames (src/app.cpp, loadDataFrame).

    Frame n lives in three files that share the stem
    `<dataset dir>/frame-<number>`, the number being what `snprintf` leaves
    of `"%06d"` in a 7-byte buffer: six characters and the terminating NUL. */
module FrameNames {

  /** Size of the buffer handed to snprintf, terminating NUL included. */
  const BufferSize: nat := 7
  /** Field width of the conversion "%06d". */
  const Width: nat := 6

  const StemPrefix: string := "/frame-"
  const DepthSuffix: string := ".depth.png"
  const ColorSuffix: string := ".color.png"
  const PoseSuffix: string := ".pose.txt"

  predicate IsDigit(c: char) { '0' <= c <= '9' }

  predicate AllDigits(s: string) { forall i :: 0 <= i < |s| ==> IsDigit(s[i]) }

  function DigitChar(d: nat): (c: char)
    requires d < 10
    ensures IsDigit(c)
  {
    ('0' as int + d) as char
  }

  function DigitValue(c: char): (d: nat)
    requires IsDigit(c)
    ensures d < 10
  {
    c as int - '0' as int
  }

  function Pow10(k: nat): (r: nat)
    ensures r >= 1
  {
    if k == 0 then 1 else 10 * Pow10(k - 1)
  }

  /** Decimal digits of n, without leading zeros ("0" for zero). */
  function Decimal(n: nat): (s: string)
    ensures 1 <= |s| && AllDigits(s)
  {
    if n < 10 then [DigitChar(n)] else Decimal(n / 10) + [DigitChar(n % 10)]
  }

  /** The number a string of decimal digits denotes; the reading partner of Decimal. */
  function Value(s: string): nat
    requires AllDigits(s)
  {
    if s == [] then 0 else Value(s[..|s| - 1]) * 10 + DigitValue(s[|s| - 1])
  }

  function Zeros(k: nat): (s: string)
    ensures |s| == k && AllDigits(s)
    ensures forall i :: 0 <= i < k ==> s[i] == '0'
  {
    if k == 0 then [] else Zeros(k - 1) + ['0']
  }

  /** The "0" flag with a field width: zeros between sign and digits up to
      the width; digits longer than the width are kept whole. */
  function ZeroPad(digits: string, width: nat): (s: string)
    ensures |s| == if |digits| < width then width else |digits|
    ensures s[|s| - |digits|..] == digits
    ensures forall i :: 0 <= i < |s| - |digits| ==> s[i] == '0'
  {
    if |digits| < width then Zeros(width - |digits|) + digits else digits
  }

  /** The text "%06d" produces for n: a minus sign counts towards the width,
      so the text is at least six characters long, starts with '-' exactly
      for negative n, and is digits otherwise. */
  function Printf06d(n: int): (r: string)
    ensures |r| >= Width
    ensures n < 0 <==> r[0] == '-'
    ensures n >= 0 ==> AllDigits(r)
    ensures n < 0 ==> AllDigits(r[1..])
  {
    if n >= 0 then ZeroPad(Decimal(n), Width) else "-" + ZeroPad(Decimal(-n), Width - 1)
  }

  /** What snprintf stores into a buffer of `size` bytes, the terminating NUL aside. */
  function Snprintf(text: string, size: nat): (s: string)
    requires size >= 1
    ensures |s| <= size - 1
    ensures s <= text
    ensures |text| < size ==> s == text
    ensures |text| >= size ==> s == text[..size - 1]
  {
    if |text| < size then text else text[..size - 1]
  }

  /** The frame number as it appears in the file names, for any int. */
  function FrameNumber(n: int): (s: string)
    ensures |s| == Width
    ensures n < 0 <==> s[0] == '-'
  {
    Snprintf(Printf06d(n), BufferSize)
  }

  /** The stem of frame n: the directory, "/frame-", then the six
      characters of the frame number. */
  function BaseFilename(dir: string, n: int): (r: string)
    ensures |r| == |dir| + |StemPrefix| + Width
    ensures r[..|dir|] == dir
    ensures r[|dir|..|dir| + |StemPrefix|] == StemPrefix
    ensures r[|dir| + |StemPrefix|..] == FrameNumber(n)
  {
    dir + StemPrefix + FrameNumber(n)
  }

  /** A file of frame n: the stem, then the suffix of its kind. */
  function DepthFilename(dir: string, n: int): (r: string)
    ensures |r| == |BaseFilename(dir, n)| + |DepthSuffix|
    ensures r[..|BaseFilename(dir, n)|] == BaseFilename(dir, n) && r[|BaseFilename(dir, n)|..] == DepthSuffix
  {
    BaseFilename(dir, n) + DepthSuffix
  }

  function ColorFilename(dir: string, n: int): (r: string)
    ensures |r| == |BaseFilename(dir, n)| + |ColorSuffix|
    ensures r[..|BaseFilename(dir, n)|] == BaseFilename(dir, n) && r[|BaseFilename(dir, n)|..] == ColorSuffix
  {
    BaseFilename(dir, n) + ColorSuffix
  }

  function PoseFilename(dir: string, n: int): (r: string)
    ensures |r| == |BaseFilename(dir, n)| + |PoseSuffix|
    ensures r[..|BaseFilename(dir, n)|] == BaseFilename(dir, n) && r[|BaseFilename(dir, n)|..] == PoseSuffix
  {
    BaseFilename(dir, n) + PoseSuffix
  }

  // ---------------------------------------------------------------------------
  // Reading a number back

  lemma AllDigitsConcat(a: string, b: string)
    requires AllDigits(a) && AllDigits(b)
    ensures AllDigits(a + b)
  {
    var ab := a + b;
    forall i | 0 <= i < |ab| ensures IsDigit(ab[i]) {
      if i < |a| { assert ab[i] == a[i]; } else { assert ab[i] == b[i - |a|]; }
    }
  }

  lemma AllDigitsPrefix(b: string, k: nat)
    requires AllDigits(b) && k <= |b|
    ensures AllDigits(b[..k])
  {
    forall i | 0 <= i < k ensures IsDigit(b[..k][i]) { assert b[..k][i] == b[i]; }
  }

  /** Dropping the last character of a + b drops the last character of b. */
  lemma DropLast(a: string, b: string)
    requires |b| > 0
    ensures (a + b)[..|a + b| - 1] == a + b[..|b| - 1]
    ensures (a + b)[|a + b| - 1] == b[|b| - 1]
  {
  }

  /** Digits written after a shift the value of a by one place per digit. */
  lemma {:induction false} ValueOfConcat(a: string, b: string)
    requires AllDigits(a) && AllDigits(b)
    ensures AllDigits(a + b)
    ensures Value(a + b) == Value(a) * Pow10(|b|) + Value(b)
    decreases |b|
  {
    AllDigitsConcat(a, b);
    if b == [] {
      assert a + b == a;
    } else {
      var b' := b[..|b| - 1];
      AllDigitsPrefix(b, |b| - 1);
      ValueOfConcat(a, b');
      DropLast(a, b);
      var x, y, d, k := Value(a), Value(b'), DigitValue(b[|b| - 1]), Pow10(|b'|);
      assert Value(a + b) == (x * k + y) * 10 + d;
      assert Value(b) == y * 10 + d;
      assert Pow10(|b|) == 10 * k;
      ShiftDigit(x, k, y, d);
    }
  }

  /** Appending a digit to b multiplies the place value of a by ten. */
  lemma ShiftDigit(x: int, k: int, y: int, d: int)
    ensures (x * k + y) * 10 + d == x * (10 * k) + (y * 10 + d)
  {
  }

  lemma {:induction false} ValueOfZeros(k: nat)
    ensures Value(Zeros(k)) == 0
  {
    if k > 0 {
      ValueOfZeros(k - 1);
      assert Zeros(k)[..k - 1] == Zeros(k - 1);
    }
  }

  /** Reading the digits that Decimal writes gives the number back. */
  lemma {:induction false} ValueOfDecimal(n: nat)
    ensures Value(Decimal(n)) == n
    decreases n
  {
    if n >= 10 {
      var s := Decimal(n);
      assert s[..|s| - 1] == Decimal(n / 10);
      ValueOfDecimal(n / 10);
    }
  }

  /** A number below 10^k has at most k digits. */
  lemma {:induction false} DecimalLength(n: nat, k: nat)
    requires 1 <= k && n < Pow10(k)
    ensures |Decimal(n)| <= k
    decreases k
  {
    if n >= 10 {
      assert k >= 2;
      DecimalLength(n / 10, k - 1);
    }
  }

  /** A number of at least 10^k has more than k digits. */
  lemma {:induction false} DecimalLengthAbove(n: nat, k: nat)
    requires n >= Pow10(k)
    ensures |Decimal(n)| > k
    decreases k
  {
    if k > 0 {
      DecimalLengthAbove(n / 10, k - 1);
    }
  }

  // ---------------------------------------------------------------------------
  // Properties of the frame number

  /** Padding with zeros keeps the value of a digit string. */
  lemma ValueOfZeroPad(digits: string, width: nat)
    requires AllDigits(digits)
    ensures AllDigits(ZeroPad(digits, width)) && Value(ZeroPad(digits, width)) == Value(digits)
  {
    if |digits| < width {
      ValueOfConcat(Zeros(width - |digits|), digits);
      ValueOfZeros(width - |digits|);
    }
  }

  /** Reading "%06d" back: the digits give n, after the sign when n < 0. */
  lemma PrintedValue(n: int)
    ensures n >= 0 ==> Value(Printf06d(n)) == n
    ensures n < 0 ==> Value(Printf06d(n)[1..]) == -n
  {
    if n >= 0 {
      ValueOfZeroPad(Decimal(n), Width);
      ValueOfDecimal(n);
    } else {
      assert Printf06d(n)[1..] == ZeroPad(Decimal(-n), Width - 1);
      ValueOfZeroPad(Decimal(-n), Width - 1);
      ValueOfDecimal(-n);
    }
  }

  /** For 0 <= n < 10^6 the frame number is n written with exactly six
      zero-padded digits: all digits, and reading them back gives n. */
  lemma FrameNumberDigits(n: int)
    requires 0 <= n < Pow10(Width)
    ensures AllDigits(FrameNumber(n))
    ensures Value(FrameNumber(n)) == n
  {
    DecimalLength(n, Width);
    assert |Printf06d(n)| == Width;
    PrintedValue(n);
  }

  /** Distinct frames below 10^6 get distinct numbers. */
  lemma FrameNumberInjective(n: int, m: int)
    requires 0 <= n < Pow10(Width) && 0 <= m < Pow10(Width)
    requires FrameNumber(n) == FrameNumber(m)
    ensures n == m
  {
    FrameNumberDigits(n);
    FrameNumberDigits(m);
  }

  /** From 10^6 on the number is cut to its first six digits, so frames
      collide: 1000000 and 1000001 share the stem of frame 100000. */
  lemma FrameNumberTruncatesAboveWidth(n: int)
    requires n >= Pow10(Width)
    ensures |Decimal(n)| > Width && FrameNumber(n) == Decimal(n)[..Width]
  {
    DecimalLengthAbove(n, Width);
  }

  lemma FrameNumbersCollideAboveWidth()
    ensures FrameNumber(1000000) == FrameNumber(1000001) == FrameNumber(100000) == "100000"
  {
    assert Pow10(Width) == 1000000;
    FrameNumberTruncatesAboveWidth(1000000);
    FrameNumberTruncatesAboveWidth(1000001);
    assert Decimal(100000) == "100000";
    assert Decimal(1000000) == "1000000";
    assert Decimal(1000001) == "1000001";
  }

  // ---------------------------------------------------------------------------
  // Properties of the file names

  /** In one directory, two frames below 10^6 share a depth, color or pose
      file only if they are the same frame. */
  lemma FilenamesInjective(dir: string, n: int, m: int)
    requires 0 <= n < Pow10(Width) && 0 <= m < Pow10(Width)
    requires DepthFilename(dir, n) == DepthFilename(dir, m)
          || ColorFilename(dir, n) == ColorFilename(dir, m)
          || PoseFilename(dir, n) == PoseFilename(dir, m)
    ensures n == m
  {
    var b, b' := BaseFilename(dir, n), BaseFilename(dir, m);
    assert b == b';
    assert FrameNumber(n) == b[|dir| + |StemPrefix|..] == FrameNumber(m);
    FrameNumberInjective(n, m);
  }

  /** The second character after the stem of a name is that of its suffix. */
  lemma SecondSuffixChar(r: string, b: string, suffix: string)
    requires |suffix| >= 2 && |r| == |b| + |suffix|
    requires r[..|b|] == b && r[|b|..] == suffix
    ensures r[|b| + 1] == suffix[1]
  {
    assert r[|b|..][1] == r[|b| + 1];
  }

  /** The three kinds of file never share a name, whatever the frames: the
      second character after the stem is 'd', 'c' or 'p'. */
  lemma FileKindsDistinct(dir: string, n: int, m: int)
    ensures DepthFilename(dir, n) != ColorFilename(dir, m)
    ensures DepthFilename(dir, n) != PoseFilename(dir, m)
    ensures ColorFilename(dir, n) != PoseFilename(dir, m)
  {
    var b, b' := BaseFilename(dir, n), BaseFilename(dir, m);
    SecondSuffixChar(DepthFilename(dir, n), b, DepthSuffix);
    SecondSuffixChar(ColorFilename(dir, n), b, ColorSuffix);
    SecondSuffixChar(ColorFilename(dir, m), b', ColorSuffix);
    SecondSuffixChar(PoseFilename(dir, m), b', PoseSuffix);
    SuffixLetters();
  }

  lemma SuffixLetters()
    ensures DepthSuffix[1] == 'd' && ColorSuffix[1] == 'c' && PoseSuffix[1] == 'p'
  {
  }
}
