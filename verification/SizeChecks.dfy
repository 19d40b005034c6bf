/** gateway/src/domain/sizing.ts: `checkSize`, and its agreement with what `fitSize` prints. */
module SizeChecks {
  import opened Types
  import opened Sizing

  // ------------------------------------------------------------ numbers as text

  predicate IsDigit(c: char) { '0' <= c <= '9' }

  function DigitChar(d: nat): (c: char)
    requires d < 10
    ensures IsDigit(c) && c as int - '0' as int == d
  {
    ('0' as int + d) as char
  }

  /** A number in a template literal. */
  function PrintNat(n: nat): string {
    if n < 10 then [DigitChar(n)] else PrintNat(n / 10) + [DigitChar(n % 10)]
  }

  ghost predicate AllDigits(s: string) {
    forall i :: 0 <= i < |s| ==> IsDigit(s[i])
  }

  /** `Number(...)` of a run of digits. */
  function ParseNat(s: string): nat
    requires AllDigits(s)
  {
    if s == "" then 0 else 10 * ParseNat(s[..|s| - 1]) + (s[|s| - 1] as int - '0' as int)
  }

  lemma {:induction false} ParsePrint(n: nat)
    ensures AllDigits(PrintNat(n)) && ParseNat(PrintNat(n)) == n
  {
    if n >= 10 {
      ParsePrint(n / 10);
      assert PrintNat(n)[..|PrintNat(n)| - 1] == PrintNat(n / 10);
    } else {
      assert PrintNat(n)[..0] == "";
    }
  }

  function Pow10(k: nat): nat { if k == 0 then 1 else 10 * Pow10(k - 1) }

  lemma {:induction false} PrintLength(n: nat, k: nat)
    requires k >= 1 && n < Pow10(k)
    ensures 1 <= |PrintNat(n)| <= k
    ensures n >= 10 ==> |PrintNat(n)| >= 2
    ensures n < 10 ==> |PrintNat(n)| == 1
  {
    if n >= 10 {
      assert Pow10(1) == 10 * Pow10(0);
      PrintLength(n / 10, k - 1);
    }
  }

  function PrintSize(z: Size): string {
    PrintNat(z.width) + "x" + PrintNat(z.height)
  }

  // ------------------------------------------------------------ the pattern

  /** What String.prototype.trim strips. */
  predicate IsSpace(c: char) {
    || c == ' ' || c == '\t' || c == '\n' || c == '\r' || c == '\U{000B}' || c == '\U{000C}' || c == '\U{00A0}'
    || c == '\U{1680}' || '\U{2000}' <= c <= '\U{200A}' || c == '\U{2028}' || c == '\U{2029}' || c == '\U{202F}'
    || c == '\U{205F}' || c == '\U{3000}' || c == '\U{FEFF}'
  }

  function TrimStart(s: string): string {
    if s != "" && IsSpace(s[0]) then TrimStart(s[1..]) else s
  }

  function TrimEnd(s: string): string {
    if s != "" && IsSpace(s[|s| - 1]) then TrimEnd(s[..|s| - 1]) else s
  }

  function Trim(s: string): string { TrimEnd(TrimStart(s)) }

  /** How many digits the text starts with. */
  function DigitRun(s: string): (k: nat)
    ensures k <= |s| && AllDigits(s[..k])
    ensures k < |s| ==> !IsDigit(s[k])
  {
    if s != "" && IsDigit(s[0]) then
      var k := DigitRun(s[1..]);
      assert s[..k + 1] == [s[0]] + s[1..][..k];
      assert k < |s[1..]| ==> s[k + 1] == s[1..][k];
      k + 1
    else 0
  }

  /** `/^(\d{2,5})x(\d{2,5})$/` and the two captured numbers. */
  function Match(s: string): Option<Size> {
    var k := DigitRun(s);
    if !(2 <= k <= 5) || k >= |s| || s[k] != 'x' then None
    else
      var rest := s[k + 1..];
      if DigitRun(rest) != |rest| || !(2 <= |rest| <= 5) then None
      else (assert rest[..|rest|] == rest; Some(Size(ParseNat(s[..k]), ParseNat(rest))))
  }

  predicate InBucket(z: Size, r: Resolution) {
    z.width * z.height <= Budget(r) && z.width <= MaxSide(r) && z.height <= MaxSide(r)
  }

  /** The first allowed bucket that fits. */
  function FirstBucket(z: Size, allowed: seq<Resolution>): Option<Resolution> {
    if allowed == [] then None
    else if InBucket(z, allowed[0]) then Some(allowed[0])
    else FirstBucket(z, allowed[1..])
  }

  datatype Checked = Checked(size: string, resolution: Resolution)

  function CheckSize(value: string, allowed: seq<Resolution>): Option<Checked> {
    var m := Match(Trim(value));
    if m.None? then None
    else if m.value.width % 16 != 0 || m.value.height % 16 != 0 then None
    else
      var b := FirstBucket(m.value, allowed);
      if b.None? then None else Some(Checked(PrintSize(m.value), b.value))
  }

  // ------------------------------------------------------------ printing and matching

  lemma {:induction false} RunOf(d: string, rest: string)
    requires AllDigits(d) && (rest == "" || !IsDigit(rest[0]))
    ensures DigitRun(d + rest) == |d|
  {
    if d == "" {
      assert d + rest == rest;
    } else {
      assert (d + rest)[1..] == d[1..] + rest;
      RunOf(d[1..], rest);
    }
  }

  lemma {:induction false} MatchText(a: string, b: string)
    requires AllDigits(a) && AllDigits(b)
    ensures Match(a + "x" + b) ==
      if 2 <= |a| <= 5 && 2 <= |b| <= 5 then Some(Size(ParseNat(a), ParseNat(b))) else None
  {
    var s := a + "x" + b;
    assert s == a + ("x" + b);
    RunOf(a, "x" + b);
    assert s[..|a|] == a && s[|a| + 1..] == b;
    RunOf(b, "");
    assert b + "" == b;
  }

  lemma {:induction false} NothingToTrim(s: string)
    requires s != "" && !IsSpace(s[0]) && !IsSpace(s[|s| - 1])
    ensures Trim(s) == s
  {
  }

  lemma {:induction false} NonEmpty(n: nat)
    ensures |PrintNat(n)| >= 1
  {
  }

  lemma {:induction false} PrintedIsTrim(z: Size)
    ensures Trim(PrintSize(z)) == PrintSize(z)
  {
    ParsePrint(z.width);
    ParsePrint(z.height);
    var a, b := PrintNat(z.width), PrintNat(z.height);
    NonEmpty(z.width);
    NonEmpty(z.height);
    var s := PrintSize(z);
    assert s[0] == a[0] && s[|s| - 1] == b[|b| - 1];
    NothingToTrim(s);
  }

  /** A printed size is read back as itself exactly when each side has two to five digits. */
  lemma {:induction false} MatchPrinted(z: Size)
    ensures Match(Trim(PrintSize(z))) ==
      if 2 <= |PrintNat(z.width)| <= 5 && 2 <= |PrintNat(z.height)| <= 5 then Some(z) else None
  {
    PrintedIsTrim(z);
    ParsePrint(z.width);
    ParsePrint(z.height);
    MatchText(PrintNat(z.width), PrintNat(z.height));
  }

  /** What is trimmed: whitespace at both ends, and all of it. */
  lemma {:induction false} TrimStartIs(s: string) returns (k: nat)
    ensures k <= |s| && TrimStart(s) == s[k..] && (forall i :: 0 <= i < k ==> IsSpace(s[i])) && (k < |s| ==> !IsSpace(s[k]))
  {
    if s != "" && IsSpace(s[0]) {
      k := TrimStartIs(s[1..]);
      assert s[k + 1..] == s[1..][k..];
      assert forall i :: 0 < i < k + 1 ==> s[i] == s[1..][i - 1];
      assert k < |s[1..]| ==> s[k + 1] == s[1..][k];
      k := k + 1;
    } else {
      k := 0;
    }
  }

  lemma {:induction false} TrimEndIs(s: string) returns (n: nat)
    ensures n <= |s| && TrimEnd(s) == s[..n] && (forall i :: n <= i < |s| ==> IsSpace(s[i])) && (n > 0 ==> !IsSpace(s[n - 1]))
  {
    if s != "" && IsSpace(s[|s| - 1]) {
      n := TrimEndIs(s[..|s| - 1]);
      assert s[..|s| - 1][..n] == s[..n];
    } else {
      n := |s|;
    }
  }

  lemma {:induction false} TrimIs(s: string) returns (a: nat, b: nat)
    ensures a <= b <= |s| && Trim(s) == s[a..b]
    ensures forall i :: 0 <= i < a || b <= i < |s| ==> IsSpace(s[i])
    ensures a < b ==> !IsSpace(s[a]) && !IsSpace(s[b - 1])
  {
    a := TrimStartIs(s);
    var n := TrimEndIs(s[a..]);
    b := a + n;
    assert s[a..][..n] == s[a..b];
    assert forall i :: b <= i < |s| ==> s[i] == s[a..][i - a];
    assert a < b ==> s[a..][0] == s[a] && s[a..][n - 1] == s[b - 1];
    if a < b { assert !IsSpace(s[a]); }
  }

  lemma {:induction false} TrimTwice(s: string)
    ensures Trim(Trim(s)) == Trim(s)
  {
    var a, b := TrimIs(s);
    if a < b {
      NothingToTrim(Trim(s));
    } else {
      assert Trim(s) == "";
    }
  }

  /** Read as a size is exactly two runs of two to five digits around one `x`, and the numbers are theirs. */
  lemma {:induction false} MatchExactly(s: string)
    ensures Match(s).Some? <==>
      exists k :: 2 <= k <= 5 && k < |s| && s[k] == 'x' && 2 <= |s| - k - 1 <= 5
                  && (forall i :: 0 <= i < |s| && i != k ==> '0' <= s[i] <= '9')
    ensures forall a, b :: s == a + "x" + b && AllDigits(a) && AllDigits(b) && Match(s).Some? ==>
      Match(s) == Some(Size(ParseNat(a), ParseNat(b)))
  {
    if Match(s).Some? {
      var k := DigitRun(s);
      var rest := s[k + 1..];
      assert rest[..|rest|] == rest;
      assert forall i :: 0 <= i < k ==> s[i] == s[..k][i];
      assert forall i :: k < i < |s| ==> s[i] == rest[i - k - 1];
    }
    forall k | 2 <= k <= 5 && k < |s| && s[k] == 'x' && 2 <= |s| - k - 1 <= 5
               && (forall i :: 0 <= i < |s| && i != k ==> '0' <= s[i] <= '9')
      ensures Match(s).Some? {
      assert s == s[..k] + "x" + s[k + 1..];
      MatchText(s[..k], s[k + 1..]);
    }
    forall a, b | s == a + "x" + b && AllDigits(a) && AllDigits(b) && Match(s).Some?
      ensures Match(s) == Some(Size(ParseNat(a), ParseNat(b))) {
      MatchText(a, b);
    }
  }

  // ------------------------------------------------------------ what is accepted

  /** The size fits allowed bucket `i` and none before it. */
  predicate FirstFit(z: Size, allowed: seq<Resolution>, i: int) {
    0 <= i < |allowed| && InBucket(z, allowed[i]) && forall j :: 0 <= j < i ==> !InBucket(z, allowed[j])
  }

  ghost predicate NoFit(z: Size, allowed: seq<Resolution>) {
    forall i :: 0 <= i < |allowed| ==> !InBucket(z, allowed[i])
  }

  lemma {:induction false} FirstBucketFits(z: Size, allowed: seq<Resolution>)
    ensures FirstBucket(z, allowed).None? <==> NoFit(z, allowed)
    ensures FirstBucket(z, allowed).Some? ==>
      exists i :: FirstFit(z, allowed, i) && allowed[i] == FirstBucket(z, allowed).value
  {
    if allowed != [] {
      var rest := allowed[1..];
      assert forall i :: 0 < i < |allowed| ==> allowed[i] == rest[i - 1];
      if InBucket(z, allowed[0]) {
        assert FirstFit(z, allowed, 0);
      } else {
        FirstBucketFits(z, rest);
        assert forall i :: 0 <= i < |rest| ==> rest[i] == allowed[i + 1];
        if FirstBucket(z, rest).Some? {
          var i :| FirstFit(z, rest, i) && rest[i] == FirstBucket(z, rest).value;
          assert FirstFit(z, allowed, i + 1);
        }
      }
    }
  }

  /** Well-formed text of a 16-aligned frame. */
  predicate Aligned(m: Option<Size>) {
    m.Some? && m.value.width % 16 == 0 && m.value.height % 16 == 0
  }

  /** The two buckets, in pixels. */
  lemma {:induction false} BucketsAre(z: Size)
    ensures InBucket(z, P480) <==> z.width * z.height <= 399360 && z.width <= 832 && z.height <= 832
    ensures InBucket(z, P720) <==> z.width * z.height <= 921600 && z.width <= 1280 && z.height <= 1280
  {
  }

  /** Accepted are exactly the 16-aligned frames that fit an allowed bucket, and each is billed as the
      first allowed bucket it fits. */
  lemma {:induction false} CheckedFrames(value: string, allowed: seq<Resolution>)
    ensures var m, c := Match(Trim(value)), CheckSize(value, allowed);
      && (c.Some? <==> Aligned(m) && !NoFit(m.value, allowed))
      && (c.Some? ==> c.value.size == PrintSize(m.value)
                      && exists i :: FirstFit(m.value, allowed, i) && allowed[i] == c.value.resolution)
  {
    var m := Match(Trim(value));
    if m.Some? { FirstBucketFits(m.value, allowed); }
  }

  lemma {:induction false} AlignedPrint(n: nat)
    requires n % 16 == 0 && n <= 1280
    ensures (2 <= |PrintNat(n)| <= 5) <==> n > 0
  {
    assert Pow10(5) == 100000 by {
      assert Pow10(1) == 10 && Pow10(2) == 100 && Pow10(3) == 1000 && Pow10(4) == 10000;
    }
    PrintLength(n, 5);
  }

  /** Checking an accepted size again changes nothing, exactly when neither side is zero: the pattern
      lets "00" through, and prints it as "0", which it would then refuse. */
  lemma {:induction false} CheckAgain(value: string, allowed: seq<Resolution>)
    requires CheckSize(value, allowed).Some?
    ensures var c := CheckSize(value, allowed);
      CheckSize(c.value.size, allowed) == c <==>
        Match(Trim(value)).value.width > 0 && Match(Trim(value)).value.height > 0
  {
    hide Match, Trim, PrintNat;
    var z := Match(Trim(value)).value;
    FirstBucketFits(z, allowed);
    MatchPrinted(z);
    AlignedPrint(z.width);
    AlignedPrint(z.height);
  }

  lemma {:induction false} ZeroText()
    ensures "00x00" == "00" + "x" + "00" && AllDigits("00") && ParseNat("00") == 0 && PrintSize(Size(0, 0)) == "0x0"
  {
    assert "00"[..1] == "0" && "0"[..0] == "";
  }

  /** The zero frame that slips through. */
  lemma {:induction false} ZeroIsAccepted()
    ensures CheckSize("00x00", [P480]) == Some(Checked("0x0", P480))
  {
    hide Match, Trim, ParseNat, PrintNat;
    ZeroText();
    NothingToTrim("00x00");
    MatchText("00", "00");
  }

  lemma {:induction false} BucketIs(z: Size, r: Resolution)
    requires InBucket(z, r) && (r.P720? ==> !InBucket(z, P480))
    ensures FirstBucket(z, [P480, P720]) == Some(r)
  {
    assert [P480, P720][1..] == [P720];
    assert FirstBucket(z, [P720]) == if InBucket(z, P720) then Some(P720) else None by { assert [P720][1..] == []; }
  }

  /** `checkSize` accepts every size `fitSize` derives, returns the same text, and bills it as the
      resolution it was derived for. */
  lemma {:induction false} FitPassesCheck(w: real, h: real, r: Resolution, root: real)
    requires w > 0.0 && h > 0.0 && ScaleFor(w, h, r, root)
    ensures FitSize(w, h, r, root).Some?
    ensures var s := PrintSize(FitSize(w, h, r, root).value);
      CheckSize(s, [P480, P720]) == Some(Checked(s, r))
  {
    hide ScaleFor, FitSize, Match, Trim, PrintNat, Wide, High;
    FitIsRenderable(w, h, r, root);
    var z := FitSize(w, h, r, root).value;
    MatchPrinted(z);
    AlignedPrint(z.width);
    AlignedPrint(z.height);
    if r.P720? { FitIsLong(w, h, root); }
    BucketIs(z, r);
  }
}
