/**
 * The link to Oracle's `java` launcher documentation that the Java tab
 * shows for a server's suggested Java major version (`populateJvmOptsLink`,
 * settings.js:1140-1155). The platform check `process.platform === 'win32'`
 * is the parameter `win32`.
 */
module JvmDocs {
  const Host := "https://docs.oracle.com/"
  /** Java 11 and later are documented under this path. */
  const Modern := "en/java/javase/"
  /** Java 10 and earlier are documented under this path. */
  const Legacy := "javase/"
  const SpecsRest := "docs/specs/man/java.html#extra-options-for-java"
  const Java11Rest := "tools/java.html#GUID-3B1CE181-CD30-4178-9602-230B800D4FAE"
  const ToolsRest := "tools/java.htm"

  /** The fixed link used for Java 11. */
  const Java11Link := Host + Modern + "11/" + Java11Rest

  predicate IsDigit(c: char) {
    '0' <= c <= '9'
  }

  function DigitChar(d: nat): (c: char)
    requires d < 10
    ensures IsDigit(c)
  {
    "0123456789"[d]
  }

  /** The decimal digits of n, as a template literal prints a non-negative integer. */
  function NatToString(n: nat): (s: string)
    ensures |s| > 0
    ensures forall i | 0 <= i < |s| :: IsDigit(s[i])
  {
    if n < 10 then [DigitChar(n)] else NatToString(n / 10) + [DigitChar(n % 10)]
  }

  /** The number a string of decimal digits denotes. */
  function DigitsValue(s: string): nat
    requires forall i | 0 <= i < |s| :: IsDigit(s[i])
  {
    if s == [] then 0
    else DigitsValue(s[..|s| - 1]) * 10 + DigitValue(s[|s| - 1])
  }

  function DigitValue(c: char): nat {
    if c as int >= '0' as int then c as int - '0' as int else 0
  }

  /** The digits NatToString prints denote the number printed. */
  lemma {:induction false} NatToStringValue(n: nat)
    ensures DigitsValue(NatToString(n)) == n
  {
    var s := NatToString(n);
    if n < 10 {
      assert s[..0] == [];
      assert "0123456789"[n] as int - '0' as int == n;
    } else {
      NatToStringValue(n / 10);
      assert s[..|s| - 1] == NatToString(n / 10);
      assert "0123456789"[n % 10] as int - '0' as int == n % 10;
    }
  }

  /** The printed form of an integer; negative numbers get a leading '-'. */
  function IntToString(i: int): (s: string)
    ensures |s| > 0
    ensures forall k | 0 <= k < |s| :: s[k] != '/'
  {
    if i < 0 then "-" + NatToString(-i) else NatToString(i)
  }

  predicate AllDigits(s: string) {
    forall k | 0 <= k < |s| :: IsDigit(s[k])
  }

  /** The integer a possibly '-'-signed string of decimal digits denotes. */
  function SignedValue(s: string): int
    requires s != [] && (if s[0] == '-' then AllDigits(s[1..]) else AllDigits(s))
  {
    if s[0] == '-' then -(DigitsValue(s[1..]) as int) else DigitsValue(s)
  }

  lemma NegativeValue(n: nat)
    requires n > 0
    ensures var s := "-" + NatToString(n);
      s[0] == '-' && AllDigits(s[1..]) && SignedValue(s) == -(n as int)
  {
    var s := "-" + NatToString(n);
    assert s[1..] == NatToString(n);
    NatToStringValue(n);
  }

  lemma NonNegativeValue(n: nat)
    ensures var s := NatToString(n);
      s[0] != '-' && AllDigits(s) && SignedValue(s) == n
  {
    assert IsDigit(NatToString(n)[0]);
    NatToStringValue(n);
  }

  /** Reading a printed integer back gives the integer. */
  lemma IntToStringValue(i: int)
    ensures var s := IntToString(i);
      s != [] && (if s[0] == '-' then AllDigits(s[1..]) else AllDigits(s)) && SignedValue(s) == i
  {
    if i < 0 {
      NegativeValue(-i);
    } else {
      NonNegativeValue(i);
    }
  }

  /** Different integers print differently. */
  lemma IntToStringInjective(i: int, j: int)
    requires IntToString(i) == IntToString(j)
    ensures i == j
  {
    IntToStringValue(i);
    IntToStringValue(j);
  }

  /** `populateJvmOptsLink`. */
  function JvmOptsLink(major: int, win32: bool): string {
    if major >= 12 then Host + Modern + IntToString(major) + "/" + SpecsRest
    else if major >= 11 then Java11Link
    else if major >= 9 then Host + Legacy + IntToString(major) + "/" + ToolsRest
    else
      Host + Legacy + IntToString(major) + "/" + "docs/technotes/tools/"
        + (if win32 then "windows" else "unix") + "/java.html"
  }

  function Section(major: int): string {
    if major >= 11 then Modern else Legacy
  }

  function Rest(major: int, win32: bool): string {
    if major >= 12 then SpecsRest
    else if major >= 11 then Java11Rest
    else if major >= 9 then ToolsRest
    else TechnotesRest(win32)
  }

  function TechnotesRest(win32: bool): string {
    "docs/technotes/tools/" + (if win32 then "windows" else "unix") + "/java.html"
  }

  /** Every link is the host, a section, the printed major version, a '/', and a page. */
  lemma LinkShape(major: int, win32: bool)
    ensures JvmOptsLink(major, win32) == Host + Section(major) + IntToString(major) + "/" + Rest(major, win32)
  {
    if major >= 12 {
    } else if major >= 11 {
      assert major == 11;
      assert NatToString(11) == NatToString(1) + [DigitChar(1)];
      assert IntToString(11) == "11";
    } else if major < 9 {
      var p := Host + Legacy + IntToString(major) + "/";
      assert p + "docs/technotes/tools/" + (if win32 then "windows" else "unix") + "/java.html"
        == p + TechnotesRest(win32);
    }
  }

  /** The position of the first '/' (the length when there is none). */
  function SlashIndex(s: string): (k: nat)
    ensures k <= |s|
  {
    if s == [] || s[0] == '/' then 0 else 1 + SlashIndex(s[1..])
  }

  lemma {:induction false} SlashIndexAfter(d: string, rest: string)
    requires forall k | 0 <= k < |d| :: d[k] != '/'
    ensures SlashIndex(d + "/" + rest) == |d|
  {
    if d != [] {
      assert (d + "/" + rest)[1..] == d[1..] + "/" + rest;
      SlashIndexAfter(d[1..], rest);
    }
  }

  /** Two strings that agree up to their first '/' after a common start have the same text before it. */
  lemma SplitAtSlash(p: string, d1: string, r1: string, d2: string, r2: string)
    requires forall k | 0 <= k < |d1| :: d1[k] != '/'
    requires forall k | 0 <= k < |d2| :: d2[k] != '/'
    requires p + d1 + "/" + r1 == p + d2 + "/" + r2
    ensures d1 == d2 && r1 == r2
  {
    var a := p + d1 + "/" + r1;
    assert a[|p|..] == d1 + "/" + r1;
    assert a[|p|..] == d2 + "/" + r2;
    SlashIndexAfter(d1, r1);
    SlashIndexAfter(d2, r2);
    assert d1 == (d1 + "/" + r1)[..|d1|];
    assert d2 == (d2 + "/" + r2)[..|d2|];
    assert r1 == (d1 + "/" + r1)[|d1| + 1..];
    assert r2 == (d2 + "/" + r2)[|d2| + 1..];
  }

  lemma CharAfter(a: string, b: string, rest: string)
    requires b != []
    ensures (a + b + rest)[|a|] == b[0]
  {
  }

  /** Links built from parts whose sections are told apart by their first letter agree part by part. */
  lemma LinkPartsEqual(h: string, s1: string, d1: string, r1: string, s2: string, d2: string, r2: string)
    requires h + s1 + d1 + "/" + r1 == h + s2 + d2 + "/" + r2
    requires s1 != [] && s2 != [] && (s1[0] == s2[0] ==> s1 == s2)
    requires forall k | 0 <= k < |d1| :: d1[k] != '/'
    requires forall k | 0 <= k < |d2| :: d2[k] != '/'
    ensures s1 == s2 && d1 == d2 && r1 == r2
  {
    assert h + s1 + d1 + "/" + r1 == h + s1 + (d1 + "/" + r1);
    assert h + s2 + d2 + "/" + r2 == h + s2 + (d2 + "/" + r2);
    CharAfter(h, s1, d1 + "/" + r1);
    CharAfter(h, s2, d2 + "/" + r2);
    SplitAtSlash(h + s1, d1, r1, d2, r2);
  }

  lemma SectionsDistinct(m1: int, m2: int)
    ensures Section(m1) != [] && Section(m2) != []
    ensures Section(m1)[0] == Section(m2)[0] ==> Section(m1) == Section(m2)
  {
    assert Modern[0] == 'e' && Legacy[0] == 'j';
  }

  lemma TechnotesInjective(w1: bool, w2: bool)
    requires TechnotesRest(w1) == TechnotesRest(w2)
    ensures w1 == w2
  {
    var p := "docs/technotes/tools/";
    CharAfter(p, if w1 then "windows" else "unix", "/java.html");
    CharAfter(p, if w2 then "windows" else "unix", "/java.html");
  }

  /**
   * The link identifies the suggested major version, and below Java 9
   * also the platform: no two versions share a link.
   */
  lemma LinkIdentifiesMajor(m1: int, w1: bool, m2: int, w2: bool)
    requires JvmOptsLink(m1, w1) == JvmOptsLink(m2, w2)
    ensures m1 == m2
    ensures m1 < 9 ==> w1 == w2
  {
    LinkShape(m1, w1);
    LinkShape(m2, w2);
    SectionsDistinct(m1, m2);
    LinkPartsEqual(Host, Section(m1), IntToString(m1), Rest(m1, w1), Section(m2), IntToString(m2), Rest(m2, w2));
    IntToStringInjective(m1, m2);
    if m1 < 9 {
      TechnotesInjective(w1, w2);
    }
  }

  /** From Java 9 on the link does not depend on the platform; below it, it does. */
  lemma PlatformOnlyBeforeJava9(major: int)
    ensures major >= 9 <==> JvmOptsLink(major, true) == JvmOptsLink(major, false)
  {
    if major < 9 && JvmOptsLink(major, true) == JvmOptsLink(major, false) {
      LinkIdentifiesMajor(major, true, major, false);
    }
  }

  /** Java 11 and later link into the `en/java/javase` documentation, earlier versions into `javase`. */
  lemma LinkSection(major: int, win32: bool)
    ensures var l := JvmOptsLink(major, win32);
      |l| > |Host + Modern| &&
      (major >= 11 <==> l[..|Host + Modern|] == Host + Modern)
  {
    LinkShape(major, win32);
    var t := IntToString(major) + "/" + Rest(major, win32);
    var l := JvmOptsLink(major, win32);
    assert l == Host + Section(major) + t;
    if major < 11 {
      CharAfter(Host, Legacy, t);
      CharAfter(Host, Modern, []);
      assert (Host + Modern)[|Host|] != l[|Host|] by {
        assert Modern[0] == 'e' && Legacy[0] == 'j';
      }
    }
  }
}
