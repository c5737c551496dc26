/** String helpers with JavaScript's meaning: `trim`, the `\s`, `\S` and `\d`
    character classes, decimal rendering of an index and `Array.prototype.join`. */
module Text {

  /** JavaScript's WhiteSpace and LineTerminator code points: the characters
      that `String.prototype.trim` strips and that the regular-expression
      class `\s` matches. */
  predicate IsSpace(c: char) {
    || c == '\t' || c == '\n' || c == '\U{B}' || c == '\U{C}' || c == '\r'
    || c == ' ' || c == '\U{A0}' || c == '\U{1680}'
    || ('\U{2000}' <= c <= '\U{200A}')
    || c == '\U{2028}' || c == '\U{2029}' || c == '\U{202F}' || c == '\U{205F}'
    || c == '\U{3000}' || c == '\U{FEFF}'
  }

  predicate IsDigit(c: char) {
    '0' <= c <= '9'
  }

  /** No character of `s` is white space (every character matches `\S`). */
  predicate NoSpace(s: string) {
    forall k | 0 <= k < |s| :: !IsSpace(s[k])
  }

  function TrimStart(s: string): string {
    if s != [] && IsSpace(s[0]) then TrimStart(s[1..]) else s
  }

  function TrimEnd(s: string): string {
    if s != [] && IsSpace(s[|s| - 1]) then TrimEnd(s[..|s| - 1]) else s
  }

  /** `s.trim()` */
  function Trim(s: string): string {
    TrimEnd(TrimStart(s))
  }

  /** `safeTrim(s)` is truthy: something is left after trimming. */
  predicate HasText(s: string) {
    Trim(s) != ""
  }

  /** `TrimStart` drops a prefix made only of white space and stops at the
      first other character. */
  lemma {:induction false} TrimStartDropsSpace(s: string)
    ensures |TrimStart(s)| <= |s| && TrimStart(s) == s[|s| - |TrimStart(s)|..]
    ensures TrimStart(s) == [] || !IsSpace(TrimStart(s)[0])
    ensures forall k | 0 <= k < |s| - |TrimStart(s)| :: IsSpace(s[k])
  {
    if s != [] && IsSpace(s[0]) {
      var t := TrimStart(s[1..]);
      TrimStartDropsSpace(s[1..]);
      assert TrimStart(s) == t;
      forall k | 0 < k < |s| - |t|
        ensures IsSpace(s[k])
      {
        assert s[k] == s[1..][k - 1];
      }
    }
  }

  /** `TrimEnd` drops a suffix made only of white space and stops at the
      last other character. */
  lemma {:induction false} TrimEndDropsSpace(s: string)
    ensures |TrimEnd(s)| <= |s| && TrimEnd(s) == s[..|TrimEnd(s)|]
    ensures TrimEnd(s) == [] || !IsSpace(TrimEnd(s)[|TrimEnd(s)| - 1])
    ensures s != [] && !IsSpace(s[0]) ==> TrimEnd(s) != [] && TrimEnd(s)[0] == s[0]
  {
    if s != [] && IsSpace(s[|s| - 1]) {
      TrimEndDropsSpace(s[..|s| - 1]);
    }
  }

  /** A string has text exactly when one of its characters is not white space. */
  lemma HasTextIffNonSpace(s: string)
    ensures HasText(s) <==> exists k :: 0 <= k < |s| && !IsSpace(s[k])
  {
    var a := TrimStart(s);
    TrimStartDropsSpace(s);
    TrimEndDropsSpace(a);
    if HasText(s) {
      var k := |s| - |a|;
      assert a[0] == s[k];
    }
  }

  /** A string that starts with a character other than white space has text. */
  lemma StartsWithText(s: string)
    requires |s| > 0 && !IsSpace(s[0])
    ensures HasText(s)
  {
    HasTextIffNonSpace(s);
  }

  /** Trimming leaves nothing to trim. */
  lemma TrimIdempotent(s: string)
    ensures Trim(Trim(s)) == Trim(s)
  {
    var a := TrimStart(s);
    var t := TrimEnd(a);
    TrimStartDropsSpace(s);
    TrimEndDropsSpace(a);
    if t != [] {
      assert t[0] == a[0];
      assert TrimStart(t) == t;
    }
  }

  /** Trimming does not change whether a string has text. */
  lemma TrimKeepsText(s: string)
    ensures HasText(Trim(s)) == HasText(s)
  {
    TrimIdempotent(s);
  }

  /** The value of a decimal digit character. */
  function DigitValue(c: char): nat
    requires IsDigit(c)
  {
    (c as int - '0' as int) as nat
  }

  function DigitChar(d: nat): (c: char)
    requires d < 10
    ensures IsDigit(c) && DigitValue(c) == d
  {
    ['0', '1', '2', '3', '4', '5', '6', '7', '8', '9'][d]
  }

  /** The number a string of decimal digits spells, most significant first. */
  function DecimalValue(s: string): nat
    requires forall k | 0 <= k < |s| :: IsDigit(s[k])
  {
    if s == [] then 0 else DecimalValue(s[..|s| - 1]) * 10 + DigitValue(s[|s| - 1])
  }

  /** Decimal rendering of a natural number, as a template literal prints it. */
  function NatToString(n: nat): (s: string)
    ensures |s| > 0
    ensures forall k | 0 <= k < |s| :: IsDigit(s[k])
    decreases n
  {
    if n < 10 then [DigitChar(n)] else NatToString(n / 10) + [DigitChar(n % 10)]
  }

  /** The digits `NatToString(n)` prints spell `n`, with no leading zero. */
  lemma {:induction false} NatToStringSpellsValue(n: nat)
    ensures DecimalValue(NatToString(n)) == n
    ensures |NatToString(n)| > 1 ==> NatToString(n)[0] != '0'
    decreases n
  {
    if n >= 10 {
      var prefix := NatToString(n / 10);
      var s := NatToString(n);
      assert s == prefix + [DigitChar(n % 10)];
      assert s[..|s| - 1] == prefix;
      NatToStringSpellsValue(n / 10);
    }
  }

  /** Different entry numbers never print the same. */
  lemma NatToStringInjective(a: nat, b: nat)
    requires NatToString(a) == NatToString(b)
    ensures a == b
  {
    NatToStringSpellsValue(a);
    NatToStringSpellsValue(b);
  }

  /** `xs.join(sep)` */
  function Join(xs: seq<string>, sep: string): (r: string)
    ensures xs == [] ==> r == ""
    ensures |xs| == 1 ==> r == xs[0]
  {
    if xs == [] then "" else if |xs| == 1 then xs[0] else xs[0] + sep + Join(xs[1..], sep)
  }

  /** Joining two non-empty lists of messages puts exactly one separator
      between the two joined halves. */
  lemma {:induction false} JoinAppend(a: seq<string>, b: seq<string>, sep: string)
    requires a != [] && b != []
    ensures Join(a + b, sep) == Join(a, sep) + sep + Join(b, sep)
    decreases |a|
  {
    if |a| == 1 {
      assert (a + b)[1..] == b;
    } else {
      assert (a + b)[1..] == a[1..] + b;
      JoinAppend(a[1..], b, sep);
    }
  }

  /** The joined text is every message plus one separator between each
      neighbouring pair. */
  lemma {:induction false} JoinLength(xs: seq<string>, sep: string)
    requires xs != []
    ensures |Join(xs, sep)| == TotalLength(xs) + (|xs| - 1) * |sep|
  {
    if |xs| > 1 {
      JoinLength(xs[1..], sep);
    }
  }

  function TotalLength(xs: seq<string>): nat {
    if xs == [] then 0 else |xs[0]| + TotalLength(xs[1..])
  }
}
