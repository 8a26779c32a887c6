/** Values shared by every part of the model: optional JSON fields, record ids,
    timestamps and the few string operations the handlers use
    (`trim`, `slice(-k)`, `split('T')[0]`, `String(n)`, `<` on strings). */
module Common {

  datatype Option<+T> = None | Some(value: T) {
    function GetOr(default: T): T {
      if Some? then value else default
    }
  }

  /** A document id. Ids are handed out in increasing order, so id order is
      insertion order and also `createdAt` order. */
  type Id = nat

  /** JavaScript truthiness of an optional string field: missing and "" are falsy. */
  predicate Truthy(s: Option<string>) {
    s.Some? && s.value != ""
  }

  /** A creation timestamp; its ISO-8601 text is `day + "T" + time`. */
  datatype Instant = Instant(day: string, time: string)

  function Iso(t: Instant): string {
    t.day + "T" + t.time
  }

  // ---------------------------------------------------------------------------
  // Characters

  predicate IsDigit(c: char) {
    '0' <= c <= '9'
  }

  /** The characters JavaScript's `String.prototype.trim` removes. */
  predicate IsSpace(c: char) {
    c == ' ' || c == '\t' || c == '\n' || c == '\r' || c == '\U{000B}' || c == '\U{000C}'
    || c == '\U{00A0}' || c == '\U{1680}' || ('\U{2000}' <= c <= '\U{200A}')
    || c == '\U{2028}' || c == '\U{2029}' || c == '\U{202F}' || c == '\U{205F}'
    || c == '\U{3000}' || c == '\U{FEFF}'
  }

  predicate Blank(s: string) {
    forall i :: 0 <= i < |s| ==> IsSpace(s[i])
  }

  // ---------------------------------------------------------------------------
  // trim

  function TrimStart(s: string): (r: string)
    ensures |r| <= |s| && r == s[|s| - |r|..]
    ensures r == [] || !IsSpace(r[0])
    ensures Blank(s[..|s| - |r|])
  {
    if s == [] || !IsSpace(s[0]) then s
    else
      var r := TrimStart(s[1..]);
      assert s[1..][..|s| - 1 - |r|] == s[1..|s| - |r|];
      r
  }

  function TrimEnd(s: string): (r: string)
    ensures |r| <= |s| && r == s[..|r|]
    ensures r == [] || !IsSpace(r[|r| - 1])
    ensures Blank(s[|r|..])
  {
    if s == [] || !IsSpace(s[|s| - 1]) then s
    else
      var r := TrimEnd(s[..|s| - 1]);
      assert s[..|s| - 1][|r|..] == s[|r|..|s| - 1];
      r
  }

  /** `s.trim()`: the longest infix of `s` that neither starts nor ends with white space. */
  function Trim(s: string): (r: string)
    ensures r == [] || (!IsSpace(r[0]) && !IsSpace(r[|r| - 1]))
  {
    TrimEnd(TrimStart(s))
  }

  /** A string trims to "" exactly when it consists of white space only. */
  lemma TrimEmptyIffBlank(s: string)
    ensures Trim(s) == "" <==> Blank(s)
  {
    var t := TrimStart(s);
    if Trim(s) == "" {
      assert Blank(t[0..]);
      assert s == s[..|s| - |t|] + t;
    } else {
      assert !IsSpace(Trim(s)[0]);
      var k := |s| - |t|;
      assert t[..|Trim(s)|] == Trim(s);
      assert s[k] == t[0] == Trim(s)[0];
    }
  }

  // ---------------------------------------------------------------------------
  // slice(-k) and split('T')[0]

  /** `s.slice(-k)` for k > 0: the last k characters, or all of `s` when it is shorter. */
  function LastChars(s: string, k: nat): (r: string)
    ensures |r| == if |s| <= k then |s| else k
    ensures r == s[|s| - |r|..]
  {
    if |s| <= k then s else s[|s| - k..]
  }

  /** `s.split('T')[0]`: everything before the first 'T'. */
  function BeforeT(s: string): (r: string)
    ensures 'T' !in r
    ensures r <= s
    ensures |r| < |s| ==> s[|r|] == 'T'
  {
    if s == [] then []
    else if s[0] == 'T' then []
    else [s[0]] + BeforeT(s[1..])
  }

  /** The `YYYY-MM-DD` part of a timestamp, as `toISOString().split('T')[0]` yields it. */
  function DayText(t: Instant): string {
    BeforeT(Iso(t))
  }

  lemma {:induction false} BeforeTUpToFirstT(a: string, b: string)
    requires 'T' !in a
    ensures BeforeT(a + "T" + b) == a
  {
    if a != [] {
      assert (a + "T" + b)[1..] == a[1..] + "T" + b;
      BeforeTUpToFirstT(a[1..], b);
    }
  }

  /** The day part of an ISO timestamp is recovered exactly when it contains no 'T'. */
  lemma DayTextOfIso(t: Instant)
    requires 'T' !in t.day
    ensures DayText(t) == t.day
  {
    BeforeTUpToFirstT(t.day, t.time);
  }

  /** Matches the regular expression `^\d{4}-\d{2}-\d{2}$`. */
  predicate DateShaped(s: string) {
    |s| == 10 && s[4] == '-' && s[7] == '-'
    && forall i :: 0 <= i < 10 && i != 4 && i != 7 ==> IsDigit(s[i])
  }

  // ---------------------------------------------------------------------------
  // String(n)

  function DigitChar(d: nat): (c: char)
    requires d < 10
    ensures IsDigit(c)
  {
    ['0', '1', '2', '3', '4', '5', '6', '7', '8', '9'][d]
  }

  function DigitValue(c: char): nat
    requires IsDigit(c)
  {
    (c as int - '0' as int) as nat
  }

  /** Decimal text of a natural number, without leading zeros. */
  function NatText(n: nat): (r: string)
    ensures |r| > 0 && forall i :: 0 <= i < |r| ==> IsDigit(r[i])
    ensures n > 0 ==> r[0] != '0'
  {
    if n < 10 then [DigitChar(n)] else NatText(n / 10) + [DigitChar(n % 10)]
  }

  /** `String(i)` for an integer. */
  function IntText(i: int): (r: string)
    ensures |r| > 0
  {
    if i < 0 then "-" + NatText(-i) else NatText(i)
  }

  /** Reading decimal digits back, the inverse of `NatText`. */
  function DecimalValue(s: string): nat
    requires forall i :: 0 <= i < |s| ==> IsDigit(s[i])
  {
    if s == [] then 0 else 10 * DecimalValue(s[..|s| - 1]) + DigitValue(s[|s| - 1])
  }

  lemma {:induction false} NatTextRoundTrip(n: nat)
    ensures DecimalValue(NatText(n)) == n
  {
    if n >= 10 {
      var r := NatText(n);
      assert r[..|r| - 1] == NatText(n / 10);
      NatTextRoundTrip(n / 10);
    }
  }

  /** Different ids have different decimal texts. */
  lemma NatTextInjective(m: nat, n: nat)
    requires NatText(m) == NatText(n)
    ensures m == n
  {
    NatTextRoundTrip(m);
    NatTextRoundTrip(n);
  }

  /** Text of an id, as `_id.toString()` renders it. */
  function IdText(id: Id): string {
    NatText(id)
  }

  // ---------------------------------------------------------------------------
  // JavaScript `<` on strings: lexicographic order on characters

  predicate TextLe(a: string, b: string) {
    a == [] || (b != [] && (a[0] < b[0] || (a[0] == b[0] && TextLe(a[1..], b[1..]))))
  }

  lemma {:induction false} TextLeTotal(a: string, b: string)
    ensures TextLe(a, b) || TextLe(b, a)
  {
    if a != [] && b != [] && a[0] == b[0] {
      TextLeTotal(a[1..], b[1..]);
    }
  }

  lemma {:induction false} TextLeTransitive(a: string, b: string, c: string)
    requires TextLe(a, b) && TextLe(b, c)
    ensures TextLe(a, c)
  {
    if a != [] && b != [] && c != [] && a[0] == b[0] == c[0] {
      TextLeTransitive(a[1..], b[1..], c[1..]);
    }
  }

  lemma {:induction false} TextLeAntisymmetric(a: string, b: string)
    requires TextLe(a, b) && TextLe(b, a)
    ensures a == b
  {
    if a != [] && b != [] {
      TextLeAntisymmetric(a[1..], b[1..]);
    }
  }
}
