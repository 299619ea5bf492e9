/**
 * The line the snapshot agent prints and the controller reads back from its log.
 */
module SnapshotMarker {
  import opened Base

  // ---- Printing ----

  /** The literal parts of the marker; `head` and `middle` end and begin with the quotes around the uri. */
  datatype Format = Format(head: string, middle: string, sha: string)

  const Marker: Format := Format("snapshot uploaded: uri=\"", "\" size=", " sha256=")

  /** What reading back relies on: the uri ends at a quote, the size at a non-digit, and the head stays on one line. */
  predicate Fits(g: Format) {
    && g.middle != [] && g.middle[0] == '"'
    && g.sha != [] && !IsDigit(g.sha[0])
    && g.head != [] && '\n' !in g.head
  }

  lemma MarkerFits()
    ensures Fits(Marker)
  {
  }

  function HexDigit(n: nat): char
    requires n < 16
  {
    "0123456789abcdef"[n]
  }

  function Hex(n: nat, width: nat): string {
    if width == 0 then "" else Hex(n / 16, width - 1) + [HexDigit(n % 16)]
  }

  /** Left alone by %q; `graphic` decides for characters outside ASCII. */
  predicate PlainChar(c: char, graphic: char -> bool) {
    c != '"' && c != '\\' && if c as int < 0x80 then 0x20 <= c as int < 0x7f else graphic(c)
  }

  function Escape(c: char, graphic: char -> bool): (e: string)
    ensures e != [] && (!PlainChar(c, graphic) ==> |e| >= 2 && e[0] == '\\')
    ensures c == '\\' ==> e == "\\\\"
    ensures PlainChar(c, graphic) ==> e == [c]
    ensures '\n' !in e
  {
    if PlainChar(c, graphic) then [c]
    else if c == '"' then "\\\""
    else if c == '\\' then "\\\\"
    else if c as int == 7 then "\\a"
    else if c as int == 8 then "\\b"
    else if c as int == 9 then "\\t"
    else if c as int == 10 then "\\n"
    else if c as int == 11 then "\\v"
    else if c as int == 12 then "\\f"
    else if c as int == 13 then "\\r"
    else HexEscape(c as int)
  }

  function HexEscape(n: nat): (e: string)
    ensures |e| >= 2 && e[0] == '\\' && '\n' !in e
  {
    HexHasNoNewline(n, 2);
    HexHasNoNewline(n, 4);
    HexHasNoNewline(n, 8);
    if n < 0x80 then "\\x" + Hex(n, 2) else if n < 0x1_0000 then "\\u" + Hex(n, 4) else "\\U" + Hex(n, 8)
  }

  lemma {:induction false} HexHasNoNewline(n: nat, width: nat)
    ensures '\n' !in Hex(n, width)
  {
    if width > 0 {
      HexHasNoNewline(n / 16, width - 1);
    }
  }

  /** How %q writes each character: as it is, or escaped by a backslash. */
  type Escaping = char -> string

  ghost predicate IsEscaping(esc: Escaping) {
    && (forall c :: esc(c) == [c] || (|esc(c)| >= 2 && esc(c)[0] == '\\'))
    && (forall c :: '\n' !in esc(c))
    && esc('"') != ['"'] && esc('\\') == ['\\', '\\']
  }

  function GoEscaping(graphic: char -> bool): Escaping {
    c => Escape(c, graphic)
  }

  /** Go's escaping is one, whatever counts as printable beyond ASCII. */
  lemma GoEscapes(graphic: char -> bool)
    ensures IsEscaping(GoEscaping(graphic))
    ensures forall c :: GoEscaping(graphic)(c) == [c] <==> PlainChar(c, graphic)
  {
    forall c ensures Escape(c, graphic) == [c] <==> PlainChar(c, graphic) {
    }
    assert Escape('"', graphic) != ['"'];
  }

  function Quote(s: string, esc: Escaping): string {
    if s == [] then [] else esc(s[0]) + Quote(s[1..], esc)
  }

  /** %q leaves every character of s alone. */
  predicate Plain(s: string, esc: Escaping) {
    forall i :: 0 <= i < |s| ==> esc(s[i]) == [s[i]]
  }

  lemma {:induction false} QuoteStaysOnLine(s: string, esc: Escaping)
    requires IsEscaping(esc)
    ensures '\n' !in Quote(s, esc) && |Quote(s, esc)| >= |s|
  {
    if s != [] {
      QuoteStaysOnLine(s[1..], esc);
    }
  }

  function Decimal(n: nat): (s: string)
    ensures s != [] && forall i :: 0 <= i < |s| ==> IsDigit(s[i])
  {
    if n < 10 then ["0123456789"[n]] else Decimal(n / 10) + ["0123456789"[n % 10]]
  }

  /** The marker line, without its newline. */
  function Printed(g: Format, uri: string, size: nat, sum: string, esc: Escaping): string {
    g.head + (Quote(uri, esc) + (g.middle + (Decimal(size) + (g.sha + sum))))
  }

  // ---- Reading ----

  predicate IsDigit(c: char) { '0' <= c <= '9' }
  predicate IsHex(c: char) { IsDigit(c) || 'a' <= c <= 'f' }

  function DigitValue(c: char): nat
    requires IsDigit(c)
  {
    c as int - '0' as int
  }

  function Number(s: string): nat
    requires forall i :: 0 <= i < |s| ==> IsDigit(s[i])
  {
    if s == [] then 0 else 10 * Number(s[..|s| - 1]) + DigitValue(s[|s| - 1])
  }

  predicate At(s: string, i: nat, p: string) {
    i + |p| <= |s| && forall j :: 0 <= j < |p| ==> s[i + j] == p[j]
  }

  /** The end of the run of digits that starts at i. */
  function DigitsEnd(s: string, i: nat): (e: nat)
    requires i <= |s|
    ensures i <= e <= |s| && (forall j :: i <= j < e ==> IsDigit(s[j])) && (e < |s| ==> !IsDigit(s[e]))
    decreases |s| - i
  {
    if i < |s| && IsDigit(s[i]) then DigitsEnd(s, i + 1) else i
  }

  /** From j on: the closing quote, the size and the digest. */
  predicate TailAt(g: Format, s: string, j: nat) {
    At(s, j, g.middle) &&
    var d := j + |g.middle|;
    var e := DigitsEnd(s, d);
    e > d && At(s, e, g.sha) && e + |g.sha| + 64 <= |s|
    && forall i :: e + |g.sha| <= i < e + |g.sha| + 64 ==> IsHex(s[i])
  }

  /** The expression matches at i with a uri of k characters. */
  predicate Match(g: Format, s: string, i: nat, k: nat) {
    && At(s, i, g.head) && k >= 1
    && var u := i + |g.head|;
       u + k <= |s| && (forall j :: u <= j < u + k ==> s[j] != '\n') && TailAt(g, s, u + k)
  }

  datatype Artifact = Artifact(uri: string, size: int, checksum: string)

  datatype Parsed = NoMarker | SizeOverflow | Found(artifact: Artifact)

  const Int64Limit: int := 0x8000_0000_0000_0000

  function SizeText(g: Format, s: string, j: nat): (digits: string)
    requires TailAt(g, s, j)
    ensures IsNumber(digits)
  {
    var d := j + |g.middle|;
    var e := DigitsEnd(s, d);
    assert forall i :: 0 <= i < e - d ==> s[d..e][i] == s[d + i];
    s[d..e]
  }

  function SumText(g: Format, s: string, j: nat): string
    requires TailAt(g, s, j)
  {
    var h := DigitsEnd(s, j + |g.middle|) + |g.sha|;
    s[h..h + 64]
  }

  function Assemble(uri: string, digits: string, sum: string): Parsed
    requires IsNumber(digits)
  {
    var size := Number(digits);
    if size >= Int64Limit then SizeOverflow else Found(Artifact(uri, size, "sha256:" + sum))
  }

  function Fields(g: Format, s: string, i: nat, k: nat): Parsed
    requires Match(g, s, i, k)
  {
    var u := i + |g.head|;
    Assemble(s[u..u + k], SizeText(g, s, u + k), SumText(g, s, u + k))
  }

  /** Leftmost start, then shortest uri. */
  ghost predicate First(g: Format, s: string, i: nat, k: nat) {
    && Match(g, s, i, k)
    && (forall j, l :: 0 <= j < i ==> !Match(g, s, j, l))
    && forall l :: 0 <= l < k ==> !Match(g, s, i, l)
  }

  ghost predicate IsParse(g: Format, s: string, r: Parsed) {
    if exists i, k :: Match(g, s, i, k) then exists i, k :: First(g, s, i, k) && r == Fields(g, s, i, k) else r == NoMarker
  }

  /** parseSnapshotMarker. */
  method ParseMarker(g: Format, log: string) returns (r: Parsed)
    ensures IsParse(g, log, r)
  {
    for i := 0 to |log|
      invariant forall j, l :: 0 <= j < i ==> !Match(g, log, j, l)
    {
      if At(log, i, g.head) {
        for k := 0 to |log| - i - |g.head| + 1
          invariant forall l :: 0 <= l < k ==> !Match(g, log, i, l)
        {
          if Match(g, log, i, k) {
            assert First(g, log, i, k);
            return Fields(g, log, i, k);
          }
        }
      }
    }
    r := NoMarker;
  }

  // ---- Round trip ----

  lemma {:induction false} NumberOfDecimal(n: nat)
    ensures Number(Decimal(n)) == n
  {
    if n < 10 {
      var s := Decimal(n);
      assert s[..|s| - 1] == [];
    } else {
      NumberOfDecimal(n / 10);
      var s := Decimal(n);
      assert s[..|s| - 1] == Decimal(n / 10);
    }
  }

  lemma {:induction false} PlainQuote(s: string, esc: Escaping)
    requires Plain(s, esc)
    ensures Quote(s, esc) == s
  {
    if s != [] {
      PlainQuote(s[1..], esc);
      assert s == [s[0]] + s[1..];
    }
  }

  lemma DigitsEndIs(s: string, i: nat, e: nat)
    requires i <= e < |s| && (forall j :: i <= j < e ==> IsDigit(s[j])) && !IsDigit(s[e])
    ensures DigitsEnd(s, i) == e
  {
  }

  /** Four strings stand in s one after another, from j on. */
  predicate InARow(s: string, j: nat, p: string, q: string, r: string, t: string) {
    At(s, j, p) && At(s, j + |p|, q) && At(s, j + |p| + |q|, r) && At(s, j + |p| + |q| + |r|, t)
  }

  lemma AtShift(a: string, b: string, c: string, i: nat, p: string)
    requires At(b, i, p)
    ensures At(a + b + c, |a| + i, p)
  {
    var s := a + b + c;
    forall j | 0 <= j < |p| ensures s[|a| + i + j] == p[j] {
      assert s[|a| + i + j] == b[i + j];
    }
  }

  lemma RowShift(a: string, b: string, c: string, j: nat, p: string, q: string, r: string, t: string)
    requires InARow(b, j, p, q, r, t)
    ensures InARow(a + b + c, |a| + j, p, q, r, t)
  {
    AtShift(a, b, c, j, p);
    AtShift(a, b, c, j + |p|, q);
    AtShift(a, b, c, j + |p| + |q|, r);
    AtShift(a, b, c, j + |p| + |q| + |r|, t);
  }

  lemma AtFront(p: string, b: string)
    ensures At(p + b, 0, p)
  {
  }

  lemma AtAfter(a: string, b: string, i: nat, p: string)
    requires At(b, i, p)
    ensures At(a + b, |a| + i, p)
  {
    var s := a + b;
    forall j | 0 <= j < |p| ensures s[|a| + i + j] == p[j] {
      assert s[|a| + i + j] == b[i + j];
    }
  }

  lemma RowThere(p: string, q: string, r: string, t: string)
    ensures InARow(p + (q + (r + t)), 0, p, q, r, t)
  {
    var rt, qrt := r + t, q + (r + t);
    AtFront(r, t);
    AtFront(q, rt);
    AtFront(p, qrt);
    assert At(rt, |r|, t);
    AtAfter(q, rt, 0, r);
    AtAfter(q, rt, |r|, t);
    AtAfter(p, qrt, |q|, r);
    AtAfter(p, qrt, 0, q);
    AtAfter(p, qrt, |q| + |r|, t);
  }

  lemma RowAfter(a: string, b: string, j: nat, p: string, q: string, r: string, t: string)
    requires InARow(b, j, p, q, r, t)
    ensures InARow(a + b, |a| + j, p, q, r, t)
  {
    AtAfter(a, b, j, p);
    AtAfter(a, b, j + |p|, q);
    AtAfter(a, b, j + |p| + |q|, r);
    AtAfter(a, b, j + |p| + |q| + |r|, t);
  }

  lemma AtIndex(s: string, i: nat, p: string, j: nat)
    requires At(s, i, p) && i <= j < i + |p|
    ensures s[j] == p[j - i]
  {
    assert s[i + (j - i)] == p[j - i];
  }

  lemma AtSlice(s: string, i: nat, p: string)
    requires At(s, i, p)
    ensures s[i..i + |p|] == p
  {
  }

  predicate IsSum(sum: string) {
    |sum| == 64 && forall i :: 0 <= i < 64 ==> IsHex(sum[i])
  }

  predicate IsNumber(digits: string) {
    digits != [] && forall i :: 0 <= i < |digits| ==> IsDigit(digits[i])
  }

  lemma DigitsThere(g: Format, s: string, d: nat, digits: string)
    requires Fits(g) && At(s, d, digits) && IsNumber(digits) && At(s, d + |digits|, g.sha)
    ensures DigitsEnd(s, d) == d + |digits|
  {
    var e := d + |digits|;
    forall j | d <= j < e ensures IsDigit(s[j]) {
      AtIndex(s, d, digits, j);
    }
    AtIndex(s, e, g.sha, e);
    DigitsEndIs(s, d, e);
  }

  /** A printed end is read as printed. */
  lemma RowIsTail(g: Format, s: string, j: nat, digits: string, sum: string)
    requires Fits(g) && InARow(s, j, g.middle, digits, g.sha, sum) && IsNumber(digits) && IsSum(sum)
    ensures TailAt(g, s, j) && DigitsEnd(s, j + |g.middle|) == j + |g.middle| + |digits|
  {
    var d := j + |g.middle|;
    var e := d + |digits|;
    DigitsThere(g, s, d, digits);
    forall i | e + |g.sha| <= i < e + |g.sha| + 64 ensures IsHex(s[i]) {
      AtIndex(s, e + |g.sha|, sum, i);
    }
  }

  /** A quoted uri and the printed end, from u on. */
  ghost predicate Body(g: Format, s: string, u: nat, q: string, digits: string, sum: string) {
    && At(s, u, q) && InARow(s, u + |q|, g.middle, digits, g.sha, sum) && IsNumber(digits) && IsSum(sum)
    && '\n' !in q
  }

  lemma BodyMatches(g: Format, s: string, i: nat, q: string, digits: string, sum: string)
    requires Fits(g) && At(s, i, g.head) && Body(g, s, i + |g.head|, q, digits, sum) && q != []
    ensures Match(g, s, i, |q|)
  {
    RowIsTail(g, s, i + |g.head| + |q|, digits, sum);
    var u := i + |g.head|;
    forall j | u <= j < u + |q| ensures s[j] != '\n' {
      AtIndex(s, u, q, j);
      assert q[j - u] in q;
    }
  }

  /** A quote-free uri ends at the first quote there is. */
  lemma NoShorter(g: Format, s: string, i: nat, q: string, l: nat)
    requires Fits(g) && At(s, i + |g.head|, q) && l < |q| && '"' !in q
    ensures !Match(g, s, i, l)
  {
    var u := i + |g.head|;
    AtIndex(s, u, q, u + l);
    assert s[u + l] in q;
  }

  /** The parser has no choice but (i, k). */
  lemma ParseAt(g: Format, s: string, r: Parsed, i: nat, k: nat)
    requires IsParse(g, s, r) && First(g, s, i, k)
    ensures r == Fields(g, s, i, k)
  {
    var i', k' :| First(g, s, i', k') && r == Fields(g, s, i', k');
    assert Match(g, s, i, k) && Match(g, s, i', k');
    assert i == i';
    assert k == k';
  }

  // ---- Logs ----

  /** Nothing before position n starts like a marker. */
  ghost predicate NoEarlier(g: Format, s: string, n: nat) {
    forall i :: 0 <= i < n ==> !At(s, i, g.head)
  }

  /** A log in which the marker's line starts at `n`. */
  ghost predicate Logged(g: Format, s: string, n: nat, uri: string, size: nat, sum: string, esc: Escaping) {
    && NoEarlier(g, s, n) && At(s, n, g.head)
    && Body(g, s, n + |g.head|, Quote(uri, esc), Decimal(size), sum)
  }

  /** Any log with complete lines and no marker before the printed one is such a log. */
  lemma PrintedIsLogged(g: Format, pre: string, uri: string, size: nat, sum: string, post: string, esc: Escaping)
    requires IsEscaping(esc) && Fits(g) && IsSum(sum) && NoEarlier(g, pre, |pre|) && (pre == "" || pre[|pre| - 1] == '\n')
    ensures Logged(g, pre + Printed(g, uri, size, sum, esc) + post, |pre|, uri, size, sum, esc)
  {
    var line := Printed(g, uri, size, sum, esc);
    LineThere(pre, g.head, Quote(uri, esc), g.middle, Decimal(size), g.sha, sum, post);
    QuoteStaysOnLine(uri, esc);
    NothingAcross(g, pre, line + post);
    assert pre + line + post == pre + (line + post);
  }

  lemma RestThere(h: string, q: string, m: string, d: string, x: string, sum: string)
    ensures var line := h + (q + (m + (d + (x + sum))));
            At(line, 0, h) && At(line, |h|, q) && InARow(line, |h| + |q|, m, d, x, sum)
  {
    var row := m + (d + (x + sum));
    RowThere(m, d, x, sum);
    RowAfter(q, row, 0, m, d, x, sum);
    AtFront(q, row);
    RowAfter(h, q + row, |q|, m, d, x, sum);
    AtAfter(h, q + row, 0, q);
    AtFront(h, q + row);
  }

  lemma LineThere(pre: string, h: string, q: string, m: string, d: string, x: string, sum: string, post: string)
    ensures var s := pre + (h + (q + (m + (d + (x + sum))))) + post;
            At(s, |pre|, h) && At(s, |pre| + |h|, q) && InARow(s, |pre| + |h| + |q|, m, d, x, sum)
  {
    var line := h + (q + (m + (d + (x + sum))));
    RestThere(h, q, m, d, x, sum);
    RowShift(pre, line, post, |h| + |q|, m, d, x, sum);
    AtShift(pre, line, post, |h|, q);
    AtShift(pre, line, post, 0, h);
  }

  /** A marker cannot straddle the end of a line. */
  lemma NothingAcross(g: Format, pre: string, rest: string)
    requires Fits(g) && NoEarlier(g, pre, |pre|) && (pre == "" || pre[|pre| - 1] == '\n')
    ensures NoEarlier(g, pre + rest, |pre|)
  {
    var s := pre + rest;
    forall i | 0 <= i < |pre| ensures !At(s, i, g.head) {
      if At(s, i, g.head) {
        if i + |g.head| <= |pre| {
          assert At(pre, i, g.head);
        } else {
          AtIndex(s, i, g.head, |pre| - 1);
        }
      }
    }
  }

  // ---- When the round trip holds ----

  lemma FirstThere(g: Format, s: string, n: nat, uri: string, size: nat, sum: string, esc: Escaping)
    requires IsEscaping(esc) && Fits(g) && Logged(g, s, n, uri, size, sum, esc) && Plain(uri, esc) && uri != ""
    ensures First(g, s, n, |uri|)
  {
    PlainQuote(uri, esc);
    BodyMatches(g, s, n, uri, Decimal(size), sum);
    assert '"' !in uri;
    forall l | 0 <= l < |uri| ensures !Match(g, s, n, l) {
      NoShorter(g, s, n, uri, l);
    }
  }

  lemma TextsAre(g: Format, s: string, j: nat, digits: string, sum: string)
    requires Fits(g) && TailAt(g, s, j) && InARow(s, j, g.middle, digits, g.sha, sum) && IsNumber(digits) && IsSum(sum)
    ensures SizeText(g, s, j) == digits && SumText(g, s, j) == sum
  {
    RowIsTail(g, s, j, digits, sum);
    AtSlice(s, j + |g.middle|, digits);
    AtSlice(s, j + |g.middle| + |digits| + |g.sha|, sum);
  }

  lemma FieldsAre(g: Format, s: string, i: nat, uri: string, digits: string, sum: string)
    requires Fits(g) && Match(g, s, i, |uri|) && At(s, i + |g.head|, uri)
    requires InARow(s, i + |g.head| + |uri|, g.middle, digits, g.sha, sum) && IsNumber(digits) && IsSum(sum)
    ensures Fields(g, s, i, |uri|) == Assemble(uri, digits, sum)
  {
    TextsAre(g, s, i + |g.head| + |uri|, digits, sum);
    AtSlice(s, i + |g.head|, uri);
  }

  lemma FieldsThere(g: Format, s: string, n: nat, uri: string, size: nat, sum: string, esc: Escaping)
    requires Fits(g) && Logged(g, s, n, uri, size, sum, esc) && Plain(uri, esc) && Match(g, s, n, |uri|) && size < Int64Limit
    ensures Fields(g, s, n, |uri|) == Found(Artifact(uri, size, "sha256:" + sum))
  {
    PlainQuote(uri, esc);
    FieldsAre(g, s, n, uri, Decimal(size), sum);
    NumberOfDecimal(size);
  }

  /** b backslashes, then the quoted rest: the text that a reader of u would have to find equal to u. */
  function Slashes(b: nat): string { seq(b, _ => '\\') }

  lemma {:induction false} SlashesRunOn(b: nat, u: string, rest: string, esc: Escaping)
    requires IsEscaping(esc) && b >= 1
    ensures var text := Slashes(b) + Quote(u, esc) + rest;
            |u| < |text| && !(text[..|u|] == u && text[|u|] == '"')
    decreases |u|
  {
    var text := Slashes(b) + Quote(u, esc) + rest;
    QuoteStaysOnLine(u, esc);
    assert text[0] == '\\';
    if u != [] && u[0] == '\\' {
      var next := Slashes(b + 1) + Quote(u[1..], esc) + rest;
      SlashesRunOn(b + 1, u[1..], rest, esc);
      OneSlashLess(b, Quote(u[1..], esc), rest);
      assert Quote(u, esc) == ['\\', '\\'] + Quote(u[1..], esc);
      TailsAgree('\\', next, u);
    }
  }

  lemma OneSlashLess(b: nat, q: string, rest: string)
    ensures Slashes(b) + (['\\', '\\'] + q) + rest == ['\\'] + (Slashes(b + 1) + q + rest)
  {
    var s, t := Slashes(b) + (['\\', '\\'] + q) + rest, ['\\'] + (Slashes(b + 1) + q + rest);
    assert |s| == |t|;
    forall i | 0 <= i < |s| ensures s[i] == t[i] {
    }
  }

  /** A quoted string that is not its own quotation does not start with itself and a quote. */
  lemma {:induction false} QuotedDiffers(u: string, rest: string, esc: Escaping)
    requires IsEscaping(esc) && !Plain(u, esc)
    ensures var text := Quote(u, esc) + rest;
            |u| < |text| ==> !(text[..|u|] == u && text[|u|] == '"')
    decreases |u|
  {
    var text := Quote(u, esc) + rest;
    var c, more := u[0], Quote(u[1..], esc) + rest;
    assert text == esc(c) + more;
    if esc(c) == [c] {
      assert text == [c] + more;
      TailsAgree(c, more, u);
      QuotedDiffers(u[1..], rest, esc);
    } else if c == '\\' {
      var next := Slashes(1) + Quote(u[1..], esc) + rest;
      SlashesRunOn(1, u[1..], rest, esc);
      assert text == [c] + next;
      TailsAgree(c, next, u);
    }
  }

  lemma TailsAgree(c: char, more: string, u: string)
    requires u != []
    ensures var text := [c] + more;
            |u| < |text| && text[..|u|] == u && text[|u|] == '"' ==>
              |u| - 1 < |more| && more[..|u| - 1] == u[1..] && more[|u| - 1] == '"'
  {
    var text := [c] + more;
    if |u| < |text| && text[..|u|] == u {
      assert more[..|u| - 1] == text[..|u|][1..];
    }
  }

  /**
   * Reading the log back gives the printed uri, size and digest exactly when the uri is not
   * empty and %q leaves every character of it alone.
   */
  lemma MarkerRoundTrip(g: Format, s: string, n: nat, uri: string, size: nat, sum: string, esc: Escaping, r: Parsed)
    requires IsEscaping(esc) && Fits(g) && Logged(g, s, n, uri, size, sum, esc) && size < Int64Limit && IsParse(g, s, r)
    ensures r == Found(Artifact(uri, size, "sha256:" + sum)) <==> Plain(uri, esc) && uri != ""
  {
    if Plain(uri, esc) && uri != "" {
      FirstThere(g, s, n, uri, size, sum, esc);
      ParseAt(g, s, r, n, |uri|);
      FieldsThere(g, s, n, uri, size, sum, esc);
    } else if uri == "" {
      NeverEmpty(g, s, r);
    } else {
      EscapedDiffers(g, s, n, uri, size, sum, esc, r);
    }
  }

  lemma FieldsUri(g: Format, s: string, i: nat, k: nat)
    requires Match(g, s, i, k)
    ensures Fields(g, s, i, k).Found? ==>
              Fields(g, s, i, k).artifact.uri == s[i + |g.head|..i + |g.head| + k] && |Fields(g, s, i, k).artifact.uri| == k
  {
  }

  lemma NeverEmpty(g: Format, s: string, r: Parsed)
    requires IsParse(g, s, r)
    ensures r.Found? ==> r.artifact.uri != ""
  {
    if r.Found? {
      var i, k :| First(g, s, i, k) && r == Fields(g, s, i, k);
      FieldsUri(g, s, i, k);
    }
  }

  lemma StartsHere(g: Format, s: string, n: nat, m: nat, i: nat, k: nat)
    requires NoEarlier(g, s, n) && Match(g, s, n, m) && First(g, s, i, k)
    ensures i == n
  {
  }

  lemma EndsAtQuote(g: Format, s: string, i: nat, k: nat)
    requires Fits(g) && Match(g, s, i, k)
    ensures s[i + |g.head| + k] == '"'
  {
    AtIndex(s, i + |g.head| + k, g.middle, i + |g.head| + k);
  }

  lemma Chosen(g: Format, s: string, r: Parsed) returns (i: nat, k: nat)
    requires IsParse(g, s, r) && exists i, k :: Match(g, s, i, k)
    ensures First(g, s, i, k) && r == Fields(g, s, i, k)
  {
    i, k :| First(g, s, i, k) && r == Fields(g, s, i, k);
  }

  /** The parser starts at the marker. */
  lemma ParsedFrom(g: Format, s: string, n: nat, m: nat, r: Parsed) returns (k: nat)
    requires Fits(g) && NoEarlier(g, s, n) && Match(g, s, n, m) && IsParse(g, s, r)
    ensures Match(g, s, n, k) && r == Fields(g, s, n, k)
  {
    var i, l := Chosen(g, s, r);
    StartsHere(g, s, n, m, i, l);
    k := l;
  }

  lemma RestOf(s: string, u: nat, q: string, k: nat)
    requires At(s, u, q) && u + k < |s|
    ensures var text := q + s[u + |q|..]; k < |text| && text[..k] == s[u..u + k] && text[k] == s[u + k]
  {
    AtSlice(s, u, q);
    assert q + s[u + |q|..] == s[u..];
  }

  /** What stands where an escaped uri was printed, up to any quote, is not that uri. */
  lemma UriDiffers(s: string, u: nat, uri: string, k: nat, esc: Escaping)
    requires IsEscaping(esc) && !Plain(uri, esc) && At(s, u, Quote(uri, esc)) && u + k < |s| && s[u + k] == '"'
    ensures s[u..u + k] != uri
  {
    var q := Quote(uri, esc);
    RestOf(s, u, q, k);
    QuotedDiffers(uri, s[u + |q|..], esc);
  }

  /** The parsed uri is what stands from u on, up to some quote. */
  ghost predicate StopsAtQuote(s: string, u: nat, r: Parsed) {
    r.Found? ==> var k := |r.artifact.uri|; u + k < |s| && s[u + k] == '"' && r.artifact.uri == s[u..u + k]
  }

  lemma FieldsStop(g: Format, s: string, n: nat, k: nat)
    requires Fits(g) && Match(g, s, n, k)
    ensures StopsAtQuote(s, n + |g.head|, Fields(g, s, n, k))
  {
    MatchInside(g, s, n, k);
    EndsAtQuote(g, s, n, k);
    FieldsUri(g, s, n, k);
  }

  lemma ParseStops(g: Format, s: string, n: nat, m: nat, r: Parsed)
    requires Fits(g) && NoEarlier(g, s, n) && Match(g, s, n, m) && IsParse(g, s, r)
    ensures StopsAtQuote(s, n + |g.head|, r)
  {
    var k := ParsedFrom(g, s, n, m, r);
    FieldsStop(g, s, n, k);
  }

  lemma MatchInside(g: Format, s: string, i: nat, k: nat)
    requires Fits(g) && Match(g, s, i, k)
    ensures i + |g.head| + k < |s|
  {
  }

  lemma LoggedStops(g: Format, s: string, n: nat, uri: string, size: nat, sum: string, esc: Escaping, r: Parsed)
    requires IsEscaping(esc) && Fits(g) && Logged(g, s, n, uri, size, sum, esc) && uri != "" && IsParse(g, s, r)
    ensures StopsAtQuote(s, n + |g.head|, r)
  {
    QuoteStaysOnLine(uri, esc);
    BodyMatches(g, s, n, Quote(uri, esc), Decimal(size), sum);
    ParseStops(g, s, n, |Quote(uri, esc)|, r);
  }

  lemma FoundDiffers(s: string, u: nat, uri: string, esc: Escaping, r: Parsed)
    requires IsEscaping(esc) && !Plain(uri, esc) && At(s, u, Quote(uri, esc)) && StopsAtQuote(s, u, r)
    ensures r.Found? ==> r.artifact.uri != uri
  {
    if r.Found? {
      UriDiffers(s, u, uri, |r.artifact.uri|, esc);
    }
  }

  lemma EscapedDiffers(g: Format, s: string, n: nat, uri: string, size: nat, sum: string, esc: Escaping, r: Parsed)
    requires IsEscaping(esc) && Fits(g) && Logged(g, s, n, uri, size, sum, esc) && IsParse(g, s, r) && !Plain(uri, esc)
    ensures r.Found? ==> r.artifact.uri != uri
  {
    LoggedStops(g, s, n, uri, size, sum, esc, r);
    FoundDiffers(s, n + |g.head|, uri, esc, r);
  }

  /** So for the line the agent prints, in any log of complete lines without an earlier marker. */
  lemma AgentLineRoundTrip(pre: string, uri: string, size: nat, sum: string, post: string, graphic: char -> bool, r: Parsed)
    requires IsSum(sum) && size < Int64Limit
    requires NoEarlier(Marker, pre, |pre|) && (pre == "" || pre[|pre| - 1] == '\n')
    requires IsParse(Marker, pre + Printed(Marker, uri, size, sum, GoEscaping(graphic)) + post, r)
    ensures r == Found(Artifact(uri, size, "sha256:" + sum)) <==>
            uri != "" && forall i :: 0 <= i < |uri| ==> PlainChar(uri[i], graphic)
  {
    var esc := GoEscaping(graphic);
    MarkerFits();
    GoEscapes(graphic);
    PrintedIsLogged(Marker, pre, uri, size, sum, post, esc);
    MarkerRoundTrip(Marker, pre + Printed(Marker, uri, size, sum, esc) + post, |pre|, uri, size, sum, esc, r);
  }
}
