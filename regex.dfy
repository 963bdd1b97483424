/** The five validators of the regular-expression homework, each written as a
    hand-made recogniser of the whole string (the patterns are used with
    `matches`, which anchors both ends). Each recogniser is paired with an
    independent description of the language it accepts and a lemma proving
    the two agree. */
module Regex {
  import opened Numbers
  import opened Outcomes

  // ---------------------------------------------------------------------
  // EMAIL: [A-Za-z0-9._\-]+ @ [A-Za-z0-9-]* \. [a-z]{2,3}

  predicate IsLetterOrDigit(c: char) {
    'A' <= c <= 'Z' || 'a' <= c <= 'z' || '0' <= c <= '9'
  }

  predicate IsLocalChar(c: char) {
    IsLetterOrDigit(c) || c == '.' || c == '_' || c == '-'
  }

  predicate IsDomainChar(c: char) {
    IsLetterOrDigit(c) || c == '-'
  }

  predicate IsLower(c: char) {
    'a' <= c <= 'z'
  }

  predicate AllLocal(s: string) {
    forall i :: 0 <= i < |s| ==> IsLocalChar(s[i])
  }

  predicate AllDomain(s: string) {
    forall i :: 0 <= i < |s| ==> IsDomainChar(s[i])
  }

  predicate AllLower(s: string) {
    forall i :: 0 <= i < |s| ==> IsLower(s[i])
  }

  predicate IsTld(t: string) {
    2 <= |t| <= 3 && AllLower(t)
  }

  /** The recogniser: the local part runs up to the first '@', the domain up
      to the first '.' after it, and the rest is the top-level domain. */
  predicate IsEmail(s: string) {
    var at := IndexOf(s, '@');
    0 < at < |s| && AllLocal(s[..at]) && IsDomainAndTld(s[at + 1..])
  }

  predicate IsDomainAndTld(r: string) {
    var dot := IndexOf(r, '.');
    dot < |r| && AllDomain(r[..dot]) && IsTld(r[dot + 1..])
  }

  function Email(local: string, domain: string, tld: string): string {
    local + "@" + domain + "." + tld
  }

  predicate EmailParts(local: string, domain: string, tld: string) {
    |local| > 0 && AllLocal(local) && AllDomain(domain) && IsTld(tld)
  }

  /** The language of the pattern: a non-empty local part, '@', a possibly
      empty domain, '.', and two or three lower-case letters. */
  ghost predicate EmailLanguage(s: string) {
    exists local, domain, tld :: EmailParts(local, domain, tld) && s == Email(local, domain, tld)
  }

  lemma {:induction false} IndexOfFirst(a: string, c: char, b: string)
    requires forall i :: 0 <= i < |a| ==> a[i] != c
    ensures IndexOf(a + [c] + b, c) == |a|
  {
    if a != [] {
      assert (a + [c] + b)[1..] == a[1..] + [c] + b;
      IndexOfFirst(a[1..], c, b);
    }
  }

  /** Splitting at the first separator gives back the two parts. */
  lemma SplitAtFirst(a: string, c: char, b: string)
    requires forall i :: 0 <= i < |a| ==> a[i] != c
    ensures var s := a + [c] + b; IndexOf(s, c) == |a| && s[..|a|] == a && s[|a| + 1..] == b
  {
    IndexOfFirst(a, c, b);
  }

  lemma EmailSound(s: string)
    requires IsEmail(s)
    ensures EmailLanguage(s)
  {
    var at := IndexOf(s, '@');
    var rest := s[at + 1..];
    var dot := IndexOf(rest, '.');
    var local, domain, tld := s[..at], rest[..dot], rest[dot + 1..];
    assert rest == domain + "." + tld;
    assert s == local + "@" + rest;
    assert s == Email(local, domain, tld);
    assert EmailParts(local, domain, tld);
  }

  lemma EmailComplete(local: string, domain: string, tld: string)
    requires EmailParts(local, domain, tld)
    ensures IsEmail(Email(local, domain, tld))
  {
    var rest := domain + "." + tld;
    assert Email(local, domain, tld) == local + ['@'] + rest;
    SplitAtFirst(local, '@', rest);
    SplitAtFirst(domain, '.', tld);
  }

  /** EMAIL accepts exactly the strings of its pattern. */
  lemma EmailIff(s: string)
    ensures IsEmail(s) <==> EmailLanguage(s)
  {
    if IsEmail(s) {
      EmailSound(s);
    }
    if EmailLanguage(s) {
      var local, domain, tld :| EmailParts(local, domain, tld) && s == Email(local, domain, tld);
      EmailComplete(local, domain, tld);
    }
  }

  // ---------------------------------------------------------------------
  // EVEN_STRINGS: (.{2}){5,10}

  /** The characters '.' does not match without DOTALL. */
  predicate IsLineTerminator(c: char) {
    c == '\n' || c == '\r' || c == '\U{85}' || c == '\U{2028}' || c == '\U{2029}'
  }

  /** The number of two-character groups s splits into when none of its
      characters is a line terminator; None when s cannot be split so. */
  function Pairs(s: string): Option<nat> {
    if s == [] then Some(0)
    else if |s| >= 2 && !IsLineTerminator(s[0]) && !IsLineTerminator(s[1]) then
      match Pairs(s[2..])
      case Some(n) => Some(n + 1)
      case None => None
    else None
  }

  /** The recogniser: five to ten groups of two. */
  predicate IsEvenString(s: string) {
    match Pairs(s)
    case Some(n) => 5 <= n <= 10
    case None => false
  }

  lemma {:induction false} PairsCount(s: string)
    ensures Pairs(s).Some? <==> |s| % 2 == 0 && forall i :: 0 <= i < |s| ==> !IsLineTerminator(s[i])
    ensures Pairs(s).Some? ==> Pairs(s).value * 2 == |s|
  {
    if |s| >= 2 {
      PairsCount(s[2..]);
      assert forall i :: 2 <= i < |s| ==> s[i] == s[2..][i - 2];
    }
  }

  /** EVEN_STRINGS accepts exactly the strings of even length from 10 to 20
      that contain no line terminator. */
  lemma EvenStringIff(s: string)
    ensures IsEvenString(s) <==>
      |s| % 2 == 0 && 10 <= |s| <= 20 && forall i :: 0 <= i < |s| ==> !IsLineTerminator(s[i])
  {
    PairsCount(s);
  }

  // ---------------------------------------------------------------------
  // INTEGER_LIST: \[ (([1-9]) (,\s*[1-9])*)? \]

  predicate IsPositiveDigit(c: char) {
    '1' <= c <= '9'
  }

  /** The characters of Java's \s. */
  predicate IsSpace(c: char) {
    c == ' ' || c == '\t' || c == '\n' || c == '\U{B}' || c == '\U{C}' || c == '\r'
  }

  predicate AllSpace(s: string) {
    forall i :: 0 <= i < |s| ==> IsSpace(s[i])
  }

  /** The length of the run of \s characters that starts s. */
  function SpaceRun(s: string): (n: nat)
    ensures n <= |s| && AllSpace(s[..n])
    ensures n < |s| ==> !IsSpace(s[n])
  {
    if s != [] && IsSpace(s[0]) then
      var n := 1 + SpaceRun(s[1..]);
      assert forall i :: 1 <= i < n ==> s[..n][i] == s[1..][..n - 1][i - 1];
      n
    else 0
  }

  /** Zero or more repetitions of ',' \s* [1-9]. */
  predicate ListTail(t: string)
    decreases |t|
  {
    if t == [] then true
    else
      t[0] == ',' &&
      var n := SpaceRun(t[1..]);
      1 + n < |t| && IsPositiveDigit(t[1 + n]) && ListTail(t[2 + n..])
  }

  /** The recogniser. */
  predicate IsIntegerList(s: string) {
    |s| >= 2 && s[0] == '[' && s[|s| - 1] == ']' &&
    var inner := s[1..|s| - 1];
    inner == [] || (IsPositiveDigit(inner[0]) && ListTail(inner[1..]))
  }

  /** One gap per element after the first. */
  predicate ListShape(ds: seq<char>, gaps: seq<string>) {
    |gaps| + 1 == |ds| || (ds == [] && gaps == [])
  }

  /** The list whose elements are the digits ds, with gaps[k] written between
      the comma and the element k + 1. */
  function RenderList(ds: seq<char>, gaps: seq<string>): string
    requires ListShape(ds, gaps)
  {
    if ds == [] then "[]" else "[" + [ds[0]] + RenderTail(ds[1..], gaps) + "]"
  }

  function RenderTail(ds: seq<char>, gaps: seq<string>): string
    requires |gaps| == |ds|
  {
    if ds == [] then "" else "," + gaps[0] + [ds[0]] + RenderTail(ds[1..], gaps[1..])
  }

  predicate ValidElements(ds: seq<char>, gaps: seq<string>) {
    (forall i :: 0 <= i < |ds| ==> IsPositiveDigit(ds[i])) &&
    (forall k :: 0 <= k < |gaps| ==> AllSpace(gaps[k]))
  }

  lemma {:induction false} TailAccepts(ds: seq<char>, gaps: seq<string>)
    requires |gaps| == |ds| && ValidElements(ds, gaps)
    ensures ListTail(RenderTail(ds, gaps))
  {
    if ds != [] {
      assert ValidElements(ds[1..], gaps[1..]);
      TailAccepts(ds[1..], gaps[1..]);
      TailStep(gaps[0], ds[0], RenderTail(ds[1..], gaps[1..]));
    }
  }

  lemma TailStep(g: string, d: char, rest: string)
    requires AllSpace(g) && IsPositiveDigit(d) && ListTail(rest)
    ensures ListTail("," + g + [d] + rest)
  {
    var t := "," + g + [d] + rest;
    assert t[1..] == g + ([d] + rest);
    SpaceRunOf(g, [d] + rest);
    assert t[1 + |g|] == d;
    assert t[2 + |g|..] == rest;
  }

  lemma {:induction false} SpaceRunOf(g: string, rest: string)
    requires AllSpace(g) && rest != [] && !IsSpace(rest[0])
    ensures SpaceRun(g + rest) == |g|
  {
    if g != [] {
      assert (g + rest)[1..] == g[1..] + rest;
      SpaceRunOf(g[1..], rest);
    }
  }

  /** Every list written with digits 1-9, commas and whitespace after the
      commas is accepted. */
  lemma RenderedListAccepted(ds: seq<char>, gaps: seq<string>)
    requires ListShape(ds, gaps)
    requires ValidElements(ds, gaps)
    ensures IsIntegerList(RenderList(ds, gaps))
  {
    if ds != [] {
      var tail := RenderTail(ds[1..], gaps);
      assert ValidElements(ds[1..], gaps) by {
        assert forall i :: 0 <= i < |ds| - 1 ==> ds[1..][i] == ds[i + 1];
      }
      TailAccepts(ds[1..], gaps);
      ListOf(ds[0], tail);
    }
  }

  /** A first element and an accepted tail in brackets are accepted. */
  lemma ListOf(d: char, tail: string)
    requires IsPositiveDigit(d) && ListTail(tail)
    ensures IsIntegerList("[" + [d] + tail + "]")
  {
    var s := "[" + [d] + tail + "]";
    assert s[1..|s| - 1] == [d] + tail;
    assert ([d] + tail)[1..] == tail;
  }

  /** The elements and gaps of an accepted tail. */
  function TailElements(t: string): (r: (seq<char>, seq<string>))
    requires ListTail(t)
    ensures |r.1| == |r.0| && ValidElements(r.0, r.1) && RenderTail(r.0, r.1) == t
    decreases |t|
  {
    if t == [] then ([], [])
    else
      var n := SpaceRun(t[1..]);
      var rest := TailElements(t[2 + n..]);
      var d := t[1 + n];
      var g := t[1..][..n];
      ValidCons(d, g, rest.0, rest.1);
      RenderCons(t, n, d, g, rest.0, rest.1);
      ([t[1 + n]] + rest.0, [t[1..][..n]] + rest.1)
  }

  /** One more valid element and gap in front of valid ones. */
  lemma ValidCons(d: char, g: string, ds: seq<char>, gaps: seq<string>)
    requires IsPositiveDigit(d) && AllSpace(g) && ValidElements(ds, gaps)
    ensures ValidElements([d] + ds, [g] + gaps)
  {
    assert forall i :: 1 <= i < |ds| + 1 ==> ([d] + ds)[i] == ds[i - 1];
    assert forall k :: 1 <= k < |gaps| + 1 ==> ([g] + gaps)[k] == gaps[k - 1];
  }

  /** The rendering of one more element in front of the rest of the tail. */
  lemma RenderCons(t: string, n: nat, d: char, g: string, ds: seq<char>, gaps: seq<string>)
    requires 1 + n < |t| && t[0] == ',' && d == t[1 + n] && g == t[1..][..n]
    requires |gaps| == |ds| && RenderTail(ds, gaps) == t[2 + n..]
    ensures RenderTail([d] + ds, [g] + gaps) == t
  {
    assert ([d] + ds)[1..] == ds;
    assert ([g] + gaps)[1..] == gaps;
    assert RenderTail([d] + ds, [g] + gaps) == "," + g + [d] + t[2 + n..];
    assert t == "," + g + [d] + t[2 + n..] by {
      assert t == [t[0]] + t[1..1 + n] + [t[1 + n]] + t[2 + n..];
    }
  }

  /** Every accepted string is such a list: the elements and gaps can be read
      back from it. */
  lemma AcceptedListRendered(s: string)
    requires IsIntegerList(s)
    ensures exists ds, gaps :: ListShape(ds, gaps) && ValidElements(ds, gaps) && RenderList(ds, gaps) == s
  {
    var inner := s[1..|s| - 1];
    if inner == [] {
      assert s == "[]";
      assert RenderList([], []) == s;
    } else {
      var r := TailElements(inner[1..]);
      var ds := [inner[0]] + r.0;
      assert ds[1..] == r.0;
      assert ValidElements(ds, r.1);
      assert s == "[" + [inner[0]] + inner[1..] + "]";
      assert RenderList(ds, r.1) == s;
    }
  }

  // ---------------------------------------------------------------------
  // NUMBER: [+-]? \d+ (\.\d+)?

  /** The length of the run of ASCII digits that starts s. */
  function DigitRun(s: string): (n: nat)
    ensures n <= |s| && AllDigits(s[..n])
    ensures n < |s| ==> !IsDigit(s[n])
  {
    if s != [] && IsDigit(s[0]) then
      var n := 1 + DigitRun(s[1..]);
      assert forall i :: 1 <= i < n ==> s[..n][i] == s[1..][..n - 1][i - 1];
      n
    else 0
  }

  /** The recogniser. */
  predicate IsNumber(s: string) {
    var start := if s != [] && (s[0] == '+' || s[0] == '-') then 1 else 0;
    var body := s[start..];
    var n := DigitRun(body);
    n > 0 && (n == |body| || (body[n] == '.' && n + 1 < |body| && AllDigits(body[n + 1..])))
  }

  predicate NumberParts(sign: string, whole: string, fraction: string, hasPoint: bool) {
    (sign == "" || sign == "+" || sign == "-") && |whole| > 0 && AllDigits(whole) &&
    AllDigits(fraction) && (hasPoint <==> |fraction| > 0)
  }

  function Number(sign: string, whole: string, fraction: string, hasPoint: bool): string {
    sign + whole + (if hasPoint then "." + fraction else "")
  }

  /** The language of the pattern: an optional sign, one or more digits, and
      optionally a point followed by one or more digits. */
  ghost predicate NumberLanguage(s: string) {
    exists sign, whole, fraction, hasPoint ::
      NumberParts(sign, whole, fraction, hasPoint) && s == Number(sign, whole, fraction, hasPoint)
  }

  lemma {:induction false} DigitRunOf(d: string, rest: string)
    requires AllDigits(d) && (rest == [] || !IsDigit(rest[0]))
    ensures DigitRun(d + rest) == |d|
  {
    if d != [] {
      assert (d + rest)[1..] == d[1..] + rest;
      DigitRunOf(d[1..], rest);
    } else {
      assert d + rest == rest;
    }
  }

  lemma NumberSound(s: string)
    requires IsNumber(s)
    ensures NumberLanguage(s)
  {
    var start := if s != [] && (s[0] == '+' || s[0] == '-') then 1 else 0;
    var body := s[start..];
    var n := DigitRun(body);
    SignSplit(s, start);
    if n == |body| {
      assert body[..n] == body;
      WholeOnly(s, s[..start], body);
    } else {
      WithFraction(s, s[..start], body, n);
    }
  }

  /** A sign and digits. */
  lemma WholeOnly(s: string, sign: string, whole: string)
    requires (sign == "" || sign == "+" || sign == "-") && s == sign + whole
    requires |whole| > 0 && AllDigits(whole)
    ensures NumberLanguage(s)
  {
    assert Number(sign, whole, "", false) == sign + whole;
    NumberWitness(s, sign, whole, "", false);
  }

  /** A sign, digits, a point and digits. */
  lemma WithFraction(s: string, sign: string, body: string, n: nat)
    requires (sign == "" || sign == "+" || sign == "-") && s == sign + body
    requires 0 < n && n + 1 < |body| && body[n] == '.'
    requires AllDigits(body[..n]) && AllDigits(body[n + 1..])
    ensures NumberLanguage(s)
  {
    BodySplit(body, n);
    var whole := body[..n];
    var fraction := body[n + 1..];
    assert Number(sign, whole, fraction, true) == sign + (whole + "." + fraction);
    NumberWitness(s, sign, whole, fraction, true);
  }

  /** The optional sign and the rest of s. */
  lemma SignSplit(s: string, start: nat)
    requires start == if s != [] && (s[0] == '+' || s[0] == '-') then 1 else 0
    ensures s[..start] == "" || s[..start] == "+" || s[..start] == "-"
    ensures s == s[..start] + s[start..]
  {
    if start == 1 {
      assert s[..start] == [s[0]];
    }
  }

  lemma NumberWitness(s: string, sign: string, whole: string, fraction: string, hasPoint: bool)
    requires NumberParts(sign, whole, fraction, hasPoint) && s == Number(sign, whole, fraction, hasPoint)
    ensures NumberLanguage(s)
  {
  }

  lemma BodySplit(body: string, n: nat)
    requires n <= |body| && (n < |body| ==> body[n] == '.')
    ensures n == |body| ==> body == body[..n]
    ensures n < |body| ==> body == body[..n] + "." + body[n + 1..]
  {
    if n < |body| {
      assert body[n..] == "." + body[n + 1..];
      assert body == body[..n] + body[n..];
    }
  }

  lemma NumberComplete(sign: string, whole: string, fraction: string, hasPoint: bool)
    requires NumberParts(sign, whole, fraction, hasPoint)
    ensures IsNumber(Number(sign, whole, fraction, hasPoint))
  {
    var body := whole + (if hasPoint then "." + fraction else "");
    assert Number(sign, whole, fraction, hasPoint) == sign + body;
    BodyAccepted(whole, fraction, hasPoint);
    SignedAccepted(sign + body, sign, body);
  }

  /** A sign in front of a body that passes the test. */
  lemma SignedAccepted(s: string, sign: string, body: string)
    requires (sign == "" || sign == "+" || sign == "-") && s == sign + body
    requires var n := DigitRun(body);
      n > 0 && (n == |body| || (body[n] == '.' && n + 1 < |body| && AllDigits(body[n + 1..])))
    ensures IsNumber(s)
  {
    var start := if s != [] && (s[0] == '+' || s[0] == '-') then 1 else 0;
    assert start == |sign| by {
      if sign == "" {
        assert s[0] == body[0];
      }
    }
    assert s[start..] == body;
  }

  /** The digits and the optional fraction pass the recogniser's test. */
  lemma BodyAccepted(whole: string, fraction: string, hasPoint: bool)
    requires |whole| > 0 && AllDigits(whole) && AllDigits(fraction) && (hasPoint <==> |fraction| > 0)
    ensures var body := whole + (if hasPoint then "." + fraction else "");
      var n := DigitRun(body);
      n > 0 && (n == |body| || (body[n] == '.' && n + 1 < |body| && AllDigits(body[n + 1..])))
  {
    var tail := if hasPoint then "." + fraction else "";
    var body := whole + tail;
    DigitRunOf(whole, tail);
    if hasPoint {
      assert body[|whole|] == '.';
      assert body[|whole| + 1..] == fraction;
    }
  }

  /** NUMBER accepts exactly the strings of its pattern. */
  lemma NumberIff(s: string)
    ensures IsNumber(s) <==> NumberLanguage(s)
  {
    if IsNumber(s) {
      NumberSound(s);
    }
    if NumberLanguage(s) {
      var sign, whole, fraction, hasPoint :|
        NumberParts(sign, whole, fraction, hasPoint) && s == Number(sign, whole, fraction, hasPoint);
      NumberComplete(sign, whole, fraction, hasPoint);
    }
  }

  // ---------------------------------------------------------------------
  // STRING: " ( [^\\] | \\b | \\n | \\r | \\t | \\' | \\" | \\\\ )* "

  /** The characters that may follow a backslash. */
  predicate IsEscapeChar(c: char) {
    c == 'b' || c == 'n' || c == 'r' || c == 't' || c == '\'' || c == '"' || c == '\\'
  }

  /** The body of the literal, read left to right: every backslash starts an
      escape and takes the next character with it. */
  predicate ValidBody(c: string)
    decreases |c|
  {
    if c == [] then true
    else if c[0] != '\\' then ValidBody(c[1..])
    else |c| >= 2 && IsEscapeChar(c[1]) && ValidBody(c[2..])
  }

  /** The recogniser: quotes at both ends and a valid body between them. Any
      character other than a backslash may appear in the body, '"' included. */
  predicate IsQuotedString(s: string) {
    |s| >= 2 && s[0] == '"' && s[|s| - 1] == '"' && ValidBody(s[1..|s| - 1])
  }

  /** One repetition of the group: a plain character or an escape. */
  datatype Item = Plain(c: char) | Escape(e: char)

  predicate ValidItem(it: Item) {
    match it
    case Plain(c) => c != '\\'
    case Escape(e) => IsEscapeChar(e)
  }

  function ItemText(it: Item): string {
    match it
    case Plain(c) => [c]
    case Escape(e) => ['\\', e]
  }

  function Flatten(items: seq<Item>): string {
    if items == [] then "" else ItemText(items[0]) + Flatten(items[1..])
  }

  predicate ValidItems(items: seq<Item>) {
    forall k :: 0 <= k < |items| ==> ValidItem(items[k])
  }

  /** The items of a valid body. */
  function Items(c: string): (items: seq<Item>)
    requires ValidBody(c)
    ensures ValidItems(items) && Flatten(items) == c
    decreases |c|
  {
    if c == [] then []
    else if c[0] != '\\' then
      var rest := Items(c[1..]);
      assert Flatten([Plain(c[0])] + rest) == [c[0]] + c[1..];
      [Plain(c[0])] + rest
    else
      var rest := Items(c[2..]);
      assert Flatten([Escape(c[1])] + rest) == ['\\', c[1]] + c[2..];
      [Escape(c[1])] + rest
  }

  lemma {:induction false} FlattenValid(items: seq<Item>)
    requires ValidItems(items)
    ensures ValidBody(Flatten(items))
  {
    if items != [] {
      var f := Flatten(items);
      assert ValidItems(items[1..]);
      FlattenValid(items[1..]);
      match items[0]
      case Plain(c) =>
        assert f[1..] == Flatten(items[1..]);
      case Escape(e) =>
        assert f[2..] == Flatten(items[1..]);
    }
  }

  /** STRING accepts exactly a quote, a sequence of plain characters other
      than a backslash and two-character escapes, and a closing quote. */
  lemma QuotedStringIff(s: string)
    ensures IsQuotedString(s) <==>
      exists items :: ValidItems(items) && s == "\"" + Flatten(items) + "\""
  {
    if IsQuotedString(s) {
      var items := Items(s[1..|s| - 1]);
      assert s == "\"" + Flatten(items) + "\"";
    }
    if exists items :: ValidItems(items) && s == "\"" + Flatten(items) + "\"" {
      var items :| ValidItems(items) && s == "\"" + Flatten(items) + "\"";
      FlattenValid(items);
      assert s[1..|s| - 1] == Flatten(items);
    }
  }
}
