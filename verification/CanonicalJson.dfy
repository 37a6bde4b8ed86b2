/**
 The canonical JSON printer behind every idempotency fingerprint
 (src/dashboard-session-drafts.ts:1268-1281). SHA-256 is taken as injective, so
 the printed text stands for its digest.

 `localeCompare` is a parameter: `le(a, b)` says that a.localeCompare(b) <= 0.
 The printer's injectivity asks nothing of it; its insensitivity to key order
 holds exactly when no two keys of one object tie.
 */
module CanonicalJson {
  import opened Sorting
  import opened Wrappers

  const MAX_SAFE_INTEGER: int := 0x1F_FFFF_FFFF_FFFF
  type SafeInteger = n: int | -MAX_SAFE_INTEGER <= n <= MAX_SAFE_INTEGER

  // An object keeps its members in insertion order. `Undefined` is a JavaScript
  // value only; the printer meets it as a member of a fingerprinted record.
  datatype Json =
    | Undefined
    | Null
    | Bool(b: bool)
    | Number(n: SafeInteger)
    | Str(s: string)
    | Arr(items: seq<Json>)
    | Obj(members: seq<Keyed<Json>>)

  // ---- Printing --------------------------------------------------------

  function Digit(d: nat): char
    requires d < 10
  {
    ('0' as int + d) as char
  }

  predicate IsDigit(c: char) { '0' <= c <= '9' }

  function Digits(n: nat): (s: string)
    ensures |s| > 0 && forall i | 0 <= i < |s| :: IsDigit(s[i])
  {
    if n < 10 then [Digit(n)] else Digits(n / 10) + [Digit(n % 10)]
  }

  function NumberText(n: int): string {
    if n < 0 then "-" + Digits(-n) else Digits(n)
  }

  function HexDigit(d: nat): char
    requires d < 16
  {
    if d < 10 then Digit(d) else ('a' as int + d - 10) as char
  }

  // The letter of RFC 8259 section 7's two-character escapes, or a blank.
  function ShortEscape(c: char): char {
    if c == '\"' || c == '\\' then c
    else if c as int == 8 then 'b'
    else if c as int == 9 then 't'
    else if c as int == 10 then 'n'
    else if c as int == 12 then 'f'
    else if c as int == 13 then 'r'
    else ' '
  }

  // JSON.stringify writes the other control characters as \u00xx.
  function EscapeChar(c: char): string {
    if ShortEscape(c) != ' ' then ['\\', ShortEscape(c)]
    else if c as int < 32 then ['\\', 'u', '0', '0', HexDigit(c as int / 16), HexDigit(c as int % 16)]
    else [c]
  }

  function Escape(s: string): string {
    if s == "" then "" else EscapeChar(s[0]) + Escape(s[1..])
  }

  function Quote(s: string): string { "\"" + Escape(s) + "\"" }

  // The sort looks at keys only, so members are rendered first and sorted after.
  function Print(le: Order, v: Json): string
    decreases v
  {
    match v
    case Undefined => "undefined"
    case Null => "null"
    case Bool(b) => if b then "true" else "false"
    case Number(n) => NumberText(n)
    case Str(s) => Quote(s)
    case Arr(items) => "[" + PrintItems(le, items) + "]"
    case Obj(members) => "{" + Join(Sort(le, Render(le, members))) + "}"
  }

  // Array.prototype.join: an undefined element contributes the empty string.
  function PrintItems(le: Order, items: seq<Json>): string
    decreases items
  {
    if items == [] then ""
    else
      var head := if items[0].Undefined? then "" else Print(le, items[0]);
      if |items| == 1 then head else head + "," + PrintItems(le, items[1..])
  }

  function Render(le: Order, members: seq<Keyed<Json>>): (r: seq<Keyed<string>>)
    decreases members
    ensures |r| == |members|
    ensures forall i | 0 <= i < |r| :: r[i] == Keyed(members[i].key, Print(le, members[i].value))
  {
    if members == [] then []
    else [Keyed(members[0].key, Print(le, members[0].value))] + Render(le, members[1..])
  }

  function Join(rendered: seq<Keyed<string>>): string {
    if rendered == [] then ""
    else
      var more := if |rendered| == 1 then "" else "," + Join(rendered[1..]);
      Quote(rendered[0].key) + (":" + (rendered[0].value + more))
  }

  // ---- What two values have in common when they differ only in key order -

  predicate EqualUpToKeyOrder(v: Json, w: Json)
    decreases v, 0
  {
    match (v, w)
    case (Arr(xs), Arr(ys)) =>
      |xs| == |ys| && forall i | 0 <= i < |xs| :: EqualUpToKeyOrder(xs[i], ys[i])
    case (Obj(ms), Obj(ns)) =>
      |ms| == |ns|
      && forall i | 0 <= i < |ms| :: HasMatch(ms[i], ns)
    case _ => v == w
  }

  predicate HasMatch(m: Keyed<Json>, ns: seq<Keyed<Json>>)
    decreases m.value, 1
  {
    exists j | 0 <= j < |ns| :: m.key == ns[j].key && EqualUpToKeyOrder(m.value, ns[j].value)
  }

  // What the printer is given: object keys are unique, and undefined occurs
  // only as the value of a member, never as an element of an array.
  predicate Fingerprintable(v: Json)
    decreases v
  {
    match v
    case Arr(items) => forall i | 0 <= i < |items| :: !items[i].Undefined? && Fingerprintable(items[i])
    case Obj(ms) => UniqueKeys(ms) && forall i | 0 <= i < |ms| :: Fingerprintable(ms[i].value)
    case _ => true
  }

  predicate NoTies(le: Order, v: Json)
    decreases v
  {
    match v
    case Arr(items) => forall i | 0 <= i < |items| :: NoTies(le, items[i])
    case Obj(ms) =>
      && Untied(le, ms)
      && (forall i | 0 <= i < |ms| :: NoTies(le, ms[i].value))
    case _ => true
  }

  // ---- Numbers and strings are prefix codes ------------------------------

  // What may follow a value inside a larger text.
  predicate Delimited(rest: string) {
    rest == "" || rest[0] == ',' || rest[0] == ']' || rest[0] == '}'
  }

  function DigitsValue(s: string): int {
    if s == "" then 0 else DigitsValue(s[..|s| - 1]) * 10 + (s[|s| - 1] as int - '0' as int)
  }

  lemma {:induction false} DigitsRoundTrip(n: nat)
    ensures DigitsValue(Digits(n)) == n
  {
    if n >= 10 {
      DigitsRoundTrip(n / 10);
      assert Digits(n)[..|Digits(n)| - 1] == Digits(n / 10);
    } else {
      assert Digits(n)[..0] == "";
    }
  }

  lemma LongerRunOverlaps(a: string, b: string, x: string, y: string)
    requires forall i | 0 <= i < |b| :: IsDigit(b[i])
    requires a + x == b + y && |a| < |b|
    ensures x != "" && IsDigit(x[0])
  {
    assert (a + x)[|a|] == (b + y)[|a|] == b[|a|];
  }

  lemma DigitRunsAgree(a: string, b: string, x: string, y: string)
    requires forall i | 0 <= i < |a| :: IsDigit(a[i])
    requires forall i | 0 <= i < |b| :: IsDigit(b[i])
    requires Delimited(x) && Delimited(y)
    requires a + x == b + y
    ensures a == b && x == y
  {
    if |a| < |b| {
      LongerRunOverlaps(a, b, x, y);
    } else if |b| < |a| {
      LongerRunOverlaps(b, a, y, x);
    } else {
      SplitAt(a, x);
      SplitAt(b, y);
    }
  }

  lemma SplitAt(a: string, x: string)
    ensures (a + x)[..|a|] == a && (a + x)[|a|..] == x
  {
  }

  lemma NaturalsAgree(n: nat, m: nat, x: string, y: string)
    requires Delimited(x) && Delimited(y)
    requires Digits(n) + x == Digits(m) + y
    ensures n == m && x == y
  {
    DigitRunsAgree(Digits(n), Digits(m), x, y);
    DigitsRoundTrip(n);
    DigitsRoundTrip(m);
  }

  lemma SignShows(n: int, x: string)
    ensures |NumberText(n)| > 0
    ensures (NumberText(n) + x)[0] == '-' <==> n < 0
    ensures (NumberText(n) + x)[0] == '-' || IsDigit((NumberText(n) + x)[0])
    ensures n < 0 ==> (NumberText(n) + x)[1..] == Digits(-n) + x
  {
  }

  lemma NumbersAgree(n: int, m: int, x: string, y: string)
    requires Delimited(x) && Delimited(y)
    requires NumberText(n) + x == NumberText(m) + y
    ensures n == m && x == y
  {
    SignShows(n, x);
    SignShows(m, y);
    if n < 0 {
      NaturalsAgree(-n, -m, x, y);
    } else {
      NaturalsAgree(n, m, x, y);
    }
  }

  // The first escaped character of a text determines itself and its length.
  lemma EscapesAgree(c: char, d: char, x: string, y: string)
    requires EscapeChar(c) + x == EscapeChar(d) + y
    ensures c == d && x == y
  {
    var s, t := EscapeChar(c), EscapeChar(d);
    assert (s + x)[0] == s[0] && (t + y)[0] == t[0];
    assert |s| > 1 ==> (s + x)[1] == s[1];
    assert |t| > 1 ==> (t + y)[1] == t[1];
    assert |s| > 2 ==> (s + x)[4] == s[4] && (s + x)[5] == s[5];
    assert |t| > 2 ==> (t + y)[4] == t[4] && (t + y)[5] == t[5];
    assert (s + x)[|s|..] == x && (t + y)[|t|..] == y;
    assert |s| == |t|;
  }

  function Closed(a: string, x: string): string { Escape(a) + "\"" + x }

  lemma ClosedUnfold(a: string, x: string)
    ensures a == "" ==> Closed(a, x) == "\"" + x
    ensures a != "" ==> Closed(a, x) == EscapeChar(a[0]) + Closed(a[1..], x)
    ensures a != "" ==> Closed(a, x)[0] != '\"'
  {
  }

  lemma {:induction false} StringsAgree(a: string, b: string, x: string, y: string)
    requires Closed(a, x) == Closed(b, y)
    ensures a == b && x == y
    decreases |a|
  {
    ClosedUnfold(a, x);
    ClosedUnfold(b, y);
    if a == "" || b == "" {
      SplitAt("\"", x);
      SplitAt("\"", y);
    } else {
      EscapesAgree(a[0], b[0], Closed(a[1..], x), Closed(b[1..], y));
      StringsAgree(a[1..], b[1..], x, y);
      assert a == [a[0]] + a[1..] && b == [b[0]] + b[1..];
    }
  }

  lemma QuotesAgree(a: string, b: string, x: string, y: string)
    requires Quote(a) + x == Quote(b) + y
    ensures a == b && x == y
  {
    assert Quote(a) + x == "\"" + Closed(a, x) && Quote(b) + y == "\"" + Closed(b, y);
    SplitAt("\"", Closed(a, x));
    SplitAt("\"", Closed(b, y));
    StringsAgree(a, b, x, y);
  }

  // ---- Reading a string back (RFC 8259 section 7) ----------------------------

  // The value of a hexadecimal digit.
  function HexValue(c: char): Option<nat> {
    if '0' <= c <= '9' then Some(c as int - '0' as int)
    else if 'a' <= c <= 'f' then Some(c as int - 'a' as int + 10)
    else if 'A' <= c <= 'F' then Some(c as int - 'A' as int + 10)
    else None
  }

  // The character after a reverse solidus that stands for one character.
  function Unescaped(c: char): Option<char> {
    match c
    case '\"' => Some('\"')
    case '\\' => Some('\\')
    case '/' => Some('/')
    case 'b' => Some(8 as char)
    case 'f' => Some(12 as char)
    case 'n' => Some(10 as char)
    case 'r' => Some(13 as char)
    case 't' => Some(9 as char)
    case _ => None
  }

  function Prepend(c: char, rest: Option<string>): Option<string> { if rest.Some? then Some([c] + rest.value) else None }

  // What a reader makes of the text between two quotation marks; of the escapes with four digits
  // it reads those below 256, which are all that the printer writes.
  function Unescape(t: string): Option<string> {
    if t == "" then Some("")
    else if t[0] == '\"' || t[0] as int < 32 then None
    else if t[0] != '\\' then Prepend(t[0], Unescape(t[1..]))
    else if |t| < 2 then None
    else if t[1] != 'u' then
      if Unescaped(t[1]).None? then None else Prepend(Unescaped(t[1]).value, Unescape(t[2..]))
    else if |t| < 6 || t[2] != '0' || t[3] != '0' || HexValue(t[4]).None? || HexValue(t[5]).None? then None
    else Prepend((HexValue(t[4]).value * 16 + HexValue(t[5]).value) as char, Unescape(t[6..]))
  }

  lemma ReadsEscape(c: char, rest: string)
    ensures Unescape(EscapeChar(c) + rest) == Prepend(c, Unescape(rest))
  {
    var t := EscapeChar(c) + rest;
    assert t[0] == EscapeChar(c)[0];
    assert t[|EscapeChar(c)|..] == rest;
    if |EscapeChar(c)| > 1 {
      assert t[1] == EscapeChar(c)[1];
      if |EscapeChar(c)| > 2 {
        assert t[2] == '0' && t[3] == '0' && t[4] == EscapeChar(c)[4] && t[5] == EscapeChar(c)[5];
        HexReads(c);
      }
    }
  }

  lemma HexReads(c: char)
    requires c as int < 32
    ensures HexValue(HexDigit(c as int / 16)) == Some(c as int / 16)
    ensures HexValue(HexDigit(c as int % 16)) == Some(c as int % 16)
  {
  }

  // Reading a printed string gives the string.
  lemma {:induction false} EscapeRoundTrip(s: string)
    ensures Unescape(Escape(s)) == Some(s)
  {
    if s != "" {
      EscapeRoundTrip(s[1..]);
      ReadsEscape(s[0], Escape(s[1..]));
      assert [s[0]] + s[1..] == s;
    }
  }

  // ---- Equal text means equal up to key order ------------------------------

  function FirstChar(v: Json): (c: char)
    requires !v.Number?
  {
    match v
    case Undefined => 'u'
    case Null => 'n'
    case Bool(b) => if b then 't' else 'f'
    case Str(_) => '\"'
    case Arr(_) => '['
    case Obj(_) => '{'
  }

  lemma FirstCharShows(le: Order, v: Json, x: string)
    ensures Print(le, v) != ""
    ensures !v.Number? ==> (Print(le, v) + x)[0] == FirstChar(v)
    ensures v.Number? ==> (Print(le, v) + x)[0] == '-' || IsDigit((Print(le, v) + x)[0])
  {
    if v.Number? { SignShows(v.n, x); }
  }

  lemma {:induction false} InsertRendered(le: Order, m: Keyed<Json>, ms: seq<Keyed<Json>>)
    ensures Render(le, Insert(le, m, ms)) == Insert(le, Keyed(m.key, Print(le, m.value)), Render(le, ms))
  {
    if ms != [] && !le(m.key, ms[0].key) {
      InsertRendered(le, m, ms[1..]);
      assert Render(le, ms)[1..] == Render(le, ms[1..]);
      assert Insert(le, m, ms)[1..] == Insert(le, m, ms[1..]);
    }
  }

  // Rendering before sorting or after is the same.
  lemma {:induction false} SortRendered(le: Order, ms: seq<Keyed<Json>>)
    ensures Render(le, Sort(le, ms)) == Sort(le, Render(le, ms))
  {
    if ms != [] {
      SortRendered(le, ms[1..]);
      InsertRendered(le, ms[0], Sort(le, ms[1..]));
      assert Render(le, ms)[1..] == Render(le, ms[1..]);
    }
  }

  function ItemsBody(le: Order, items: seq<Json>, x: string): string { PrintItems(le, items) + "]" + x }

  function ItemsTail(le: Order, items: seq<Json>, x: string): string
    requires items != []
  {
    if |items| == 1 then "]" + x else "," + ItemsBody(le, items[1..], x)
  }

  function MembersBody(le: Order, ms: seq<Keyed<Json>>, x: string): string { Join(Render(le, ms)) + "}" + x }

  function MembersTail(le: Order, ms: seq<Keyed<Json>>, x: string): string
    requires ms != []
  {
    if |ms| == 1 then "}" + x else "," + MembersBody(le, ms[1..], x)
  }

  lemma ItemsUnfold(le: Order, items: seq<Json>, x: string)
    requires items != [] ==> !items[0].Undefined?
    ensures items == [] ==> ItemsBody(le, items, x) == "]" + x
    ensures items != [] ==> ItemsBody(le, items, x) == Print(le, items[0]) + ItemsTail(le, items, x)
  {
  }

  lemma MembersUnfold(le: Order, ms: seq<Keyed<Json>>, x: string)
    ensures ms == [] ==> MembersBody(le, ms, x) == "}" + x
    ensures ms != [] ==>
      MembersBody(le, ms, x) == Quote(ms[0].key) + (":" + (Print(le, ms[0].value) + MembersTail(le, ms, x)))
  {
    var r := Render(le, ms);
    Associate(Join(r), "}", x);
    if ms != [] {
      assert r[1..] == Render(le, ms[1..]);
      JoinUnfold(r, "}" + x);
      if |ms| > 1 {
        Associate(Join(r[1..]), "}", x);
        Associate(",", Join(r[1..]), "}" + x);
      }
    }
  }

  lemma Associate(a: string, b: string, c: string)
    ensures a + b + c == a + (b + c)
  {
  }

  lemma JoinUnfold(r: seq<Keyed<string>>, x: string)
    requires r != []
    ensures Join(r) + x == Quote(r[0].key) + (":" + (r[0].value + ((if |r| == 1 then "" else "," + Join(r[1..])) + x)))
  {
    var q, t, more := Quote(r[0].key), r[0].value, if |r| == 1 then "" else "," + Join(r[1..]);
    Associate(q, ":" + (t + more), x);
    Associate(":", t + more, x);
    Associate(t, more, x);
  }

  predicate SameShape(v: Json, w: Json) {
    match v
    case Undefined => w.Undefined?
    case Null => w.Null?
    case Bool(b) => w.Bool? && w.b == b
    case Number(_) => w.Number?
    case Str(_) => w.Str?
    case Arr(_) => w.Arr?
    case Obj(_) => w.Obj?
  }

  lemma ShapesAgree(le: Order, v: Json, w: Json, x: string, y: string)
    requires Print(le, v) + x == Print(le, w) + y
    ensures SameShape(v, w)
  {
    FirstCharShows(le, v, x);
    FirstCharShows(le, w, y);
  }

  lemma {:induction false} PrintsAgree(le: Order, v: Json, w: Json, x: string, y: string)
    requires Fingerprintable(v) && Fingerprintable(w)
    requires Delimited(x) && Delimited(y)
    requires Print(le, v) + x == Print(le, w) + y
    ensures EqualUpToKeyOrder(v, w) && Print(le, v) == Print(le, w) && x == y
    decreases v, 2, 0
  {
    ShapesAgree(le, v, w, x, y);
    match v {
      case Number(n) => NumbersAgree(n, w.n, x, y);
      case Str(s) => QuotesAgree(s, w.s, x, y);
      case Arr(items) => ArraysAgree(le, v, w, x, y);
      case Obj(ms) => ObjectsAgree(le, v, w, x, y);
      case _ => CancelLeft(Print(le, v), Print(le, w), x, y);
    }
    CancelRight(Print(le, v), Print(le, w), x);
  }

  lemma CancelLeft(a: string, b: string, x: string, y: string)
    requires a + x == b + y && |a| == |b|
    ensures x == y
  {
    SplitAt(a, x);
    SplitAt(b, y);
  }

  lemma CancelRight(a: string, b: string, x: string)
    requires a + x == b + x
    ensures a == b
  {
    SplitAt(a, x);
    SplitAt(b, x);
  }

  lemma {:induction false} ArraysAgree(le: Order, v: Json, w: Json, x: string, y: string)
    requires v.Arr? && w.Arr? && Fingerprintable(v) && Fingerprintable(w)
    requires Print(le, v) + x == Print(le, w) + y
    ensures EqualUpToKeyOrder(v, w) && x == y
    decreases v, 1, 0
  {
    OpenBracket("[", PrintItems(le, v.items), "]", x);
    OpenBracket("[", PrintItems(le, w.items), "]", y);
    ItemsAgree(le, v, v.items, w.items, x, y);
  }

  lemma {:induction false} ObjectsAgree(le: Order, v: Json, w: Json, x: string, y: string)
    requires v.Obj? && w.Obj? && Fingerprintable(v) && Fingerprintable(w)
    requires Print(le, v) + x == Print(le, w) + y
    ensures EqualUpToKeyOrder(v, w) && x == y
    decreases v, 1, 0
  {
    var sm, sn := Sort(le, v.members), Sort(le, w.members);
    SortRendered(le, v.members);
    SortRendered(le, w.members);
    OpenBracket("{", Join(Render(le, sm)), "}", x);
    OpenBracket("{", Join(Render(le, sn)), "}", y);
    SortKeeps(le, v.members);
    SortKeeps(le, w.members);
    MembersFit(v, sm);
    MembersFit(w, sn);
    MembersAgree(le, v, sm, sn, x, y);
    SortedAgree(sm, sn, v.members, w.members);
  }

  lemma MembersFit(v: Json, sm: seq<Keyed<Json>>)
    requires v.Obj? && Fingerprintable(v)
    requires forall m :: m in sm ==> m in v.members
    ensures forall i | 0 <= i < |sm| :: sm[i].value < v && Fingerprintable(sm[i].value)
  {
    forall i | 0 <= i < |sm|
      ensures sm[i].value < v && Fingerprintable(sm[i].value)
    {
      assert sm[i] in v.members;
    }
  }

  lemma OpenBracket(open: string, body: string, close: string, x: string)
    requires |open| == 1
    ensures (open + body + close + x)[1..] == body + close + x
  {
  }

  lemma EmptyItemsAgree(le: Order, a: seq<Json>, b: seq<Json>, x: string, y: string)
    requires a != [] ==> !a[0].Undefined?
    requires b != [] ==> !b[0].Undefined?
    requires ItemsBody(le, a, x) == ItemsBody(le, b, y)
    ensures a == [] <==> b == []
    ensures a == [] ==> x == y
  {
    ItemsUnfold(le, a, x);
    ItemsUnfold(le, b, y);
    if a != [] { FirstCharShows(le, a[0], ItemsTail(le, a, x)); }
    if b != [] { FirstCharShows(le, b[0], ItemsTail(le, b, y)); }
    SplitAt("]", x);
    SplitAt("]", y);
  }

  lemma EmptyMembersAgree(le: Order, a: seq<Keyed<Json>>, b: seq<Keyed<Json>>, x: string, y: string)
    requires MembersBody(le, a, x) == MembersBody(le, b, y)
    ensures a == [] <==> b == []
    ensures a == [] ==> x == y
  {
    MembersUnfold(le, a, x);
    MembersUnfold(le, b, y);
    assert a != [] ==> MembersBody(le, a, x)[0] == '\"';
    assert b != [] ==> MembersBody(le, b, y)[0] == '\"';
    SplitAt("}", x);
    SplitAt("}", y);
  }

  lemma {:induction false} ItemsAgree(le: Order, bound: Json, a: seq<Json>, b: seq<Json>, x: string, y: string)
    requires forall i | 0 <= i < |a| :: a[i] < bound && !a[i].Undefined? && Fingerprintable(a[i])
    requires forall i | 0 <= i < |b| :: !b[i].Undefined? && Fingerprintable(b[i])
    requires ItemsBody(le, a, x) == ItemsBody(le, b, y)
    ensures |a| == |b| && x == y
    ensures forall i | 0 <= i < |a| :: EqualUpToKeyOrder(a[i], b[i]) && Print(le, a[i]) == Print(le, b[i])
    decreases bound, 0, |a|
  {
    EmptyItemsAgree(le, a, b, x, y);
    if a != [] {
      ItemsUnfold(le, a, x);
      ItemsUnfold(le, b, y);
      PrintsAgree(le, a[0], b[0], ItemsTail(le, a, x), ItemsTail(le, b, y));
      if |a| == 1 || |b| == 1 {
        SplitAt("]", x);
        SplitAt("]", y);
      } else {
        SplitAt(",", ItemsBody(le, a[1..], x));
        SplitAt(",", ItemsBody(le, b[1..], y));
        ItemsAgree(le, bound, a[1..], b[1..], x, y);
      }
    }
  }

  lemma MemberHeadsAgree(le: Order, a: seq<Keyed<Json>>, b: seq<Keyed<Json>>, x: string, y: string)
    requires a != [] && b != [] && MembersBody(le, a, x) == MembersBody(le, b, y)
    ensures a[0].key == b[0].key
    ensures Print(le, a[0].value) + MembersTail(le, a, x) == Print(le, b[0].value) + MembersTail(le, b, y)
  {
    MembersUnfold(le, a, x);
    MembersUnfold(le, b, y);
    var p, q := Print(le, a[0].value) + MembersTail(le, a, x), Print(le, b[0].value) + MembersTail(le, b, y);
    QuotesAgree(a[0].key, b[0].key, ":" + p, ":" + q);
    SplitAt(":", p);
    SplitAt(":", q);
  }

  lemma {:induction false} MembersAgree(le: Order, bound: Json, a: seq<Keyed<Json>>, b: seq<Keyed<Json>>,
      x: string, y: string)
    requires forall i | 0 <= i < |a| :: a[i].value < bound && Fingerprintable(a[i].value)
    requires forall i | 0 <= i < |b| :: Fingerprintable(b[i].value)
    requires MembersBody(le, a, x) == MembersBody(le, b, y)
    ensures |a| == |b| && x == y
    ensures forall i | 0 <= i < |a| :: a[i].key == b[i].key && EqualUpToKeyOrder(a[i].value, b[i].value)
    ensures forall i | 0 <= i < |a| :: Print(le, a[i].value) == Print(le, b[i].value)
    decreases bound, 0, |a|
  {
    hide Print, Fingerprintable, EqualUpToKeyOrder, Render, Join;
    EmptyMembersAgree(le, a, b, x, y);
    if a != [] {
      MemberHeadsAgree(le, a, b, x, y);
      PrintsAgree(le, a[0].value, b[0].value, MembersTail(le, a, x), MembersTail(le, b, y));
      if |a| == 1 || |b| == 1 {
        SplitAt("}", x);
        SplitAt("}", y);
      } else {
        SplitAt(",", MembersBody(le, a[1..], x));
        SplitAt(",", MembersBody(le, b[1..], y));
        MembersAgree(le, bound, a[1..], b[1..], x, y);
      }
    }
  }

  lemma SortedAgree(sm: seq<Keyed<Json>>, sn: seq<Keyed<Json>>, ms: seq<Keyed<Json>>, ns: seq<Keyed<Json>>)
    requires |ms| == |sm| == |sn| == |ns|
    requires forall m :: m in ms ==> m in sm
    requires forall n :: n in sn ==> n in ns
    requires forall p | 0 <= p < |sm| :: sm[p].key == sn[p].key && EqualUpToKeyOrder(sm[p].value, sn[p].value)
    ensures EqualUpToKeyOrder(Obj(ms), Obj(ns))
  {
    forall i | 0 <= i < |ms|
      ensures HasMatch(ms[i], ns)
    {
      assert ms[i] in sm;
      var p :| 0 <= p < |sm| && sm[p] == ms[i];
      assert sn[p] in ns;
      var j :| 0 <= j < |ns| && ns[j] == sn[p];
    }
  }

  // ---- Key order never shows, exactly when no two keys tie -------------------

  lemma {:induction false} KeyOrderHidden(le: Order, v: Json, w: Json)
    requires IsTotalPreorder(le) && NoTies(le, v)
    requires Fingerprintable(v) && Fingerprintable(w) && EqualUpToKeyOrder(v, w)
    ensures Print(le, v) == Print(le, w)
    decreases v
  {
    match v
    case Arr(items) =>
      forall i | 0 <= i < |items| ensures Print(le, items[i]) == Print(le, w.items[i]) {
        KeyOrderHidden(le, items[i], w.items[i]);
      }
      ItemsPrintAlike(le, items, w.items);
    case Obj(ms) =>
      var a, b := Render(le, ms), Render(le, w.members);
      forall i | 0 <= i < |a| ensures a[i] in b {
        assert HasMatch(ms[i], w.members);
        var j :| 0 <= j < |w.members| && ms[i].key == w.members[j].key
            && EqualUpToKeyOrder(ms[i].value, w.members[j].value);
        KeyOrderHidden(le, ms[i].value, w.members[j].value);
        assert b[j] == a[i];
      }
      RenderUntied(le, ms);
      SortForgetsOrder(le, a, b);
    case _ =>
  }

  lemma RenderUntied(le: Order, ms: seq<Keyed<Json>>)
    requires Untied(le, ms)
    ensures Untied(le, Render(le, ms))
  {
    assert forall i | 0 <= i < |ms| :: Render(le, ms)[i].key == ms[i].key;
  }

  lemma {:induction false} ItemsPrintAlike(le: Order, a: seq<Json>, b: seq<Json>)
    requires |a| == |b|
    requires forall i | 0 <= i < |a| :: Print(le, a[i]) == Print(le, b[i]) && a[i].Undefined? == b[i].Undefined?
    ensures PrintItems(le, a) == PrintItems(le, b)
  {
    if a != [] {
      ItemsPrintAlike(le, a[1..], b[1..]);
    }
  }

  lemma {:induction false} EqualToItself(v: Json)
    ensures EqualUpToKeyOrder(v, v)
    decreases v
  {
    match v
    case Arr(items) =>
      forall i | 0 <= i < |items| ensures EqualUpToKeyOrder(items[i], items[i]) {
        EqualToItself(items[i]);
      }
    case Obj(ms) =>
      forall i | 0 <= i < |ms| ensures HasMatch(ms[i], ms) {
        EqualToItself(ms[i].value);
      }
    case _ =>
  }

  // Printing two objects alike means their sorted members match one by one.
  lemma ObjectsMatch(le: Order, ms: seq<Keyed<Json>>, ns: seq<Keyed<Json>>)
    requires Fingerprintable(Obj(ms)) && Fingerprintable(Obj(ns))
    requires Print(le, Obj(ms)) == Print(le, Obj(ns))
    ensures |Sort(le, ms)| == |Sort(le, ns)|
    ensures forall p | 0 <= p < |Sort(le, ms)| :: Sort(le, ms)[p].key == Sort(le, ns)[p].key
    ensures forall p | 0 <= p < |Sort(le, ms)| ::
              Print(le, Sort(le, ms)[p].value) == Print(le, Sort(le, ns)[p].value)
  {
    var sm, sn := Sort(le, ms), Sort(le, ns);
    ObjectText(le, ms);
    ObjectText(le, ns);
    CancelLeft("{", "{", MembersBody(le, sm, ""), MembersBody(le, sn, ""));
    SortKeeps(le, ms);
    SortKeeps(le, ns);
    MembersFit(Obj(ms), sm);
    MembersFit(Obj(ns), sn);
    MembersAgree(le, Obj(ms), sm, sn, "", "");
  }

  lemma ObjectText(le: Order, ms: seq<Keyed<Json>>)
    ensures Print(le, Obj(ms)) == "{" + MembersBody(le, Sort(le, ms), "")
  {
    SortRendered(le, ms);
    Regroup("{", Join(Render(le, Sort(le, ms))), "}");
  }

  lemma Regroup(open: string, body: string, close: string)
    ensures open + body + close == open + (body + close + "")
  {
  }

  function Reverse<T>(s: seq<T>): (r: seq<T>)
    ensures |r| == |s| && forall i | 0 <= i < |s| :: r[i] == s[|s| - 1 - i]
  {
    seq(|s|, i requires 0 <= i < |s| => s[|s| - 1 - i])
  }

  lemma ReverseSame(ms: seq<Keyed<Json>>)
    requires Fingerprintable(Obj(ms))
    ensures Fingerprintable(Obj(Reverse(ms))) && EqualUpToKeyOrder(Obj(ms), Obj(Reverse(ms)))
  {
    var ns, n := Reverse(ms), |ms|;
    forall i | 0 <= i < n ensures HasMatch(ms[i], ns) {
      EqualToItself(ms[i].value);
      assert ns[n - 1 - i] == ms[i];
    }
  }

  lemma OneOrder<T>(s: seq<Keyed<T>>, a: string, b: string)
    requires UniqueKeys(s) && Precedes(s, a, b)
    ensures !Precedes(s, b, a)
  {
    var p, q :| 0 <= p < q < |s| && s[p].key == a && s[q].key == b;
    forall u, v | 0 <= u < v < |s| ensures !(s[u].key == b && s[v].key == a) {
    }
  }

  lemma SameKeysSameOrder<T>(s: seq<Keyed<T>>, t: seq<Keyed<T>>, a: string, b: string)
    requires |s| == |t| && forall p | 0 <= p < |s| :: s[p].key == t[p].key
    requires Precedes(t, a, b)
    ensures Precedes(s, a, b)
  {
    var u, v :| 0 <= u < v < |t| && t[u].key == a && t[v].key == b;
    assert s[u].key == a && s[v].key == b;
  }

  // Tied keys print in insertion order, so writing the members backwards shows.
  lemma TiedKeysShow(le: Order, ms: seq<Keyed<Json>>)
    requires Fingerprintable(Obj(ms)) && Fingerprintable(Obj(Reverse(ms))) && !Untied(le, ms)
    ensures Print(le, Obj(ms)) != Print(le, Obj(Reverse(ms)))
  {
    assert UniqueKeys(ms) && UniqueKeys(Reverse(ms));
    hide Print, Fingerprintable, Sort, Untied, UniqueKeys, Precedes;
    var i, j := TiedPair(le, ms);
    var ns, a, b := Reverse(ms), ms[i].key, ms[j].key;
    assert ns[|ms| - 1 - j].key == b && ns[|ms| - 1 - i].key == a;
    SortStable(le, ms, i, j);
    SortStable(le, ns, |ms| - 1 - j, |ms| - 1 - i);
    SortUnique(le, ms);
    OneOrder(Sort(le, ms), a, b);
    if Print(le, Obj(ms)) == Print(le, Obj(ns)) {
      ObjectsMatch(le, ms, ns);
      SameKeysSameOrder(Sort(le, ms), Sort(le, ns), b, a);
    }
  }

  lemma TiedPair<T>(le: Order, s: seq<Keyed<T>>) returns (i: nat, j: nat)
    requires !Untied(le, s)
    ensures i < j < |s| && le(s[i].key, s[j].key) && le(s[j].key, s[i].key)
  {
    var a, b :| 0 <= a < |s| && 0 <= b < |s| && Tied(le, s[a].key, s[b].key);
    i, j := if a < b then a else b, if a < b then b else a;
  }

  lemma {:induction false} TieShows(le: Order, v: Json) returns (w: Json)
    requires Fingerprintable(v) && !NoTies(le, v)
    ensures Fingerprintable(w) && EqualUpToKeyOrder(v, w) && Print(le, v) != Print(le, w)
    decreases v
  {
    match v
    case Arr(items) =>
      var i :| 0 <= i < |items| && !NoTies(le, items[i]);
      var c := TieShows(le, items[i]);
      w := Arr(items[i := c]);
      ReplacedItemShows(le, items, i, c);
    case Obj(ms) =>
      if !Untied(le, ms) {
        ReverseSame(ms);
        TiedKeysShow(le, ms);
        w := Obj(Reverse(ms));
      } else {
        var i :| 0 <= i < |ms| && !NoTies(le, ms[i].value);
        var c := TieShows(le, ms[i].value);
        w := Obj(ms[i := Keyed(ms[i].key, c)]);
        ReplacedMemberSame(ms, i, c);
        ReplacedMemberShows(le, ms, i, c);
      }
  }

  lemma ReplacedItemShows(le: Order, items: seq<Json>, i: nat, c: Json)
    requires i < |items| && Fingerprintable(Arr(items)) && Fingerprintable(c)
    requires EqualUpToKeyOrder(items[i], c) && Print(le, items[i]) != Print(le, c)
    ensures Fingerprintable(Arr(items[i := c])) && EqualUpToKeyOrder(Arr(items), Arr(items[i := c]))
    ensures Print(le, Arr(items)) != Print(le, Arr(items[i := c]))
  {
    var others := items[i := c];
    forall k | 0 <= k < |items| ensures EqualUpToKeyOrder(items[k], others[k]) {
      EqualToItself(items[k]);
    }
    if Print(le, Arr(items)) == Print(le, Arr(others)) {
      ArrayText(le, items);
      ArrayText(le, others);
      CancelLeft("[", "[", ItemsBody(le, items, ""), ItemsBody(le, others, ""));
      ItemsAgree(le, Arr(items), items, others, "", "");
    }
  }

  lemma ArrayText(le: Order, items: seq<Json>)
    ensures Print(le, Arr(items)) == "[" + ItemsBody(le, items, "")
  {
    Regroup("[", PrintItems(le, items), "]");
  }

  lemma ReplacedMemberSame(ms: seq<Keyed<Json>>, i: nat, c: Json)
    requires i < |ms| && Fingerprintable(Obj(ms)) && Fingerprintable(c)
    requires EqualUpToKeyOrder(ms[i].value, c)
    ensures var ns := ms[i := Keyed(ms[i].key, c)]; Fingerprintable(Obj(ns)) && EqualUpToKeyOrder(Obj(ms), Obj(ns))
  {
    var ns := ms[i := Keyed(ms[i].key, c)];
    forall k | 0 <= k < |ms| ensures HasMatch(ms[k], ns) {
      EqualToItself(ms[k].value);
      assert ms[k].key == ns[k].key && EqualUpToKeyOrder(ms[k].value, ns[k].value);
    }
  }

  lemma ReplacedMemberShows(le: Order, ms: seq<Keyed<Json>>, i: nat, c: Json)
    requires i < |ms| && Print(le, ms[i].value) != Print(le, c)
    requires Fingerprintable(Obj(ms)) && Fingerprintable(Obj(ms[i := Keyed(ms[i].key, c)]))
    ensures Print(le, Obj(ms)) != Print(le, Obj(ms[i := Keyed(ms[i].key, c)]))
  {
    var ns := ms[i := Keyed(ms[i].key, c)];
    if Print(le, Obj(ms)) == Print(le, Obj(ns)) {
      ObjectsMatch(le, ms, ns);
      SortKeeps(le, ms);
      SortKeeps(le, ns);
      KeyFixesValue(Sort(le, ms), Sort(le, ns), ms, ns, i);
    }
  }

  // Aligned sorted members put the replaced member at the old one's place.
  lemma KeyFixesValue(sm: seq<Keyed<Json>>, sn: seq<Keyed<Json>>, ms: seq<Keyed<Json>>, ns: seq<Keyed<Json>>, i: nat)
    requires i < |ms| == |ns| == |sm| == |sn| && UniqueKeys(ns) && ms[i].key == ns[i].key
    requires forall m :: m in ms ==> m in sm
    requires forall p | 0 <= p < |sn| :: sn[p] in ns && sm[p].key == sn[p].key
    ensures exists p | 0 <= p < |sm| :: sm[p] == ms[i] && sn[p] == ns[i]
  {
    assert ms[i] in sm;
    var p :| 0 <= p < |sm| && sm[p] == ms[i];
    var k :| 0 <= k < |ns| && ns[k] == sn[p];
  }

  // ---- The printer's contract -----------------------------------------------

  // Whatever the locale's order, one text has one meaning.
  lemma SameTextSameMeaning(le: Order, v: Json, w: Json)
    requires Fingerprintable(v) && Fingerprintable(w)
    requires Print(le, v) == Print(le, w)
    ensures EqualUpToKeyOrder(v, w)
  {
    assert Print(le, v) + "" == Print(le, w) + "";
    PrintsAgree(le, v, w, "", "");
  }

  // One meaning has one text, exactly when the locale ties no two keys of an object.
  lemma SameMeaningSameText(le: Order, v: Json)
    requires IsTotalPreorder(le) && Fingerprintable(v)
    ensures NoTies(le, v)
       <==> forall w | Fingerprintable(w) && EqualUpToKeyOrder(v, w) :: Print(le, v) == Print(le, w)
  {
    if NoTies(le, v) {
      forall w | Fingerprintable(w) && EqualUpToKeyOrder(v, w) ensures Print(le, v) == Print(le, w) {
        KeyOrderHidden(le, v, w);
      }
    } else {
      var w := TieShows(le, v);
    }
  }

  // join() prints an undefined element as nothing, which is why arrays of
  // undefined are kept out of Fingerprintable.
  lemma UndefinedElementCollides(le: Order)
    ensures Print(le, Arr([Undefined])) == Print(le, Arr([]))
    ensures !EqualUpToKeyOrder(Arr([Undefined]), Arr([]))
  {
  }

  // ---- Fingerprints ---------------------------------------------------------

  // The record fingerprinted for a send (src/dashboard-session-drafts.ts:431-435).
  function SendRecord(draftId: string, revision: SafeInteger, message: string): seq<Keyed<Json>> {
    [Keyed("draftId", Str(draftId)), Keyed("draftRevision", Number(revision)), Keyed("message", Str(message))]
  }

  // The record fingerprinted for a cancel (src/dashboard-session-drafts.ts:357).
  function CancelRecord(draftId: string, revision: SafeInteger): seq<Keyed<Json>> {
    [Keyed("draftId", Str(draftId)), Keyed("expectedRevision", Number(revision))]
  }

  // The record fingerprinted for a create; an absent draft id is undefined
  // (src/dashboard-session-drafts.ts:296).
  function CreateRecord(draftId: Json, spec: Json): seq<Keyed<Json>> {
    [Keyed("draftId", draftId), Keyed("spec", spec)]
  }

  function Fingerprint(le: Order, record: seq<Keyed<Json>>): string { Print(le, Obj(record)) }

  lemma RecordKeysDiffer()
    ensures "draftId" != "draftRevision" && "draftId" != "message" && "draftRevision" != "message"
    ensures "draftId" != "expectedRevision" && "draftId" != "spec"
  {
    assert |"draftId"| == 7 && |"draftRevision"| == 13 && |"message"| == 7 && |"expectedRevision"| == 16
        && |"spec"| == 4;
    assert "draftId"[0] == 'd' && "message"[0] == 'm';
  }

  // Records with the same distinct keys in the same places match value by value.
  lemma RecordsMatch(le: Order, a: seq<Keyed<Json>>, b: seq<Keyed<Json>>)
    requires Fingerprintable(Obj(a)) && Fingerprintable(Obj(b))
    requires |a| == |b| && forall i | 0 <= i < |a| :: a[i].key == b[i].key
    requires Fingerprint(le, a) == Fingerprint(le, b)
    ensures forall i | 0 <= i < |a| :: EqualUpToKeyOrder(a[i].value, b[i].value)
  {
    SameTextSameMeaning(le, Obj(a), Obj(b));
    forall i | 0 <= i < |a| ensures EqualUpToKeyOrder(a[i].value, b[i].value) {
      assert HasMatch(a[i], b);
      var j :| 0 <= j < |b| && a[i].key == b[j].key && EqualUpToKeyOrder(a[i].value, b[j].value);
      assert j == i;
    }
  }

  lemma SendRecordFits(d: string, r: SafeInteger, m: string)
    ensures Fingerprintable(Obj(SendRecord(d, r, m)))
  {
    RecordKeysDiffer();
  }

  lemma CancelRecordFits(d: string, r: SafeInteger)
    ensures Fingerprintable(Obj(CancelRecord(d, r)))
  {
    RecordKeysDiffer();
  }

  lemma CreateRecordFits(d: Json, spec: Json)
    requires (d.Undefined? || d.Str?) && Fingerprintable(spec)
    ensures Fingerprintable(Obj(CreateRecord(d, spec)))
  {
    RecordKeysDiffer();
  }

  // A send retried under one idempotency key replays for the same draft,
  // revision and message only.
  lemma SendFingerprintMeans(le: Order, d: string, r: SafeInteger, m: string, d': string, r': SafeInteger, m': string)
    ensures Fingerprint(le, SendRecord(d, r, m)) == Fingerprint(le, SendRecord(d', r', m')) <==>
        d == d' && r == r' && m == m'
  {
    hide Print, Fingerprintable;
    SendRecordFits(d, r, m);
    SendRecordFits(d', r', m');
    var a, b := SendRecord(d, r, m), SendRecord(d', r', m');
    if Fingerprint(le, a) == Fingerprint(le, b) {
      RecordsMatch(le, a, b);
      assert EqualUpToKeyOrder(a[0].value, b[0].value) && EqualUpToKeyOrder(a[1].value, b[1].value);
      assert EqualUpToKeyOrder(a[2].value, b[2].value);
    }
  }

  lemma CancelFingerprintMeans(le: Order, d: string, r: SafeInteger, d': string, r': SafeInteger)
    ensures Fingerprint(le, CancelRecord(d, r)) == Fingerprint(le, CancelRecord(d', r')) <==> d == d' && r == r'
  {
    hide Print, Fingerprintable;
    CancelRecordFits(d, r);
    CancelRecordFits(d', r');
    var a, b := CancelRecord(d, r), CancelRecord(d', r');
    if Fingerprint(le, a) == Fingerprint(le, b) {
      RecordsMatch(le, a, b);
      assert EqualUpToKeyOrder(a[0].value, b[0].value) && EqualUpToKeyOrder(a[1].value, b[1].value);
    }
  }

  // Create requests share a fingerprint only when they name the same draft id
  // and specs of one meaning; and then always, when no two keys of the spec tie.
  lemma CreateFingerprintMeans(le: Order, d: Json, spec: Json, d': Json, spec': Json)
    requires (d.Undefined? || d.Str?) && (d'.Undefined? || d'.Str?)
    requires Fingerprintable(spec) && Fingerprintable(spec')
    requires IsTotalPreorder(le) && NoTies(le, spec)
    ensures Fingerprint(le, CreateRecord(d, spec)) == Fingerprint(le, CreateRecord(d', spec'))
       <==> d == d' && EqualUpToKeyOrder(spec, spec')
  {
    if Fingerprint(le, CreateRecord(d, spec)) == Fingerprint(le, CreateRecord(d', spec')) {
      CreateRecordsMatch(le, d, spec, d', spec');
    } else if d == d' && EqualUpToKeyOrder(spec, spec') {
      KeyOrderHidden(le, spec, spec');
      SpecsPrintAlike(le, d, spec, spec');
    }
  }

  lemma CreateRecordsMatch(le: Order, d: Json, spec: Json, d': Json, spec': Json)
    requires (d.Undefined? || d.Str?) && (d'.Undefined? || d'.Str?)
    requires Fingerprintable(spec) && Fingerprintable(spec')
    requires Fingerprint(le, CreateRecord(d, spec)) == Fingerprint(le, CreateRecord(d', spec'))
    ensures d == d' && EqualUpToKeyOrder(spec, spec')
  {
    CreateRecordFits(d, spec);
    CreateRecordFits(d', spec');
    SameTextSameMeaning(le, Obj(CreateRecord(d, spec)), Obj(CreateRecord(d', spec')));
    CreateRecordsMean(d, spec, d', spec');
  }

  lemma CreateRecordsMean(d: Json, spec: Json, d': Json, spec': Json)
    requires d.Undefined? || d.Str?
    requires EqualUpToKeyOrder(Obj(CreateRecord(d, spec)), Obj(CreateRecord(d', spec')))
    ensures d == d' && EqualUpToKeyOrder(spec, spec')
  {
    RecordKeysDiffer();
    var a, b := CreateRecord(d, spec), CreateRecord(d', spec');
    assert HasMatch(a[0], b) && HasMatch(a[1], b);
  }

  lemma SpecsPrintAlike(le: Order, d: Json, spec: Json, spec': Json)
    requires Print(le, spec) == Print(le, spec')
    ensures Fingerprint(le, CreateRecord(d, spec)) == Fingerprint(le, CreateRecord(d, spec'))
  {
    assert Render(le, CreateRecord(d, spec)) == Render(le, CreateRecord(d, spec'));
  }
}
