/** K1, the cell key (sweep/recipes.py): the blob that is hashed is a canonical JSON text, and determines the
    configuration it was made from. A `char` is a Unicode scalar value; a lone surrogate is not text. */
module CellKey {
  import opened Wrappers
  import opened Sorting

  // ---- JSON strings, section 7 of RFC 8259, escaped to ASCII

  function HexDigit(n: nat): char
    requires n < 16
  {
    "0123456789abcdef"[n]
  }

  function HexValue(c: char): Option<nat> {
    if '0' <= c <= '9' then Some((c - '0') as int)
    else if 'a' <= c <= 'f' then Some((c - 'a') as int + 10)
    else if 'A' <= c <= 'F' then Some((c - 'A') as int + 10)
    else None
  }

  /** `\u` and four lower-case digits. */
  function Unit(n: nat): (u: string)
    requires n < 0x10000
    ensures |u| == 6
  {
    ['\\', 'u', HexDigit(n / 4096), HexDigit(n / 256 % 16), HexDigit(n / 16 % 16), HexDigit(n % 16)]
  }

  /** Printable ASCII as it is, but for the quote and the backslash; the five short escapes; else one UTF-16 unit,
      or two beyond the basic plane. */
  function Escape(c: char): (e: string)
    ensures |e| > 0 && e[0] != '"'
  {
    if c == '"' then "\\\""
    else if c == '\\' then "\\\\"
    else if ' ' <= c <= '~' then [c]
    else if c == '\n' then "\\n"
    else if c == '\r' then "\\r"
    else if c == '\t' then "\\t"
    else if c == 8 as char then "\\b"
    else if c == 12 as char then "\\f"
    else if (c as int) < 0x10000 then Unit(c as int)
    else Unit(High(c as int)) + Unit(Low(c as int))
  }

  /** The text of a JSON string and what follows it, from after its opening quote. */
  function EscapedThen(s: string, k: string): string {
    if s == "" then "\"" + k else Escape(s[0]) + EscapedThen(s[1..], k)
  }

  function StringThen(s: string, k: string): string { "\"" + EscapedThen(s, k) }

  // ---- a reader, for the round trip

  /** The unit `\uXXXX` at the head of `t`, if there is one. */
  function ReadUnit(t: string): Option<nat> {
    if |t| < 6 || t[0] != '\\' || t[1] != 'u' then None
    else
      var a, b, c, d := HexValue(t[2]), HexValue(t[3]), HexValue(t[4]), HexValue(t[5]);
      if a.None? || b.None? || c.None? || d.None? then None
      else Some(a.value * 4096 + b.value * 256 + c.value * 16 + d.value)
  }

  /** The character at the head of a string's text, and how much of the text it takes. */
  function ReadChar(t: string): Option<(char, nat)> {
    if t == "" || t[0] == '"' then None
    else if t[0] != '\\' then Some((t[0], 1))
    else if |t| < 2 then None
    else
      match t[1]
      case '"' => Some(('"', 2))
      case '\\' => Some(('\\', 2))
      case '/' => Some(('/', 2))
      case 'b' => Some((8 as char, 2))
      case 'f' => Some((12 as char, 2))
      case 'n' => Some(('\n', 2))
      case 'r' => Some(('\r', 2))
      case 't' => Some(('\t', 2))
      case _ =>
        var hi := ReadUnit(t);
        if hi.None? then None
        else if hi.value < 0xd800 || 0xe000 <= hi.value < 0x10000 then Some((hi.value as char, 6))
        else
          var lo := ReadUnit(t[6..]);
          if 0xd800 <= hi.value < 0xdc00 && lo.Some? && 0xdc00 <= lo.value < 0xe000
          then Some(((0x10000 + (hi.value - 0xd800) * 0x400 + (lo.value - 0xdc00)) as char, 12))
          else None
  }

  /** A JSON string from after its opening quote, and what follows it. */
  function ReadString(t: string): Option<(string, string)>
    decreases |t|
  {
    if t == "" then None
    else if t[0] == '"' then Some(("", t[1..]))
    else
      var c := ReadChar(t);
      if c.None? || c.value.1 == 0 || c.value.1 > |t| then None
      else
        var rest := ReadString(t[c.value.1..]);
        if rest.None? then None else Some(([c.value.0] + rest.value.0, rest.value.1))
  }

  lemma HexRoundTrip(n: nat)
    requires n < 16
    ensures HexValue(HexDigit(n)) == Some(n)
  {
  }

  lemma Digits(n: nat)
    requires n < 0x10000
    ensures n / 4096 < 16 && n == (n / 4096) * 4096 + (n / 256 % 16) * 256 + (n / 16 % 16) * 16 + n % 16
  {
  }

  lemma UnitRoundTrip(n: nat, k: string)
    requires n < 0x10000
    ensures ReadUnit(Unit(n) + k) == Some(n)
  {
    Digits(n);
    HexRoundTrip(n / 4096);
    HexRoundTrip(n / 256 % 16);
    HexRoundTrip(n / 16 % 16);
    HexRoundTrip(n % 16);
    var t := Unit(n) + k;
    assert t[..6] == Unit(n);
    assert forall i | 0 <= i < 6 :: t[i] == Unit(n)[i];
  }

  lemma ReadOne(t: string, n: nat)
    requires |t| >= 2 && t[0] == '\\' && t[1] == 'u' && ReadUnit(t) == Some(n) && (n < 0xd800 || 0xe000 <= n < 0x10000)
    ensures ReadChar(t) == Some((n as char, 6))
  {
  }

  lemma ReadTwo(t: string, hi: nat, lo: nat)
    requires |t| >= 6 && t[0] == '\\' && t[1] == 'u' && ReadUnit(t) == Some(hi) && ReadUnit(t[6..]) == Some(lo)
    requires 0xd800 <= hi < 0xdc00 <= lo < 0xe000
    ensures ReadChar(t) == Some(((0x10000 + (hi - 0xd800) * 0x400 + (lo - 0xdc00)) as char, 12))
  {
  }

  lemma UnitRead(n: nat, k: string)
    requires n < 0xd800 || 0xe000 <= n < 0x10000
    ensures ReadChar(Unit(n) + k) == Some((n as char, 6))
  {
    UnitRoundTrip(n, k);
    UnitHead(n, k);
    ReadOne(Unit(n) + k, n);
  }

  lemma UnitHead(n: nat, k: string)
    requires n < 0x10000
    ensures (Unit(n) + k)[0] == '\\' && (Unit(n) + k)[1] == 'u'
  {
    assert Unit(n)[0] == '\\' && Unit(n)[1] == 'u';
  }

  lemma PairRead(hi: nat, lo: nat, k: string)
    requires 0xd800 <= hi < 0xdc00 <= lo < 0xe000
    ensures ReadChar(Unit(hi) + Unit(lo) + k) == Some(((0x10000 + (hi - 0xd800) * 0x400 + (lo - 0xdc00)) as char, 12))
  {
    var t := Unit(hi) + (Unit(lo) + k);
    assert Unit(hi) + Unit(lo) + k == t;
    UnitRoundTrip(hi, Unit(lo) + k);
    UnitHead(hi, Unit(lo) + k);
    UnitRoundTrip(lo, k);
    assert t[6..] == Unit(lo) + k;
    ReadTwo(t, hi, lo);
  }

  predicate IsShort(c: char) {
    c == '"' || c == '\\' || ' ' <= c <= '~' || c == '\n' || c == '\r' || c == '\t' || c == 8 as char || c == 12 as char
  }

  lemma ShortRead(c: char, k: string)
    requires IsShort(c)
    ensures ReadChar(Escape(c) + k) == Some((c, |Escape(c)|))
  {
    var t := Escape(c) + k;
    assert t[0] == Escape(c)[0];
    if |Escape(c)| == 2 { assert t[1] == Escape(c)[1]; }
  }

  function High(n: nat): nat
    requires 0x10000 <= n < 0x110000
  {
    0xd800 + (n - 0x10000) / 0x400
  }

  function Low(n: nat): nat
    requires 0x10000 <= n < 0x110000
  {
    0xdc00 + (n - 0x10000) % 0x400
  }

  lemma Surrogates(n: nat)
    requires 0x10000 <= n < 0x110000
    ensures 0xd800 <= High(n) < 0xdc00 <= Low(n) < 0xe000
    ensures 0x10000 + (High(n) - 0xd800) * 0x400 + (Low(n) - 0xdc00) == n
  {
  }

  lemma AstralRead(c: char, k: string)
    requires c as int >= 0x10000
    ensures ReadChar(Unit(High(c as int)) + Unit(Low(c as int)) + k) == Some((c, 12))
  {
    var n := c as int;
    Surrogates(n);
    PairRead(High(n), Low(n), k);
    SameChar(c, 0x10000 + (High(n) - 0xd800) * 0x400 + (Low(n) - 0xdc00));
  }

  lemma SameChar(c: char, n: int)
    requires n == c as int
    ensures n as char == c
  {
  }

  lemma CharRoundTrip(c: char, k: string)
    ensures ReadChar(Escape(c) + k) == Some((c, |Escape(c)|))
  {
    if IsShort(c) {
      ShortRead(c, k);
    } else if (c as int) < 0x10000 {
      UnitRead(c as int, k);
    } else {
      AstralRead(c, k);
    }
  }

  /** Reading a written string gives it back, with exactly what was written after it. */
  lemma {:induction false} StringRoundTrip(s: string, k: string)
    ensures ReadString(EscapedThen(s, k)) == Some((s, k))
  {
    var t := EscapedThen(s, k);
    if s == "" {
      assert t[1..] == k;
    } else {
      CharRoundTrip(s[0], EscapedThen(s[1..], k));
      StringRoundTrip(s[1..], k);
      assert t[|Escape(s[0])|..] == EscapedThen(s[1..], k);
      assert [s[0]] + s[1..] == s;
    }
  }

  lemma StringUnique(a: string, x: string, b: string, y: string)
    requires StringThen(a, x) == StringThen(b, y)
    ensures a == b && x == y
  {
    assert StringThen(a, x)[1..] == EscapedThen(a, x) && StringThen(b, y)[1..] == EscapedThen(b, y);
    StringRoundTrip(a, x);
    StringRoundTrip(b, y);
  }

  predicate LowerHex(c: char) { '0' <= c <= '9' || 'a' <= c <= 'f' }

  /** `\u` and four lower-case hexadecimal digits. */
  predicate UnitLike(u: string) { |u| == 6 && u[0] == '\\' && u[1] == 'u' && LowerHex(u[2]) && LowerHex(u[3]) && LowerHex(u[4]) && LowerHex(u[5]) }

  /** What an escaped character looks like: printable ASCII as it is, but for the quote and the backslash, which stand
      behind a backslash; five control characters as a backslash and a letter; any other as one unit, or two beyond
      the basic plane. */
  lemma EscapeShape(c: char)
    ensures ' ' <= c <= '~' && c != '"' && c != '\\' ==> Escape(c) == [c]
    ensures c == '"' || c == '\\' ==> Escape(c) == ['\\', c]
    ensures c == '\n' || c == '\r' || c == '\t' || c == 8 as char || c == 12 as char ==>
              Escape(c) == ['\\', if c == '\n' then 'n' else if c == '\r' then 'r' else if c == '\t' then 't' else if c == 8 as char then 'b' else 'f']
    ensures !IsShort(c) && (c as int) < 0x10000 ==> UnitLike(Escape(c))
    ensures !IsShort(c) && (c as int) >= 0x10000 ==> exists hi, lo :: UnitLike(hi) && UnitLike(lo) && Escape(c) == hi + lo
  {
    if !IsShort(c) { LongShape(c); }
  }

  lemma LongShape(c: char)
    requires !IsShort(c)
    ensures (c as int) < 0x10000 ==> UnitLike(Escape(c))
    ensures (c as int) >= 0x10000 ==> exists hi, lo :: UnitLike(hi) && UnitLike(lo) && Escape(c) == hi + lo
  {
    if (c as int) < 0x10000 {
      UnitShape(c as int);
    } else {
      var n := c as int;
      Surrogates(n);
      UnitShape(High(n));
      UnitShape(Low(n));
      assert Escape(c) == Unit(High(n)) + Unit(Low(n));
    }
  }

  lemma UnitShape(n: nat)
    requires n < 0x10000
    ensures UnitLike(Unit(n))
  {
    HexShape(n / 4096);
    HexShape(n / 256 % 16);
    HexShape(n / 16 % 16);
    HexShape(n % 16);
  }

  lemma HexShape(n: nat)
    requires n < 16
    ensures LowerHex(HexDigit(n))
  {
  }

  // ---- the list of settings

  type Pair = (string, string)

  function PairThen(p: Pair, k: string): string { "[" + StringThen(p.0, "," + StringThen(p.1, "]" + k)) }

  function ItemsThen(ps: seq<Pair>, k: string): string
    requires ps != []
  {
    PairThen(ps[0], if |ps| == 1 then "]" + k else "," + ItemsThen(ps[1..], k))
  }

  /** `[[id,value],…]` and what follows it. */
  function ListThen(ps: seq<Pair>, k: string): string { if ps == [] then "[]" + k else "[" + ItemsThen(ps, k) }

  lemma AfterPrefix(p: string, x: string, y: string)
    requires p + x == p + y
    ensures x == y
  {
    assert (p + x)[|p|..] == x && (p + y)[|p|..] == y;
  }

  lemma PairUnique(p: Pair, x: string, q: Pair, y: string)
    requires PairThen(p, x) == PairThen(q, y)
    ensures p == q && x == y
  {
    AfterPrefix("[", StringThen(p.0, "," + StringThen(p.1, "]" + x)), StringThen(q.0, "," + StringThen(q.1, "]" + y)));
    StringUnique(p.0, "," + StringThen(p.1, "]" + x), q.0, "," + StringThen(q.1, "]" + y));
    AfterPrefix(",", StringThen(p.1, "]" + x), StringThen(q.1, "]" + y));
    StringUnique(p.1, "]" + x, q.1, "]" + y);
    AfterPrefix("]", x, y);
  }

  lemma {:induction false} ItemsUnique(ps: seq<Pair>, x: string, qs: seq<Pair>, y: string)
    requires ps != [] && qs != [] && ItemsThen(ps, x) == ItemsThen(qs, y)
    ensures ps == qs && x == y
    decreases |ps|
  {
    var a, b := AfterFirst(ps, x), AfterFirst(qs, y);
    PairUnique(ps[0], a, qs[0], b);
    EndOrMore(ps, x);
    EndOrMore(qs, y);
    if |ps| == 1 {
      AfterPrefix("]", x, y);
    } else {
      AfterPrefix(",", ItemsThen(ps[1..], x), ItemsThen(qs[1..], y));
      ItemsUnique(ps[1..], x, qs[1..], y);
      assert ps == [ps[0]] + ps[1..] && qs == [qs[0]] + qs[1..];
    }
  }

  /** What follows the first item: the end of the list, or a comma. */
  function AfterFirst(ps: seq<Pair>, k: string): string
    requires ps != []
  {
    if |ps| == 1 then "]" + k else "," + ItemsThen(ps[1..], k)
  }

  lemma EndOrMore(ps: seq<Pair>, k: string)
    requires ps != []
    ensures ItemsThen(ps, k) == PairThen(ps[0], AfterFirst(ps, k))
    ensures AfterFirst(ps, k) != "" && (AfterFirst(ps, k)[0] == ']' <==> |ps| == 1)
  {
  }

  lemma ListUnique(ps: seq<Pair>, x: string, qs: seq<Pair>, y: string)
    requires ListThen(ps, x) == ListThen(qs, y)
    ensures ps == qs && x == y
  {
    assert ListThen(ps, x)[1] == if ps == [] then ']' else '[';
    assert ListThen(qs, y)[1] == if qs == [] then ']' else '[';
    if ps == [] {
      AfterPrefix("[]", x, y);
    } else {
      AfterPrefix("[", ItemsThen(ps, x), ItemsThen(qs, y));
      ItemsUnique(ps, x, qs, y);
    }
  }

  // ---- the blob

  /** What a cell is, as far as the key goes. */
  datatype Configuration = Configuration(
    unit: string, contentSha: string, cutKind: string, window: string, pairs: seq<Pair>, ffmpegVersion: string)

  /** The canonical JSON: keys in order, no spaces, the settings sorted. */
  function Blob(c: Configuration): string {
    "{\"content_sha\":" + StringThen(c.contentSha,
    ",\"cut_kind\":" + StringThen(c.cutKind,
    ",\"encoder_unit_id\":" + StringThen(c.unit,
    ",\"ffmpeg_version\":" + StringThen(c.ffmpegVersion,
    ",\"settings\":" + ListThen(Sort(PairLe, c.pairs),
    ",\"window_id\":" + StringThen(c.window, "}"))))))
  }

  /** The same unit, cut, window and version, and the same settings in whatever order. */
  ghost predicate SameConfiguration(a: Configuration, b: Configuration) {
    && a.unit == b.unit && a.contentSha == b.contentSha && a.cutKind == b.cutKind && a.window == b.window
    && a.ffmpegVersion == b.ffmpegVersion && multiset(a.pairs) == multiset(b.pairs)
  }

  /** The blob says exactly the configuration: the order of the settings is forgotten and nothing else is. */
  lemma BlobCanonical(a: Configuration, b: Configuration)
    ensures Blob(a) == Blob(b) <==> SameConfiguration(a, b)
  {
    PairLeTotal();
    SortCanonical(PairLe, a.pairs, b.pairs);
    if Blob(a) == Blob(b) { BlobUnique(a, b); }
  }

  lemma BlobUnique(a: Configuration, b: Configuration)
    requires Blob(a) == Blob(b)
    ensures a.unit == b.unit && a.contentSha == b.contentSha && a.cutKind == b.cutKind && a.window == b.window
    ensures a.ffmpegVersion == b.ffmpegVersion && Sort(PairLe, a.pairs) == Sort(PairLe, b.pairs)
  {
    var a6, b6 := StringThen(a.window, "}"), StringThen(b.window, "}");
    var a5, b5 := ListThen(Sort(PairLe, a.pairs), ",\"window_id\":" + a6), ListThen(Sort(PairLe, b.pairs), ",\"window_id\":" + b6);
    var a4, b4 := StringThen(a.ffmpegVersion, ",\"settings\":" + a5), StringThen(b.ffmpegVersion, ",\"settings\":" + b5);
    var a3, b3 := StringThen(a.unit, ",\"ffmpeg_version\":" + a4), StringThen(b.unit, ",\"ffmpeg_version\":" + b4);
    var a2, b2 := StringThen(a.cutKind, ",\"encoder_unit_id\":" + a3), StringThen(b.cutKind, ",\"encoder_unit_id\":" + b3);
    var a1, b1 := StringThen(a.contentSha, ",\"cut_kind\":" + a2), StringThen(b.contentSha, ",\"cut_kind\":" + b2);
    AfterPrefix("{\"content_sha\":", a1, b1);
    StringUnique(a.contentSha, ",\"cut_kind\":" + a2, b.contentSha, ",\"cut_kind\":" + b2);
    AfterPrefix(",\"cut_kind\":", a2, b2);
    StringUnique(a.cutKind, ",\"encoder_unit_id\":" + a3, b.cutKind, ",\"encoder_unit_id\":" + b3);
    AfterPrefix(",\"encoder_unit_id\":", a3, b3);
    StringUnique(a.unit, ",\"ffmpeg_version\":" + a4, b.unit, ",\"ffmpeg_version\":" + b4);
    AfterPrefix(",\"ffmpeg_version\":", a4, b4);
    StringUnique(a.ffmpegVersion, ",\"settings\":" + a5, b.ffmpegVersion, ",\"settings\":" + b5);
    AfterPrefix(",\"settings\":", a5, b5);
    ListUnique(Sort(PairLe, a.pairs), ",\"window_id\":" + a6, Sort(PairLe, b.pairs), ",\"window_id\":" + b6);
    AfterPrefix(",\"window_id\":", a6, b6);
    StringUnique(a.window, "}", b.window, "}");
  }

  // ---- the key

  /** The digest: sha256 and its first 32 hex characters, taken to tell any two blobs apart. */
  ghost predicate Injective(digest: string -> string) { forall x, y :: digest(x) == digest(y) ==> x == y }

  /** The key of a list of (setting_id, value) pairs; anything that is not a pair is refused rather than hashed. */
  method Key(digest: string -> string, unit: string, contentSha: string, cutKind: string, window: string,
             items: seq<seq<string>>, ffmpegVersion: string)
    returns (key: Result<string>)
    ensures key.Ok? <==> forall item | item in items :: |item| == 2
    ensures key.Ok? ==> exists pairs :: ArePairs(pairs, items)
                                        && key.value == digest(Blob(Configuration(unit, contentSha, cutKind, window, pairs, ffmpegVersion)))
  {
    var pairs: seq<Pair> := [];
    var i := 0;
    while i < |items|
      invariant 0 <= i <= |items| && ArePairs(pairs, items[..i])
    {
      if |items[i]| != 2 {
        assert items[i] in items;
        return Refused;
      }
      pairs := pairs + [(items[i][0], items[i][1])];
      i := i + 1;
    }
    assert items[..i] == items;
    key := Ok(digest(Blob(Configuration(unit, contentSha, cutKind, window, pairs, ffmpegVersion))));
  }

  predicate ArePairs(pairs: seq<Pair>, items: seq<seq<string>>) {
    |pairs| == |items| && forall i | 0 <= i < |items| :: items[i] == [pairs[i].0, pairs[i].1]
  }

  /** Two cells have one key exactly when they are one configuration. */
  lemma KeyTellsApart(digest: string -> string, a: Configuration, b: Configuration)
    requires Injective(digest)
    ensures digest(Blob(a)) == digest(Blob(b)) <==> SameConfiguration(a, b)
  {
    BlobCanonical(a, b);
  }

  // ---- the blob as the JSON text of the payload

  datatype Json = Text(text: string) | List(items: seq<Json>) | Object(members: seq<Member>)

  datatype Member = Member(name: string, value: Json)

  /** A value written without spaces, members in the order given, and what follows it. */
  function Written(j: Json, k: string): string
    decreases j, 1
  {
    match j
    case Text(s) => StringThen(s, k)
    case List(items) => "[" + ItemsWritten(items, "]" + k)
    case Object(members) => "{" + MembersWritten(members, "}" + k)
  }

  function ItemsWritten(items: seq<Json>, k: string): string
    decreases items, 0
  {
    if items == [] then k
    else Written(items[0], if |items| == 1 then k else "," + ItemsWritten(items[1..], k))
  }

  function MembersWritten(members: seq<Member>, k: string): string
    decreases members, 0
  {
    if members == [] then k
    else StringThen(members[0].name, ":" + Written(members[0].value, if |members| == 1 then k else "," + MembersWritten(members[1..], k)))
  }

  function PairsAsLists(ps: seq<Pair>): seq<Json> { Map((p: Pair) => List([Text(p.0), Text(p.1)]), ps) }

  /** What is hashed, member by member, in the order the code names them. */
  function Payload(c: Configuration, sorted: seq<Pair>): seq<Member> {
    [Member("encoder_unit_id", Text(c.unit)), Member("content_sha", Text(c.contentSha)), Member("cut_kind", Text(c.cutKind)),
     Member("window_id", Text(c.window)), Member("settings", List(PairsAsLists(sorted))), Member("ffmpeg_version", Text(c.ffmpegVersion))]
  }

  lemma PairWritten(p: Pair, k: string)
    ensures Written(List([Text(p.0), Text(p.1)]), k) == PairThen(p, k)
  {
    var items, last := [Text(p.0), Text(p.1)], [Text(p.1)];
    assert items[1..] == last;
    assert ItemsWritten(last, "]" + k) == StringThen(p.1, "]" + k);
    assert ItemsWritten(items, "]" + k) == Written(items[0], "," + ItemsWritten(items[1..], "]" + k));
  }

  lemma {:induction false} PairsWritten(ps: seq<Pair>, k: string)
    ensures Written(List(PairsAsLists(ps)), k) == ListThen(ps, k)
  {
    if ps == [] {
      assert "[" + ("]" + k) == "[]" + k;
    } else {
      ItemsAreThen(ps, k);
    }
  }

  lemma {:induction false} ItemsAreThen(ps: seq<Pair>, k: string)
    requires ps != []
    ensures ItemsWritten(PairsAsLists(ps), "]" + k) == ItemsThen(ps, k)
    decreases |ps|
  {
    var items := PairsAsLists(ps);
    assert items[0] == List([Text(ps[0].0), Text(ps[0].1)]) && items[1..] == PairsAsLists(ps[1..]);
    PairWritten(ps[0], AfterFirst(ps, k));
    if |ps| > 1 { ItemsAreThen(ps[1..], k); }
  }

  /** The members of the payload with their keys in ascending order. */
  function SortedPayload(c: Configuration, sorted: seq<Pair>): seq<Member> {
    [Member("content_sha", Text(c.contentSha)), Member("cut_kind", Text(c.cutKind)), Member("encoder_unit_id", Text(c.unit)),
     Member("ffmpeg_version", Text(c.ffmpegVersion)), Member("settings", List(PairsAsLists(sorted))), Member("window_id", Text(c.window))]
  }

  lemma FirstLetters(a: string, b: string)
    requires a != "" && b != "" && (a[0] < b[0] || (a[0] == b[0] && |a| > 1 && |b| > 1 && a[1] < b[1]))
    ensures StringLe(a, b) && a != b
  {
    if a[0] == b[0] { assert a[1..][0] == a[1] && b[1..][0] == b[1]; }
  }

  lemma KeysAscend(c: Configuration, sorted: seq<Pair>)
    ensures |SortedPayload(c, sorted)| == |Payload(c, sorted)| && forall x :: x in SortedPayload(c, sorted) <==> x in Payload(c, sorted)
    ensures forall i | 0 <= i < 5 ::
              && SortedPayload(c, sorted)[i].name != SortedPayload(c, sorted)[i + 1].name
              && StringLe(SortedPayload(c, sorted)[i].name, SortedPayload(c, sorted)[i + 1].name)
  {
    FirstLetters("content_sha", "cut_kind");
    FirstLetters("cut_kind", "encoder_unit_id");
    FirstLetters("encoder_unit_id", "ffmpeg_version");
    FirstLetters("ffmpeg_version", "settings");
    FirstLetters("settings", "window_id");
  }

  lemma PlainName(name: string, k: string)
    requires forall i | 0 <= i < |name| :: 'a' <= name[i] <= 'z' || name[i] == '_'
    ensures StringThen(name, k) == "\"" + name + "\"" + k
  {
    PlainText(name, k);
    assert "\"" + (name + ("\"" + k)) == "\"" + name + "\"" + k;
  }

  lemma {:induction false} PlainText(name: string, k: string)
    requires forall i | 0 <= i < |name| :: 'a' <= name[i] <= 'z' || name[i] == '_'
    ensures EscapedThen(name, k) == name + ("\"" + k)
  {
    if name == "" {
      assert name + ("\"" + k) == "\"" + k;
    } else {
      PlainText(name[1..], k);
      assert Escape(name[0]) == [name[0]] && [name[0]] + name[1..] == name;
      assert [name[0]] + (name[1..] + ("\"" + k)) == name + ("\"" + k);
    }
  }

  /** One member: its quoted name, a colon, its value, and what comes after. */
  lemma MemberText(m: Member, rest: seq<Member>, k: string)
    requires forall i | 0 <= i < |m.name| :: 'a' <= m.name[i] <= 'z' || m.name[i] == '_'
    ensures MembersWritten([m] + rest, k) ==
            ("\"" + m.name + "\":") + Written(m.value, if rest == [] then k else "," + MembersWritten(rest, k))
  {
    assert ([m] + rest)[1..] == rest;
    var after := Written(m.value, if rest == [] then k else "," + MembersWritten(rest, k));
    PlainName(m.name, ":" + after);
    Regrouped("\"", m.name, "\"", ":", after);
    assert "\"" + ":" == "\":";
  }

  lemma Regrouped(a: string, b: string, c: string, d: string, e: string)
    ensures a + b + c + (d + e) == (a + b + (c + d)) + e
  {
  }

  lemma After(first: string, name: string, text: string)
    ensures first + (name + text) == (first + name) + text
  {
  }

  /** The blob is the JSON text of the payload: each member under its own name, keys ascending, no spaces, and the
      settings an ascending list of [id, value]. */
  lemma BlobIsSortedJson(c: Configuration) returns (sorted: seq<Pair>)
    ensures multiset(sorted) == multiset(c.pairs)
    ensures forall i, j | 0 <= i < j < |sorted| ::
              StringLe(sorted[i].0, sorted[j].0) && (sorted[i].0 == sorted[j].0 ==> StringLe(sorted[i].1, sorted[j].1))
    ensures Blob(c) == Written(Object(SortedPayload(c, sorted)), "")
  {
    sorted := Sort(PairLe, c.pairs);
    PairLeTotal();
    SortAscending(PairLe, c.pairs);
    StringLeTotal();
    forall i, j | 0 <= i < j < |sorted|
      ensures StringLe(sorted[i].0, sorted[j].0) && (sorted[i].0 == sorted[j].0 ==> StringLe(sorted[i].1, sorted[j].1))
    {
      assert PairLe(sorted[i], sorted[j]);
    }
    BlobWritten(c, sorted);
  }

  /** The tail of the text, from the member at `i` on. */
  function Tail(c: Configuration, sorted: seq<Pair>, i: nat): string
    requires i <= 6
  {
    MembersWritten(SortedPayload(c, sorted)[i..], "}")
  }

  lemma TailNext(c: Configuration, sorted: seq<Pair>, i: nat)
    requires i < 6
    ensures var m := SortedPayload(c, sorted)[i];
            Tail(c, sorted, i) == ("\"" + m.name + "\":") + Written(m.value, if i == 5 then "}" else "," + Tail(c, sorted, i + 1))
  {
    var all := SortedPayload(c, sorted);
    assert all[i..] == [all[i]] + all[i + 1..];
    MemberText(all[i], all[i + 1..], "}");
  }

  /** A member's text behind what precedes it, given how its label is spelt. */
  lemma TailText(c: Configuration, sorted: seq<Pair>, i: nat, first: string, name: string, spelt: string)
    requires i < 6 && name == SortedPayload(c, sorted)[i].name && spelt == first + ("\"" + name + "\":")
    ensures first + Tail(c, sorted, i) == spelt + Written(SortedPayload(c, sorted)[i].value, if i == 5 then "}" else "," + Tail(c, sorted, i + 1))
  {
    TailNext(c, sorted, i);
    After(first, "\"" + name + "\":", Written(SortedPayload(c, sorted)[i].value, if i == 5 then "}" else "," + Tail(c, sorted, i + 1)));
  }

  lemma ShaSpelt()
    ensures "{" + ("\"" + "content_sha" + "\":") == "{\"content_sha\":"
  {
  }

  lemma KindSpelt()
    ensures "," + ("\"" + "cut_kind" + "\":") == ",\"cut_kind\":"
  {
  }

  lemma UnitSpelt()
    ensures "," + ("\"" + "encoder_unit_id" + "\":") == ",\"encoder_unit_id\":"
  {
  }

  lemma VersionSpelt()
    ensures "," + ("\"" + "ffmpeg_version" + "\":") == ",\"ffmpeg_version\":"
  {
  }

  lemma SettingsSpelt()
    ensures "," + ("\"" + "settings" + "\":") == ",\"settings\":"
  {
  }

  lemma WindowSpelt()
    ensures "," + ("\"" + "window_id" + "\":") == ",\"window_id\":"
  {
  }

  lemma WindowText(c: Configuration, sorted: seq<Pair>)
    ensures "," + Tail(c, sorted, 5) == ",\"window_id\":" + StringThen(c.window, "}")
  {
    WindowSpelt();
    TailText(c, sorted, 5, ",", "window_id", ",\"window_id\":");
  }

  lemma SettingsText(c: Configuration, sorted: seq<Pair>)
    ensures "," + Tail(c, sorted, 4) == ",\"settings\":" + ListThen(sorted, "," + Tail(c, sorted, 5))
  {
    SettingsSpelt();
    PairsWritten(sorted, "," + Tail(c, sorted, 5));
    TailText(c, sorted, 4, ",", "settings", ",\"settings\":");
  }

  lemma VersionText(c: Configuration, sorted: seq<Pair>)
    ensures "," + Tail(c, sorted, 3) == ",\"ffmpeg_version\":" + StringThen(c.ffmpegVersion, "," + Tail(c, sorted, 4))
  {
    VersionSpelt();
    TailText(c, sorted, 3, ",", "ffmpeg_version", ",\"ffmpeg_version\":");
  }

  lemma UnitText(c: Configuration, sorted: seq<Pair>)
    ensures "," + Tail(c, sorted, 2) == ",\"encoder_unit_id\":" + StringThen(c.unit, "," + Tail(c, sorted, 3))
  {
    UnitSpelt();
    TailText(c, sorted, 2, ",", "encoder_unit_id", ",\"encoder_unit_id\":");
  }

  lemma KindText(c: Configuration, sorted: seq<Pair>)
    ensures "," + Tail(c, sorted, 1) == ",\"cut_kind\":" + StringThen(c.cutKind, "," + Tail(c, sorted, 2))
  {
    KindSpelt();
    TailText(c, sorted, 1, ",", "cut_kind", ",\"cut_kind\":");
  }

  lemma ShaText(c: Configuration, sorted: seq<Pair>)
    ensures "{" + Tail(c, sorted, 0) == "{\"content_sha\":" + StringThen(c.contentSha, "," + Tail(c, sorted, 1))
  {
    ShaSpelt();
    TailText(c, sorted, 0, "{", "content_sha", "{\"content_sha\":");
  }

  lemma BlobWritten(c: Configuration, sorted: seq<Pair>)
    requires sorted == Sort(PairLe, c.pairs)
    ensures Blob(c) == Written(Object(SortedPayload(c, sorted)), "")
  {
    WindowText(c, sorted);
    SettingsText(c, sorted);
    VersionText(c, sorted);
    UnitText(c, sorted);
    KindText(c, sorted);
    ShaText(c, sorted);
    assert SortedPayload(c, sorted)[0..] == SortedPayload(c, sorted) && "}" + "" == "}";
  }
}
