/**
 * The canonical JSON text a payload is hashed from: keys sorted, no white space, and strings escaped as
 * section 7 of RFC 8259 requires, with characters outside ASCII left as they are. A reader for that
 * text recovers the value, so the encoding is injective.
 */
module CanonicalJson {
  import opened Domain

  datatype Json =
    | Text(text: string)
    | Number(n: int)
    | Truth(b: bool)
    | Object(members: Members)

  /** A dictionary in insertion order. */
  datatype Members = End | Member(key: string, value: Json, rest: Members)

  /* Sorting the keys. */

  /** Strings in code point order. */
  predicate Before(a: string, b: string) {
    if b == "" then false
    else if a == "" then true
    else if a[0] != b[0] then a[0] < b[0]
    else Before(a[1..], b[1..])
  }

  function Insert(key: string, value: Json, sorted: Members): Members {
    match sorted
    case End => Member(key, value, End)
    case Member(k, v, rest) =>
      if Before(k, key) then Member(k, v, Insert(key, value, rest)) else Member(key, value, sorted)
  }

  /** The value with every dictionary in it sorted by key. */
  function SortKeys(j: Json): Json {
    match j
    case Object(members) => Object(SortMembers(members))
    case _ => j
  }

  function SortMembers(m: Members): Members {
    match m
    case End => End
    case Member(k, v, rest) => Insert(k, SortKeys(v), SortMembers(rest))
  }

  /* Writing. */

  function HexDigit(d: int): char
    requires 0 <= d < 16
  {
    if d < 10 then ('0' as int + d) as char else ('a' as int + d - 10) as char
  }

  function EscapeChar(c: char): string {
    if c == '"' then "\\\""
    else if c == '\\' then "\\\\"
    else if c == '\n' then "\\n"
    else if c == '\r' then "\\r"
    else if c == '\t' then "\\t"
    else if c as int == 12 then "\\f"
    else if c as int == 8 then "\\b"
    else if c as int < 32 then "\\u00" + [HexDigit(c as int / 16), HexDigit(c as int % 16)]
    else [c]
  }

  function Escape(s: string): string {
    if s == "" then "" else EscapeChar(s[0]) + Escape(s[1..])
  }

  function Digit(d: int): char
    requires 0 <= d < 10
  {
    ('0' as int + d) as char
  }

  function Digits(n: nat): string {
    if n < 10 then [Digit(n)] else Digits(n / 10) + [Digit(n % 10)]
  }

  function Write(j: Json): string {
    match j
    case Text(s) => "\"" + Escape(s) + "\""
    case Number(n) => if n < 0 then "-" + Digits(-n) else Digits(n)
    case Truth(b) => if b then "true" else "false"
    case Object(members) => "{" + WriteMembers(members) + "}"
  }

  function WriteMembers(m: Members): string {
    match m
    case End => ""
    case Member(k, v, rest) =>
      "\"" + Escape(k) + "\":" + Write(v) + (if rest.End? then "" else "," + WriteMembers(rest))
  }

  /** `json.dumps(value, sort_keys=True, separators=(",", ":"), ensure_ascii=False)`. */
  function Encode(j: Json): string {
    Write(SortKeys(j))
  }

  /* Reading. Each reader returns what it read and the text that follows. */

  function HexValue(c: char): Option<int> {
    if '0' <= c <= '9' then Some(c as int - '0' as int)
    else if 'a' <= c <= 'f' then Some(c as int - 'a' as int + 10)
    else None
  }

  function ReadEscape(s: string): (r: Option<(char, string)>)
    ensures r.Some? ==> |r.value.1| < |s|
  {
    if s == "" then None
    else if s[0] == '"' then Some(('"', s[1..]))
    else if s[0] == '\\' then Some(('\\', s[1..]))
    else if s[0] == 'n' then Some(('\n', s[1..]))
    else if s[0] == 'r' then Some(('\r', s[1..]))
    else if s[0] == 't' then Some(('\t', s[1..]))
    else if s[0] == 'f' then Some((12 as char, s[1..]))
    else if s[0] == 'b' then Some((8 as char, s[1..]))
    else if 5 <= |s| && s[..3] == "u00" && HexValue(s[3]).Some? && HexValue(s[4]).Some? then
      Some(((16 * HexValue(s[3]).value + HexValue(s[4]).value) as char, s[5..]))
    else None
  }

  /** Reads up to and over the closing quote. */
  function ReadText(s: string): (r: Option<(string, string)>)
    ensures r.Some? ==> |r.value.1| < |s|
    decreases |s|
  {
    if s == "" then None
    else if s[0] == '"' then Some(("", s[1..]))
    else if s[0] == '\\' then
      match ReadEscape(s[1..])
      case None => None
      case Some((c, tail)) =>
        (match ReadText(tail)
         case None => None
         case Some((t, rest)) => Some(([c] + t, rest)))
    else
      match ReadText(s[1..])
      case None => None
      case Some((t, rest)) => Some(([s[0]] + t, rest))
  }

  predicate IsDigit(c: char) {
    '0' <= c <= '9'
  }

  /** The digits at the start of the text, appended to the value of those before them. */
  function ReadDigits(s: string, value: nat): (r: (nat, string))
    ensures |r.1| <= |s|
  {
    if s != "" && IsDigit(s[0]) then ReadDigits(s[1..], 10 * value + (s[0] as int - '0' as int))
    else (value, s)
  }

  function Read(s: string): (r: Option<(Json, string)>)
    ensures r.Some? ==> |r.value.1| < |s|
    decreases |s|, 1
  {
    if s == "" then None
    else if s[0] == '"' then
      match ReadText(s[1..])
      case None => None
      case Some((t, rest)) => Some((Text(t), rest))
    else if s[0] == '{' then
      match ReadMembers(s[1..])
      case None => None
      case Some((m, rest)) => Some((Object(m), rest))
    else if "true" <= s then Some((Truth(true), s[4..]))
    else if "false" <= s then Some((Truth(false), s[5..]))
    else if s[0] == '-' && 2 <= |s| && IsDigit(s[1]) then
      var r := ReadDigits(s[1..], 0);
      Some((Number(0 - r.0), r.1))
    else if IsDigit(s[0]) then
      var (n, rest) := ReadDigits(s[1..], s[0] as int - '0' as int);
      Some((Number(n), rest))
    else None
  }

  /** Reads members up to and over the closing brace. */
  function ReadMembers(s: string): (r: Option<(Members, string)>)
    ensures r.Some? ==> |r.value.1| < |s|
    decreases |s|, 0
  {
    if s == "" then None
    else if s[0] == '}' then Some((End, s[1..]))
    else if s[0] != '"' then None
    else
      match ReadText(s[1..])
      case None => None
      case Some((key, afterKey)) =>
        if afterKey == "" || afterKey[0] != ':' then None
        else
          (match Read(afterKey[1..])
           case None => None
           case Some((value, afterValue)) =>
             if afterValue == "" then None
             else if afterValue[0] == '}' then Some((Member(key, value, End), afterValue[1..]))
             else if afterValue[0] == ',' then
               (match ReadMembers(afterValue[1..])
                case None => None
                case Some((rest, tail)) => Some((Member(key, value, rest), tail)))
             else None)
  }

  /** The reader for a whole text. */
  function Decode(s: string): Option<Json> {
    match Read(s)
    case Some((j, "")) => Some(j)
    case _ => None
  }

  /* Reading what was written. */

  lemma EscapeCharRoundTrip(c: char, tail: string)
    ensures var e := EscapeChar(c) + tail;
            && e != "" && e[0] != '"'
            && (e[0] == '\\' ==> ReadEscape(e[1..]) == Some((c, tail)))
            && (e[0] != '\\' ==> e[0] == c && e[1..] == tail)
  {
    var e := EscapeChar(c) + tail;
    if c as int < 32 && EscapeChar(c)[1] == 'u' {
      var s := e[1..];
      assert s[..3] == "u00";
      assert s[3] == HexDigit(c as int / 16) && s[4] == HexDigit(c as int % 16);
      assert s[5..] == tail;
    } else if EscapeChar(c)[0] == '\\' {
      assert e[1..][1..] == tail;
    }
  }

  lemma {:induction false} TextRoundTrip(t: string, rest: string)
    ensures ReadText(Escape(t) + "\"" + rest) == Some((t, rest))
  {
    hide EscapeChar, ReadEscape;
    if t == "" {
      assert Escape(t) + "\"" + rest == "\"" + rest;
    } else {
      var tail := Escape(t[1..]) + "\"" + rest;
      TextRoundTrip(t[1..], rest);
      EscapeCharRoundTrip(t[0], tail);
      assert Escape(t) + "\"" + rest == EscapeChar(t[0]) + tail;
      assert [t[0]] + t[1..] == t;
    }
  }

  ghost predicate NoDigitFirst(rest: string) {
    rest != "" ==> !IsDigit(rest[0])
  }

  lemma {:induction false} DigitsRoundTrip(n: nat, tail: string)
    ensures ReadDigits(Digits(n) + tail, 0) == ReadDigits(tail, n)
    ensures IsDigit(Digits(n)[0])
  {
    if n < 10 {
      assert (Digits(n) + tail)[1..] == tail;
    } else {
      var last := [Digit(n % 10)];
      DigitsRoundTrip(n / 10, last + tail);
      assert Digits(n) + tail == Digits(n / 10) + (last + tail);
      assert (last + tail)[1..] == tail;
    }
  }

  lemma NumberRoundTrip(n: int, rest: string)
    requires NoDigitFirst(rest)
    ensures Read(Write(Number(n)) + rest) == Some((Number(n), rest))
  {
    var s := Write(Number(n)) + rest;
    if n < 0 {
      DigitsRoundTrip(-n, rest);
      assert s[1..] == Digits(-n) + rest;
    } else {
      DigitsRoundTrip(n, rest);
      assert s == Digits(n) + rest;
      assert ReadDigits(s, 0) == ReadDigits(s[1..], s[0] as int - '0' as int);
    }
  }

  lemma TextValueRoundTrip(t: string, rest: string)
    ensures Read(Write(Text(t)) + rest) == Some((Text(t), rest))
  {
    TextRoundTrip(t, rest);
    assert (Write(Text(t)) + rest)[1..] == Escape(t) + "\"" + rest;
  }

  lemma TruthRoundTrip(b: bool, rest: string)
    ensures Read(Write(Truth(b)) + rest) == Some((Truth(b), rest))
  {
    var s := Write(Truth(b)) + rest;
    assert s[|Write(Truth(b))|..] == rest;
    assert s[0] == if b then 't' else 'f';
  }

  lemma Regroup(a: string, b: string, c: string, d: string)
    ensures (a + b) + (c + d) == a + (b + c + d)
    ensures (a + b + c) + d == a + (b + c + d)
  {
  }

  lemma RegroupMember(k: string, v: string, continued: string, end: string, rest: string)
    ensures ("\"" + k + "\":" + v + continued) + end + rest
            == "\"" + (k + "\"" + (":" + (v + (continued + (end + rest)))))
  {
    var q := "\"" + k;
    assert q + "\":" == q + "\"" + ":";
    assert (q + "\"" + ":" + v + continued) + end + rest == q + "\"" + ":" + v + (continued + (end + rest));
  }

  /** What follows a member: the end of the object, or a comma and the members after it. */
  function AfterMember(more: Members, rest: string): string {
    if more.End? then "}" + rest else "," + (WriteMembers(more) + "}" + rest)
  }

  lemma WriteMemberSplits(k: string, v: Json, more: Members, rest: string)
    ensures WriteMembers(Member(k, v, more)) + "}" + rest
            == "\"" + (Escape(k) + "\"" + (":" + (Write(v) + AfterMember(more, rest))))
  {
    var continued := if more.End? then "" else "," + WriteMembers(more);
    assert continued + ("}" + rest) == AfterMember(more, rest) by {
      if !more.End? {
        Regroup(",", WriteMembers(more), "}", rest);
      }
    }
    RegroupMember(Escape(k), Write(v), continued, "}", rest);
  }

  lemma ReadMemberStep(k: string, v: Json, more: Members, rest: string)
    requires Read(Write(v) + AfterMember(more, rest)) == Some((v, AfterMember(more, rest)))
    requires ReadMembers(WriteMembers(more) + "}" + rest) == Some((more, rest))
    ensures ReadMembers("\"" + (Escape(k) + "\"" + (":" + (Write(v) + AfterMember(more, rest)))))
            == Some((Member(k, v, more), rest))
  {
    var after := AfterMember(more, rest);
    var afterKey := ":" + (Write(v) + after);
    var s := "\"" + (Escape(k) + "\"" + afterKey);
    TextRoundTrip(k, afterKey);
    assert s[1..] == Escape(k) + "\"" + afterKey;
    assert afterKey[1..] == Write(v) + after;
    if more.End? {
      assert after[1..] == rest;
    } else {
      assert after[1..] == WriteMembers(more) + "}" + rest;
    }
  }

  lemma ReadObjectStep(m: Members, rest: string)
    requires ReadMembers(WriteMembers(m) + "}" + rest) == Some((m, rest))
    ensures Read(Write(Object(m)) + rest) == Some((Object(m), rest))
  {
    var s := Write(Object(m)) + rest;
    Regroup("{", WriteMembers(m), "}", rest);
    var inside := WriteMembers(m) + "}" + rest;
    assert s == "{" + inside;
    assert s[0] == '{' && s[1..] == inside;
    assert Read(s) == match ReadMembers(inside)
                      case None => None
                      case Some((x, tail)) => Some((Object(x), tail));
  }

  /** Reading a written value gives the value back and leaves the text after it. */
  lemma {:induction false} ReadWritten(j: Json, rest: string)
    requires NoDigitFirst(rest)
    ensures Read(Write(j) + rest) == Some((j, rest))
    decreases j
  {
    match j
    case Text(t) => TextValueRoundTrip(t, rest);
    case Number(n) => NumberRoundTrip(n, rest);
    case Truth(b) => TruthRoundTrip(b, rest);
    case Object(members) =>
      ReadWrittenMembers(members, rest);
      ReadObjectStep(members, rest);
  }

  lemma {:induction false} ReadWrittenMembers(m: Members, rest: string)
    ensures ReadMembers(WriteMembers(m) + "}" + rest) == Some((m, rest))
    decreases m
  {
    match m
    case End =>
      assert WriteMembers(m) + "}" + rest == "}" + rest;
    case Member(k, v, more) =>
      ReadWritten(v, AfterMember(more, rest));
      ReadWrittenMembers(more, rest);
      ReadMemberStep(k, v, more, rest);
      WriteMemberSplits(k, v, more, rest);
  }

  /** The reader inverts the encoder up to the order of keys. */
  lemma DecodeEncode(j: Json)
    ensures Decode(Encode(j)) == Some(SortKeys(j))
  {
    ReadWritten(SortKeys(j), "");
    assert Write(SortKeys(j)) + "" == Write(SortKeys(j));
  }

  /* The order of keys is a strict total order, and the sorted form depends on the entries only. */

  lemma {:induction false} BeforeIsTransitive(a: string, b: string, c: string)
    requires Before(a, b) && Before(b, c)
    ensures Before(a, c)
    decreases |a|
  {
    if a != "" && b != "" && c != "" && a[0] == b[0] && b[0] == c[0] {
      BeforeIsTransitive(a[1..], b[1..], c[1..]);
    }
  }

  lemma {:induction false} BeforeIsTotal(a: string, b: string)
    ensures a != b ==> Before(a, b) || Before(b, a)
    ensures !(Before(a, b) && Before(b, a))
    ensures !Before(a, a)
    decreases |a|
  {
    if a != "" {
      if b != "" && a[0] == b[0] {
        BeforeIsTotal(a[1..], b[1..]);
        assert a == [a[0]] + a[1..];
        assert b == [b[0]] + b[1..];
      } else {
        BeforeIsTotal(a[1..], a[1..]);
      }
    }
  }

  /** The entries of a dictionary, whatever their order. */
  function Entries(m: Members): map<string, Json> {
    match m
    case End => map[]
    case Member(k, v, rest) => Entries(rest)[k := v]
  }

  /** The entries with their values' own keys sorted. */
  function CanonicalEntries(m: Members): map<string, Json> {
    match m
    case End => map[]
    case Member(k, v, rest) => CanonicalEntries(rest)[k := SortKeys(v)]
  }

  ghost predicate DistinctKeys(m: Members) {
    match m
    case End => true
    case Member(k, _, rest) => k !in Entries(rest) && DistinctKeys(rest)
  }

  ghost predicate Ascending(m: Members) {
    match m
    case End => true
    case Member(k, _, rest) => Ascending(rest) && forall x :: x in Entries(rest) ==> Before(k, x)
  }

  lemma {:induction false} InsertKeepsAscending(key: string, value: Json, m: Members)
    requires Ascending(m)
    requires key !in Entries(m)
    ensures Ascending(Insert(key, value, m))
    ensures Entries(Insert(key, value, m)) == Entries(m)[key := value]
  {
    match m
    case End =>
    case Member(k, v, rest) =>
      BeforeIsTotal(k, key);
      if Before(k, key) {
        InsertKeepsAscending(key, value, rest);
      } else {
        forall x | x in Entries(m)
          ensures Before(key, x)
        {
          if x != k {
            BeforeIsTransitive(key, k, x);
          }
        }
      }
  }

  lemma {:induction false} SortingKeepsEntries(m: Members)
    requires DistinctKeys(m)
    ensures Ascending(SortMembers(m))
    ensures Entries(SortMembers(m)) == CanonicalEntries(m)
    ensures CanonicalEntries(m).Keys == Entries(m).Keys
  {
    match m
    case End =>
    case Member(k, v, rest) =>
      SortingKeepsEntries(rest);
      InsertKeepsAscending(k, SortKeys(v), SortMembers(rest));
  }

  lemma {:induction false} AscendingIsUnique(a: Members, b: Members)
    requires Ascending(a) && Ascending(b)
    requires Entries(a) == Entries(b)
    ensures a == b
  {
    assert a.Member? ==> a.key in Entries(a);
    assert b.Member? ==> b.key in Entries(b);
    if a.Member? && b.Member? {
      BeforeIsTotal(a.key, b.key);
      BeforeIsTotal(a.key, a.key);
      assert a.key == b.key;
      assert Entries(a)[a.key] == a.value && Entries(b)[b.key] == b.value;
      assert Entries(a.rest) == Entries(a) - {a.key};
      assert Entries(b.rest) == Entries(b) - {b.key};
      AscendingIsUnique(a.rest, b.rest);
    }
  }

  /** Two dictionaries are written alike exactly when they hold the same entries, in any order. */
  lemma SameTextSameEntries(a: Members, b: Members)
    requires DistinctKeys(a) && DistinctKeys(b)
    ensures Encode(Object(a)) == Encode(Object(b)) <==> CanonicalEntries(a) == CanonicalEntries(b)
  {
    SortingKeepsEntries(a);
    SortingKeepsEntries(b);
    if CanonicalEntries(a) == CanonicalEntries(b) {
      AscendingIsUnique(SortMembers(a), SortMembers(b));
    }
    if Encode(Object(a)) == Encode(Object(b)) {
      DecodeEncode(Object(a));
      DecodeEncode(Object(b));
    }
  }
}
