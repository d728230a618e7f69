/** JSON values as `serde_json` prints them compactly, and a parser that undoes the printer. */
module Json {
  import opened Types

  /** The values a fingerprint is made of; object members are in the order in which they are printed. */
  datatype Value =
    | Null
    | Bool(b: bool)
    | Number(n: nat)
    | String(s: string)
    | Array(items: seq<Value>)
    | Object(members: seq<Member>)

  datatype Member = Member(key: string, value: Value)

  // Printing.

  const DIGITS: string := "0123456789"
  const HEX: string := "0123456789abcdef"

  function Decimal(n: nat): (s: string)
    ensures |s| > 0
  {
    if n < 10 then [DIGITS[n]] else Decimal(n / 10) + [DIGITS[n % 10]]
  }

  /** The escape of one character: the short forms, `\u00xx` for other control characters, or itself. */
  function Escape(c: char): (s: string)
    ensures |s| > 0
  {
    if c == '"' then ['\\', '"']
    else if c == '\\' then ['\\', '\\']
    else if c == 8 as char then ['\\', 'b']
    else if c == '\t' then ['\\', 't']
    else if c == '\n' then ['\\', 'n']
    else if c == 12 as char then ['\\', 'f']
    else if c == '\r' then ['\\', 'r']
    else if c < ' ' then ['\\', 'u', '0', '0', HEX[(c as int) / 16], HEX[(c as int) % 16]]
    else [c]
  }

  function EscapeAll(s: string): string {
    if s == "" then "" else Escape(s[0]) + EscapeAll(s[1..])
  }

  function PrintString(s: string): string {
    ['"'] + EscapeAll(s) + ['"']
  }

  function Print(v: Value): (s: string)
    ensures |s| > 0
    decreases v, 0
  {
    match v
    case Null => "null"
    case Bool(b) => if b then "true" else "false"
    case Number(n) => Decimal(n)
    case String(s) => PrintString(s)
    case Array(items) => ['['] + PrintItems(items) + [']']
    case Object(members) => ['{'] + PrintMembers(members) + ['}']
  }

  function PrintItems(items: seq<Value>): string
    decreases items, 1
  {
    if items == [] then ""
    else if |items| == 1 then Print(items[0])
    else Print(items[0]) + [','] + PrintItems(items[1..])
  }

  function PrintMember(m: Member): string
    decreases m, 1
  {
    PrintString(m.key) + [':'] + Print(m.value)
  }

  function PrintMembers(members: seq<Member>): string
    decreases members, 2
  {
    if members == [] then ""
    else if |members| == 1 then PrintMember(members[0])
    else PrintMember(members[0]) + [','] + PrintMembers(members[1..])
  }

  // Parsing. Every parser returns the value and the text behind it.

  function Digit(c: char): Option<nat> {
    if '0' <= c <= '9' then Some(c as int - '0' as int) else None
  }

  function HexDigit(c: char): Option<nat> {
    if '0' <= c <= '9' then Some(c as int - '0' as int)
    else if 'a' <= c <= 'f' then Some(c as int - 'a' as int + 10)
    else None
  }

  /** The digits at the front, read on from an accumulated value. */
  function ParseDigits(acc: nat, s: string): (r: (nat, string))
    ensures |r.1| <= |s|
    decreases |s|
  {
    if s != "" && Digit(s[0]).Some? then ParseDigits(10 * acc + Digit(s[0]).value, s[1..]) else (acc, s)
  }

  /** One possibly escaped character. */
  function ParseChar(s: string): (r: Option<(char, string)>)
    ensures r.Some? ==> |r.value.1| < |s|
  {
    if s == "" then None
    else if s[0] != '\\' then (if s[0] < ' ' || s[0] == '"' then None else Some((s[0], s[1..])))
    else if |s| < 2 then None
    else
      match s[1]
      case '"' => Some(('"', s[2..]))
      case '\\' => Some(('\\', s[2..]))
      case 'b' => Some((8 as char, s[2..]))
      case 't' => Some(('\t', s[2..]))
      case 'n' => Some(('\n', s[2..]))
      case 'f' => Some((12 as char, s[2..]))
      case 'r' => Some(('\r', s[2..]))
      case 'u' =>
        if |s| < 6 || s[2] != '0' || s[3] != '0' || HexDigit(s[4]).None? || HexDigit(s[5]).None? then None
        else Some(((16 * HexDigit(s[4]).value + HexDigit(s[5]).value) as char, s[6..]))
      case _ => None
  }

  /** The rest of a string whose opening quote has been read. */
  function ParseChars(s: string): (r: Option<(string, string)>)
    ensures r.Some? ==> |r.value.1| < |s|
    decreases |s|
  {
    if s == "" then None
    else if s[0] == '"' then Some(("", s[1..]))
    else
      match ParseChar(s)
      case None => None
      case Some((c, rest)) =>
        match ParseChars(rest)
        case None => None
        case Some((cs, rest')) => Some(([c] + cs, rest'))
  }

  function Expect(prefix: string, s: string): (r: Option<string>)
    ensures r.Some? ==> |r.value| + |prefix| == |s|
  {
    if prefix <= s then Some(s[|prefix|..]) else None
  }

  function Parse(s: string): (r: Option<(Value, string)>)
    ensures r.Some? ==> |r.value.1| < |s|
    decreases |s|, 0
  {
    if s == "" then None
    else if s[0] == 'n' then
      (match Expect("null", s) case Some(rest) => Some((Null, rest)) case None => None)
    else if s[0] == 't' then
      (match Expect("true", s) case Some(rest) => Some((Bool(true), rest)) case None => None)
    else if s[0] == 'f' then
      (match Expect("false", s) case Some(rest) => Some((Bool(false), rest)) case None => None)
    else if Digit(s[0]).Some? then
      var (n, rest) := ParseDigits(Digit(s[0]).value, s[1..]);
      Some((Number(n), rest))
    else if s[0] == '"' then
      (match ParseChars(s[1..]) case Some((t, rest)) => Some((String(t), rest)) case None => None)
    else if s[0] == '[' then
      if |s| > 1 && s[1] == ']' then Some((Array([]), s[2..]))
      else (match ParseItems(s[1..]) case Some((items, rest)) => Some((Array(items), rest)) case None => None)
    else if s[0] == '{' then
      if |s| > 1 && s[1] == '}' then Some((Object([]), s[2..]))
      else (match ParseMembers(s[1..]) case Some((ms, rest)) => Some((Object(ms), rest)) case None => None)
    else None
  }

  /** A non-empty item list and its closing bracket. */
  function ParseItems(s: string): (r: Option<(seq<Value>, string)>)
    ensures r.Some? ==> |r.value.1| < |s|
    decreases |s|, 1
  {
    match Parse(s)
    case None => None
    case Some((v, rest)) =>
      if rest == "" then None
      else if rest[0] == ']' then Some(([v], rest[1..]))
      else if rest[0] != ',' then None
      else
        match ParseItems(rest[1..])
        case None => None
        case Some((vs, rest')) => Some(([v] + vs, rest'))
  }

  function ParseMember(s: string): (r: Option<(Member, string)>)
    ensures r.Some? ==> |r.value.1| < |s|
    decreases |s|, 1
  {
    if s == "" || s[0] != '"' then None
    else
      match ParseChars(s[1..])
      case None => None
      case Some((key, rest)) =>
        if rest == "" || rest[0] != ':' then None
        else
          match Parse(rest[1..])
          case None => None
          case Some((v, rest')) => Some((Member(key, v), rest'))
  }

  /** A non-empty member list and its closing brace. */
  function ParseMembers(s: string): (r: Option<(seq<Member>, string)>)
    ensures r.Some? ==> |r.value.1| < |s|
    decreases |s|, 2
  {
    match ParseMember(s)
    case None => None
    case Some((m, rest)) =>
      if rest == "" then None
      else if rest[0] == '}' then Some(([m], rest[1..]))
      else if rest[0] != ',' then None
      else
        match ParseMembers(rest[1..])
        case None => None
        case Some((ms, rest')) => Some(([m] + ms, rest'))
  }

  // The round trip.

  lemma HexRoundTrip(k: nat)
    requires k < 16
    ensures HexDigit(HEX[k]) == Some(k)
  {
  }

  lemma CharRoundTrip(c: char, rest: string)
    ensures ParseChar(Escape(c) + rest) == Some((c, rest))
    ensures Escape(c)[0] != '"'
  {
    var s := Escape(c) + rest;
    if |Escape(c)| == 6 {
      HexRoundTrip(c as int / 16);
      HexRoundTrip(c as int % 16);
      assert s[6..] == rest && s[4] == HEX[c as int / 16] && s[5] == HEX[c as int % 16];
    } else if |Escape(c)| == 2 {
      assert s[2..] == rest;
    } else {
      assert s[1..] == rest;
    }
  }

  lemma {:induction false} CharsRoundTrip(t: string, rest: string)
    ensures ParseChars(EscapeAll(t) + ['"'] + rest) == Some((t, rest))
    decreases |t|
  {
    var s := EscapeAll(t) + ['"'] + rest;
    if t == "" {
      assert s == ['"'] + rest && s[1..] == rest;
    } else {
      var tail := EscapeAll(t[1..]) + ['"'] + rest;
      assert s == Escape(t[0]) + tail;
      CharRoundTrip(t[0], tail);
      assert s[0] == Escape(t[0])[0];
      CharsRoundTrip(t[1..], rest);
      assert [t[0]] + t[1..] == t;
    }
  }

  lemma DigitRoundTrip(k: nat)
    requires k < 10
    ensures Digit(DIGITS[k]) == Some(k)
  {
  }

  /** Reading a printed number from an accumulated zero; nothing that looks like a digit may follow. */
  lemma {:induction false} DigitsRoundTrip(n: nat, rest: string)
    requires rest == "" || Digit(rest[0]).None?
    ensures ParseDigits(0, Decimal(n) + rest) == (n, rest)
    ensures Digit(Decimal(n)[0]).Some?
    ensures ParseDigits(Digit(Decimal(n)[0]).value, (Decimal(n) + rest)[1..]) == (n, rest)
    decreases n
  {
    DigitsAppend(0, n, rest);
    var s := Decimal(n) + rest;
    assert s[0] == Decimal(n)[0];
    FirstDigit(n);
    assert ParseDigits(0, s) == ParseDigits(Digit(s[0]).value, s[1..]);
  }

  lemma {:induction false} FirstDigit(n: nat)
    ensures Digit(Decimal(n)[0]).Some?
    decreases n
  {
    if n < 10 {
      DigitRoundTrip(n);
    } else {
      FirstDigit(n / 10);
      assert Decimal(n)[0] == Decimal(n / 10)[0];
    }
  }

  /** Reading a printed number, then going on with what follows. */
  lemma {:induction false} DigitsAppend(acc: nat, n: nat, rest: string)
    requires acc == 0
    ensures ParseDigits(acc, Decimal(n) + rest) == ParseDigits(n, rest)
    decreases n
  {
    if n < 10 {
      DigitRoundTrip(n);
      assert (Decimal(n) + rest)[1..] == rest;
    } else {
      var last := [DIGITS[n % 10]];
      assert Decimal(n) + rest == Decimal(n / 10) + (last + rest);
      DigitsAppend(acc, n / 10, last + rest);
      DigitRoundTrip(n % 10);
      assert (last + rest)[0] == DIGITS[n % 10] && (last + rest)[1..] == rest;
    }
  }

  /** What may stand behind a value inside an array, an object, or at the end. */
  predicate Delimited(rest: string) {
    rest == "" || rest[0] == ',' || rest[0] == ']' || rest[0] == '}'
  }

  /** The first character tells the kinds of values apart. */
  lemma FirstChar(v: Value)
    ensures var c := Print(v)[0];
      match v
      case Null => c == 'n'
      case Bool(b) => c == (if b then 't' else 'f')
      case Number(_) => Digit(c).Some?
      case String(_) => c == '"'
      case Array(_) => c == '['
      case Object(_) => c == '{'
  {
    if v.Number? {
      FirstDigit(v.n);
    }
  }

  lemma {:induction false} RoundTrip(v: Value, rest: string)
    requires Delimited(rest)
    ensures Parse(Print(v) + rest) == Some((v, rest))
    decreases v, 0
  {
    var s := Print(v) + rest;
    FirstChar(v);
    assert s[0] == Print(v)[0];
    match v {
      case Null => assert s[|"null"|..] == rest && "null" <= s;
      case Bool(b) =>
        var word := if b then "true" else "false";
        assert s[|word|..] == rest && word <= s;
      case Number(n) => DigitsRoundTrip(n, rest);
      case String(t) =>
        assert s[1..] == EscapeAll(t) + ['"'] + rest;
        CharsRoundTrip(t, rest);
      case Array(items) => ArrayRoundTrip(items, rest);
      case Object(members) => ObjectRoundTrip(members, rest);
    }
  }

  lemma {:induction false} ArrayRoundTrip(items: seq<Value>, rest: string)
    ensures Parse(Print(Array(items)) + rest) == Some((Array(items), rest))
    decreases items, 2
  {
    if items == [] {
      EmptyArray(rest);
    } else {
      ItemsRoundTrip(items, rest);
      ArrayStep(items, rest);
    }
  }

  lemma EmptyArray(rest: string)
    ensures Parse(Print(Array([])) + rest) == Some((Array([]), rest))
  {
    var s := ['[', ']'] + rest;
    assert Print(Array([])) == ['[', ']'];
    assert s[0] == '[' && s[1] == ']';
    assert s[2..] == rest;
  }

  lemma ArrayStep(items: seq<Value>, rest: string)
    requires items != []
    requires ParseItems(PrintItems(items) + ([']'] + rest)) == Some((items, rest))
    ensures Parse(Print(Array(items)) + rest) == Some((Array(items), rest))
  {
    ItemsStart(items);
    ParseBrackets(PrintItems(items) + ([']'] + rest), items, rest);
    Reassociate(['['], PrintItems(items), [']'], rest);
  }

  lemma ItemsStart(items: seq<Value>)
    requires items != []
    ensures PrintItems(items) != "" && PrintItems(items)[0] != ']'
  {
    FirstChar(items[0]);
  }

  lemma ParseBrackets(s: string, items: seq<Value>, rest: string)
    requires s != "" && s[0] != ']' && ParseItems(s) == Some((items, rest))
    ensures Parse(['['] + s) == Some((Array(items), rest))
  {
    assert (['['] + s)[1..] == s;
  }

  lemma {:induction false} ItemsRoundTrip(items: seq<Value>, rest: string)
    requires items != []
    ensures ParseItems(PrintItems(items) + ([']'] + rest)) == Some((items, rest))
    decreases items, 1
  {
    if |items| == 1 {
      RoundTrip(items[0], [']'] + rest);
      LastItem(items, rest);
    } else {
      RoundTrip(items[0], [','] + (PrintItems(items[1..]) + ([']'] + rest)));
      ItemsRoundTrip(items[1..], rest);
      ItemsStep(items, rest);
    }
  }

  lemma LastItem(items: seq<Value>, rest: string)
    requires |items| == 1
    requires Parse(Print(items[0]) + ([']'] + rest)) == Some((items[0], [']'] + rest))
    ensures ParseItems(PrintItems(items) + ([']'] + rest)) == Some((items, rest))
  {
    assert ([']'] + rest)[1..] == rest && [items[0]] == items;
  }

  lemma ItemsStep(items: seq<Value>, rest: string)
    requires |items| > 1
    requires var more := PrintItems(items[1..]) + ([']'] + rest);
      && Parse(Print(items[0]) + ([','] + more)) == Some((items[0], [','] + more))
      && ParseItems(more) == Some((items[1..], rest))
    ensures ParseItems(PrintItems(items) + ([']'] + rest)) == Some((items, rest))
  {
    var more := PrintItems(items[1..]) + ([']'] + rest);
    Reassociate(Print(items[0]), [','], PrintItems(items[1..]), [']'] + rest);
    ParseMoreItems(Print(items[0]) + ([','] + more), items[0], more, items[1..], rest);
    assert [items[0]] + items[1..] == items;
  }

  lemma ParseMoreItems(s: string, v: Value, more: string, vs: seq<Value>, rest: string)
    requires Parse(s) == Some((v, [','] + more)) && ParseItems(more) == Some((vs, rest))
    ensures ParseItems(s) == Some(([v] + vs, rest))
  {
    assert ([','] + more)[1..] == more;
  }

  lemma {:induction false} MemberRoundTrip(m: Member, rest: string)
    requires Delimited(rest)
    ensures ParseMember(PrintMember(m) + rest) == Some((m, rest))
    decreases m, 1
  {
    CharsRoundTrip(m.key, [':'] + (Print(m.value) + rest));
    RoundTrip(m.value, rest);
    ParseMemberStep(m, rest);
  }

  lemma ParseMemberStep(m: Member, rest: string)
    requires ParseChars(EscapeAll(m.key) + ['"'] + ([':'] + (Print(m.value) + rest)))
          == Some((m.key, [':'] + (Print(m.value) + rest)))
    requires Parse(Print(m.value) + rest) == Some((m.value, rest))
    ensures ParseMember(PrintMember(m) + rest) == Some((m, rest))
  {
    var tail := [':'] + (Print(m.value) + rest);
    MemberText(m, rest);
    var s := ['"'] + (EscapeAll(m.key) + ['"'] + tail);
    assert s[1..] == EscapeAll(m.key) + ['"'] + tail;
    assert tail[1..] == Print(m.value) + rest;
  }

  lemma MemberText(m: Member, rest: string)
    ensures PrintMember(m) + rest == ['"'] + (EscapeAll(m.key) + ['"'] + ([':'] + (Print(m.value) + rest)))
  {
    var key, value := EscapeAll(m.key), Print(m.value);
    Reassociate(PrintString(m.key), [':'], value, rest);
    Reassociate(['"'], key, ['"'], [':'] + (value + rest));
    Reassociate(key, ['"'], [':'] + (value + rest), "");
  }

  lemma {:induction false} ObjectRoundTrip(members: seq<Member>, rest: string)
    ensures Parse(Print(Object(members)) + rest) == Some((Object(members), rest))
    decreases members, 3
  {
    if members == [] {
      EmptyObject(rest);
    } else {
      MembersRoundTrip(members, rest);
      ObjectStep(members, rest);
    }
  }

  lemma EmptyObject(rest: string)
    ensures Parse(Print(Object([])) + rest) == Some((Object([]), rest))
  {
    var s := ['{', '}'] + rest;
    assert Print(Object([])) == ['{', '}'];
    assert s[0] == '{' && s[1] == '}';
    assert s[2..] == rest;
  }

  lemma ObjectStep(members: seq<Member>, rest: string)
    requires members != []
    requires ParseMembers(PrintMembers(members) + (['}'] + rest)) == Some((members, rest))
    ensures Parse(Print(Object(members)) + rest) == Some((Object(members), rest))
  {
    MembersStart(members);
    ParseBraces(PrintMembers(members) + (['}'] + rest), members, rest);
    Reassociate(['{'], PrintMembers(members), ['}'], rest);
  }

  lemma MembersStart(members: seq<Member>)
    requires members != []
    ensures PrintMembers(members) != "" && PrintMembers(members)[0] == '"'
  {
    assert PrintMember(members[0])[0] == '"';
  }

  lemma ParseBraces(s: string, members: seq<Member>, rest: string)
    requires s != "" && s[0] == '"' && ParseMembers(s) == Some((members, rest))
    ensures Parse(['{'] + s) == Some((Object(members), rest))
  {
    assert (['{'] + s)[1..] == s;
  }

  lemma {:induction false} MembersRoundTrip(members: seq<Member>, rest: string)
    requires members != []
    ensures ParseMembers(PrintMembers(members) + (['}'] + rest)) == Some((members, rest))
    decreases members, 2
  {
    if |members| == 1 {
      MemberRoundTrip(members[0], ['}'] + rest);
      LastMember(members, rest);
    } else {
      MemberRoundTrip(members[0], [','] + (PrintMembers(members[1..]) + (['}'] + rest)));
      MembersRoundTrip(members[1..], rest);
      MembersStep(members, rest);
    }
  }

  lemma MembersStep(members: seq<Member>, rest: string)
    requires |members| > 1
    requires var more := PrintMembers(members[1..]) + (['}'] + rest);
      && ParseMember(PrintMember(members[0]) + ([','] + more)) == Some((members[0], [','] + more))
      && ParseMembers(more) == Some((members[1..], rest))
    ensures ParseMembers(PrintMembers(members) + (['}'] + rest)) == Some((members, rest))
  {
    var more := PrintMembers(members[1..]) + (['}'] + rest);
    MembersText(members, ['}'] + rest);
    ParseMore(PrintMember(members[0]) + ([','] + more), members[0], more, members[1..], rest);
    assert [members[0]] + members[1..] == members;
  }

  lemma ParseMore(s: string, m: Member, more: string, ms: seq<Member>, rest: string)
    requires ParseMember(s) == Some((m, [','] + more)) && ParseMembers(more) == Some((ms, rest))
    ensures ParseMembers(s) == Some(([m] + ms, rest))
  {
    assert ([','] + more)[1..] == more;
  }

  lemma MembersText(members: seq<Member>, end: string)
    requires |members| > 1
    ensures PrintMembers(members) + end == PrintMember(members[0]) + ([','] + (PrintMembers(members[1..]) + end))
  {
    Reassociate(PrintMember(members[0]), [','], PrintMembers(members[1..]), end);
  }

  lemma Reassociate(a: string, b: string, c: string, d: string)
    ensures a + b + c + d == a + (b + (c + d))
  {
  }

  lemma LastMember(members: seq<Member>, rest: string)
    requires |members| == 1
    requires ParseMember(PrintMember(members[0]) + (['}'] + rest)) == Some((members[0], ['}'] + rest))
    ensures ParseMembers(PrintMembers(members) + (['}'] + rest)) == Some((members, rest))
  {
    assert (['}'] + rest)[1..] == rest && [members[0]] == members;
  }

  /** The compact text determines the value. */
  lemma PrintInjective(v: Value, w: Value)
    requires Print(v) == Print(w)
    ensures v == w
  {
    RoundTrip(v, "");
    RoundTrip(w, "");
    assert Print(v) + "" == Print(v) && Print(w) + "" == Print(w);
  }
}
