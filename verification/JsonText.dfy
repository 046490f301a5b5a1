/** JSON text as `json.dumps(…, ensure_ascii=False, separators=(",", ":"))` writes it and as a parser
    reads that form back. Numbers do not occur in the snapshot. */
module JsonText {
  import opened Common

  datatype Json =
    | Null
    | Bool(value: bool)
    | Text(text: string)
    | Array(items: Items)
    | Object(members: Members)

  datatype Items = NoItems | Items(first: Json, others: Items)

  datatype Members = NoMembers | Members(name: string, member: Json, rest: Members)

  // ----- writing -----

  const HEX := "0123456789abcdef"

  /** Only the quote, the backslash and the control characters are escaped. */
  function Escape(c: char): string {
    if c == '\"' then "\\\""
    else if c == '\\' then "\\\\"
    else if c == '\n' then "\\n"
    else if c == '\r' then "\\r"
    else if c == '\t' then "\\t"
    else if c == '\U{0008}' then "\\b"
    else if c == '\U{000C}' then "\\f"
    else if c < ' ' then "\\u00" + [HEX[c as int / 16], HEX[c as int % 16]]
    else [c]
  }

  function EscapeAll(s: string): string {
    if s == [] then "" else Escape(s[0]) + EscapeAll(s[1..])
  }

  function ShowText(s: string): string {
    "\"" + EscapeAll(s) + "\""
  }

  function Show(j: Json): string {
    match j
    case Null => "null"
    case Bool(b) => if b then "true" else "false"
    case Text(s) => ShowText(s)
    case Array(items) => "[" + ShowItems(items) + "]"
    case Object(members) => "{" + ShowMembers(members) + "}"
  }

  function ShowItems(items: Items): string {
    match items
    case NoItems => ""
    case Items(first, NoItems) => Show(first)
    case Items(first, others) => Show(first) + "," + ShowItems(others)
  }

  function ShowMembers(members: Members): string {
    match members
    case NoMembers => ""
    case Members(name, member, NoMembers) => ShowText(name) + ":" + Show(member)
    case Members(name, member, rest) => ShowText(name) + ":" + Show(member) + "," + ShowMembers(rest)
  }

  // ----- reading -----

  function HexDigit(c: char): Option<nat> {
    if '0' <= c <= '9' then Some(c as int - '0' as int)
    else if 'a' <= c <= 'f' then Some(c as int - 'a' as int + 10)
    else if 'A' <= c <= 'F' then Some(c as int - 'A' as int + 10)
    else None
  }

  /** Four hexadecimal digits naming a character outside the surrogates. */
  function HexChar(s: string): Option<char>
    requires |s| == 4
  {
    var a, b, c, d := HexDigit(s[0]), HexDigit(s[1]), HexDigit(s[2]), HexDigit(s[3]);
    if a.None? || b.None? || c.None? || d.None? then None
    else
      var n := ((a.value * 16 + b.value) * 16 + c.value) * 16 + d.value;
      if n < 0xD800 || 0xE000 <= n < 0x10000 then Some(n as char) else None
  }

  function Unescape(c: char): Option<char> {
    if c == '\"' || c == '\\' || c == '/' then Some(c)
    else if c == 'n' then Some('\n')
    else if c == 'r' then Some('\r')
    else if c == 't' then Some('\t')
    else if c == 'b' then Some('\U{0008}')
    else if c == 'f' then Some('\U{000C}')
    else None
  }

  /** One character of a string literal, and how much text it took. */
  function ReadChar(s: string): (r: Option<(char, nat)>)
    ensures r.Some? ==> 0 < r.value.1 <= |s|
  {
    if s == [] || s[0] < ' ' || s[0] == '\"' then None
    else if s[0] != '\\' then Some((s[0], 1))
    else if |s| >= 6 && s[1] == 'u' then
      var c := HexChar(s[2..6]);
      if c.None? then None else Some((c.value, 6))
    else if |s| >= 2 && Unescape(s[1]).Some? then Some((Unescape(s[1]).value, 2))
    else None
  }

  /** The rest of a string literal whose opening quote is read. */
  function ReadText(s: string): (r: Option<(string, string)>)
    ensures r.Some? ==> |r.value.1| < |s|
    decreases |s|
  {
    if s != [] && s[0] == '\"' then Some(("", s[1..]))
    else
      var c := ReadChar(s);
      if c.None? then None
      else
        var more := ReadText(s[c.value.1..]);
        if more.None? then None else Some(([c.value.0] + more.value.0, more.value.1))
  }

  function Read(s: string): (r: Option<(Json, string)>)
    ensures r.Some? ==> |r.value.1| < |s|
    decreases |s|, 0
  {
    if "null" <= s then Some((Null, s[4..]))
    else if "true" <= s then Some((Bool(true), s[4..]))
    else if "false" <= s then Some((Bool(false), s[5..]))
    else if s == [] then None
    else if s[0] == '\"' then
      var t := ReadText(s[1..]);
      if t.None? then None else Some((Text(t.value.0), t.value.1))
    else if "[]" <= s then Some((Array(NoItems), s[2..]))
    else if "{}" <= s then Some((Object(NoMembers), s[2..]))
    else if s[0] == '[' then
      var items := ReadItems(s[1..]);
      if items.None? then None else Some((Array(items.value.0), items.value.1))
    else if s[0] == '{' then
      var members := ReadMembers(s[1..]);
      if members.None? then None else Some((Object(members.value.0), members.value.1))
    else None
  }

  function ReadItems(s: string): (r: Option<(Items, string)>)
    ensures r.Some? ==> |r.value.1| < |s|
    decreases |s|, 1
  {
    var first := Read(s);
    if first.None? || first.value.1 == [] then None
    else if first.value.1[0] == ']' then Some((Items(first.value.0, NoItems), first.value.1[1..]))
    else if first.value.1[0] != ',' then None
    else
      var others := ReadItems(first.value.1[1..]);
      if others.None? then None else Some((Items(first.value.0, others.value.0), others.value.1))
  }

  function ReadMembers(s: string): (r: Option<(Members, string)>)
    ensures r.Some? ==> |r.value.1| < |s|
    decreases |s|, 1
  {
    if s == [] || s[0] != '\"' then None
    else
      var name := ReadText(s[1..]);
      if name.None? || name.value.1 == [] || name.value.1[0] != ':' then None
      else
        var value := Read(name.value.1[1..]);
        if value.None? || value.value.1 == [] then None
        else if value.value.1[0] == '}' then Some((Members(name.value.0, value.value.0, NoMembers), value.value.1[1..]))
        else if value.value.1[0] != ',' then None
        else
          var rest := ReadMembers(value.value.1[1..]);
          if rest.None? then None else Some((Members(name.value.0, value.value.0, rest.value.0), rest.value.1))
  }

  /** `json.loads`: the whole text is one value. */
  function Loads(s: string): Option<Json> {
    var r := Read(s);
    if r.Some? && r.value.1 == [] then Some(r.value.0) else None
  }

  // ----- reading back what was written -----

  /** A character is written as itself, except the quote, the backslash and the control characters:
      two characters for those with a short name, else six, in lower-case hexadecimal. */
  lemma {:induction false} EscapeIs(c: char)
    ensures |Escape(c)| == 1 <==> c >= ' ' && c != '\"' && c != '\\'
    ensures |Escape(c)| == 1 ==> Escape(c) == [c]
    ensures |Escape(c)| == 2 <==> c in {'\"', '\\', '\n', '\r', '\t', '\U{0008}', '\U{000C}'}
    ensures |Escape(c)| > 2 ==>
      |Escape(c)| == 6 && Escape(c)[..4] == "\\u00" && forall i | 4 <= i < 6 :: !('A' <= Escape(c)[i] <= 'F')
  {
  }

  lemma {:induction false} EscapeReadsBack(c: char, rest: string)
    ensures ReadChar(Escape(c) + rest) == Some((c, |Escape(c)|))
    ensures Escape(c)[0] != '\"'
  {
    var s := Escape(c) + rest;
    if c < ' ' && c !in ['\n', '\r', '\t', '\U{0008}', '\U{000C}'] {
      assert s[0] == '\\' && s[1] == 'u';
      assert s[2..6] == ['0', '0', HEX[c as int / 16], HEX[c as int % 16]];
      HexReadsBack(c as int / 16);
      HexReadsBack(c as int % 16);
    } else {
      assert s[0] == Escape(c)[0];
      assert |Escape(c)| == 2 ==> s[1] == Escape(c)[1];
    }
  }

  lemma {:induction false} HexReadsBack(n: nat)
    requires n < 16
    ensures HexDigit(HEX[n]) == Some(n)
  {
    assert n == 0 || n == 1 || n == 2 || n == 3 || n == 4 || n == 5 || n == 6 || n == 7 ||
      n == 8 || n == 9 || n == 10 || n == 11 || n == 12 || n == 13 || n == 14 || n == 15;
  }

  lemma {:induction false} TextReadsBack(t: string, rest: string)
    ensures ReadText(EscapeAll(t) + "\"" + rest) == Some((t, rest))
  {
    var s := EscapeAll(t) + "\"" + rest;
    if t == [] {
      assert s[1..] == rest;
    } else {
      var more := EscapeAll(t[1..]) + "\"" + rest;
      assert s == Escape(t[0]) + more;
      EscapeReadsBack(t[0], more);
      assert s[|Escape(t[0])|..] == more;
      TextReadsBack(t[1..], rest);
      assert [t[0]] + t[1..] == t;
    }
  }

  lemma {:induction false} ShowStart(j: Json)
    ensures Show(j) != [] && Show(j)[0] in ['n', 't', 'f', '\"', '[', '{']
    ensures Show(j)[0] != ']'
  {
  }

  /** Whatever follows, the text of a value reads back as that value. */
  lemma {:induction false} ReadsBack(j: Json, rest: string)
    ensures Read(Show(j) + rest) == Some((j, rest))
    decreases j, 0
  {
    match j
    case Null => WordReadsBack(j, rest);
    case Bool(b) => WordReadsBack(j, rest);
    case Text(t) =>
      var s := Show(j) + rest;
      assert s[0] == '\"' && s[1..] == EscapeAll(t) + "\"" + rest;
      TextReadsBack(t, rest);
    case Array(items) =>
      if items.Items? {
        ItemsReadBack(items, rest);
        ShowStart(items.first);
      }
      ArrayReadsBack(items, rest);
    case Object(members) =>
      if members.Members? {
        MembersReadBack(members, rest);
      }
      ObjectReadsBack(members, rest);
  }

  lemma {:induction false} WordReadsBack(j: Json, rest: string)
    requires j.Null? || j.Bool?
    ensures Read(Show(j) + rest) == Some((j, rest))
  {
    var s := Show(j) + rest;
    if j == Bool(false) {
      assert s[..5] == "false" && s[5..] == rest && s[0] == 'f';
    } else {
      assert s[..4] == Show(j) && s[4..] == rest && s[0] == Show(j)[0];
    }
  }

  lemma {:induction false} ArrayReads(s: string, items: Items, rest: string)
    requires |s| >= 2 && s[0] == '[' && s[1] != ']' && ReadItems(s[1..]) == Some((items, rest))
    ensures Read(s) == Some((Array(items), rest))
  {
  }

  lemma {:induction false} EmptyArrayReads(rest: string)
    ensures Read("[]" + rest) == Some((Array(NoItems), rest))
  {
    var s := "[]" + rest;
    assert s[0] == '[' && s[..2] == "[]" && s[2..] == rest;
  }

  lemma {:induction false} Bracketed(inner: string, rest: string)
    ensures
      var s := "[" + inner + "]" + rest;
      s[0] == '[' && s[1..] == inner + "]" + rest && (inner != [] ==> s[1] == inner[0])
  {
  }

  lemma {:induction false} ArrayReadsBack(items: Items, rest: string)
    requires items.Items? ==> ReadItems(ShowItems(items) + "]" + rest) == Some((items, rest)) && ShowItems(items) != [] && ShowItems(items)[0] != ']'
    ensures Read(Show(Array(items)) + rest) == Some((Array(items), rest))
  {
    var s := Show(Array(items)) + rest;
    if items.NoItems? {
      EmptyArrayReads(rest);
    } else {
      Bracketed(ShowItems(items), rest);
      ArrayReads(s, items, rest);
    }
  }

  lemma {:induction false} ObjectReads(s: string, members: Members, rest: string)
    requires |s| >= 2 && s[0] == '{' && s[1] == '\"' && ReadMembers(s[1..]) == Some((members, rest))
    ensures Read(s) == Some((Object(members), rest))
  {
    assert s[..2] == ['{', '\"'];
  }

  lemma {:induction false} EmptyObjectReads(rest: string)
    ensures Read("{}" + rest) == Some((Object(NoMembers), rest))
  {
    var s := "{}" + rest;
    assert s[0] == '{' && s[..2] == "{}" && s[2..] == rest;
  }

  lemma {:induction false} MembersStart(members: Members)
    requires members.Members?
    ensures ShowMembers(members) != [] && ShowMembers(members)[0] == '\"'
  {
    assert ShowText(members.name)[0] == '\"';
  }

  lemma {:induction false} Braced(inner: string, rest: string)
    ensures
      var s := "{" + inner + "}" + rest;
      s[0] == '{' && s[1..] == inner + "}" + rest && (inner != [] ==> s[1] == inner[0])
  {
  }

  lemma {:induction false} ObjectReadsBack(members: Members, rest: string)
    requires members.Members? ==> ReadMembers(ShowMembers(members) + "}" + rest) == Some((members, rest))
    ensures Read(Show(Object(members)) + rest) == Some((Object(members), rest))
  {
    var s := Show(Object(members)) + rest;
    if members.NoMembers? {
      EmptyObjectReads(rest);
    } else {
      MembersStart(members);
      Braced(ShowMembers(members), rest);
      ObjectReads(s, members, rest);
    }
  }

  lemma {:induction false} ItemsReadBack(items: Items, rest: string)
    requires items.Items?
    ensures ReadItems(ShowItems(items) + "]" + rest) == Some((items, rest))
    decreases items, 1
  {
    var s := ShowItems(items) + "]" + rest;
    if items.others.NoItems? {
      assert s == Show(items.first) + ("]" + rest);
      ReadsBack(items.first, "]" + rest);
      assert ("]" + rest)[1..] == rest;
    } else {
      var more := ShowItems(items.others) + "]" + rest;
      assert s == Show(items.first) + ("," + more);
      ReadsBack(items.first, "," + more);
      assert ("," + more)[1..] == more;
      ItemsReadBack(items.others, rest);
    }
  }

  lemma {:induction false} NameReadsBack(name: string, after: string)
    ensures
      var s := ShowText(name) + ":" + after;
      s != [] && s[0] == '\"' && ReadText(s[1..]) == Some((name, ":" + after))
  {
    var s := ShowText(name) + ":" + after;
    assert s[1..] == EscapeAll(name) + "\"" + (":" + after);
    TextReadsBack(name, ":" + after);
  }

  lemma {:induction false} LastMemberReads(s: string, name: string, after: string, j: Json, rest: string)
    requires s != [] && s[0] == '\"' && ReadText(s[1..]) == Some((name, ":" + after)) && Read(after) == Some((j, "}" + rest))
    ensures ReadMembers(s) == Some((Members(name, j, NoMembers), rest))
  {
    assert (":" + after)[1..] == after && ("}" + rest)[1..] == rest;
  }

  lemma {:induction false} MoreMembersRead(s: string, name: string, after: string, j: Json, more: string, ms: Members, rest: string)
    requires s != [] && s[0] == '\"' && ReadText(s[1..]) == Some((name, ":" + after))
    requires Read(after) == Some((j, "," + more)) && ReadMembers(more) == Some((ms, rest))
    ensures ReadMembers(s) == Some((Members(name, j, ms), rest))
  {
    assert (":" + after)[1..] == after && ("," + more)[1..] == more;
  }

  lemma {:induction false} Regroup(name: string, value: string, a: string, b: string)
    ensures name + ":" + value + a + b == name + ":" + (value + (a + b))
  {
  }

  lemma {:induction false} RegroupMore(name: string, value: string, others: string, rest: string)
    ensures name + ":" + value + "," + others + "}" + rest == name + ":" + (value + ("," + (others + "}" + rest)))
  {
    Regroup(name, value, ",", others + "}" + rest);
    assert name + ":" + value + "," + others + "}" + rest == name + ":" + value + "," + (others + "}" + rest);
  }

  lemma {:induction false} MembersReadBack(members: Members, rest: string)
    requires members.Members?
    ensures ReadMembers(ShowMembers(members) + "}" + rest) == Some((members, rest))
    decreases members, 1
  {
    var name := ShowText(members.name);
    var value := Show(members.member);
    if members.rest.NoMembers? {
      Regroup(name, value, "}", rest);
      NameReadsBack(members.name, value + ("}" + rest));
      ReadsBack(members.member, "}" + rest);
      LastMemberReads(ShowMembers(members) + "}" + rest, members.name, value + ("}" + rest), members.member, rest);
    } else {
      MembersReadBack(members.rest, rest);
      MoreReadBack(members, rest, ShowMembers(members.rest) + "}" + rest);
    }
  }

  lemma {:induction false} MoreReadBack(members: Members, rest: string, more: string)
    requires members.Members? && members.rest.Members? && more == ShowMembers(members.rest) + "}" + rest
    requires ReadMembers(more) == Some((members.rest, rest))
    ensures ReadMembers(ShowMembers(members) + "}" + rest) == Some((members, rest))
    decreases members, 0
  {
    var name := ShowText(members.name);
    var value := Show(members.member);
    ReadsBack(members.member, "," + more);
    NameReadsBack(members.name, value + ("," + more));
    RegroupMore(name, value, ShowMembers(members.rest), rest);
    MoreMembersRead(ShowMembers(members) + "}" + rest, members.name, value + ("," + more), members.member, more, members.rest, rest);
  }

  /** `json.loads(json.dumps(j)) == j`. */
  lemma {:induction false} LoadsShow(j: Json)
    ensures Loads(Show(j)) == Some(j)
  {
    ReadsBack(j, "");
    assert Show(j) + "" == Show(j);
  }

  // ----- one value is one line -----

  /** A raw line feed never occurs in the text of a value, whatever its strings hold (section 7 of
      RFC 8259 requires control characters to be escaped). */
  lemma {:induction false} ShowIsOneLine(j: Json)
    ensures '\n' !in Show(j)
  {
    match j
    case Text(s) => EscapeIsOneLine(s);
    case Array(items) => ItemsAreOneLine(items);
    case Object(members) => MembersAreOneLine(members);
    case _ =>
  }

  lemma {:induction false} ItemsAreOneLine(items: Items)
    ensures '\n' !in ShowItems(items)
  {
    if items.Items? {
      ShowIsOneLine(items.first);
      ItemsAreOneLine(items.others);
    }
  }

  lemma {:induction false} MembersAreOneLine(members: Members)
    ensures '\n' !in ShowMembers(members)
  {
    if members.Members? {
      EscapeIsOneLine(members.name);
      ShowIsOneLine(members.member);
      MembersAreOneLine(members.rest);
    }
  }

  lemma {:induction false} EscapeIsOneLine(s: string)
    ensures '\n' !in EscapeAll(s)
  {
    if s != [] {
      EscapeIsOneLine(s[1..]);
      assert '\n' !in Escape(s[0]) by {
        if s[0] < ' ' {
          HexIsOneLine(s[0] as int / 16);
          HexIsOneLine(s[0] as int % 16);
        }
      }
    }
  }

  lemma {:induction false} HexIsOneLine(n: nat)
    requires n < 16
    ensures HEX[n] != '\n'
  {
    HexReadsBack(n);
  }
}
