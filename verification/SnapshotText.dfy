/** The snapshot as text, one server a line, and the summary of what a refresh changed. */
module SnapshotText {
  import opened Common
  import opened JsonText
  import opened PythonText
  import opened Snapshot

  // ----- an entry as JSON -----

  function Maybe(s: Option<string>): Json {
    match s
    case None => Null
    case Some(t) => Text(t)
  }

  function HeaderJson(h: Header): Json {
    Object(Members("name", Text(h.name), Members("secret", Bool(h.secret), Members("required", Bool(h.required),
      Members("template", Maybe(h.template), Members("hint", Maybe(h.hint), NoMembers))))))
  }

  function HeadersJson(hs: seq<Header>): Items {
    if hs == [] then NoItems else Items(HeaderJson(hs[0]), HeadersJson(hs[1..]))
  }

  function EntryJson(e: Entry): Json {
    Object(Members("key", Text(e.key), Members("title", Maybe(e.title), Members("description", Text(e.description),
      Members("website", Maybe(e.website), Members("url", Text(e.url), Members("transport", Text(e.transport),
      Members("headers", Array(HeadersJson(e.headers)), NoMembers))))))))
  }

  /** `entry["key"]`: the last member of that name. */
  function Lookup(members: Members, name: string): Option<Json> {
    match members
    case NoMembers => None
    case Members(n, member, rest) =>
      var later := Lookup(rest, name);
      if later.Some? then later else if n == name then Some(member) else None
  }

  function KeyOf(j: Json): Option<string> {
    if !j.Object? then None
    else
      var key := Lookup(j.members, "key");
      if key.Some? && key.value.Text? then Some(key.value.text) else None
  }

  lemma {:induction false} EntryKey(e: Entry)
    ensures KeyOf(EntryJson(e)) == Some(e.key)
  {
    var title := EntryJson(e).members.rest;
    var url := title.rest.rest.rest;
    assert Lookup(url.rest.rest, "key") == None;
    assert Lookup(url, "key") == None;
    assert Lookup(title.rest.rest, "key") == None;
    assert Lookup(title, "key") == None;
  }

  lemma {:induction false} LookupHere(name: string, member: Json, rest: Members, wanted: string)
    ensures Lookup(Members(name, member, rest), wanted) ==
      if Lookup(rest, wanted).Some? then Lookup(rest, wanted) else if name == wanted then Some(member) else None
  {
  }

  lemma {:induction false} LookupEntry(e: Entry, name: string)
    ensures Lookup(EntryJson(e).members, name) ==
      if name == "headers" then Some(Array(HeadersJson(e.headers)))
      else if name == "transport" then Some(Text(e.transport))
      else if name == "url" then Some(Text(e.url))
      else if name == "website" then Some(Maybe(e.website))
      else if name == "description" then Some(Text(e.description))
      else if name == "title" then Some(Maybe(e.title))
      else if name == "key" then Some(Text(e.key))
      else None
  {
    var headers := Members("headers", Array(HeadersJson(e.headers)), NoMembers);
    var transport := Members("transport", Text(e.transport), headers);
    var url := Members("url", Text(e.url), transport);
    var website := Members("website", Maybe(e.website), url);
    var description := Members("description", Text(e.description), website);
    var title := Members("title", Maybe(e.title), description);
    assert EntryJson(e).members == Members("key", Text(e.key), title);
    LookupHere("key", Text(e.key), title, name);
    LookupHere("title", Maybe(e.title), description, name);
    LookupHere("description", Text(e.description), website, name);
    LookupHere("website", Maybe(e.website), url, name);
    LookupHere("url", Text(e.url), transport, name);
    LookupHere("transport", Text(e.transport), headers, name);
    LookupHere("headers", Array(HeadersJson(e.headers)), NoMembers, name);
  }

  lemma {:induction false} LookupHeader(h: Header, name: string)
    ensures Lookup(HeaderJson(h).members, name) ==
      if name == "hint" then Some(Maybe(h.hint))
      else if name == "template" then Some(Maybe(h.template))
      else if name == "required" then Some(Bool(h.required))
      else if name == "secret" then Some(Bool(h.secret))
      else if name == "name" then Some(Text(h.name))
      else None
  {
    var hint := Members("hint", Maybe(h.hint), NoMembers);
    var template := Members("template", Maybe(h.template), hint);
    var required := Members("required", Bool(h.required), template);
    var secret := Members("secret", Bool(h.secret), required);
    assert HeaderJson(h).members == Members("name", Text(h.name), secret);
    LookupHere("name", Text(h.name), secret, name);
    LookupHere("secret", Bool(h.secret), required, name);
    LookupHere("required", Bool(h.required), template, name);
    LookupHere("template", Maybe(h.template), hint, name);
    LookupHere("hint", Maybe(h.hint), NoMembers, name);
  }

  /** Different entries have different JSON, so comparing parsed lines compares entries. */
  lemma {:induction false} EntryJsonInjective(a: Entry, b: Entry)
    requires EntryJson(a) == EntryJson(b)
    ensures a == b
  {
    HeadersInjective(a.headers, b.headers);
  }

  lemma {:induction false} HeadersInjective(a: seq<Header>, b: seq<Header>)
    requires HeadersJson(a) == HeadersJson(b)
    ensures a == b
  {
    if a != [] && b != [] {
      assert HeaderJson(a[0]) == HeaderJson(b[0]);
      HeadersInjective(a[1..], b[1..]);
      assert a == [a[0]] + a[1..] && b == [b[0]] + b[1..];
    }
  }

  // ----- render and read -----

  function Render(entries: seq<Entry>): string {
    if entries == [] then "" else Show(EntryJson(entries[0])) + "\n" + Render(entries[1..])
  }

  /** `text.split("\n")`. */
  function SplitLf(s: string): (r: seq<string>)
    ensures r != []
  {
    if s == [] then [""]
    else if s[0] == '\n' then [""] + SplitLf(s[1..])
    else var rest := SplitLf(s[1..]); [[s[0]] + rest[0]] + rest[1..]
  }

  /** The lines of a snapshot read in order into a dictionary; `None` when a line is not JSON or has
      no key. */
  function ReadLines(lines: seq<string>, read: map<string, Json>): Option<map<string, Json>> {
    if lines == [] then Some(read)
    else if Blank(lines[0]) then ReadLines(lines[1..], read)
    else
      var j := Loads(lines[0]);
      if j.None? || KeyOf(j.value).None? then None
      else ReadLines(lines[1..], read[KeyOf(j.value).value := j.value])
  }

  function ReadSnapshotText(text: string): Option<map<string, Json>> {
    ReadLines(SplitLf(text), map[])
  }

  /** One line more: nothing from a line of spaces, else its object under its own key, over an earlier
      one of that key; a line that is not an object with a key spoils the whole text. */
  lemma {:induction false} OneLineMore(lines: seq<string>, line: string, read: map<string, Json>)
    ensures
      var before := ReadLines(lines, read);
      ReadLines(lines + [line], read) ==
      if before.None? then None
      else if Strip(line) == "" then before
      else if Loads(line).None? || KeyOf(Loads(line).value).None? then None
      else Some(before.value[KeyOf(Loads(line).value).value := Loads(line).value])
  {
    if lines == [] {
      StripIsEmptyIff(line);
      assert [line][1..] == [];
    } else {
      assert (lines + [line])[1..] == lines[1..] + [line];
      if Blank(lines[0]) {
        OneLineMore(lines[1..], line, read);
      } else if Loads(lines[0]).Some? && KeyOf(Loads(lines[0]).value).Some? {
        OneLineMore(lines[1..], line, read[KeyOf(Loads(lines[0]).value).value := Loads(lines[0]).value]);
      }
    }
  }

  /** `{entry["key"]: entry for entry in entries}`, as JSON. */
  function ByKey(entries: seq<Entry>, before: map<string, Json>): map<string, Json> {
    if entries == [] then before else ByKey(entries[1..], before[entries[0].key := EntryJson(entries[0])])
  }

  lemma {:induction false} SplitLine(line: string, rest: string)
    requires '\n' !in line
    ensures SplitLf(line + "\n" + rest) == [line] + SplitLf(rest)
  {
    var s := line + "\n" + rest;
    if line == [] {
      assert s[1..] == rest;
    } else {
      assert s[0] == line[0] && s[1..] == line[1..] + "\n" + rest;
      SplitLine(line[1..], rest);
      assert [line[0]] + line[1..] == line;
    }
  }

  lemma {:induction false} ReadRendered(entries: seq<Entry>, before: map<string, Json>)
    ensures ReadLines(SplitLf(Render(entries)), before) == Some(ByKey(entries, before))
  {
    if entries == [] {
      assert SplitLf("") == [""] && [""][1..] == [];
    } else {
      var j := EntryJson(entries[0]);
      var lines := SplitLf(Render(entries[1..]));
      ShowIsOneLine(j);
      SplitLine(Show(j), Render(entries[1..]));
      LoadsShow(j);
      EntryKey(entries[0]);
      assert Show(j)[0] == '{';
      assert ([Show(j)] + lines)[1..] == lines;
      ReadRendered(entries[1..], before[entries[0].key := j]);
    }
  }

  ghost predicate DistinctKeys(entries: seq<Entry>) {
    forall i, j | 0 <= i < j < |entries| :: entries[i].key != entries[j].key
  }

  /** The last entry with a key. */
  function LastEntry(entries: seq<Entry>, key: string): Option<Entry> {
    if entries == [] then None
    else
      var later := LastEntry(entries[1..], key);
      if later.Some? then later else if entries[0].key == key then Some(entries[0]) else None
  }

  lemma {:induction false} ByKeyAt(entries: seq<Entry>, before: map<string, Json>, key: string)
    ensures
      var read := ByKey(entries, before);
      match LastEntry(entries, key)
      case Some(e) => key in read && read[key] == EntryJson(e)
      case None => (key in read <==> key in before) && (key in read ==> read[key] == before[key])
  {
    if entries != [] {
      ByKeyAt(entries[1..], before[entries[0].key := EntryJson(entries[0])], key);
    }
  }

  lemma {:induction false} LastOfDistinct(entries: seq<Entry>, e: Entry)
    requires DistinctKeys(entries) && e in entries
    ensures LastEntry(entries, e.key) == Some(e)
  {
    if e in entries[1..] {
      LastOfDistinct(entries[1..], e);
    } else {
      NoEntry(entries[1..], e.key);
    }
  }

  lemma {:induction false} NoEntry(entries: seq<Entry>, key: string)
    ensures LastEntry(entries, key).None? <==> forall i | 0 <= i < |entries| :: entries[i].key != key
    ensures LastEntry(entries, key).Some? ==> LastEntry(entries, key).value in entries && LastEntry(entries, key).value.key == key
  {
    if entries != [] {
      NoEntry(entries[1..], key);
      assert forall i | 1 <= i < |entries| :: entries[i] == entries[1..][i - 1];
    }
  }

  /** Reading what was rendered gives every entry under its key and nothing else, whatever its strings
      hold, U+2028 included; of two with one key, the later. */
  lemma {:induction false} SnapshotRoundTrip(entries: seq<Entry>, key: string)
    ensures ReadSnapshotText(Render(entries)).Some?
    ensures
      var read := ReadSnapshotText(Render(entries)).value;
      match LastEntry(entries, key)
      case Some(e) => key in read && read[key] == EntryJson(e)
      case None => key !in read
  {
    ReadRendered(entries, map[]);
    ByKeyAt(entries, map[], key);
  }

  lemma {:induction false} SortedAreDistinct(entries: seq<Entry>)
    requires StrictlySorted(entries)
    ensures DistinctKeys(entries)
  {
    forall i, j | 0 <= i < j < |entries| ensures entries[i].key != entries[j].key {
      LessIsStrict(entries[i].key, entries[j].key);
    }
  }
}
