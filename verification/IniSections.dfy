/** ptp4lconf/ptp4lConfig.go GetAllSections: the sections of a ptp4l configuration. The text comes
    line by line, as bufio.Scanner yields it. */
module IniSections {
  import opened Options

  type Sections = map<string, map<string, string>>

  /** unicode.IsSpace. */
  predicate IsSpace(c: char) {
    var n := c as int;
    || 9 <= n <= 13 || n in {0x20, 0x85, 0xA0, 0x1680, 0x2028, 0x2029, 0x202F, 0x205F, 0x3000}
    || 0x2000 <= n <= 0x200A
  }

  function TrimLeft(s: string): (text: string) {
    if s != [] && IsSpace(s[0]) then TrimLeft(s[1..]) else s
  }

  function TrimRight(s: string): (text: string) {
    if s != [] && IsSpace(s[|s| - 1]) then TrimRight(s[..|s| - 1]) else s
  }

  /** strings.TrimSpace. */
  function TrimSpace(s: string): (text: string) {
    TrimRight(TrimLeft(s))
  }

  predicate IsBracket(c: char) {
    c == '[' || c == ']'
  }

  function TrimBracketsLeft(s: string): (text: string) {
    if s != [] && IsBracket(s[0]) then TrimBracketsLeft(s[1..]) else s
  }

  function TrimBracketsRight(s: string): (text: string) {
    if s != [] && IsBracket(s[|s| - 1]) then TrimBracketsRight(s[..|s| - 1]) else s
  }

  /** strings.Trim(s, "[]"). */
  function TrimBrackets(s: string): (text: string) {
    TrimBracketsRight(TrimBracketsLeft(s))
  }

  /** strings.Index(s, " "). */
  function FirstBlank(s: string): (i: int)
    ensures -1 <= i < |s|
    ensures i >= 0 ==> s[i] == ' ' && forall j :: 0 <= j < i ==> s[j] != ' '
    ensures i < 0 ==> forall j :: 0 <= j < |s| ==> s[j] != ' '
  {
    if s == [] then -1
    else if s[0] == ' ' then 0
    else
      var i := FirstBlank(s[1..]);
      assert forall j :: 1 <= j < |s| ==> s[j] == s[1..][j - 1];
      if i < 0 then -1 else i + 1
  }

  // ----- The parser

  datatype State = State(result: Sections, current: string)

  /** What one line does. */
  function Line(s: State, text: string): (next: State) {
    var line := TrimSpace(text);
    if line == "" || line[0] == '#' then s
    else if line[0] == '[' && line[|line| - 1] == ']' then
      var name := TrimBrackets(line);
      State(if name in s.result then s.result else s.result[name := map[]], name)
    else
      var blank := FirstBlank(line);
      if s.current == "" || s.current !in s.result || blank < 0 then s
      else
        var key, value := TrimSpace(line[..blank]), TrimSpace(line[blank + 1..]);
        s.(result := s.result[s.current := s.result[s.current][key := value]])
  }

  function Parse(lines: seq<string>): (next: State) {
    if lines == [] then State(map[], "") else Line(Parse(lines[..|lines| - 1]), lines[|lines| - 1])
  }

  method GetAllSections(lines: seq<string>) returns (result: Sections)
    ensures result == Parse(lines).result
  {
    hide Parse, TrimSpace, TrimBrackets, FirstBlank;
    ParseEnds(lines);
    result := map[];
    var currentSection := "";
    for i := 0 to |lines|
      invariant State(result, currentSection) == Parse(lines[..i])
      invariant currentSection != "" ==> currentSection in result
    {
      ParseNext(lines, i);
      var line := TrimSpace(lines[i]);
      if line == "" || line[0] == '#' {
        continue;
      }
      if line[0] == '[' && line[|line| - 1] == ']' {
        currentSection := TrimBrackets(line);
        if currentSection !in result {
          result := result[currentSection := map[]];
        }
        continue;
      }
      if currentSection != "" {
        var blank := FirstBlank(line);
        if blank >= 0 {
          var key := TrimSpace(line[..blank]);
          var value := TrimSpace(line[blank + 1..]);
          result := result[currentSection := result[currentSection][key := value]];
        }
      }
    }
  }

  lemma ParseNext(lines: seq<string>, i: nat)
    requires i < |lines|
    ensures Parse(lines[..i + 1]) == Line(Parse(lines[..i]), lines[i])
  {
    assert lines[..i + 1][..i] == lines[..i];
  }

  lemma ParseEnds(lines: seq<string>)
    ensures Parse(lines[..0]) == State(map[], "") && lines[..|lines|] == lines
  {
  }

  // ----- Printed text

  /** A printed line: a comment or blank line, a header, or a key with its value, each with the
      white space around it. */
  datatype Item =
    | Noise(text: string)
    | Header(name: string, lead: string, trail: string)
    | Entry(key: string, value: string, lead: string, gap: string, trail: string)

  predicate AllSpace(s: string) {
    forall i :: 0 <= i < |s| ==> IsSpace(s[i])
  }

  /** Neither end of it is white space, and it has ends. */
  predicate Bare(s: string) {
    s != "" && !IsSpace(s[0]) && !IsSpace(s[|s| - 1])
  }

  predicate WellFormed(item: Item) {
    match item
    case Noise(text) => TrimSpace(text) == "" || TrimSpace(text)[0] == '#'
    case Header(name, lead, trail) =>
      AllSpace(lead) && AllSpace(trail) && name != "" && !IsBracket(name[0]) && !IsBracket(name[|name| - 1])
    case Entry(key, value, lead, gap, trail) =>
      && AllSpace(lead) && AllSpace(trail) && AllSpace(gap) && gap != "" && gap[0] == ' '
      && Bare(key) && ' ' !in key && key[0] != '#' && Bare(value)
      && !(key[0] == '[' && value[|value| - 1] == ']')
  }

  function Render(item: Item): (s: string) {
    match item
    case Noise(text) => text
    case Header(name, lead, trail) => lead + ("[" + name + "]") + trail
    case Entry(key, value, lead, gap, trail) => lead + (key + gap + value) + trail
  }

  function Text(items: seq<Item>): (r: seq<string>) {
    seq(|items|, i requires 0 <= i < |items| => Render(items[i]))
  }

  /** The section in force after these lines: the name of the last header. */
  function LastHeader(items: seq<Item>): (s: string) {
    if items == [] then ""
    else if items[|items| - 1].Header? then items[|items| - 1].name
    else LastHeader(items[..|items| - 1])
  }

  /** The i-th line sets this key of this section. */
  predicate Sets(items: seq<Item>, i: nat, section: string, key: string)
    requires i < |items|
  {
    items[i].Entry? && items[i].key == key && section != "" && LastHeader(items[..i]) == section
  }

  /** The value set last, if any. */
  function LastValue(items: seq<Item>, section: string, key: string): (r: Option<string>) {
    if items == [] then None
    else if Sets(items, |items| - 1, section, key) then Some(items[|items| - 1].value)
    else LastValue(items[..|items| - 1], section, key)
  }

  /** It is the value on the one line that sets the key and has none after it that does. */
  lemma {:induction false} LastValueIsLast(items: seq<Item>, section: string, key: string, i: nat)
    requires i < |items| && Sets(items, i, section, key)
    requires forall j :: i < j < |items| ==> !Sets(items, j, section, key)
    ensures LastValue(items, section, key) == Some(items[i].value)
  {
    if i < |items| - 1 {
      var before := items[..|items| - 1];
      forall j | 0 <= j < |before| ensures Sets(before, j, section, key) == Sets(items, j, section, key) {
        assert before[..j] == items[..j];
      }
      LastValueIsLast(before, section, key, i);
    }
  }

  // ----- Trimming

  lemma {:induction false} TrimLeftSpace(space: string, s: string)
    requires AllSpace(space) && s != "" && !IsSpace(s[0])
    ensures TrimLeft(space + s) == s
  {
    if space == "" {
      assert space + s == s;
    } else {
      assert (space + s)[1..] == space[1..] + s;
      TrimLeftSpace(space[1..], s);
    }
  }

  lemma {:induction false} TrimRightSpace(s: string, space: string)
    requires AllSpace(space) && s != "" && !IsSpace(s[|s| - 1])
    ensures TrimRight(s + space) == s
  {
    if space == "" {
      assert s + space == s;
    } else {
      assert (s + space)[..|s + space| - 1] == s + space[..|space| - 1];
      TrimRightSpace(s, space[..|space| - 1]);
    }
  }

  lemma TrimAround(lead: string, s: string, trail: string)
    requires AllSpace(lead) && AllSpace(trail) && Bare(s)
    ensures TrimSpace(lead + s + trail) == s
  {
    assert lead + s + trail == lead + (s + trail);
    TrimLeftSpace(lead, s + trail);
    TrimRightSpace(s, trail);
  }

  lemma TrimName(name: string)
    requires name != "" && !IsBracket(name[0]) && !IsBracket(name[|name| - 1])
    ensures TrimBrackets("[" + name + "]") == name
  {
    var s := "[" + name + "]";
    assert s[1..] == name + "]";
    assert TrimBracketsLeft(s) == TrimBracketsLeft(name + "]") == name + "]";
    assert (name + "]")[..|name|] == name;
    assert TrimBracketsRight(name + "]") == TrimBracketsRight(name) == name;
  }

  // ----- What a line means

  lemma SplitEntry(key: string, gap: string, value: string)
    requires Bare(key) && ' ' !in key && Bare(value) && AllSpace(gap) && gap != "" && gap[0] == ' '
    ensures
      var line := key + gap + value;
      && FirstBlank(line) == |key|
      && TrimSpace(line[..|key|]) == key && TrimSpace(line[|key| + 1..]) == value
  {
    var line := key + gap + value;
    assert line[..|key|] == key && line[|key|] == ' ';
    assert forall j :: 0 <= j < |key| ==> line[j] == key[j];
    assert line[|key| + 1..] == gap[1..] + value + "";
    assert key == "" + key + "";
    TrimAround("", key, "");
    TrimAround(gap[1..], value, "");
  }

  /** What a printed line asks for. */
  function Do(s: State, item: Item): (next: State) {
    match item
    case Noise(_) => s
    case Header(name, _, _) => State(if name in s.result then s.result else s.result[name := map[]], name)
    case Entry(key, value, _, _, _) =>
      if s.current == "" || s.current !in s.result then s
      else s.(result := s.result[s.current := s.result[s.current][key := value]])
  }

  function DoAll(items: seq<Item>): (next: State) {
    if items == [] then State(map[], "") else Do(DoAll(items[..|items| - 1]), items[|items| - 1])
  }

  lemma LineDoes(s: State, item: Item)
    requires WellFormed(item)
    ensures Line(s, Render(item)) == Do(s, item)
  {
    if item.Header? {
      HeaderDoes(s, item);
    } else if item.Entry? {
      EntryDoes(s, item);
    }
  }

  lemma HeaderDoes(s: State, item: Item)
    requires WellFormed(item) && item.Header?
    ensures Line(s, Render(item)) == Do(s, item)
  {
    hide TrimSpace, TrimBrackets, FirstBlank;
    TrimAround(item.lead, "[" + item.name + "]", item.trail);
    TrimName(item.name);
  }

  lemma EntryDoes(s: State, item: Item)
    requires WellFormed(item) && item.Entry?
    ensures Line(s, Render(item)) == Do(s, item)
  {
    hide TrimSpace, FirstBlank, TrimBrackets;
    var line := item.key + item.gap + item.value;
    TrimAround(item.lead, line, item.trail);
    SplitEntry(item.key, item.gap, item.value);
    assert line[0] == item.key[0] && line[|line| - 1] == item.value[|item.value| - 1];
  }

  lemma {:induction false} ParseDoes(items: seq<Item>)
    requires forall i :: 0 <= i < |items| ==> WellFormed(items[i])
    ensures Parse(Text(items)) == DoAll(items)
  {
    if items != [] {
      hide Line, Render, Do, WellFormed;
      var before, item := items[..|items| - 1], items[|items| - 1];
      ParseDoes(before);
      assert Text(items)[..|items| - 1] == Text(before);
      LineDoes(DoAll(before), item);
    }
  }

  lemma DoSnoc(items: seq<Item>, item: Item)
    ensures DoAll(items + [item]) == Do(DoAll(items), item)
  {
    assert (items + [item])[..|items|] == items;
  }

  // ----- Whole texts

  /** The sections are the headers, and each holds, for every key set anywhere under that header,
      the value set last. */
  ghost predicate Means(items: seq<Item>, result: Sections) {
    && (forall s :: s in result <==> NamesSection(items, s))
    && (forall s, k :: LastValue(items, s, k) == if s in result && k in result[s] then Some(result[s][k]) else None)
  }

  ghost predicate NamesSection(items: seq<Item>, s: string) {
    exists i :: 0 <= i < |items| && items[i].Header? && items[i].name == s
  }

  /** Repeated headers merge, and the last value of a key wins. */
  lemma ParseMeans(items: seq<Item>)
    requires forall i :: 0 <= i < |items| ==> WellFormed(items[i])
    ensures Means(items, Parse(Text(items)).result)
  {
    hide Parse, Text, Means;
    ParseDoes(items);
    AllMeans(items);
  }

  lemma {:induction false} AllMeans(items: seq<Item>)
    requires forall i :: 0 <= i < |items| ==> WellFormed(items[i])
    ensures Means(items, DoAll(items).result)
    ensures DoAll(items).current == LastHeader(items)
    ensures LastHeader(items) != "" ==> LastHeader(items) in DoAll(items).result
  {
    if items != [] {
      var before, item := items[..|items| - 1], items[|items| - 1];
      AllMeans(before);
      hide Means;
      DoMeans(before, item, DoAll(before));
      assert items == before + [item];
    }
  }

  lemma DoMeans(before: seq<Item>, item: Item, s: State)
    requires Means(before, s.result) && WellFormed(item) && s.current == LastHeader(before)
    requires s.current != "" ==> s.current in s.result
    ensures Means(before + [item], Do(s, item).result)
  {
    NamesSnoc(before, item);
    ValueSnoc(before, item);
    hide LastValue, NamesSection, LastHeader;
  }

  lemma ValueSnoc(items: seq<Item>, item: Item)
    ensures forall s, k ::
      LastValue(items + [item], s, k)
      == (if item.Entry? && item.key == k && s != "" && LastHeader(items) == s then Some(item.value)
          else LastValue(items, s, k))
  {
    assert (items + [item])[..|items|] == items;
  }

  lemma NamesSnoc(items: seq<Item>, item: Item)
    ensures forall s :: NamesSection(items + [item], s) <==> NamesSection(items, s) || (item.Header? && item.name == s)
  {
    forall s ensures NamesSection(items + [item], s) <==> NamesSection(items, s) || (item.Header? && item.name == s) {
      if i :| 0 <= i < |items| && items[i].Header? && items[i].name == s {
        assert (items + [item])[i] == items[i];
      }
      assert (items + [item])[|items|] == item;
    }
  }

  function Signal(items: seq<Item>): (r: seq<Item>) {
    if items == [] then []
    else
      var before, item := Signal(items[..|items| - 1]), items[|items| - 1];
      if item.Noise? then before else before + [item]
  }

  /** Blank lines and comments change nothing, wherever they are. */
  lemma {:induction false} NoiseIsIgnored(items: seq<Item>)
    ensures DoAll(items) == DoAll(Signal(items))
    ensures forall i :: 0 <= i < |Signal(items)| ==> Signal(items)[i] in items
  {
    if items != [] {
      NoiseIsIgnored(items[..|items| - 1]);
      DoSnoc(Signal(items[..|items| - 1]), items[|items| - 1]);
    }
  }

  // ----- The printer

  ghost predicate WellFormedSections(m: Sections) {
    forall s :: s in m ==> WellFormed(Header(s, "", "")) && WellFormedKeys(m[s])
  }

  ghost predicate WellFormedKeys(keys: map<string, string>) {
    forall k :: k in keys ==> WellFormed(Entry(k, keys[k], "", " ", ""))
  }

  ghost function PrintKeys(keys: map<string, string>): (r: seq<Item>) {
    if keys == map[] then []
    else var k :| k in keys; PrintKeys(keys - {k}) + [Entry(k, keys[k], "", " ", "")]
  }

  ghost function Print(m: Sections): (r: seq<Item>) {
    if m == map[] then []
    else var s :| s in m; Print(m - {s}) + [Header(s, "", "")] + PrintKeys(m[s])
  }

  lemma {:induction false} KeysDone(before: seq<Item>, s: string, keys: map<string, string>)
    requires var p := DoAll(before); s != "" && p.current == s && s in p.result && p.result[s] == map[]
    ensures var p := DoAll(before); DoAll(before + PrintKeys(keys)) == p.(result := p.result[s := keys])
  {
    if keys == map[] {
      assert before + [] == before;
    } else {
      hide DoAll;
      var k :| k in keys && PrintKeys(keys) == PrintKeys(keys - {k}) + [Entry(k, keys[k], "", " ", "")];
      hide PrintKeys;
      KeysDone(before, s, keys - {k});
      DoSnoc(before + PrintKeys(keys - {k}), Entry(k, keys[k], "", " ", ""));
      assert before + PrintKeys(keys) == before + PrintKeys(keys - {k}) + [Entry(k, keys[k], "", " ", "")];
      assert (keys - {k})[k := keys[k]] == keys;
    }
  }

  lemma {:induction false} PrintDone(m: Sections)
    requires WellFormedSections(m)
    ensures DoAll(Print(m)).result == m
  {
    if m != map[] {
      hide DoAll;
      var s :| s in m && Print(m) == Print(m - {s}) + [Header(s, "", "")] + PrintKeys(m[s]);
      hide Print, PrintKeys;
      PrintDone(m - {s});
      DoSnoc(Print(m - {s}), Header(s, "", ""));
      KeysDone(Print(m - {s}) + [Header(s, "", "")], s, m[s]);
      assert (m - {s})[s := map[]][s := m[s]] == m;
    }
  }

  /** A printed map comes back, whatever blank lines and comments are put between its lines. */
  lemma {:induction false} RoundTrip(m: Sections, items: seq<Item>)
    requires WellFormedSections(m) && Signal(items) == Print(m)
    requires forall i :: 0 <= i < |items| ==> WellFormed(items[i])
    ensures Parse(Text(items)).result == m
  {
    hide DoAll, Parse, Text;
    ParseDoes(items);
    NoiseIsIgnored(items);
    PrintDone(m);
  }
}
